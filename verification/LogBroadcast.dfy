/** What a hub broadcasts: the lines its producers handed over, each once, in the order in which they did. */
module LogBroadcast {
  import opened LogHub
  import opened LogDelivery

  // ---- by the events alone ----

  /** The text that was filled into a block last; before the first time it is what the block came with. */
  function Filled(start: State, es: seq<Event>, b: Block): Payload {
    if es == [] then Data(start, b)
    else
      var e := es[|es| - 1];
      if e.Fill? && e.b == b then e.payload else Filled(start, es[..|es| - 1], b)
  }

  /** The lines that were handed over to a hub, in order. */
  function HandedOver(start: State, es: seq<Event>, h: nat): seq<Payload> {
    if es == [] then []
    else
      var before, e := es[..|es| - 1], es[|es| - 1];
      HandedOver(start, before, h) + if e.Offer? && e.h == h then [Filled(start, before, e.b)] else []
  }

  // ---- the invariant ----

  /** The texts of blocks. */
  function Texts(s: State, q: seq<Block>): (texts: seq<Payload>)
    ensures |texts| == |q|
  {
    seq(|q|, k requires 0 <= k < |q| => Data(s, q[k]))
  }

  ghost predicate DataFilled(start: State, es: seq<Event>, s: State) {
    forall b :: Data(s, b) == Filled(start, es, b)
  }

  /** A hub has broadcast what it was handed, but for what waits in its pipe. */
  predicate PipeOk(start: State, es: seq<Event>, s: State, h: nat)
    requires h < |s.hubs|
  {
    s.hubs[h].log + Texts(s, s.hubs[h].central) == HandedOver(start, es, h)
  }

  ghost predicate Handing(start: State, es: seq<Event>, s: State) {
    DataFilled(start, es, s) && forall h: nat :: h < |s.hubs| ==> PipeOk(start, es, s, h)
  }

  // ---- one event ----

  lemma OneEventMore(es: seq<Event>, e: Event)
    ensures (es + [e])[..|es|] == es && (es + [e])[|es|] == e && |es + [e]| == |es| + 1
  {
  }

  lemma DataStep(start: State, es: seq<Event>, s: State, e: Event)
    requires DataFilled(start, es, s) && Enabled(s, e)
    ensures DataFilled(start, es + [e], Apply(s, e))
  {
    OneEventMore(es, e);
    forall b
      ensures Data(Apply(s, e), b) == Filled(start, es + [e], b)
    {
      if e.Fill? && e.b == b {
        FillWrites(s, e);
      } else {
        OnlyFillWrites(s, e, b);
      }
      hide Apply, Enabled, Data;
    }
  }

  lemma FillWrites(s: State, e: Event)
    requires Enabled(s, e) && e.Fill?
    ensures Data(Apply(s, e), e.b) == e.payload
  {
  }

  /** What waits in a pipe keeps its text. */
  lemma PipeStable(s: State, e: Event, h: nat)
    requires RefInv(s) && Enabled(s, e) && h < |s.hubs|
    ensures Texts(Apply(s, e), s.hubs[h].central) == Texts(s, s.hubs[h].central)
  {
    hide Apply, Enabled, Data, RefInv;
    var q := s.hubs[h].central;
    forall k | 0 <= k < |q|
      ensures Data(Apply(s, e), q[k]) == Data(s, q[k])
    {
      HeldInPipe(s, h, q[k]);
      DataIsStable(s, e, q[k]);
    }
  }

  lemma HeldInPipe(s: State, h: nat, b: Block)
    requires h < |s.hubs| && b in s.hubs[h].central
    ensures Held(s, b) > 0
  {
    SumPart(s.hubs, HubWaits, b, h);
    assert multiset(s.hubs[h].central)[b] > 0;
    hide Sum;
  }

  /** What an event does to a pipe. */
  lemma PipeAfter(s: State, e: Event, h: nat)
    requires Enabled(s, e) && h < |s.hubs|
    ensures |Apply(s, e).hubs| == |s.hubs|
    ensures var hub, hub' := s.hubs[h], Apply(s, e).hubs[h];
            && (e.Offer? && e.h == h ==> hub'.log == hub.log && hub'.central == hub.central + [e.b])
            && (e.Take? && e.h == h ==>
                  && hub.central != [] && hub'.central == hub.central[1..]
                  && hub'.log == hub.log + [Data(s, hub.central[0])])
            && (!((e.Offer? || e.Take?) && e.h == h) ==> hub'.log == hub.log && hub'.central == hub.central)
  {
    hide Connected, Count, Data;
    if Fans(e) && !e.Take? {
      hide Apply, Enabled;
      PipeInFan(s, e, h);
    } else if AsksHub(e) {
      hide Apply, Enabled;
      PipeAsked(s, e, h);
    }
  }

  lemma PipeInFan(s: State, e: Event, h: nat)
    requires Enabled(s, e) && h < |s.hubs| && Fans(e) && !e.Take?
    ensures |Apply(s, e).hubs| == |s.hubs|
    ensures Apply(s, e).hubs[h].log == s.hubs[h].log && Apply(s, e).hubs[h].central == s.hubs[h].central
  {
    hide Connected, Count, Data, Apply, Enabled;
    if e.SendOk? || e.SendFull? || e.SendClosed? {
      PipeInSend(s, e, h);
    } else {
      PipeInTurn(s, e, h);
    }
  }

  lemma PipeInSend(s: State, e: Event, h: nat)
    requires Enabled(s, e) && h < |s.hubs| && (e.SendOk? || e.SendFull? || e.SendClosed?)
    ensures |Apply(s, e).hubs| == |s.hubs|
    ensures Apply(s, e).hubs[h].log == s.hubs[h].log && Apply(s, e).hubs[h].central == s.hubs[h].central
  {
    hide Connected, Count, Data;
  }

  lemma PipeInTurn(s: State, e: Event, h: nat)
    requires Enabled(s, e) && h < |s.hubs| && (e.StartSend? || e.Undo? || e.Finish? || e.HubPut? || e.Stop?)
    ensures |Apply(s, e).hubs| == |s.hubs|
    ensures Apply(s, e).hubs[h].log == s.hubs[h].log && Apply(s, e).hubs[h].central == s.hubs[h].central
  {
    hide Connected, Count, Data;
  }

  lemma PipeAsked(s: State, e: Event, h: nat)
    requires Enabled(s, e) && h < |s.hubs| && AsksHub(e)
    ensures |Apply(s, e).hubs| == |s.hubs|
    ensures Apply(s, e).hubs[h].log == s.hubs[h].log && Apply(s, e).hubs[h].central == s.hubs[h].central
  {
    hide Connected, Count, Data, Apply, Enabled;
    if e.Join? || e.Leave? {
      PipeRequested(s, e, h);
    } else {
      PipeAnswered(s, e, h);
    }
  }

  lemma PipeRequested(s: State, e: Event, h: nat)
    requires Enabled(s, e) && h < |s.hubs| && (e.Join? || e.Leave?)
    ensures |Apply(s, e).hubs| == |s.hubs|
    ensures Apply(s, e).hubs[h].log == s.hubs[h].log && Apply(s, e).hubs[h].central == s.hubs[h].central
  {
    hide Connected, Count, Data;
  }

  lemma PipeAnswered(s: State, e: Event, h: nat)
    requires Enabled(s, e) && h < |s.hubs| && (e.Subscribe? || e.Unsubscribe?)
    ensures |Apply(s, e).hubs| == |s.hubs|
    ensures Apply(s, e).hubs[h].log == s.hubs[h].log && Apply(s, e).hubs[h].central == s.hubs[h].central
  {
    hide Connected, Count, Data;
  }

  lemma PipeStep(start: State, es: seq<Event>, s: State, e: Event, h: nat)
    requires RefInv(s) && DataFilled(start, es, s) && Enabled(s, e) && h < |s.hubs| && PipeOk(start, es, s, h)
    ensures h < |Apply(s, e).hubs| && PipeOk(start, es + [e], Apply(s, e), h)
  {
    OneEventMore(es, e);
    PipeAfter(s, e, h);
    PipeStable(s, e, h);
    var q, s' := s.hubs[h].central, Apply(s, e);
    if e.Offer? && e.h == h {
      NoFillHere(s, e);
      hide Apply, Enabled, Data, RefInv, Filled;
      assert Texts(s', q + [e.b]) == Texts(s', q) + [Data(s', e.b)];
      assert s.hubs[h].log + (Texts(s', q) + [Data(s', e.b)]) == s.hubs[h].log + Texts(s', q) + [Data(s', e.b)];
    } else {
      hide Apply, Enabled, Data, RefInv, Filled;
      assert HandedOver(start, es + [e], h) == HandedOver(start, es, h) + [];
      if e.Take? && e.h == h {
        assert Texts(s', q) == [Data(s', q[0])] + Texts(s', q[1..]);
        assert Texts(s', q)[0] == Texts(s, q)[0];
        var log, rest := s.hubs[h].log, Texts(s', q[1..]);
        assert log + ([Data(s, q[0])] + rest) == log + [Data(s, q[0])] + rest;
      }
    }
  }

  lemma NoFillHere(s: State, e: Event)
    requires Enabled(s, e) && e.Offer?
    ensures Data(Apply(s, e), e.b) == Data(s, e.b)
  {
    OnlyFillWrites(s, e, e.b);
  }

  // ---- all runs ----

  lemma {:induction false} HandingHolds(start: State, before: seq<Event>, s: State, es: seq<Event>, s': State)
    requires RefInv(s) && Handing(start, before, s) && Run(s, es, s')
    ensures Handing(start, before + es, s')
    decreases |es|
  {
    hide RefInv, Apply, Enabled, PipeOk, DataFilled;
    if es == [] {
      assert before + es == before;
    } else {
      var e, s1 := es[0], Apply(s, es[0]);
      DataStep(start, before, s, e);
      RefStep(s, e);
      HubsStay(s, e);
      forall h: nat | h < |s1.hubs|
        ensures PipeOk(start, before + [e], s1, h)
      {
        PipeStep(start, before, s, e, h);
      }
      HandingHolds(start, before + [e], s1, es[1..], s');
      assert before + [e] + es[1..] == before + es;
    }
  }

  lemma HubsStay(s: State, e: Event)
    requires Enabled(s, e)
    ensures |Apply(s, e).hubs| == |s.hubs|
  {
    hide Connected, Count, Data;
  }

  /** Every hub broadcasts the lines it was handed, each once and in order; the rest waits in its pipe. */
  lemma LinesInOrder(s: State, es: seq<Event>, s': State, h: nat)
    requires Initial(s) && Run(s, es, s') && h < |s'.hubs|
    ensures s'.hubs[h].log + Texts(s', s'.hubs[h].central) == HandedOver(s, es, h)
  {
    RefInitial(s);
    assert Handing(s, [], s);
    hide Initial, Run, RefInv, Handing;
    HandingHolds(s, [], s, es, s');
    assert [] + es == es;
    HandingGives(s, es, s', h);
  }

  lemma HandingGives(start: State, es: seq<Event>, s: State, h: nat)
    requires Handing(start, es, s) && h < |s.hubs|
    ensures s.hubs[h].log + Texts(s, s.hubs[h].central) == HandedOver(start, es, h)
  {
    assert PipeOk(start, es, s, h);
  }

  // ---- a full pipe ----

  /** How many lines were handed over to a hub and not yet broadcast. */
  function InPipe(es: seq<Event>, h: nat): int {
    if es == [] then 0
    else
      var e := es[|es| - 1];
      InPipe(es[..|es| - 1], h) + if e.Offer? && e.h == h then 1 else if e.Take? && e.h == h then -1 else 0
  }

  /** Lines are refused only by a pipe that holds 1024 of them, which is as many as it can hold. */
  predicate OnlyFullRefuses(es: seq<Event>) {
    forall k :: 0 <= k < |es| ==>
      && (es[k].Refuse? ==> InPipe(es[..k], es[k].h) == 1024)
      && (es[k].Offer? ==> InPipe(es[..k], es[k].h) < 1024)
  }

  predicate PipesCounted(es: seq<Event>, s: State) {
    forall h: nat :: h < |s.hubs| ==> |s.hubs[h].central| == InPipe(es, h)
  }

  lemma CountedStep(es: seq<Event>, s: State, e: Event)
    requires PipesCounted(es, s) && Enabled(s, e)
    ensures PipesCounted(es + [e], Apply(s, e))
    ensures e.Refuse? ==> InPipe(es, e.h) == 1024
    ensures e.Offer? ==> InPipe(es, e.h) < 1024
  {
    OneEventMore(es, e);
    PipeGuards(s, e);
    HubsStay(s, e);
    hide Apply, Enabled;
    forall h: nat | h < |s.hubs|
      ensures |Apply(s, e).hubs[h].central| == InPipe(es + [e], h)
    {
      PipeAfter(s, e, h);
    }
  }

  lemma PipeGuards(s: State, e: Event)
    requires Enabled(s, e)
    ensures e.Refuse? ==> e.h < |s.hubs| && |s.hubs[e.h].central| == 1024
    ensures e.Offer? ==> e.h < |s.hubs| && |s.hubs[e.h].central| < 1024
  {
  }

  lemma RefusesMore(es: seq<Event>, e: Event)
    requires OnlyFullRefuses(es)
    requires (e.Refuse? ==> InPipe(es, e.h) == 1024) && (e.Offer? ==> InPipe(es, e.h) < 1024)
    ensures OnlyFullRefuses(es + [e])
  {
    OneEventMore(es, e);
    hide InPipe;
    forall k | 0 <= k < |es + [e]|
      ensures (es + [e])[k].Refuse? ==> InPipe((es + [e])[..k], (es + [e])[k].h) == 1024
      ensures (es + [e])[k].Offer? ==> InPipe((es + [e])[..k], (es + [e])[k].h) < 1024
    {
      if k < |es| {
        assert (es + [e])[..k] == es[..k];
      }
    }
  }

  lemma {:induction false} RefusesHold(before: seq<Event>, s: State, es: seq<Event>, s': State)
    requires PipesCounted(before, s) && OnlyFullRefuses(before) && Run(s, es, s')
    ensures OnlyFullRefuses(before + es)
    decreases |es|
  {
    hide Apply, Enabled, PipesCounted, OnlyFullRefuses;
    if es == [] {
      assert before + es == before;
    } else {
      CountedStep(before, s, es[0]);
      RefusesMore(before, es[0]);
      RefusesHold(before + [es[0]], Apply(s, es[0]), es[1..], s');
      assert before + [es[0]] + es[1..] == before + es;
    }
  }

  lemma NothingInPipes(s: State)
    requires Initial(s)
    ensures PipesCounted([], s) && OnlyFullRefuses([])
  {
  }

  /** In every run a line is lost on the way to its hub only at a full pipe. */
  lemma RefusedOnlyWhenFull(s: State, es: seq<Event>, s': State)
    requires Initial(s) && Run(s, es, s')
    ensures OnlyFullRefuses(es)
  {
    hide Initial, Run, PipesCounted, OnlyFullRefuses;
    NothingInPipes(s);
    RefusesHold([], s, es, s');
    assert [] + es == es;
  }

  // ---- the producers' gate ----

  /** The hubs that handlers connected to, in the order in which they did. */
  function ConnectedTo(es: seq<Event>): seq<nat> {
    if es == [] then []
    else ConnectedTo(es[..|es| - 1]) + if es[|es| - 1].Connect? then [es[|es| - 1].h] else []
  }

  /** Some handler connected to this hub and has not started to leave. */
  predicate SomebodyListens(es: seq<Event>, h: nat) {
    exists c: nat :: c < |ConnectedTo(es)| && ConnectedTo(es)[c] == h && Leave(c) !in es
  }

  predicate GatePassed(es: seq<Event>) {
    forall k :: 0 <= k < |es| && es[k].Get? ==> SomebodyListens(es[..k], es[k].h)
  }

  ghost predicate ClientsOk(es: seq<Event>, s: State) {
    && |s.clients| == |ConnectedTo(es)|
    && (forall e :: e in es && e.Leave? ==> e.c < |s.clients|)
    && forall c: nat :: c < |s.clients| ==> ClientListed(es, s, c)
  }

  predicate ClientListed(es: seq<Event>, s: State, c: nat)
    requires c < |s.clients| == |ConnectedTo(es)|
  {
    && s.clients[c].hub == ConnectedTo(es)[c]
    && (s.clients[c].stage.Joining? || s.clients[c].stage.Serving? ==> Leave(c) !in es)
  }

  lemma ClientsStep(es: seq<Event>, s: State, e: Event)
    requires ClientsOk(es, s) && Enabled(s, e)
    ensures ClientsOk(es + [e], Apply(s, e))
  {
    OneEventMore(es, e);
    var s' := Apply(s, e);
    hide ConnectedTo, Data, Count, Connected;
    ConnectedMore(es, e);
    StagesAfter(s, e);
    hide Apply, Enabled;
    forall c: nat | c < |s'.clients|
      ensures ClientListed(es + [e], s', c)
    {
      if c < |s.clients| {
        assert ClientListed(es, s, c);
      }
    }
  }

  lemma ConnectedMore(es: seq<Event>, e: Event)
    ensures ConnectedTo(es + [e]) == ConnectedTo(es) + if e.Connect? then [e.h] else []
  {
    OneEventMore(es, e);
  }

  /** What the next step leaves of a handler: its hub, and the stage before it leaves. */
  predicate StageKept(client: Client, client': Client, left: bool) {
    && client'.hub == client.hub
    && (client'.stage.Joining? || client'.stage.Serving? ==> (client.stage.Joining? || client.stage.Serving?) && !left)
  }

  /** A handler stays with its hub, starts to leave only once, and is new only when it connects. */
  lemma StagesAfter(s: State, e: Event)
    requires Enabled(s, e)
    ensures |Apply(s, e).clients| == |s.clients| + if e.Connect? then 1 else 0
    ensures e.Connect? ==> Apply(s, e).clients[|s.clients|].hub == e.h
    ensures e.Leave? ==> e.c < |s.clients|
    ensures forall c: nat :: c < |s.clients| ==> StageKept(s.clients[c], Apply(s, e).clients[c], e == Leave(c))
  {
    hide Connected, Data, Count, Apply, Enabled, StageKept;
    if e.Connect? {
      ConnectStages(s, e);
    } else if e.Join? || e.Leave? || e.Finished? {
      HandlerStages(s, e);
    } else if e.Receive? || e.Write? || e.Release? || e.ClientPut? {
      HandStages(s, e);
    } else if e.SendOk? || e.SendFull? || e.Subscribe? || e.Unsubscribe? {
      HubStages(s, e);
    } else {
      HubRecord(s, e);
      SameStages(s);
    }
  }

  lemma SameStages(s: State)
    ensures forall c: nat :: c < |s.clients| ==> StageKept(s.clients[c], s.clients[c], false)
  {
  }

  lemma ConnectStages(s: State, e: Event)
    requires Enabled(s, e) && e.Connect?
    ensures |Apply(s, e).clients| == |s.clients| + 1 && Apply(s, e).clients[|s.clients|].hub == e.h
    ensures forall c: nat :: c < |s.clients| ==> StageKept(s.clients[c], Apply(s, e).clients[c], false)
  {
    hide Connected, Data, Count;
  }

  lemma HandlerStages(s: State, e: Event)
    requires Enabled(s, e) && (e.Join? || e.Leave? || e.Finished?)
    ensures |Apply(s, e).clients| == |s.clients| && e.c < |s.clients|
    ensures forall c: nat :: c < |s.clients| ==> StageKept(s.clients[c], Apply(s, e).clients[c], e == Leave(c))
  {
    hide Connected, Data, Count;
  }

  lemma HandStages(s: State, e: Event)
    requires Enabled(s, e) && (e.Receive? || e.Write? || e.Release? || e.ClientPut?)
    ensures |Apply(s, e).clients| == |s.clients|
    ensures forall c: nat :: c < |s.clients| ==> StageKept(s.clients[c], Apply(s, e).clients[c], false)
  {
    hide Connected, Data, Count;
  }

  lemma HubStages(s: State, e: Event)
    requires Enabled(s, e) && (e.SendOk? || e.SendFull? || e.Subscribe? || e.Unsubscribe?)
    ensures |Apply(s, e).clients| == |s.clients|
    ensures forall c: nat :: c < |s.clients| ==> StageKept(s.clients[c], Apply(s, e).clients[c], false)
  {
    hide Connected, Data, Count;
  }

  lemma {:induction false} GateHolds(before: seq<Event>, s: State, es: seq<Event>, s': State)
    requires ClientsOk(before, s) && GatePassed(before) && Run(s, es, s')
    ensures GatePassed(before + es)
    decreases |es|
  {
    hide Apply, Enabled, ClientsOk, GatePassed;
    if es == [] {
      assert before + es == before;
    } else {
      var e := es[0];
      ClientsStep(before, s, e);
      GateStep(before, s, e);
      GateHolds(before + [e], Apply(s, e), es[1..], s');
      assert before + [e] + es[1..] == before + es;
    }
  }

  lemma GateStep(es: seq<Event>, s: State, e: Event)
    requires ClientsOk(es, s) && GatePassed(es) && Enabled(s, e)
    ensures GatePassed(es + [e])
  {
    OneEventMore(es, e);
    if e.Get? {
      GateOpen(es, s, e);
    }
    hide Enabled, SomebodyListens, ClientsOk;
    forall k | 0 <= k < |es + [e]| && (es + [e])[k].Get?
      ensures SomebodyListens((es + [e])[..k], (es + [e])[k].h)
    {
      if k < |es| {
        assert (es + [e])[..k] == es[..k];
      }
    }
  }

  lemma GateOpen(es: seq<Event>, s: State, e: Event)
    requires ClientsOk(es, s) && Enabled(s, e) && e.Get?
    ensures SomebodyListens(es, e.h)
  {
    var c: nat :| c < |s.clients| && s.clients[c].hub == e.h
                  && (s.clients[c].stage.Joining? || s.clients[c].stage.Serving?);
    assert ClientListed(es, s, c);
  }

  lemma NobodyYet(s: State)
    requires Initial(s)
    ensures ClientsOk([], s) && GatePassed([])
  {
  }

  /** In every run a producer takes a block only while somebody who connected to its hub has not started to leave. */
  lemma NoLineForNobody(s: State, es: seq<Event>, s': State)
    requires Initial(s) && Run(s, es, s')
    ensures GatePassed(es)
  {
    hide Initial, Run, ClientsOk, GatePassed;
    NobodyYet(s);
    GateHolds([], s, es, s');
    assert [] + es == es;
  }

  // ---- nobody is stuck ----

  lemma HubTurns(s: State, h: nat)
    requires h < |s.hubs|
    ensures s.hubs[h].pc.Idle? && s.hubs[h].central != [] ==> Enabled(s, Take(h))
    ensures s.hubs[h].pc.Fanning? && s.hubs[h].pc.todo == {} ==> Enabled(s, Finish(h))
    ensures s.hubs[h].pc.Fanning? ==> forall c :: c in s.hubs[h].pc.todo ==> Enabled(s, StartSend(h, c))
    ensures s.hubs[h].pc.Undoing? ==> Enabled(s, Undo(h))
    ensures s.hubs[h].pc.HubReturning? ==> Enabled(s, HubPut(h))
  {
    hide Connected;
  }

  lemma SendGoesOn(s: State, h: nat)
    requires DeliveryInv(s) && h < |s.hubs| && s.hubs[h].pc.Sending?
    ensures Enabled(s, SendOk(h)) || Enabled(s, SendFull(h)) || Enabled(s, SendClosed(h))
  {
    hide RefInv, Data, Connected, WindowOk, Enabled;
    var c := s.hubs[h].pc.client;
    assert HubOk(s, h) && Pending(s.hubs[h], c);
    assert ClientOk(s, c);
    hide DeliveryInv, HubOk, Pending;
    SendReady(s, h, c);
  }

  lemma SendReady(s: State, h: nat, c: nat)
    requires h < |s.hubs| && s.hubs[h].pc.Sending? && c == s.hubs[h].pc.client && c < |s.clients|
    requires |s.clients[c].queue| <= 256
    ensures Enabled(s, SendOk(h)) || Enabled(s, SendFull(h)) || Enabled(s, SendClosed(h))
  {
    hide Connected;
  }

  /** A hub that is at work on a block can go on, and an idle one can take the next line. */
  lemma HubGoesOn(s: State, es: seq<Event>, s': State, h: nat)
    requires Initial(s) && Run(s, es, s') && h < |s'.hubs|
    ensures s'.hubs[h].pc.Idle? && s'.hubs[h].central != [] ==> Enabled(s', Take(h))
    ensures s'.hubs[h].pc.Fanning? && s'.hubs[h].pc.todo == {} ==> Enabled(s', Finish(h))
    ensures s'.hubs[h].pc.Fanning? ==> forall c :: c in s'.hubs[h].pc.todo ==> Enabled(s', StartSend(h, c))
    ensures s'.hubs[h].pc.Sending? ==>
              Enabled(s', SendOk(h)) || Enabled(s', SendFull(h)) || Enabled(s', SendClosed(h))
    ensures s'.hubs[h].pc.Undoing? ==> Enabled(s', Undo(h))
    ensures s'.hubs[h].pc.HubReturning? ==> Enabled(s', HubPut(h))
  {
    hide Run, DeliveryInv, Enabled;
    DeliveryInitial(s);
    DeliveryRun(s, es, s');
    HubTurns(s', h);
    if s'.hubs[h].pc.Sending? {
      SendGoesOn(s', h);
    }
  }

  /** A producer that filled a block can hand it over or return it, and a handler that holds a block, or has to
      drain one, can go on. */
  lemma OthersGoOn(s: State)
    ensures forall h: nat, b :: h < |s.hubs| && s.hubs[h].loaded[b] > 0 && |s.hubs[h].central| <= 1024 ==>
              Enabled(s, Offer(h, b)) || Enabled(s, Refuse(h, b))
    ensures forall c: nat :: c < |s.clients| ==>
              var client := s.clients[c];
              && (client.stage.Serving? && client.hand.Reading? ==> Enabled(s, Write(c)))
              && (client.stage.Serving? && client.hand.Wrote? ==> Enabled(s, Release(c)))
              && (client.stage.Draining? && client.hand.Reading? ==> Enabled(s, Release(c)))
              && (client.hand.Returning? ==> Enabled(s, ClientPut(c)))
              && ((client.stage.Serving? || client.stage.Draining?) && client.hand.Empty? && client.queue != [] ==>
                    Enabled(s, Receive(c)))
              && (client.stage.Draining? && client.hand.Empty? && client.queue == [] && client.closed ==>
                    Enabled(s, Finished(c)))
  {
    hide Connected;
  }
}
