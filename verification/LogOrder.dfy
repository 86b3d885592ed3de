/** When a hub sends on a closed channel: never while subscriptions are dequeued before their
    unsubscriptions, and always possibly once one is not. */
module LogOrder {
  import opened LogHub
  import opened LogDelivery

  /** The hub takes a channel's subscription from its request queue before its unsubscription. */
  predicate InOrder(s: State, e: Event)
    requires Enabled(s, e)
  {
    e.Unsubscribe? ==> s.hubs[e.h].unsubReq[0] in s.hubs[e.h].subs
  }

  predicate OrderedRun(s: State, es: seq<Event>, s': State)
    decreases |es|
  {
    if es == [] then s' == s
    else Enabled(s, es[0]) && InOrder(s, es[0]) && OrderedRun(Apply(s, es[0]), es[1..], s')
  }

  /** No closed channel is subscribed or about to be, and no hub has panicked. */
  ghost predicate Safe(s: State) {
    && (forall c :: 0 <= c < |s.clients| && s.clients[c].closed ==>
          && !s.clients[c].window.Open?
          && forall h :: 0 <= h < |s.hubs| ==> c !in s.hubs[h].subReq)
    && (forall h :: 0 <= h < |s.hubs| ==> !s.hubs[h].pc.Panicked?)
  }

  lemma SafeRequests(s: State, e: Event)
    requires DeliveryInv(s) && Safe(s) && Enabled(s, e) && InOrder(s, e) && AsksHub(e)
    ensures Safe(Apply(s, e))
  {
    hide RefInv, Data, QueueOk, WindowOk;
    if e.Subscribe? || e.Unsubscribe? {
      assert HubOk(s, e.h);
      TailDistinct(if e.Subscribe? then s.hubs[e.h].subReq else s.hubs[e.h].unsubReq);
    } else {
      assert ClientOk(s, e.c);
    }
    forall h, c | 0 <= h < |s.hubs| && c in s.hubs[h].subReq
      ensures c < |s.clients| && s.clients[c].window.Never?
    {
      assert HubOk(s, h);
    }
  }

  lemma SafeElse(s: State, e: Event)
    requires DeliveryInv(s) && Safe(s) && Enabled(s, e) && !AsksHub(e)
    ensures Safe(Apply(s, e))
  {
    hide RefInv, Data, ClientOk, Apply;
    if e.SendClosed? {
      assert HubOk(s, e.h) && Pending(s.hubs[e.h], s.hubs[e.h].pc.client);
    }
    forall c: nat | c < |Apply(s, e).clients| && Apply(s, e).clients[c].closed
      ensures !Apply(s, e).clients[c].window.Open?
    {
      RecordKept(s, e, c);
    }
    forall h: nat | h < |s.hubs|
      ensures h < |Apply(s, e).hubs| && Apply(s, e).hubs[h].subReq == s.hubs[h].subReq
      ensures Apply(s, e).hubs[h].pc.Panicked? ==> s.hubs[h].pc.Panicked?
    {
      if Fans(e) && e.h == h {
        FanKeeps(s, e);
      } else {
        BooksKept(s, e, h);
      }
    }
    HubCount(s, e);
    hide Apply, Enabled;
    forall c: nat | c < |Apply(s, e).clients| && Apply(s, e).clients[c].closed
      ensures c < |s.clients| && s.clients[c].closed
    {
      RecordKept(s, e, c);
    }
  }

  lemma SendKeeps(s: State, e: Event)
    requires Enabled(s, e) && (e.SendOk? || e.SendFull? || e.SendClosed?)
    ensures |Apply(s, e).hubs| == |s.hubs| && Apply(s, e).hubs[e.h].subReq == s.hubs[e.h].subReq
    ensures Apply(s, e).hubs[e.h].pc.Panicked? ==> s.hubs[e.h].pc.Panicked? || e.SendClosed?
  {
    hide Connected, Count, Data;
  }

  lemma FanKeeps(s: State, e: Event)
    requires Enabled(s, e) && Fans(e)
    ensures |Apply(s, e).hubs| == |s.hubs| && Apply(s, e).hubs[e.h].subReq == s.hubs[e.h].subReq
    ensures Apply(s, e).hubs[e.h].pc.Panicked? ==> s.hubs[e.h].pc.Panicked? || e.SendClosed?
  {
    hide Connected, Count, Data;
    if e.SendOk? || e.SendFull? || e.SendClosed? {
      hide Apply, Enabled;
      SendKeeps(s, e);
    }
  }

  /** If every subscription is dequeued before its unsubscription, no hub ever sends on a closed channel. */
  lemma {:induction false} NeverPanics(s: State, es: seq<Event>, s': State)
    requires DeliveryInv(s) && Safe(s) && OrderedRun(s, es, s')
    ensures Safe(s')
    decreases |es|
  {
    hide DeliveryInv, Safe, Apply, Enabled, InOrder;
    if es != [] {
      DeliveryStep(s, es[0]);
      if AsksHub(es[0]) {
        SafeRequests(s, es[0]);
      } else {
        SafeElse(s, es[0]);
      }
      NeverPanics(Apply(s, es[0]), es[1..], s');
    }
  }

  /** From the start of the program. */
  lemma NoHubPanics(s: State, es: seq<Event>, s': State)
    requires Initial(s) && OrderedRun(s, es, s')
    ensures forall h :: 0 <= h < |s'.hubs| ==> !s'.hubs[h].pc.Panicked?
  {
    DeliveryInitial(s);
    assert Safe(s);
    hide DeliveryInv, OrderedRun;
    NeverPanics(s, es, s');
  }

  // ---- a handler that asked is waiting to be subscribed ----

  /** A client that has asked to be subscribed and is not yet has its request in its hub's queue. */
  ghost predicate Waits(s: State) {
    forall c: nat :: c < |s.clients| && s.clients[c].window.Never? && !s.clients[c].stage.Joining? ==>
      s.clients[c].hub < |s.hubs| && c in s.hubs[s.clients[c].hub].subReq
  }

  lemma WaitsAsked(s: State, e: Event)
    requires DeliveryInv(s) && Waits(s) && Enabled(s, e) && AsksHub(e)
    ensures Waits(Apply(s, e))
  {
    hide RefInv, Data, QueueOk, WindowOk, DeliveryInv, HubOk, ClientOk;
  }

  lemma NewcomerJoins(s: State, e: Event)
    requires Enabled(s, e) && e.Connect?
    ensures |Apply(s, e).clients| == |s.clients| + 1 && Apply(s, e).clients[|s.clients|].stage.Joining?
  {
  }

  lemma NoNewcomer(s: State, e: Event)
    requires Enabled(s, e) && !e.Connect?
    ensures |Apply(s, e).clients| == |s.clients|
  {
  }

  lemma WaitsElse(s: State, e: Event)
    requires DeliveryInv(s) && Waits(s) && Enabled(s, e) && !AsksHub(e)
    ensures Waits(Apply(s, e))
  {
    hide RefInv, HubOk, QueueOk, WindowOk, Apply, Enabled;
    var s' := Apply(s, e);
    HubCount(s, e);
    if e.Connect? {
      NewcomerJoins(s, e);
    } else {
      NoNewcomer(s, e);
    }
    forall c: nat | c < |s'.clients| && s'.clients[c].window.Never? && !s'.clients[c].stage.Joining?
      ensures s'.clients[c].hub < |s'.hubs| && c in s'.hubs[s'.clients[c].hub].subReq
    {
      RecordKept(s, e, c);
      assert c < |s.clients| && ClientOk(s, c);
      var h := s.clients[c].hub;
      if Fans(e) && e.h == h {
        FanKeeps(s, e);
      } else {
        BooksKept(s, e, h);
      }
    }
  }

  lemma {:induction false} WaitsHolds(s: State, es: seq<Event>, s': State)
    requires DeliveryInv(s) && Waits(s) && Run(s, es, s')
    ensures DeliveryInv(s') && Waits(s')
    decreases |es|
  {
    hide DeliveryInv, Waits, Apply, Enabled;
    if es != [] {
      DeliveryStep(s, es[0]);
      if AsksHub(es[0]) {
        WaitsAsked(s, es[0]);
      } else {
        WaitsElse(s, es[0]);
      }
      WaitsHolds(Apply(s, es[0]), es[1..], s');
    }
  }

  // ---- from an early unsubscription to a panic ----

  predicate Lost(s: State, h: nat) {
    h < |s.hubs| && s.hubs[h].pc.Panicked?
  }

  lemma OrderedCons(s: State, e: Event, es: seq<Event>, s': State)
    requires Enabled(s, e) && InOrder(s, e) && OrderedRun(Apply(s, e), es, s')
    ensures OrderedRun(s, [e] + es, s')
  {
    hide Apply, Enabled, InOrder;
    assert ([e] + es)[1..] == es;
  }

  /** A closed channel is subscribed to hub h, which is ready for its next step. */
  predicate Doomed(s: State, h: nat, c: nat) {
    h < |s.hubs| && s.hubs[h].pc.Idle? && c < |s.clients| && s.clients[c].closed && c in s.hubs[h].subs
  }

  lemma TakenLine(s: State, h: nat, c: nat) returns (s1: State, s2: State, s3: State)
    requires Doomed(s, h, c) && s.hubs[h].central != []
    ensures Enabled(s, Take(h)) && s1 == Apply(s, Take(h))
    ensures Enabled(s1, StartSend(h, c)) && s2 == Apply(s1, StartSend(h, c))
    ensures Enabled(s2, SendClosed(h)) && s3 == Apply(s2, SendClosed(h)) && Lost(s3, h)
  {
    s1 := Apply(s, Take(h));
    s2 := Apply(s1, StartSend(h, c));
    s3 := Apply(s2, SendClosed(h));
  }

  /** The next line in the central pipe makes a doomed hub panic. */
  lemma LinePanics(s: State, h: nat, c: nat) returns (es: seq<Event>, s': State)
    requires Doomed(s, h, c) && s.hubs[h].central != []
    ensures es == [Take(h)] + ([StartSend(h, c)] + ([SendClosed(h)] + []))
    ensures OrderedRun(s, es, s') && Lost(s', h)
  {
    hide Apply, Enabled;
    var s1, s2;
    s1, s2, s' := TakenLine(s, h, c);
    es := [];
    OrderedCons(s2, SendClosed(h), es, s');
    es := [SendClosed(h)] + es;
    OrderedCons(s1, StartSend(h, c), es, s');
    es := [StartSend(h, c)] + es;
    OrderedCons(s, Take(h), es, s');
    es := [Take(h)] + es;
  }

  /** The pool has never given out every block. */
  lemma {:induction false} FreshBlock(m: multiset<Block>) returns (n: Block)
    ensures forall b: Block :: b in m ==> b < n
    decreases |m|
  {
    if m == multiset{} {
      n := 0;
    } else {
      var x :| x in m;
      n := FreshBlock(m - multiset{x});
      n := if n <= x then x + 1 else n;
      forall b: Block | b in m
        ensures b < n
      {
        assert b == x || b in m - multiset{x};
      }
    }
  }

  lemma FilledLine(s: State, h: nat, b: Block, line: Payload) returns (s1: State, s2: State)
    requires h < |s.hubs| && Connected(s, h) && s.gets[b] == 0
    ensures Enabled(s, Get(h, b)) && s1 == Apply(s, Get(h, b))
    ensures Enabled(s1, Fill(h, b, line)) && s2 == Apply(s1, Fill(h, b, line))
    ensures s2.clients == s.clients && |s2.hubs| == |s.hubs|
    ensures var hub := s.hubs[h]; s2.hubs[h] == hub.(loaded := hub.loaded + multiset{b})
  {
    s1 := Apply(s, Get(h, b));
    s2 := Apply(s1, Fill(h, b, line));
  }

  lemma OfferedLine(s: State, h: nat, b: Block) returns (s': State)
    requires h < |s.hubs| && s.hubs[h].loaded[b] > 0 && s.hubs[h].central == []
    ensures Enabled(s, Offer(h, b)) && s' == Apply(s, Offer(h, b))
    ensures s'.clients == s.clients && |s'.hubs| == |s.hubs| && s'.hubs[h].central == [b]
    ensures s'.hubs[h].pc == s.hubs[h].pc && s'.hubs[h].subs == s.hubs[h].subs
  {
    s' := Apply(s, Offer(h, b));
  }

  /** Another subscriber connects, which opens the producers' gate. */
  lemma GateOpened(s: State, h: nat) returns (s': State)
    requires h < |s.hubs|
    ensures Enabled(s, Connect(h)) && s' == Apply(s, Connect(h))
    ensures Connected(s', h) && s'.hubs == s.hubs && s'.gets == s.gets && s.clients <= s'.clients
  {
    s' := Apply(s, Connect(h));
    assert s'.clients[|s.clients|].hub == h;
  }

  /** A doomed hub has an ordered continuation that panics: one more line, unless one is waiting already. */
  lemma DoomedPanics(s: State, h: nat, c: nat) returns (es: seq<Event>, s': State)
    requires Doomed(s, h, c)
    ensures OrderedRun(s, es, s') && Lost(s', h)
  {
    if s.hubs[h].central != [] {
      es, s' := LinePanics(s, h, c);
    } else {
      hide Apply, Enabled, OrderedRun;
      var b := FreshBlock(s.gets);
      assert s.gets[b] == 0;
      var s1 := GateOpened(s, h);
      hide Connected;
      var s2, s3 := FilledLine(s1, h, b, "");
      var s4 := OfferedLine(s3, h, b);
      es, s' := LinePanics(s4, h, c);
      OrderedCons(s3, Offer(h, b), es, s');
      es := [Offer(h, b)] + es;
      OrderedCons(s2, Fill(h, b, ""), es, s');
      es := [Fill(h, b, "")] + es;
      OrderedCons(s1, Get(h, b), es, s');
      es := [Get(h, b)] + es;
      OrderedCons(s, Connect(h), es, s');
      es := [Connect(h)] + es;
    }
  }

  lemma Subscribed(s: State, h: nat)
    requires DeliveryInv(s) && h < |s.hubs| && s.hubs[h].pc.Idle? && s.hubs[h].subReq != []
    ensures Enabled(s, Subscribe(h))
    ensures var s', c := Apply(s, Subscribe(h)), s.hubs[h].subReq[0];
            && |s'.hubs| == |s.hubs| && s'.hubs[h].pc.Idle? && s'.hubs[h].subReq == s.hubs[h].subReq[1..]
            && s'.hubs[h].subs == s.hubs[h].subs + {c} && |s'.clients| == |s.clients|
            && forall k: nat :: k < |s.clients| ==> s'.clients[k].closed == s.clients[k].closed
  {
    hide RefInv, ClientOk;
    assert HubOk(s, h) && s.hubs[h].subReq[0] in s.hubs[h].subReq;
    hide HubOk, DeliveryInv;
  }

  /** A closed channel whose subscription is still waiting gets subscribed, and then its hub panics. */
  lemma {:induction false} WaitingPanics(s: State, h: nat, c: nat) returns (es: seq<Event>, s': State)
    requires DeliveryInv(s) && h < |s.hubs| && s.hubs[h].pc.Idle?
    requires c < |s.clients| && s.clients[c].closed && c in s.hubs[h].subReq
    ensures OrderedRun(s, es, s') && Lost(s', h)
    decreases |s.hubs[h].subReq|
  {
    hide DeliveryInv, Apply, Enabled, OrderedRun;
    Subscribed(s, h);
    DeliveryStep(s, Subscribe(h));
    var s1 := Apply(s, Subscribe(h));
    if s.hubs[h].subReq[0] == c {
      es, s' := DoomedPanics(s1, h, c);
    } else {
      es, s' := WaitingPanics(s1, h, c);
    }
    OrderedCons(s, Subscribe(h), es, s');
    es := [Subscribe(h)] + es;
  }

  // ---- the order is exact ----

  lemma EarlyUnsubscribed(s: State, h: nat)
    requires DeliveryInv(s) && Waits(s) && Enabled(s, Unsubscribe(h)) && !InOrder(s, Unsubscribe(h))
    ensures var s', c := Apply(s, Unsubscribe(h)), s.hubs[h].unsubReq[0];
            && h < |s'.hubs| && s'.hubs[h].pc.Idle? && c < |s'.clients| && s'.clients[c].closed
            && c in s'.hubs[h].subReq
  {
    hide RefInv, QueueOk, Data;
    var c := s.hubs[h].unsubReq[0];
    assert HubOk(s, h) && c in s.hubs[h].unsubReq;
    assert ClientOk(s, c) && s.clients[c].window.Never?;
    hide HubOk, ClientOk, DeliveryInv;
  }

  /** No ordered continuation makes hub h panic. */
  ghost predicate StaysUp(s: State, h: nat) {
    forall es, s' :: OrderedRun(s, es, s') ==> !Lost(s', h)
  }

  lemma EarlyUnsubscriptionLosesHub(s: State, h: nat)
    requires DeliveryInv(s) && Waits(s) && Enabled(s, Unsubscribe(h)) && !InOrder(s, Unsubscribe(h))
    ensures !StaysUp(Apply(s, Unsubscribe(h)), h)
  {
    EarlyUnsubscribed(s, h);
    DeliveryStep(s, Unsubscribe(h));
    hide DeliveryInv, Waits, Apply, Enabled, OrderedRun;
    var es, s' := WaitingPanics(Apply(s, Unsubscribe(h)), h, s.hubs[h].unsubReq[0]);
  }

  lemma LateUnsubscriptionKeepsHub(s: State, h: nat)
    requires DeliveryInv(s) && Safe(s) && Enabled(s, Unsubscribe(h)) && InOrder(s, Unsubscribe(h))
    ensures StaysUp(Apply(s, Unsubscribe(h)), h)
  {
    SafeRequests(s, Unsubscribe(h));
    DeliveryStep(s, Unsubscribe(h));
    var s1 := Apply(s, Unsubscribe(h));
    hide DeliveryInv, Apply, Enabled, OrderedRun;
    forall es, s' | OrderedRun(s1, es, s')
      ensures !Lost(s', h)
    {
      NeverPanics(s1, es, s');
    }
  }

  /** The order is exactly what keeps a hub up. In every reachable state in which no closed channel is
      subscribed or about to be: taking an unsubscription keeps the hub from ever panicking, whatever follows in
      order, if and only if its channel is subscribed by then. */
  lemma OrderIsExact(start: State, before: seq<Event>, s: State, h: nat)
    requires Initial(start) && Run(start, before, s) && Safe(s) && Enabled(s, Unsubscribe(h))
    ensures InOrder(s, Unsubscribe(h)) <==> StaysUp(Apply(s, Unsubscribe(h)), h)
  {
    DeliveryInitial(start);
    assert Waits(start);
    WaitsHolds(start, before, s);
    hide Run, Safe, DeliveryInv, Waits, StaysUp;
    if InOrder(s, Unsubscribe(h)) {
      LateUnsubscriptionKeepsHub(s, h);
    } else {
      EarlyUnsubscriptionLosesHub(s, h);
    }
  }

  // ---- one run from the start to a panic ----

  lemma RunCons(s: State, e: Event, es: seq<Event>, s': State)
    requires Enabled(s, e) && Run(Apply(s, e), es, s')
    ensures Run(s, [e] + es, s')
  {
    hide Apply, Enabled;
    assert ([e] + es)[1..] == es;
  }

  lemma {:induction false} OrderedIsRun(s: State, es: seq<Event>, s': State)
    requires OrderedRun(s, es, s')
    ensures Run(s, es, s')
    decreases |es|
  {
    hide Apply, Enabled;
    if es != [] {
      OrderedIsRun(Apply(s, es[0]), es[1..], s');
    }
  }

  lemma Joined(s: State, h: nat) returns (s1: State, s2: State)
    requires Initial(s) && h < |s.hubs|
    ensures Enabled(s, Connect(h)) && s1 == Apply(s, Connect(h))
    ensures Enabled(s1, Join(0)) && s2 == Apply(s1, Join(0))
    ensures s2.clients == [Client(h, Serving, [], false, Empty, [], Never, [], [])] && h < |s2.hubs|
    ensures var hub := s2.hubs[h]; hub.pc.Idle? && hub.subReq == [0] && hub.unsubReq == [] && hub.central == []
    ensures s2.gets == multiset{} && Connected(s2, h)
  {
    s1 := Apply(s, Connect(h));
    s2 := Apply(s1, Join(0));
    assert s2.clients[0].stage.Serving?;
  }

  lemma Left(s: State, h: nat) returns (s': State)
    requires s.clients == [Client(h, Serving, [], false, Empty, [], Never, [], [])] && h < |s.hubs|
    requires s.hubs[h].unsubReq == []
    ensures Enabled(s, Leave(0)) && s' == Apply(s, Leave(0))
    ensures s'.clients == [Client(h, Draining, [], false, Empty, [], Never, [], [])] && |s'.hubs| == |s.hubs|
    ensures s'.hubs[h] == s.hubs[h].(unsubReq := [0])
  {
    s' := Apply(s, Leave(0));
  }

  lemma TakenOutOfOrder(s: State, h: nat) returns (s1: State, s2: State)
    requires s.clients == [Client(h, Draining, [], false, Empty, [], Never, [], [])] && h < |s.hubs|
    requires var hub := s.hubs[h]; hub.pc.Idle? && hub.subReq == [0] && hub.unsubReq == [0]
    ensures Enabled(s, Unsubscribe(h)) && s1 == Apply(s, Unsubscribe(h))
    ensures Enabled(s1, Subscribe(h)) && s2 == Apply(s1, Subscribe(h))
    ensures Doomed(s2, h, 0) && s2.hubs[h].central == s.hubs[h].central && s2.hubs[h].loaded == s.hubs[h].loaded
  {
    s1 := Apply(s, Unsubscribe(h));
    s2 := Apply(s1, Subscribe(h));
  }

  /** A subscriber connects, a producer that sees it fills a block, and the subscriber leaves before the hub gets
      to its requests and to the block. */
  function OutOfOrder(h: nat, line: Payload): seq<Event> {
    [Connect(h)] + ([Join(0)] + ([Get(h, 0)] + ([Fill(h, 0, line)] + ([Leave(0)] + ([Unsubscribe(h)]
    + ([Subscribe(h)] + ([Offer(h, 0)] + ([Take(h)] + ([StartSend(h, 0)] + ([SendClosed(h)] + []))))))))))
  }

  /** From the start of the program, these eleven steps make the hub panic. */
  lemma ClosedSubscriberPanics(s: State, h: nat, line: Payload) returns (s': State)
    requires Initial(s) && h < |s.hubs|
    ensures Run(s, OutOfOrder(h, line), s') && Lost(s', h)
  {
    hide Apply, Enabled, Run, Connected;
    var s1, s2 := Joined(s, h);
    var s3, s4 := FilledLine(s2, h, 0, line);
    var s5 := Left(s4, h);
    var s6, s7 := TakenOutOfOrder(s5, h);
    var s8 := OfferedLine(s7, h, 0);
    var es;
    es, s' := LinePanics(s8, h, 0);
    OrderedIsRun(s8, es, s');
    RunCons(s7, Offer(h, 0), es, s');
    es := [Offer(h, 0)] + es;
    RunCons(s6, Subscribe(h), es, s');
    es := [Subscribe(h)] + es;
    RunCons(s5, Unsubscribe(h), es, s');
    es := [Unsubscribe(h)] + es;
    RunCons(s4, Leave(0), es, s');
    es := [Leave(0)] + es;
    RunCons(s3, Fill(h, 0, line), es, s');
    es := [Fill(h, 0, line)] + es;
    RunCons(s2, Get(h, 0), es, s');
    es := [Get(h, 0)] + es;
    RunCons(s1, Join(0), es, s');
    es := [Join(0)] + es;
    RunCons(s, Connect(h), es, s');
  }
}
