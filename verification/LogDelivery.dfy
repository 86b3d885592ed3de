/** What subscribers receive: an in-order subsequence of the broadcast, with losses only at a full queue,
    and when a hub can send on a closed channel. */
module LogDelivery {
  import opened LogHub

  /** The block the hub is broadcasting was not yet offered to c. */
  predicate Pending(hub: Hub, c: nat) {
    match hub.pc
    case Fanning(_, todo) => c in todo
    case Sending(_, x, todo) => c == x || c in todo
    case Undoing(_, todo) => c in todo
    case Panicked(_, x, todo) => c == x || c in todo
    case _ => false
  }

  /** How much of the log was offered to every client that is still subscribed. */
  function Offered(hub: Hub, c: nat): int {
    |hub.log| - If(Pending(hub, c), 1)
  }

  predicate Broadcasting(pc: HubPc) {
    pc.Fanning? || pc.Sending? || pc.Undoing? || pc.Panicked?
  }

  /** What a hub's books say about its subscribers, and about the block it is broadcasting. */
  ghost predicate HubOk(s: State, h: nat)
    requires h < |s.hubs|
  {
    var hub := s.hubs[h];
    && (forall c: nat :: c in hub.subs <==> c < |s.clients| && s.clients[c].hub == h && s.clients[c].window.Open?)
    && (forall c: nat :: c in hub.subReq ==>
          c < |s.clients| && s.clients[c].hub == h && s.clients[c].window.Never? && !s.clients[c].stage.Joining?)
    && (forall c: nat :: c in hub.unsubReq ==>
          c < |s.clients| && s.clients[c].hub == h && s.clients[c].stage.Draining? && !s.clients[c].closed)
    && (forall i, j :: 0 <= i < j < |hub.subReq| ==> hub.subReq[i] != hub.subReq[j])
    && (forall i, j :: 0 <= i < j < |hub.unsubReq| ==> hub.unsubReq[i] != hub.unsubReq[j])
    && (forall c: nat :: Pending(hub, c) ==> c in hub.subs)
    && (hub.pc.Sending? || hub.pc.Panicked? ==> hub.pc.client !in hub.pc.todo)
    && (Broadcasting(hub.pc) ==> hub.log != [] && Data(s, hub.pc.block) == hub.log[|hub.log| - 1])
  }

  function Received(client: Client): int {
    |client.taken| - |client.queue|
  }

  /** What a client has received and will receive, in terms of the log positions its channel took. */
  ghost predicate QueueOk(s: State, client: Client, log: seq<Payload>) {
    var r := Received(client);
    && (forall i, j :: 0 <= i < j < |client.taken| ==> client.taken[i] < client.taken[j])
    && (forall i :: 0 <= i < |client.taken| ==> client.taken[i] < |log|)
    && |client.queue| <= QUEUE_CAP && |client.written| <= r
    && (client.stage.Joining? || client.stage.Serving? ==> r == |client.written| + If(client.hand.Reading?, 1))
    && (forall k :: 0 <= k < |client.written| ==> client.written[k] == log[client.taken[k]])
    && (forall k :: 0 <= k < |client.queue| ==> Data(s, client.queue[k]) == log[client.taken[r + k]])
    && (client.hand.Reading? ==> r > 0 && Data(s, client.hand.block) == log[client.taken[r - 1]])
  }

  predicate Accounted(taken: seq<nat>, dropped: seq<Drop>, k: nat) {
    k in taken || Drop(k, QUEUE_CAP) in dropped
  }

  /** Everything broadcast between two log positions was taken, or dropped at a full queue; and nothing was
      taken or dropped outside of them. */
  ghost predicate Covered(taken: seq<nat>, dropped: seq<Drop>, start: nat, stop: int) {
    && (forall k: nat :: start <= k < stop ==> Accounted(taken, dropped, k))
    && (forall k :: k in taken ==> start <= k < stop)
    && (forall d :: d in dropped ==> start <= d.index < stop && d.queued == QUEUE_CAP)
  }

  ghost predicate WindowOk(client: Client, hub: Hub, c: nat) {
    match client.window
    case Never => client.taken == [] && client.dropped == []
    case Open(start) => start <= Offered(hub, c) && Covered(client.taken, client.dropped, start, Offered(hub, c))
    case Shut(start, stop) => start <= stop <= |hub.log| && Covered(client.taken, client.dropped, start, stop)
  }

  ghost predicate ClientOk(s: State, c: nat)
    requires c < |s.clients|
  {
    var client := s.clients[c];
    && client.hub < |s.hubs|
    && QueueOk(s, client, s.hubs[client.hub].log)
    && WindowOk(client, s.hubs[client.hub], c)
    && (client.closed ==> client.stage.Draining? || client.stage.Gone?)
    && (client.window.Shut? ==> client.closed)
    && (client.stage.Joining? ==> client.window.Never?)
    && (client.stage.Gone? ==> client.closed && client.queue == [] && client.hand.Empty?)
  }

  ghost predicate DeliveryInv(s: State) {
    && RefInv(s)
    && (forall h :: 0 <= h < |s.hubs| ==> HubOk(s, h))
    && (forall c :: 0 <= c < |s.clients| ==> ClientOk(s, c))
  }

  // ---- what a held block's data says survives every step ----

  /** A block in a queue, in a reading hand, or being broadcast is held. */
  lemma HeldByClient(s: State, c: nat, b: Block)
    requires c < |s.clients|
    requires b in s.clients[c].queue || (s.clients[c].hand.Reading? && s.clients[c].hand.block == b)
    ensures Held(s, b) > 0
  {
    SumPart(s.clients, ClientHolds, b, c);
  }

  lemma HeldByHub(s: State, h: nat)
    requires h < |s.hubs| && Broadcasting(s.hubs[h].pc)
    ensures Held(s, s.hubs[h].pc.block) > 0
  {
    SumPart(s.hubs, HubShares, s.hubs[h].pc.block, h);
  }

  lemma QueueStable(s: State, s': State, e: Event, c: nat, log: seq<Payload>, log': seq<Payload>)
    requires c < |s.clients| && RefInv(s) && Enabled(s, e) && s' == Apply(s, e)
    requires QueueOk(s, s.clients[c], log) && log <= log'
    ensures QueueOk(s', s.clients[c], log')
  {
    hide Apply, Enabled, RefInv, Data;
    var client := s.clients[c];
    forall k | 0 <= k < |client.queue|
      ensures Data(s', client.queue[k]) == Data(s, client.queue[k])
    {
      HeldByClient(s, c, client.queue[k]);
      DataIsStable(s, e, client.queue[k]);
    }
    if client.hand.Reading? {
      HeldByClient(s, c, client.hand.block);
      DataIsStable(s, e, client.hand.block);
    }
  }

  // ---- every step keeps the books ----

  /** A step that leaves a client alone, and moves its hub's log on only together with what is pending. */
  lemma ClientFrame(s: State, e: Event, c: nat)
    requires DeliveryInv(s) && Enabled(s, e) && c < |s.clients|
    requires c < |Apply(s, e).clients| && Apply(s, e).clients[c] == s.clients[c]
    requires |Apply(s, e).hubs| == |s.hubs|
    requires s.clients[c].hub < |s.hubs|
    requires var hub, hub' := s.hubs[s.clients[c].hub], Apply(s, e).hubs[s.clients[c].hub];
             hub.log <= hub'.log && (s.clients[c].window.Open? ==> Offered(hub', c) == Offered(hub, c))
    ensures ClientOk(Apply(s, e), c)
  {
    assert ClientOk(s, c);
    var k := s.clients[c].hub;
    QueueStable(s, Apply(s, e), e, c, s.hubs[k].log, Apply(s, e).hubs[k].log);
  }

  /** The client whose record an event writes, if any. */
  function Writes(s: State, e: Event): int
    requires Enabled(s, e)
  {
    match e
    case SendOk(h) => s.hubs[h].pc.client
    case SendFull(h) => s.hubs[h].pc.client
    case Subscribe(h) => s.hubs[h].subReq[0]
    case Unsubscribe(h) => s.hubs[h].unsubReq[0]
    case Connect(_) => |s.clients|
    case Join(c) => c
    case Receive(c) => c
    case Write(c) => c
    case Release(c) => c
    case ClientPut(c) => c
    case Leave(c) => c
    case Finished(c) => c
    case _ => -1
  }

  lemma ClientUntouched(s: State, e: Event, c: nat)
    requires DeliveryInv(s) && Enabled(s, e) && c < |s.clients| && Writes(s, e) != c
    ensures c < |Apply(s, e).clients| && ClientOk(Apply(s, e), c)
  {
    hide RefInv;
    assert ClientOk(s, c);
    var k := s.clients[c].hub;
    assert HubOk(s, k);
    hide Apply, Enabled, QueueOk, WindowOk;
    Untouched(s, e, c);
    ClientFrame(s, e, c);
  }

  lemma Untouched(s: State, e: Event, c: nat)
    requires Enabled(s, e) && c < |s.clients| && Writes(s, e) != c && s.clients[c].hub < |s.hubs|
    requires var hub := s.hubs[s.clients[c].hub];
             && (s.clients[c].window.Open? ==> c in hub.subs)
             && (hub.pc.Sending? ==> hub.pc.client !in hub.pc.todo)
    ensures c < |Apply(s, e).clients| && Apply(s, e).clients[c] == s.clients[c] && |Apply(s, e).hubs| == |s.hubs|
    ensures var hub, hub' := s.hubs[s.clients[c].hub], Apply(s, e).hubs[s.clients[c].hub];
            hub.log <= hub'.log && (s.clients[c].window.Open? ==> Offered(hub', c) == Offered(hub, c))
  {
    ClientKept(s, e, c);
    HubMoves(s, e, s.clients[c].hub, c);
  }

  lemma ClientKept(s: State, e: Event, c: nat)
    requires Enabled(s, e) && c < |s.clients| && Writes(s, e) != c
    ensures c < |Apply(s, e).clients| && Apply(s, e).clients[c] == s.clients[c]
  {
  }

  predicate AsksHub(e: Event) {
    e.Subscribe? || e.Unsubscribe? || e.Join? || e.Leave?
  }

  predicate Fans(e: Event) {
    e.SendOk? || e.SendFull? || e.Take? || e.StartSend? || e.SendClosed? || e.Undo? || e.Finish? || e.HubPut? || e.Stop?
  }

  predicate SameBooks(hub: Hub, hub': Hub) {
    && hub'.subs == hub.subs && hub'.subReq == hub.subReq && hub'.unsubReq == hub.unsubReq
    && hub'.pc == hub.pc && hub'.log == hub.log
  }

  /** A hub's fan-out does not concern another hub. */
  lemma FansElsewhere(s: State, e: Event, h: nat)
    requires Enabled(s, e) && Fans(e) && h < |s.hubs| && e.h != h
    ensures |Apply(s, e).hubs| == |s.hubs| && SameBooks(s.hubs[h], Apply(s, e).hubs[h])
    ensures |s.clients| == |Apply(s, e).clients|
  {
  }

  lemma PoolBooks(s: State, e: Event, h: nat)
    requires Enabled(s, e) && h < |s.hubs| && (e.Get? || e.Fill? || e.Refuse?)
    ensures |Apply(s, e).hubs| == |s.hubs| && SameBooks(s.hubs[h], Apply(s, e).hubs[h])
    ensures |s.clients| == |Apply(s, e).clients|
  {
  }

  lemma CentralBooks(s: State, e: Event, h: nat)
    requires Enabled(s, e) && h < |s.hubs| && (e.Offer? || e.Evict?)
    ensures |Apply(s, e).hubs| == |s.hubs| && SameBooks(s.hubs[h], Apply(s, e).hubs[h])
    ensures |s.clients| == |Apply(s, e).clients|
  {
  }

  lemma HandlerBooks(s: State, e: Event)
    requires Enabled(s, e) && (e.Connect? || e.Receive? || e.Write? || e.Release? || e.ClientPut? || e.Finished?)
    ensures Apply(s, e).hubs == s.hubs && |s.clients| <= |Apply(s, e).clients|
  {
  }

  lemma BooksKept(s: State, e: Event, h: nat)
    requires Enabled(s, e) && !AsksHub(e) && h < |s.hubs| && !(Fans(e) && e.h == h)
    ensures |Apply(s, e).hubs| == |s.hubs| && SameBooks(s.hubs[h], Apply(s, e).hubs[h])
    ensures |s.clients| <= |Apply(s, e).clients|
  {
    hide Apply, Enabled, SameBooks;
    if Fans(e) {
      FansElsewhere(s, e, h);
    } else if e.Get? || e.Fill? || e.Refuse? {
      PoolBooks(s, e, h);
    } else if e.Offer? || e.Evict? {
      CentralBooks(s, e, h);
    } else {
      HandlerBooks(s, e);
      assert SameBooks(s.hubs[h], s.hubs[h]) by { SameBooksAsItself(s.hubs[h]); }
    }
  }

  lemma SameBooksAsItself(hub: Hub)
    ensures SameBooks(hub, hub)
  {
  }

  /** Requests do not move the broadcast. */
  lemma AskedMoves(s: State, e: Event, h: nat)
    requires Enabled(s, e) && AsksHub(e) && h < |s.hubs|
    ensures |Apply(s, e).hubs| == |s.hubs|
    ensures Apply(s, e).hubs[h].pc == s.hubs[h].pc && Apply(s, e).hubs[h].log == s.hubs[h].log
  {
  }

  lemma SendMoves(s: State, e: Event, c: nat)
    requires Enabled(s, e) && (e.SendOk? || e.SendFull?)
    requires s.hubs[e.h].pc.client !in s.hubs[e.h].pc.todo && s.hubs[e.h].pc.client != c
    ensures |Apply(s, e).hubs| == |s.hubs|
    ensures var hub, hub' := s.hubs[e.h], Apply(s, e).hubs[e.h];
            hub.log <= hub'.log && (c in hub.subs ==> Offered(hub', c) == Offered(hub, c))
  {
  }

  lemma FanMoves(s: State, e: Event, c: nat)
    requires Enabled(s, e) && Fans(e) && !e.SendOk? && !e.SendFull?
    requires s.hubs[e.h].pc.Sending? ==> s.hubs[e.h].pc.client !in s.hubs[e.h].pc.todo
    ensures |Apply(s, e).hubs| == |s.hubs|
    ensures var hub, hub' := s.hubs[e.h], Apply(s, e).hubs[e.h];
            hub.log <= hub'.log && (c in hub.subs ==> Offered(hub', c) == Offered(hub, c))
  {
  }

  lemma SendIsSending(s: State, e: Event)
    requires Enabled(s, e) && (e.SendOk? || e.SendFull?)
    ensures s.hubs[e.h].pc.Sending?
  {
  }

  lemma HubMoves(s: State, e: Event, h: nat, c: nat)
    requires Enabled(s, e) && h < |s.hubs|
    requires s.hubs[h].pc.Sending? ==> s.hubs[h].pc.client !in s.hubs[h].pc.todo
    requires (e.SendOk? || e.SendFull?) && e.h == h ==> s.hubs[h].pc.client != c
    ensures |Apply(s, e).hubs| == |s.hubs|
    ensures var hub, hub' := s.hubs[h], Apply(s, e).hubs[h];
            hub.log <= hub'.log && (c in hub.subs ==> Offered(hub', c) == Offered(hub, c))
  {
    hide Apply, Enabled;
    if AsksHub(e) {
      AskedMoves(s, e, h);
    } else if (e.SendOk? || e.SendFull?) && e.h == h {
      SendIsSending(s, e);
      SendMoves(s, e, c);
    } else if Fans(e) && e.h == h {
      FanMoves(s, e, c);
    } else {
      BooksKept(s, e, h);
    }
  }

  lemma CoveredTake(taken: seq<nat>, dropped: seq<Drop>, start: nat, k: nat)
    requires Covered(taken, dropped, start, k) && start <= k
    ensures Covered(taken + [k], dropped, start, k + 1)
    ensures Covered(taken, dropped + [Drop(k, QUEUE_CAP)], start, k + 1)
  {
    forall m: nat | start <= m < k + 1
      ensures Accounted(taken + [k], dropped, m) && Accounted(taken, dropped + [Drop(k, QUEUE_CAP)], m)
    {
      assert m < k ==> Accounted(taken, dropped, m);
    }
  }

  /** Where the hub and the client of a send stand. */
  lemma SendFacts(s: State, h: nat)
    requires DeliveryInv(s) && h < |s.hubs| && s.hubs[h].pc.Sending?
    ensures var hub, c := s.hubs[h], s.hubs[h].pc.client;
            && c < |s.clients| && ClientOk(s, c) && s.clients[c].hub == h && s.clients[c].window.Open?
            && hub.log != [] && Offered(hub, c) == |hub.log| - 1 && s.clients[c].window.start <= |hub.log| - 1
            && Data(s, hub.pc.block) == hub.log[|hub.log| - 1] && c !in hub.pc.todo
  {
    hide RefInv, Data;
    assert HubOk(s, h) && Pending(s.hubs[h], s.hubs[h].pc.client);
    assert ClientOk(s, s.hubs[h].pc.client);
  }

  /** A channel takes the block that is being broadcast. */
  lemma QueueTakes(s: State, client: Client, log: seq<Payload>, b: Block)
    requires QueueOk(s, client, log) && log != [] && |client.queue| < QUEUE_CAP && Data(s, b) == log[|log| - 1]
    requires forall i :: 0 <= i < |client.taken| ==> client.taken[i] < |log| - 1
    ensures QueueOk(s, client.(queue := client.queue + [b], taken := client.taken + [|log| - 1]), log)
  {
    hide Data;
  }

  lemma SendOkClient(s: State, e: Event)
    requires DeliveryInv(s) && Enabled(s, e) && e.SendOk?
    ensures var c := s.hubs[e.h].pc.client; c < |Apply(s, e).clients| && ClientOk(Apply(s, e), c)
  {
    hide RefInv, HubOk, Covered, Data;
    var hub, c, s' := s.hubs[e.h], s.hubs[e.h].pc.client, Apply(s, e);
    var b, client := hub.pc.block, s.clients[c];
    SendFacts(s, e.h);
    assert QueueOk(s, client, hub.log) && Covered(client.taken, client.dropped, client.window.start, |hub.log| - 1);
    assert |s'.hubs| == |s.hubs| && s'.hubs[e.h].log == hub.log && !Pending(s'.hubs[e.h], c);
    assert c < |s'.clients| && |client.queue| < QUEUE_CAP && !client.closed;
    assert s'.clients[c] == client.(queue := client.queue + [b], taken := client.taken + [|hub.log| - 1]);
    QueueStable(s, s', e, c, hub.log, hub.log);
    HeldByHub(s, e.h);
    DataIsStable(s, e, b);
    CoveredBound(client, client.window.start, |hub.log| - 1);
    CoveredTake(client.taken, client.dropped, client.window.start, |hub.log| - 1);
    hide Apply, Enabled, DeliveryInv, Pending;
    QueueTakes(s', client, hub.log, b);
    hide QueueOk;
  }

  lemma CoveredBound(client: Client, start: nat, stop: int)
    requires Covered(client.taken, client.dropped, start, stop)
    ensures forall i :: 0 <= i < |client.taken| ==> client.taken[i] < stop
  {
    assert forall i :: 0 <= i < |client.taken| ==> client.taken[i] in client.taken;
  }

  lemma SendFullClient(s: State, e: Event)
    requires DeliveryInv(s) && Enabled(s, e) && e.SendFull?
    ensures var c := s.hubs[e.h].pc.client; c < |Apply(s, e).clients| && ClientOk(Apply(s, e), c)
  {
    hide RefInv, HubOk, Covered, Data, Connected, Count;
    var hub, c := s.hubs[e.h], s.hubs[e.h].pc.client;
    SendFacts(s, e.h);
    QueueStable(s, Apply(s, e), e, c, hub.log, hub.log);
    CoveredTake(s.clients[c].taken, s.clients[c].dropped, s.clients[c].window.start, |hub.log| - 1);
  }

  lemma SubscribeClient(s: State, e: Event)
    requires DeliveryInv(s) && Enabled(s, e) && e.Subscribe?
    ensures var c := s.hubs[e.h].subReq[0]; c < |Apply(s, e).clients| && ClientOk(Apply(s, e), c)
  {
    hide RefInv, Data, Covered, Accounted;
    var c := s.hubs[e.h].subReq[0];
    assert HubOk(s, e.h) && c in s.hubs[e.h].subReq;
    assert ClientOk(s, c);
    hide HubOk;
    NothingCovered(|s.hubs[e.h].log|);
    QueueStable(s, Apply(s, e), e, c, s.hubs[e.h].log, s.hubs[e.h].log);
  }

  lemma UnsubscribeClient(s: State, e: Event)
    requires DeliveryInv(s) && Enabled(s, e) && e.Unsubscribe?
    ensures var c := s.hubs[e.h].unsubReq[0]; c < |Apply(s, e).clients| && ClientOk(Apply(s, e), c)
  {
    hide RefInv, Data, Covered, Accounted;
    var c := s.hubs[e.h].unsubReq[0];
    assert HubOk(s, e.h) && c in s.hubs[e.h].unsubReq;
    assert ClientOk(s, c);
    hide HubOk;
    QueueStable(s, Apply(s, e), e, c, s.hubs[e.h].log, s.hubs[e.h].log);
  }

  /** A handler moves on to its next stage; the one that is done has nothing queued. */
  lemma QueueStage(s: State, client: Client, log: seq<Payload>, stage: Stage)
    requires QueueOk(s, client, log) && (stage.Serving? ==> client.stage.Joining?) && !stage.Joining?
    ensures QueueOk(s, client.(stage := stage), log)
  {
    hide Data;
  }

  lemma StageClient(s: State, e: Event)
    requires DeliveryInv(s) && Enabled(s, e) && (e.Join? || e.Leave? || e.Finished?)
    ensures e.c < |Apply(s, e).clients| && ClientOk(Apply(s, e), e.c)
  {
    hide RefInv, Data, HubOk, WindowOk, QueueOk;
    assert ClientOk(s, e.c);
    var client, s' := s.clients[e.c], Apply(s, e);
    var hub, hub' := s.hubs[client.hub], s'.hubs[client.hub];
    assert |s'.hubs| == |s.hubs| && hub'.log == hub.log && hub'.pc == hub.pc;
    assert s'.clients[e.c] == client.(stage := s'.clients[e.c].stage);
    QueueStable(s, s', e, e.c, hub.log, hub.log);
    QueueStage(s', client, hub.log, s'.clients[e.c].stage);
    SameWindow(client, s'.clients[e.c], hub, e.c);
    RequestsOnly(client, hub, hub', e.c);
  }

  lemma RequestsOnly(client: Client, hub: Hub, hub': Hub, c: nat)
    requires hub'.pc == hub.pc && hub'.log == hub.log
    ensures forall x :: WindowOk(x, hub, c) ==> WindowOk(x, hub', c)
  {
    hide Covered;
  }

  lemma NothingCovered(start: nat)
    ensures Covered([], [], start, start)
  {
  }

  lemma ReceiveClient(s: State, e: Event)
    requires DeliveryInv(s) && Enabled(s, e) && e.Receive?
    ensures e.c < |Apply(s, e).clients| && ClientOk(Apply(s, e), e.c)
  {
    hide RefInv, Data, HubOk, WindowOk;
    assert ClientOk(s, e.c);
    var client := s.clients[e.c];
    var hub := s.hubs[client.hub];
    QueueStable(s, Apply(s, e), e, e.c, hub.log, hub.log);
    SameWindow(client, Apply(s, e).clients[e.c], hub, e.c);
  }

  lemma SameWindow(client: Client, client': Client, hub: Hub, c: nat)
    requires WindowOk(client, hub, c) && client'.window == client.window
    requires client'.taken == client.taken && client'.dropped == client.dropped
    ensures WindowOk(client', hub, c)
  {
    hide Covered;
  }

  lemma WriteClient(s: State, e: Event)
    requires DeliveryInv(s) && Enabled(s, e) && e.Write?
    ensures e.c < |Apply(s, e).clients| && ClientOk(Apply(s, e), e.c)
  {
    hide RefInv, HubOk, WindowOk;
    assert ClientOk(s, e.c);
    var client := s.clients[e.c];
    var hub := s.hubs[client.hub];
    QueueStable(s, Apply(s, e), e, e.c, hub.log, hub.log);
    hide Data;
    SameWindow(client, Apply(s, e).clients[e.c], hub, e.c);
  }

  /** A handler lets go of the block it has written, or of any block while it drains. */
  lemma QueueRelease(s: State, client: Client, log: seq<Payload>, hand: Hand)
    requires QueueOk(s, client, log) && !hand.Reading?
    requires client.hand.Reading? ==> client.stage.Draining? || client.stage.Gone?
    ensures QueueOk(s, client.(hand := hand), log)
  {
    hide Data;
  }

  lemma ReleaseClient(s: State, e: Event)
    requires DeliveryInv(s) && Enabled(s, e) && (e.Release? || e.ClientPut?)
    ensures e.c < |Apply(s, e).clients| && ClientOk(Apply(s, e), e.c)
  {
    hide RefInv, Data, HubOk, WindowOk, Count, QueueOk;
    assert ClientOk(s, e.c);
    var client, s' := s.clients[e.c], Apply(s, e);
    var hub := s.hubs[client.hub];
    assert s'.hubs == s.hubs && s'.clients[e.c] == client.(hand := s'.clients[e.c].hand);
    assert !s'.clients[e.c].hand.Reading? && (client.hand.Reading? ==> client.stage.Draining?);
    QueueStable(s, s', e, e.c, hub.log, hub.log);
    hide Apply, Enabled, DeliveryInv;
    QueueRelease(s', client, hub.log, s'.clients[e.c].hand);
    SameWindow(client, s'.clients[e.c], hub, e.c);
  }

  lemma ClientStep(s: State, e: Event, c: nat)
    requires DeliveryInv(s) && Enabled(s, e) && c < |Apply(s, e).clients|
    ensures ClientOk(Apply(s, e), c)
  {
    if e.Connect? && c == |s.clients| {
    } else {
      hide ClientOk, HubOk, RefInv;
      if Writes(s, e) != c {
        ClientUntouched(s, e, c);
      } else if e.SendOk? {
        SendOkClient(s, e);
      } else if e.SendFull? {
        SendFullClient(s, e);
      } else if e.Receive? {
        ReceiveClient(s, e);
      } else if e.Write? {
        WriteClient(s, e);
      } else if e.Release? || e.ClientPut? {
        ReleaseClient(s, e);
      } else if e.Subscribe? {
        SubscribeClient(s, e);
      } else if e.Unsubscribe? {
        UnsubscribeClient(s, e);
      } else {
        StageClient(s, e);
      }
    }
  }

  lemma HubData(s: State, e: Event, h: nat)
    requires RefInv(s) && Enabled(s, e) && h < |s.hubs| && HubOk(s, h)
    ensures Broadcasting(s.hubs[h].pc) ==> Data(Apply(s, e), s.hubs[h].pc.block) == Data(s, s.hubs[h].pc.block)
  {
    hide Apply, Enabled, RefInv, Data;
    if Broadcasting(s.hubs[h].pc) {
      HeldByHub(s, h);
      DataIsStable(s, e, s.hubs[h].pc.block);
    }
  }

  /** A hub's books stay in order while its broadcast moves on among its subscribers. */
  lemma HubMoved(s: State, s': State, h: nat)
    requires h < |s.hubs| && HubOk(s, h) && h < |s'.hubs| && s'.clients == s.clients
    requires var hub, hub' := s.hubs[h], s'.hubs[h];
             && hub'.subs == hub.subs && hub'.subReq == hub.subReq && hub'.unsubReq == hub.unsubReq
             && (forall c: nat :: Pending(hub', c) ==> c in hub.subs)
             && (hub'.pc.Sending? || hub'.pc.Panicked? ==> hub'.pc.client !in hub'.pc.todo)
             && (Broadcasting(hub'.pc) ==> hub'.log != [] && Data(s', hub'.pc.block) == hub'.log[|hub'.log| - 1])
    ensures HubOk(s', h)
  {
    hide Pending, Broadcasting, Data;
  }

  /** The fan-out itself, on the hub that runs it. */
  lemma HubFans(s: State, e: Event)
    requires DeliveryInv(s) && Enabled(s, e)
    requires e.StartSend? || e.SendClosed? || e.Undo? || e.Finish? || e.HubPut? || e.Stop?
    ensures HubOk(Apply(s, e), e.h)
  {
    hide RefInv, Data, ClientOk;
    assert HubOk(s, e.h);
    var hub := s.hubs[e.h];
    assert forall c: nat :: Pending(hub, c) ==> c in hub.subs;
    assert hub.pc.Sending? || hub.pc.Panicked? ==> hub.pc.client !in hub.pc.todo;
    assert Broadcasting(hub.pc) ==> hub.log != [] && Data(s, hub.pc.block) == hub.log[|hub.log| - 1];
    HubData(s, e, e.h);
    hide HubOk, DeliveryInv, Count;
    HubMoved(s, Apply(s, e), e.h);
  }

  lemma HubTakes(s: State, e: Event)
    requires DeliveryInv(s) && Enabled(s, e) && e.Take?
    ensures HubOk(Apply(s, e), e.h)
  {
    hide RefInv, Data, ClientOk;
    assert HubOk(s, e.h);
    HubData(s, e, e.h);
    TakeData(s, e);
    hide HubOk, DeliveryInv, Count;
    HubMoved(s, Apply(s, e), e.h);
  }

  lemma TakeData(s: State, e: Event)
    requires Enabled(s, e) && e.Take?
    ensures Data(Apply(s, e), s.hubs[e.h].central[0]) == Data(s, s.hubs[e.h].central[0])
  {
  }

  lemma HubSends(s: State, e: Event)
    requires DeliveryInv(s) && Enabled(s, e) && (e.SendOk? || e.SendFull?)
    ensures HubOk(Apply(s, e), e.h)
  {
    hide RefInv, Data, ClientOk;
    assert HubOk(s, e.h);
    HubData(s, e, e.h);
  }

  lemma HubSubscribes(s: State, e: Event, h: nat)
    requires DeliveryInv(s) && Enabled(s, e) && h < |s.hubs| && e.Subscribe?
    ensures HubOk(Apply(s, e), h)
  {
    hide RefInv, Data, ClientOk;
    assert HubOk(s, h) && HubOk(s, e.h);
    HubData(s, e, h);
    TailDistinct(s.hubs[e.h].subReq);
  }

  lemma HubUnsubscribes(s: State, e: Event, h: nat)
    requires DeliveryInv(s) && Enabled(s, e) && h < |s.hubs| && e.Unsubscribe?
    ensures HubOk(Apply(s, e), h)
  {
    hide RefInv, Data, ClientOk;
    assert HubOk(s, h) && HubOk(s, e.h);
    HubData(s, e, h);
    TailDistinct(s.hubs[e.h].unsubReq);
  }

  lemma TailDistinct(q: seq<nat>)
    requires q != [] && forall i, j :: 0 <= i < j < |q| ==> q[i] != q[j]
    ensures forall x :: x in q[1..] <==> x in q && x != q[0]
  {
  }

  lemma HubJoined(s: State, e: Event, h: nat)
    requires DeliveryInv(s) && Enabled(s, e) && h < |s.hubs| && e.Join?
    ensures HubOk(Apply(s, e), h)
  {
    hide RefInv, Data, QueueOk, WindowOk;
    assert HubOk(s, h) && ClientOk(s, e.c);
    HubData(s, e, h);
    hide ClientOk, DeliveryInv, Broadcasting;
    SamePending(s.hubs[h], Apply(s, e).hubs[h]);
    hide Pending;
  }

  lemma HubLeft(s: State, e: Event, h: nat)
    requires DeliveryInv(s) && Enabled(s, e) && h < |s.hubs| && e.Leave?
    ensures HubOk(Apply(s, e), h)
  {
    hide RefInv, Data, QueueOk, WindowOk;
    assert HubOk(s, h) && ClientOk(s, e.c);
    HubData(s, e, h);
    hide ClientOk, DeliveryInv, Broadcasting;
    SamePending(s.hubs[h], Apply(s, e).hubs[h]);
    hide Pending;
  }

  lemma SamePending(hub: Hub, hub': Hub)
    requires hub'.pc == hub.pc
    ensures forall c: nat :: Pending(hub', c) == Pending(hub, c)
  {
  }

  predicate SameRecord(client: Client, client': Client) {
    && client'.hub == client.hub && client'.window == client.window && client'.closed == client.closed
    && (client'.stage == client.stage || (client.closed && client'.stage.Gone?))
  }

  lemma HandlerRecord(s: State, e: Event)
    requires Enabled(s, e)
    requires e.Receive? || e.Write? || e.Release? || e.ClientPut? || e.Finished?
    ensures |Apply(s, e).clients| == |s.clients|
    ensures forall c: nat :: c < |s.clients| ==> SameRecord(s.clients[c], Apply(s, e).clients[c])
  {
  }

  lemma ConnectRecord(s: State, e: Event)
    requires Enabled(s, e) && e.Connect?
    ensures forall c: nat :: c < |Apply(s, e).clients| ==>
              if c < |s.clients| then SameRecord(s.clients[c], Apply(s, e).clients[c])
              else Apply(s, e).clients[c].window.Never? && !Apply(s, e).clients[c].closed
  {
  }

  lemma SendRecord(s: State, e: Event)
    requires Enabled(s, e) && (e.SendOk? || e.SendFull?)
    ensures |Apply(s, e).clients| == |s.clients|
    ensures forall c: nat :: c < |s.clients| ==> SameRecord(s.clients[c], Apply(s, e).clients[c])
  {
  }

  lemma HubRecord(s: State, e: Event)
    requires Enabled(s, e) && !AsksHub(e) && !e.SendOk? && !e.SendFull?
    requires !(e.Connect? || e.Receive? || e.Write? || e.Release? || e.ClientPut? || e.Finished?)
    ensures Apply(s, e).clients == s.clients
  {
  }

  lemma SameRecordAsItself(client: Client)
    ensures SameRecord(client, client)
  {
  }

  lemma RecordKept(s: State, e: Event, c: nat)
    requires Enabled(s, e) && !AsksHub(e) && c < |Apply(s, e).clients|
    ensures if c < |s.clients| then SameRecord(s.clients[c], Apply(s, e).clients[c])
            else Apply(s, e).clients[c].window.Never? && !Apply(s, e).clients[c].closed
  {
    hide Apply, Enabled, SameRecord;
    if e.Connect? {
      ConnectRecord(s, e);
    } else if e.Receive? || e.Write? || e.Release? || e.ClientPut? || e.Finished? {
      HandlerRecord(s, e);
    } else if e.SendOk? || e.SendFull? {
      SendRecord(s, e);
    } else {
      HubRecord(s, e);
      SameRecordAsItself(s.clients[c]);
    }
  }

  /** Everything else leaves the books of hub h alone. */
  lemma HubFrame(s: State, e: Event, h: nat)
    requires DeliveryInv(s) && Enabled(s, e) && !AsksHub(e) && h < |s.hubs| && !(Fans(e) && e.h == h)
    ensures h < |Apply(s, e).hubs| && HubOk(Apply(s, e), h)
  {
    hide RefInv, Data, ClientOk, Apply, Enabled, AsksHub, Fans;
    assert HubOk(s, h);
    HubData(s, e, h);
    BooksKept(s, e, h);
    forall c: nat | c < |Apply(s, e).clients|
      ensures if c < |s.clients| then SameRecord(s.clients[c], Apply(s, e).clients[c])
              else Apply(s, e).clients[c].window.Never?
    {
      RecordKept(s, e, c);
    }
  }

  lemma HubStep(s: State, e: Event, h: nat)
    requires DeliveryInv(s) && Enabled(s, e) && h < |s.hubs|
    ensures h < |Apply(s, e).hubs| && HubOk(Apply(s, e), h)
  {
    hide RefInv, HubOk, ClientOk;
    if e.Subscribe? {
      HubSubscribes(s, e, h);
    } else if e.Unsubscribe? {
      HubUnsubscribes(s, e, h);
    } else if e.Join? || e.Leave? {
      if e.Join? {
        HubJoined(s, e, h);
      } else {
        HubLeft(s, e, h);
      }
    } else if (e.SendOk? || e.SendFull?) && e.h == h {
      HubSends(s, e);
    } else if e.Take? && e.h == h {
      HubTakes(s, e);
    } else if (e.StartSend? || e.SendClosed? || e.Undo? || e.Finish? || e.HubPut? || e.Stop?) && e.h == h {
      HubFans(s, e);
    } else {
      HubFrame(s, e, h);
    }
  }

  lemma DeliveryStep(s: State, e: Event)
    requires DeliveryInv(s) && Enabled(s, e)
    ensures DeliveryInv(Apply(s, e))
  {
    hide RefInv, HubOk, ClientOk;
    RefStep(s, e);
    HubCount(s, e);
    hide Apply, Enabled;
    forall h: nat | h < |s.hubs| ensures HubOk(Apply(s, e), h) {
      HubStep(s, e, h);
    }
    forall c: nat | c < |Apply(s, e).clients| ensures ClientOk(Apply(s, e), c) {
      ClientStep(s, e, c);
    }
  }

  lemma HubCount(s: State, e: Event)
    requires Enabled(s, e)
    ensures |Apply(s, e).hubs| == |s.hubs|
  {
  }

  lemma DeliveryInitial(s: State)
    requires Initial(s)
    ensures DeliveryInv(s)
  {
    RefInitial(s);
  }

  lemma {:induction false} DeliveryRun(s: State, es: seq<Event>, s': State)
    requires DeliveryInv(s) && Run(s, es, s')
    ensures DeliveryInv(s')
    decreases |es|
  {
    hide DeliveryInv, Apply, Enabled;
    if es != [] {
      DeliveryStep(s, es[0]);
      DeliveryRun(Apply(s, es[0]), es[1..], s');
    }
  }

  // ---- what subscribers see ----

  /** out is what log shows at the strictly increasing positions at. */
  ghost predicate Picks(out: seq<Payload>, log: seq<Payload>, at: seq<nat>) {
    && |at| == |out|
    && (forall i, j :: 0 <= i < j < |at| ==> at[i] < at[j])
    && (forall i :: 0 <= i < |at| ==> at[i] < |log| && out[i] == log[at[i]])
  }

  /** In every run from the initial state, what a subscriber has written is an in-order subsequence of what
      its hub broadcast since it subscribed, and every broadcast of its subscription that it was offered and
      that its channel did not take was dropped while the channel held 256 blocks. */
  lemma DeliveredInOrder(s: State, es: seq<Event>, s': State, c: nat) returns (at: seq<nat>)
    requires Initial(s) && Run(s, es, s') && c < |s'.clients|
    ensures s'.clients[c].hub < |s'.hubs|
    ensures var client := s'.clients[c];
            var hub := s'.hubs[client.hub];
            && at <= client.taken && Picks(client.written, hub.log, at)
            && (forall d :: d in client.dropped ==> d.queued == 256)
            && (client.window.Never? ==> client.taken == [])
            && (client.window.Open? ==> Covered(client.taken, client.dropped, client.window.start, Offered(hub, c)))
            && (client.window.Shut? ==> Covered(client.taken, client.dropped, client.window.start, client.window.stop))
  {
    DeliveryInitial(s);
    DeliveryRun(s, es, s');
    assert ClientOk(s', c);
    hide Covered, RefInv;
    at := s'.clients[c].taken[..|s'.clients[c].written|];
  }

  // ---- draining ----

  lemma ClosedStep(s: State, e: Event, c: nat)
    requires DeliveryInv(s) && Enabled(s, e) && c < |s.clients| && s.clients[c].closed
    ensures c < |Apply(s, e).clients| && Apply(s, e).clients[c].closed
    ensures Suffix(Apply(s, e).clients[c].queue, s.clients[c].queue)
  {
    hide DeliveryInv;
    if Writes(s, e) != c {
      ClientKept(s, e, c);
    }
  }

  predicate Suffix(q: seq<Block>, p: seq<Block>) {
    |q| <= |p| && q == p[|p| - |q|..]
  }

  lemma SuffixOfSuffix(q: seq<Block>, p: seq<Block>, o: seq<Block>)
    requires Suffix(q, p) && Suffix(p, o)
    ensures Suffix(q, o)
  {
  }

  /** A closed channel stays closed and only ever loses its oldest blocks to the handler that drains it. */
  lemma {:induction false} DrainedForGood(s: State, es: seq<Event>, s': State, c: nat)
    requires DeliveryInv(s) && Run(s, es, s') && c < |s.clients| && s.clients[c].closed
    ensures c < |s'.clients| && s'.clients[c].closed && Suffix(s'.clients[c].queue, s.clients[c].queue)
    decreases |es|
  {
    hide DeliveryInv, Apply, Enabled;
    if es != [] {
      var s1 := Apply(s, es[0]);
      ClosedStep(s, es[0], c);
      DeliveryStep(s, es[0]);
      DrainedForGood(s1, es[1..], s', c);
      SuffixOfSuffix(s'.clients[c].queue, s1.clients[c].queue, s.clients[c].queue);
    }
  }

  /** When every handler has drained its channel and left, and nothing is on its way to a hub, every Get has
      been matched by a Put. */
  lemma NothingLeftBehind(s: State, es: seq<Event>, s': State, b: Block)
    requires Initial(s) && Run(s, es, s') && s'.filling[b] == 0
    requires forall hub :: hub in s'.hubs ==>
               hub.loaded[b] == 0 && hub.central == [] && (hub.pc.Idle? || hub.pc.Stopped?)
    requires forall client :: client in s'.clients ==> client.stage.Gone?
    ensures s'.gets[b] == s'.puts[b]
  {
    DeliveryInitial(s);
    DeliveryRun(s, es, s');
    forall client | client in s'.clients
      ensures client.queue == [] && client.hand.Empty?
    {
      var c :| 0 <= c < |s'.clients| && s'.clients[c] == client;
      assert ClientOk(s', c);
    }
    hide ClientOk, HubOk;
    NothingLeaks(s', b);
  }
}
