/** The reference-counted log broadcast: producers, hubs and subscribers share one pool of blocks.
    A state is everything they share; an event is one atomic step of one of them. */
module LogHub {
  type Block = nat
  type Payload = string

  const CENTRAL_CAP := 1024
  const REQUEST_CAP := 128
  const QUEUE_CAP := 256

  /** Where a hub's goroutine stands. todo are the subscribers the current block was not offered to yet. */
  datatype HubPc =
    | Idle
    | Fanning(block: Block, todo: set<nat>)
    | Sending(block: Block, client: nat, todo: set<nat>)
    | Undoing(block: Block, todo: set<nat>)
    | HubReturning(block: Block)
    | Panicked(block: Block, client: nat, todo: set<nat>)
    | Stopped

  /** loaded: filled blocks whose producers have not offered them yet. log: what was broadcast so far. */
  datatype Hub = Hub(
    loaded: multiset<Block>, central: seq<Block>,
    subReq: seq<nat>, unsubReq: seq<nat>, subs: set<nat>,
    pc: HubPc, log: seq<Payload>)

  datatype Hand = Empty | Reading(block: Block) | Wrote(block: Block) | Returning(block: Block)

  datatype Stage = Joining | Serving | Draining | Gone

  /** When the hub counted a client as subscribed, in positions of its log. */
  datatype Window = Never | Open(start: nat) | Shut(start: nat, stop: nat)

  datatype Drop = Drop(index: nat, queued: nat)

  /** A subscriber: its channel (queue, closed), its handler (stage, hand, written), and the history of its
      channel: the log positions the hub put into it and those it dropped. */
  datatype Client = Client(
    hub: nat, stage: Stage, queue: seq<Block>, closed: bool, hand: Hand,
    written: seq<Payload>, window: Window, taken: seq<nat>, dropped: seq<Drop>)

  datatype State = State(
    hubs: seq<Hub>, clients: seq<Client>,
    pool: multiset<Block>, filling: multiset<Block>,
    count: map<Block, int>, data: map<Block, Payload>,
    gets: multiset<Block>, puts: multiset<Block>)

  datatype Event =
    | Get(h: nat, b: Block)
    | Fill(h: nat, b: Block, payload: Payload)
    | Offer(h: nat, b: Block)
    | Refuse(h: nat, b: Block)
    | Evict(b: Block)
    | Take(h: nat)
    | StartSend(h: nat, c: nat)
    | SendOk(h: nat)
    | SendFull(h: nat)
    | SendClosed(h: nat)
    | Undo(h: nat)
    | Finish(h: nat)
    | HubPut(h: nat)
    | Subscribe(h: nat)
    | Unsubscribe(h: nat)
    | Stop(h: nat)
    | Connect(h: nat)
    | Join(c: nat)
    | Receive(c: nat)
    | Write(c: nat)
    | Release(c: nat)
    | ClientPut(c: nat)
    | Leave(c: nat)
    | Finished(c: nat)

  // ---- transitions ----

  function Count(s: State, b: Block): int {
    if b in s.count then s.count[b] else 0
  }

  function Data(s: State, b: Block): Payload {
    if b in s.data then s.data[b] else ""
  }

  function SetHub(s: State, h: nat, hub: Hub): State
    requires h < |s.hubs|
  {
    s.(hubs := s.hubs[h := hub])
  }

  function SetClient(s: State, c: nat, client: Client): State
    requires c < |s.clients|
  {
    s.(clients := s.clients[c := client])
  }

  function Bump(s: State, b: Block, n: int): State {
    s.(count := s.count[b := Count(s, b) + n])
  }

  function Put(s: State, b: Block): State {
    s.(pool := s.pool + multiset{b}, puts := s.puts + multiset{b})
  }

  /** The gate of hub h's producers: the connection count is not zero. A handler counts itself in when it
      connects and out when it starts to leave. */
  predicate Connected(s: State, h: nat) {
    exists c: nat :: c < |s.clients| && s.clients[c].hub == h
                     && (s.clients[c].stage.Joining? || s.clients[c].stage.Serving?)
  }

  predicate Enabled(s: State, e: Event) {
    match e
    case Get(h, b) => h < |s.hubs| && Connected(s, h) && (s.pool[b] > 0 || s.gets[b] == 0)
    case Fill(h, b, _) => h < |s.hubs| && s.filling[b] > 0
    case Offer(h, b) => h < |s.hubs| && s.hubs[h].loaded[b] > 0 && |s.hubs[h].central| < CENTRAL_CAP
    case Refuse(h, b) => h < |s.hubs| && s.hubs[h].loaded[b] > 0 && |s.hubs[h].central| == CENTRAL_CAP
    case Evict(b) => s.pool[b] > 0
    case Take(h) => h < |s.hubs| && s.hubs[h].pc.Idle? && s.hubs[h].central != []
    case StartSend(h, c) => h < |s.hubs| && s.hubs[h].pc.Fanning? && c in s.hubs[h].pc.todo
    case SendOk(h) =>
      && h < |s.hubs| && s.hubs[h].pc.Sending? && s.hubs[h].pc.client < |s.clients|
      && var c := s.clients[s.hubs[h].pc.client]; !c.closed && |c.queue| < QUEUE_CAP
    case SendFull(h) =>
      && h < |s.hubs| && s.hubs[h].pc.Sending? && s.hubs[h].pc.client < |s.clients|
      && var c := s.clients[s.hubs[h].pc.client]; !c.closed && |c.queue| == QUEUE_CAP
    case SendClosed(h) =>
      && h < |s.hubs| && s.hubs[h].pc.Sending? && s.hubs[h].pc.client < |s.clients|
      && s.clients[s.hubs[h].pc.client].closed
    case Undo(h) => h < |s.hubs| && s.hubs[h].pc.Undoing?
    case Finish(h) => h < |s.hubs| && s.hubs[h].pc.Fanning? && s.hubs[h].pc.todo == {}
    case HubPut(h) => h < |s.hubs| && s.hubs[h].pc.HubReturning?
    case Subscribe(h) =>
      h < |s.hubs| && s.hubs[h].pc.Idle? && s.hubs[h].subReq != [] && s.hubs[h].subReq[0] < |s.clients|
    case Unsubscribe(h) =>
      h < |s.hubs| && s.hubs[h].pc.Idle? && s.hubs[h].unsubReq != [] && s.hubs[h].unsubReq[0] < |s.clients|
    case Stop(h) => h < |s.hubs| && s.hubs[h].pc.Idle?
    case Connect(h) => h < |s.hubs|
    case Join(c) =>
      && c < |s.clients| && s.clients[c].stage.Joining? && s.clients[c].hub < |s.hubs|
      && |s.hubs[s.clients[c].hub].subReq| < REQUEST_CAP
    case Receive(c) =>
      && c < |s.clients| && (s.clients[c].stage.Serving? || s.clients[c].stage.Draining?)
      && s.clients[c].hand.Empty? && s.clients[c].queue != []
    case Write(c) => c < |s.clients| && s.clients[c].stage.Serving? && s.clients[c].hand.Reading?
    case Release(c) =>
      && c < |s.clients|
      && ((s.clients[c].stage.Serving? && s.clients[c].hand.Wrote?)
          || (s.clients[c].stage.Draining? && s.clients[c].hand.Reading?))
    case ClientPut(c) => c < |s.clients| && s.clients[c].hand.Returning?
    case Leave(c) =>
      && c < |s.clients| && s.clients[c].stage.Serving? && s.clients[c].hand.Empty?
      && s.clients[c].hub < |s.hubs| && |s.hubs[s.clients[c].hub].unsubReq| < REQUEST_CAP
    case Finished(c) =>
      && c < |s.clients| && s.clients[c].stage.Draining? && s.clients[c].hand.Empty?
      && s.clients[c].closed && s.clients[c].queue == []
  }

  function Apply(s: State, e: Event): State
    requires Enabled(s, e)
  {
    match e
    case Get(_, b) => s.(pool := s.pool - multiset{b}, filling := s.filling + multiset{b}, gets := s.gets + multiset{b})
    case Fill(h, b, payload) =>
      var hub := s.hubs[h];
      SetHub(s, h, hub.(loaded := hub.loaded + multiset{b}))
        .(filling := s.filling - multiset{b}, data := s.data[b := payload], count := s.count[b := 1])
    case Offer(h, b) =>
      var hub := s.hubs[h];
      SetHub(s, h, hub.(loaded := hub.loaded - multiset{b}, central := hub.central + [b]))
    case Refuse(h, b) =>
      var hub := s.hubs[h];
      Put(SetHub(s, h, hub.(loaded := hub.loaded - multiset{b})), b)
    case Evict(b) => s.(pool := s.pool - multiset{b})
    case Take(h) =>
      var hub := s.hubs[h];
      var b := hub.central[0];
      SetHub(s, h, hub.(central := hub.central[1..], pc := Fanning(b, hub.subs), log := hub.log + [Data(s, b)]))
    case StartSend(h, c) =>
      var hub := s.hubs[h];
      Bump(SetHub(s, h, hub.(pc := Sending(hub.pc.block, c, hub.pc.todo - {c}))), hub.pc.block, 1)
    case SendOk(h) =>
      var hub := s.hubs[h];
      var c := hub.pc.client;
      var client := s.clients[c];
      SetClient(SetHub(s, h, hub.(pc := Fanning(hub.pc.block, hub.pc.todo))),
                c, client.(queue := client.queue + [hub.pc.block], taken := client.taken + [Last(hub)]))
    case SendFull(h) =>
      var hub := s.hubs[h];
      var c := hub.pc.client;
      var client := s.clients[c];
      SetClient(SetHub(s, h, hub.(pc := Undoing(hub.pc.block, hub.pc.todo))),
                c, client.(dropped := client.dropped + [Drop(Last(hub), |client.queue|)]))
    case SendClosed(h) =>
      var hub := s.hubs[h];
      SetHub(s, h, hub.(pc := Panicked(hub.pc.block, hub.pc.client, hub.pc.todo)))
    case Undo(h) =>
      var hub := s.hubs[h];
      Bump(SetHub(s, h, hub.(pc := Fanning(hub.pc.block, hub.pc.todo))), hub.pc.block, -1)
    case Finish(h) =>
      var hub := s.hubs[h];
      var b := hub.pc.block;
      Bump(SetHub(s, h, hub.(pc := if Count(s, b) - 1 == 0 then HubReturning(b) else Idle)), b, -1)
    case HubPut(h) =>
      var hub := s.hubs[h];
      Put(SetHub(s, h, hub.(pc := Idle)), hub.pc.block)
    case Subscribe(h) =>
      var hub := s.hubs[h];
      var c := hub.subReq[0];
      SetClient(SetHub(s, h, hub.(subReq := hub.subReq[1..], subs := hub.subs + {c})),
                c, s.clients[c].(window := Open(|hub.log|)))
    case Unsubscribe(h) =>
      var hub := s.hubs[h];
      var c := hub.unsubReq[0];
      var client := s.clients[c];
      SetClient(SetHub(s, h, hub.(unsubReq := hub.unsubReq[1..], subs := hub.subs - {c})),
                c, client.(closed := true, window := ShutAt(client.window, |hub.log|)))
    case Stop(h) => SetHub(s, h, s.hubs[h].(pc := Stopped))
    case Connect(h) =>
      s.(clients := s.clients + [Client(h, Joining, [], false, Empty, [], Never, [], [])])
    case Join(c) =>
      var client := s.clients[c];
      var hub := s.hubs[client.hub];
      SetClient(SetHub(s, client.hub, hub.(subReq := hub.subReq + [c])), c, client.(stage := Serving))
    case Receive(c) =>
      var client := s.clients[c];
      SetClient(s, c, client.(queue := client.queue[1..], hand := Reading(client.queue[0])))
    case Write(c) =>
      var client := s.clients[c];
      var b := client.hand.block;
      SetClient(s, c, client.(hand := Wrote(b), written := client.written + [Data(s, b)]))
    case Release(c) =>
      var client := s.clients[c];
      var b := client.hand.block;
      Bump(SetClient(s, c, client.(hand := if Count(s, b) - 1 == 0 then Returning(b) else Empty)), b, -1)
    case ClientPut(c) =>
      var client := s.clients[c];
      Put(SetClient(s, c, client.(hand := Empty)), client.hand.block)
    case Leave(c) =>
      var client := s.clients[c];
      var hub := s.hubs[client.hub];
      SetClient(SetHub(s, client.hub, hub.(unsubReq := hub.unsubReq + [c])), c, client.(stage := Draining))
    case Finished(c) => SetClient(s, c, s.clients[c].(stage := Gone))
  }

  /** The position of the block being broadcast. */
  function Last(hub: Hub): nat {
    if hub.log == [] then 0 else |hub.log| - 1
  }

  function ShutAt(w: Window, stop: nat): Window {
    if w.Open? then Shut(w.start, stop) else w
  }

  /** Nothing has happened yet; any number of hubs share the pool (the program runs two). */
  predicate Initial(s: State) {
    && (forall h :: 0 <= h < |s.hubs| ==> s.hubs[h] == Hub(multiset{}, [], [], [], {}, Idle, []))
    && s.clients == [] && s.pool == multiset{} && s.filling == multiset{}
    && s.gets == multiset{} && s.puts == multiset{}
  }

  /** s' is reached from s by the events of es. */
  predicate Run(s: State, es: seq<Event>, s': State)
    decreases |es|
  {
    if es == [] then s' == s else Enabled(s, es[0]) && Run(Apply(s, es[0]), es[1..], s')
  }

  // ---- holders ----

  /** A quantity of block b, added up over the members of a sequence. */
  function Sum<T>(xs: seq<T>, f: (T, Block) -> nat, b: Block): nat {
    if xs == [] then 0 else f(xs[0], b) + Sum(xs[1..], f, b)
  }

  function Times(q: seq<Block>, b: Block): nat {
    multiset(q)[b]
  }

  function If(condition: bool, n: nat): nat {
    if condition then n else 0
  }

  /** Holders on the way to the hub: the producer that filled the block, or the central pipe. */
  function HubWaits(hub: Hub, b: Block): nat {
    hub.loaded[b] + Times(hub.central, b)
  }

  /** The hub's own share, and a send in progress. */
  function HubShares(hub: Hub, b: Block): nat {
    match hub.pc
    case Fanning(x, _) => If(x == b, 1)
    case Sending(x, _, _) => If(x == b, 2)
    case Undoing(x, _) => If(x == b, 2)
    case Panicked(x, _, _) => If(x == b, 2)
    case _ => 0
  }

  /** A subscriber's queue, and its handler between receive and decrement. */
  function ClientHolds(c: Client, b: Block): nat {
    Times(c.queue, b) + If((c.hand.Reading? || c.hand.Wrote?) && c.hand.block == b, 1)
  }

  function HubOwns(hub: Hub, b: Block): nat {
    If(hub.pc.HubReturning? && hub.pc.block == b, 1)
  }

  function ClientOwns(c: Client, b: Block): nat {
    If(c.hand.Returning? && c.hand.block == b, 1)
  }

  function Waiting(s: State, b: Block): nat {
    Sum(s.hubs, HubWaits, b)
  }

  function Sharing(s: State, b: Block): nat {
    Sum(s.hubs, HubShares, b) + Sum(s.clients, ClientHolds, b)
  }

  /** The number of holders of a filled block. */
  function Held(s: State, b: Block): nat {
    Waiting(s, b) + Sharing(s, b)
  }

  /** The number of goroutines that are about to fill the block or to return it. */
  function Owned(s: State, b: Block): nat {
    s.filling[b] + Sum(s.hubs, HubOwns, b) + Sum(s.clients, ClientOwns, b)
  }

  /** The life of one block: it is in the pool, owned, or shared, and never in two of these; each Get is
      matched by one Put, except for the one still out; while it is shared, its counter is the exact number
      of its holders; and until the hub takes it, it has only one. */
  predicate BlockOk(s: State, b: Block) {
    && s.pool[b] + Owned(s, b) + If(Held(s, b) > 0, 1) <= 1
    && s.gets[b] == s.puts[b] + Owned(s, b) + If(Held(s, b) > 0, 1)
    && (Held(s, b) > 0 ==> Count(s, b) == Held(s, b))
    && (Waiting(s, b) > 0 ==> Held(s, b) == 1)
  }

  ghost predicate RefInv(s: State) {
    forall b :: BlockOk(s, b)
  }

  lemma {:induction false} SumUpdate<T>(xs: seq<T>, f: (T, Block) -> nat, b: Block, i: nat, x: T)
    requires i < |xs|
    ensures Sum(xs[i := x], f, b) == Sum(xs, f, b) - f(xs[i], b) + f(x, b)
  {
    if i == 0 {
      assert xs[0 := x][1..] == xs[1..];
    } else {
      assert xs[i := x][1..] == xs[1..][i - 1 := x];
      SumUpdate(xs[1..], f, b, i - 1, x);
    }
  }

  lemma {:induction false} SumAppend<T>(xs: seq<T>, f: (T, Block) -> nat, b: Block, x: T)
    ensures Sum(xs + [x], f, b) == Sum(xs, f, b) + f(x, b)
  {
    if xs == [] {
      assert xs + [x] == [x] && [x][1..] == [];
    } else {
      assert (xs + [x])[1..] == xs[1..] + [x];
      SumAppend(xs[1..], f, b, x);
    }
  }

  lemma {:induction false} SumZero<T>(xs: seq<T>, f: (T, Block) -> nat, b: Block)
    ensures (forall x :: x in xs ==> f(x, b) == 0) ==> Sum(xs, f, b) == 0
  {
    if xs != [] {
      SumZero(xs[1..], f, b);
      assert xs[0] in xs && forall x :: x in xs[1..] ==> x in xs;
    }
  }

  lemma {:induction false} SumPart<T>(xs: seq<T>, f: (T, Block) -> nat, b: Block, i: nat)
    requires i < |xs|
    ensures f(xs[i], b) <= Sum(xs, f, b)
  {
    if i > 0 {
      SumPart(xs[1..], f, b, i - 1);
    }
  }

  /** Everything but hub h and client c is the same in s' as in s. */
  predicate Changed(s: State, s': State, h: nat, c: nat) {
    && h < |s.hubs| && c < |s.clients|
    && |s'.hubs| == |s.hubs| && s'.hubs == s.hubs[h := s'.hubs[h]]
    && |s'.clients| == |s.clients| && s'.clients == s.clients[c := s'.clients[c]]
  }

  predicate OnlyHub(s: State, s': State, h: nat) {
    h < |s.hubs| && |s'.hubs| == |s.hubs| && s'.hubs == s.hubs[h := s'.hubs[h]] && s'.clients == s.clients
  }

  predicate OnlyClient(s: State, s': State, c: nat) {
    && c < |s.clients| && |s'.clients| == |s.clients|
    && s'.clients == s.clients[c := s'.clients[c]] && s'.hubs == s.hubs
  }

  lemma SameHolders(s: State, s': State, b: Block)
    requires s'.hubs == s.hubs && s'.clients == s.clients
    ensures Waiting(s', b) == Waiting(s, b) && Sharing(s', b) == Sharing(s, b)
    ensures Owned(s', b) - s'.filling[b] == Owned(s, b) - s.filling[b] >= 0
  {
  }

  lemma HubChange(s: State, s': State, h: nat, b: Block)
    requires OnlyHub(s, s', h)
    ensures Waiting(s', b) == Waiting(s, b) - HubWaits(s.hubs[h], b) + HubWaits(s'.hubs[h], b)
    ensures Sharing(s', b) == Sharing(s, b) - HubShares(s.hubs[h], b) + HubShares(s'.hubs[h], b)
    ensures Owned(s', b) - s'.filling[b] == Owned(s, b) - s.filling[b] - HubOwns(s.hubs[h], b) + HubOwns(s'.hubs[h], b)
    ensures HubWaits(s.hubs[h], b) <= Waiting(s, b) && HubShares(s.hubs[h], b) <= Sharing(s, b)
    ensures HubOwns(s.hubs[h], b) + s.filling[b] <= Owned(s, b)
  {
    hide HubWaits, HubShares, HubOwns;
    SumUpdate(s.hubs, HubWaits, b, h, s'.hubs[h]);
    SumUpdate(s.hubs, HubShares, b, h, s'.hubs[h]);
    SumUpdate(s.hubs, HubOwns, b, h, s'.hubs[h]);
    SumPart(s.hubs, HubWaits, b, h);
    SumPart(s.hubs, HubShares, b, h);
    SumPart(s.hubs, HubOwns, b, h);
  }

  lemma ClientChange(s: State, s': State, c: nat, b: Block)
    requires OnlyClient(s, s', c)
    ensures Waiting(s', b) == Waiting(s, b)
    ensures Sharing(s', b) == Sharing(s, b) - ClientHolds(s.clients[c], b) + ClientHolds(s'.clients[c], b)
    ensures Owned(s', b) - s'.filling[b]
            == Owned(s, b) - s.filling[b] - ClientOwns(s.clients[c], b) + ClientOwns(s'.clients[c], b)
    ensures ClientHolds(s.clients[c], b) <= Sharing(s, b) && ClientOwns(s.clients[c], b) + s.filling[b] <= Owned(s, b)
  {
    hide ClientHolds, ClientOwns;
    SumUpdate(s.clients, ClientHolds, b, c, s'.clients[c]);
    SumUpdate(s.clients, ClientOwns, b, c, s'.clients[c]);
    SumPart(s.clients, ClientHolds, b, c);
    SumPart(s.clients, ClientOwns, b, c);
  }

  lemma BothChange(s: State, s': State, h: nat, c: nat, b: Block)
    requires Changed(s, s', h, c) && s'.filling == s.filling
    ensures Waiting(s', b) == Waiting(s, b) - HubWaits(s.hubs[h], b) + HubWaits(s'.hubs[h], b)
    ensures Sharing(s', b) == Sharing(s, b) - HubShares(s.hubs[h], b) + HubShares(s'.hubs[h], b)
                              - ClientHolds(s.clients[c], b) + ClientHolds(s'.clients[c], b)
    ensures Owned(s', b) == Owned(s, b) - HubOwns(s.hubs[h], b) + HubOwns(s'.hubs[h], b)
                            - ClientOwns(s.clients[c], b) + ClientOwns(s'.clients[c], b)
    ensures HubShares(s.hubs[h], b) <= Sharing(s, b)
  {
    hide Waiting, Sharing, Owned, HubWaits, HubShares, HubOwns, ClientHolds, ClientOwns;
    var m := s.(hubs := s'.hubs);
    HubChange(s, m, h, b);
    ClientChange(m, s', c, b);
  }

  // ---- the counter is the number of holders ----

  lemma TimesTail(q: seq<Block>, b: Block)
    requires q != []
    ensures Times(q, b) == If(q[0] == b, 1) + Times(q[1..], b)
  {
    assert q == [q[0]] + q[1..];
  }

  lemma RefPool(s: State, e: Event, b: Block)
    requires RefInv(s) && Enabled(s, e) && (e.Get? || e.Evict?)
    ensures BlockOk(Apply(s, e), b)
  {
    hide Waiting, Sharing, Owned;
    assert BlockOk(s, b);
    SameHolders(s, Apply(s, e), b);
  }

  lemma RefFill(s: State, e: Event, b: Block)
    requires RefInv(s) && Enabled(s, e) && e.Fill?
    ensures BlockOk(Apply(s, e), b)
  {
    hide Waiting, Sharing, Owned, HubShares, HubOwns;
    assert BlockOk(s, b);
    HubChange(s, Apply(s, e), e.h, b);
    SamePc(s.hubs[e.h], Apply(s, e).hubs[e.h], b);
  }

  lemma SamePc(hub: Hub, hub': Hub, b: Block)
    ensures hub'.pc == hub.pc ==> HubShares(hub', b) == HubShares(hub, b) && HubOwns(hub', b) == HubOwns(hub, b)
    ensures hub'.loaded == hub.loaded && hub'.central == hub.central ==> HubWaits(hub', b) == HubWaits(hub, b)
  {
  }

  /** What a producer's offer changes in its hub's books. */
  lemma OfferWaits(s: State, e: Event, b: Block)
    requires Enabled(s, e) && (e.Offer? || e.Refuse?)
    ensures var s' := Apply(s, e);
            && OnlyHub(s, s', e.h) && s'.hubs[e.h].pc == s.hubs[e.h].pc
            && HubWaits(s'.hubs[e.h], b) == HubWaits(s.hubs[e.h], b) - If(e.Refuse? && e.b == b, 1)
            && s'.filling == s.filling && s'.count == s.count && s'.gets == s.gets
            && s'.pool[b] == s.pool[b] + If(e.Refuse? && e.b == b, 1)
            && s'.puts[b] == s.puts[b] + If(e.Refuse? && e.b == b, 1)
  {
  }

  lemma RefOffer(s: State, e: Event, b: Block)
    requires RefInv(s) && Enabled(s, e) && (e.Offer? || e.Refuse?)
    ensures BlockOk(Apply(s, e), b)
  {
    assert BlockOk(s, b);
    OfferWaits(s, e, b);
    hide RefInv, Waiting, Sharing, Owned, HubWaits, HubShares, HubOwns, Apply, Enabled;
    HubChange(s, Apply(s, e), e.h, b);
    SamePc(s.hubs[e.h], Apply(s, e).hubs[e.h], b);
  }

  /** What a step of the fan-out changes: the counter moves with the hub's shares, and the last decrement
      makes the hub the owner. */
  lemma FanOutBooks(s: State, e: Event, b: Block)
    requires Enabled(s, e)
    requires e.StartSend? || e.SendClosed? || e.Undo? || e.Finish? || e.HubPut? || e.Stop?
    ensures var s', hub, hub' := Apply(s, e), s.hubs[e.h], Apply(s, e).hubs[e.h];
            var last := If(e.Finish? && hub.pc.block == b && Count(s, b) == 1, 1);
            var put := If(e.HubPut? && hub.pc.block == b, 1);
            && OnlyHub(s, s', e.h) && HubWaits(hub', b) == HubWaits(hub, b)
            && Count(s', b) - Count(s, b) == HubShares(hub', b) - HubShares(hub, b)
            && HubOwns(hub', b) == HubOwns(hub, b) + last - put
            && (e.Finish? && hub.pc.block == b ==> HubShares(hub, b) == 1 && HubShares(hub', b) == 0)
            && (e.Undo? ==>
                  HubShares(hub', b) == HubShares(hub, b) - If(hub.pc.block == b, 1) >= If(hub.pc.block == b, 1))
            && (e.StartSend? ==> If(hub.pc.block == b, 1) == HubShares(hub, b) <= HubShares(hub', b))
            && (e.SendClosed? || e.HubPut? || e.Stop? || (e.Finish? && hub.pc.block != b) ==>
                  HubShares(hub', b) == HubShares(hub, b))
            && (e.StartSend? && hub.pc.block != b ==> HubShares(hub', b) == 0)
            && s'.filling == s.filling && s'.gets == s.gets
            && s'.pool[b] == s.pool[b] + put && s'.puts[b] == s.puts[b] + put
  {
  }

  /** The hub's fan-out: its own share keeps the counter positive until the last decrement. */
  lemma RefHub(s: State, e: Event, b: Block)
    requires RefInv(s) && Enabled(s, e)
    requires e.StartSend? || e.SendClosed? || e.Undo? || e.Finish? || e.HubPut? || e.Stop?
    ensures BlockOk(Apply(s, e), b)
  {
    assert BlockOk(s, b);
    FanOutBooks(s, e, b);
    hide RefInv, Waiting, Sharing, Owned, HubWaits, HubShares, HubOwns, Count, Apply, Enabled;
    HubChange(s, Apply(s, e), e.h, b);
  }

  lemma RefTake(s: State, e: Event, b: Block)
    requires RefInv(s) && Enabled(s, e) && e.Take?
    ensures BlockOk(Apply(s, e), b)
  {
    assert BlockOk(s, b);
    hide RefInv, Waiting, Sharing, Owned;
    HubChange(s, Apply(s, e), e.h, b);
    TimesTail(s.hubs[e.h].central, b);
  }

  /** The hub and the subscriber that change in a step in which both do. */
  function HubOf(s: State, e: Event): nat
    requires Enabled(s, e) && (e.SendOk? || e.SendFull? || e.Subscribe? || e.Unsubscribe? || e.Join? || e.Leave?)
  {
    if e.Join? || e.Leave? then s.clients[e.c].hub else e.h
  }

  function ClientOf(s: State, e: Event): nat
    requires Enabled(s, e) && (e.SendOk? || e.SendFull? || e.Subscribe? || e.Unsubscribe? || e.Join? || e.Leave?)
  {
    if e.Join? || e.Leave? then e.c
    else if e.Subscribe? then s.hubs[e.h].subReq[0]
    else if e.Unsubscribe? then s.hubs[e.h].unsubReq[0]
    else s.hubs[e.h].pc.client
  }

  lemma RefSend(s: State, e: Event, b: Block)
    requires RefInv(s) && Enabled(s, e) && (e.SendOk? || e.SendFull?)
    ensures BlockOk(Apply(s, e), b)
  {
    hide Waiting, Sharing, Owned, HubWaits;
    assert BlockOk(s, b);
    BothChange(s, Apply(s, e), e.h, s.hubs[e.h].pc.client, b);
    SamePc(s.hubs[e.h], Apply(s, e).hubs[e.h], b);
  }

  lemma RefRequest(s: State, e: Event, b: Block)
    requires RefInv(s) && Enabled(s, e) && (e.Subscribe? || e.Unsubscribe? || e.Join? || e.Leave?)
    ensures BlockOk(Apply(s, e), b)
  {
    hide Waiting, Sharing, Owned, HubWaits, HubShares, HubOwns;
    var h, c, s' := HubOf(s, e), ClientOf(s, e), Apply(s, e);
    assert BlockOk(s, b);
    BothChange(s, s', h, c, b);
    SamePc(s.hubs[h], s'.hubs[h], b);
  }

  lemma RefReceive(s: State, e: Event, b: Block)
    requires RefInv(s) && Enabled(s, e) && e.Receive?
    ensures BlockOk(Apply(s, e), b)
  {
    hide Waiting, Sharing, Owned;
    assert BlockOk(s, b);
    ClientChange(s, Apply(s, e), e.c, b);
    TimesTail(s.clients[e.c].queue, b);
  }

  lemma RefHandler(s: State, e: Event, b: Block)
    requires RefInv(s) && Enabled(s, e) && (e.Write? || e.Release? || e.ClientPut? || e.Finished?)
    ensures BlockOk(Apply(s, e), b)
  {
    hide Waiting, Sharing, Owned, Times;
    assert BlockOk(s, b);
    ClientChange(s, Apply(s, e), e.c, b);
  }

  lemma RefConnect(s: State, e: Event, b: Block)
    requires RefInv(s) && Enabled(s, e) && e.Connect?
    ensures BlockOk(Apply(s, e), b)
  {
    assert BlockOk(s, b);
    var client := Client(e.h, Joining, [], false, Empty, [], Never, [], []);
    SumAppend(s.clients, ClientHolds, b, client);
    SumAppend(s.clients, ClientOwns, b, client);
  }

  lemma RefStep(s: State, e: Event)
    requires RefInv(s) && Enabled(s, e)
    ensures RefInv(Apply(s, e))
  {
    hide Apply, BlockOk, Enabled;
    forall b ensures BlockOk(Apply(s, e), b) {
      match e
      case Get(_, _) => RefPool(s, e, b);
      case Fill(_, _, _) => RefFill(s, e, b);
      case Offer(_, _) => RefOffer(s, e, b);
      case Refuse(_, _) => RefOffer(s, e, b);
      case Evict(_) => RefPool(s, e, b);
      case SendOk(_) => RefSend(s, e, b);
      case SendFull(_) => RefSend(s, e, b);
      case Subscribe(_) => RefRequest(s, e, b);
      case Unsubscribe(_) => RefRequest(s, e, b);
      case Join(_) => RefRequest(s, e, b);
      case Leave(_) => RefRequest(s, e, b);
      case Connect(_) => RefConnect(s, e, b);
      case Receive(_) => RefReceive(s, e, b);
      case Write(_) => RefHandler(s, e, b);
      case Release(_) => RefHandler(s, e, b);
      case ClientPut(_) => RefHandler(s, e, b);
      case Finished(_) => RefHandler(s, e, b);
      case Take(_) => RefTake(s, e, b);
      case _ => RefHub(s, e, b);
    }
  }

  lemma RefInitial(s: State)
    requires Initial(s)
    ensures RefInv(s)
  {
    forall b ensures BlockOk(s, b) {
      SumZero(s.hubs, HubWaits, b);
      SumZero(s.hubs, HubShares, b);
      SumZero(s.hubs, HubOwns, b);
    }
  }

  /** In every interleaving of producers, hubs and handlers: a filled block's counter is its exact number of
      holders, and every block is pooled, owned or shared, with at most one Put outstanding per Get. */
  lemma {:induction false} CounterIsHolders(s: State, es: seq<Event>, s': State)
    requires RefInv(s) && Run(s, es, s')
    ensures RefInv(s')
    decreases |es|
  {
    hide Apply, BlockOk, Enabled;
    if es != [] {
      RefStep(s, es[0]);
      CounterIsHolders(Apply(s, es[0]), es[1..], s');
    }
  }

  /** What that means for one block, from the start of the program: its counter is exact while it is shared,
      it is pooled at most once and only while nobody holds it, and at most one Get is without its Put. */
  lemma CounterIsExact(s: State, es: seq<Event>, s': State, b: Block)
    requires Initial(s) && Run(s, es, s')
    ensures Held(s', b) > 0 ==> Count(s', b) == Held(s', b)
    ensures s'.pool[b] <= 1 && (s'.pool[b] == 1 ==> Held(s', b) == 0)
    ensures s'.puts[b] <= s'.gets[b] <= s'.puts[b] + 1
  {
    RefInitial(s);
    CounterIsHolders(s, es, s');
    assert BlockOk(s', b);
    hide Held, Owned, RefInv, Run;
  }

  /** A block is returned only while it is not pooled and nobody else holds it. */
  lemma ReturnsAreExclusive(s: State, e: Event, b: Block)
    requires RefInv(s) && Enabled(s, e) && Apply(s, e).puts[b] > s.puts[b]
    ensures s.pool[b] == 0 && Held(s, b) == If(e.Refuse?, 1)
  {
    hide Waiting, Sharing, Owned;
    assert BlockOk(s, b);
    if e.ClientPut? {
      ClientChange(s, Apply(s, e), e.c, b);
    } else {
      assert e.HubPut? || e.Refuse?;
      HubChange(s, Apply(s, e), e.h, b);
    }
  }

  lemma FillOwns(s: State, e: Event, b: Block)
    requires Enabled(s, e) && e.Fill?
    ensures e.b == b ==> Owned(s, b) > 0
  {
  }

  /** Only filling writes data. */
  lemma OnlyFillWrites(s: State, e: Event, b: Block)
    requires Enabled(s, e) && !(e.Fill? && e.b == b)
    ensures Data(Apply(s, e), b) == Data(s, b)
  {
    hide Enabled, Count;
  }

  /** Its data is overwritten only while nobody can read it. */
  lemma DataIsStable(s: State, e: Event, b: Block)
    requires RefInv(s) && Enabled(s, e)
    ensures Held(s, b) > 0 ==> Data(Apply(s, e), b) == Data(s, b)
  {
    assert BlockOk(s, b);
    hide Waiting, Sharing, Owned, Enabled, Count, Apply, Data;
    if e.Fill? && e.b == b {
      FillOwns(s, e, b);
    } else {
      OnlyFillWrites(s, e, b);
    }
  }

  /** When nothing is in flight and every handler is done, every Get has been matched by a Put. */
  lemma NothingLeaks(s: State, b: Block)
    requires RefInv(s) && s.filling[b] == 0
    requires forall hub :: hub in s.hubs ==>
               hub.loaded[b] == 0 && hub.central == [] && (hub.pc.Idle? || hub.pc.Stopped?)
    requires forall c :: c in s.clients ==> c.queue == [] && c.hand.Empty?
    ensures s.gets[b] == s.puts[b]
  {
    assert BlockOk(s, b);
    SumZero(s.hubs, HubWaits, b);
    SumZero(s.hubs, HubShares, b);
    SumZero(s.hubs, HubOwns, b);
    SumZero(s.clients, ClientHolds, b);
    SumZero(s.clients, ClientOwns, b);
  }
}
