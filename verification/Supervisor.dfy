/** The generation supervisor: the main loop, the shard runners with their deferred cleanup, the kill
    routine, the action bus and the packed PID word, as one interleaving of atomic steps. */
module Supervisor {
  import opened PidWord

  datatype Shard = Master | Caves

  /** The run of one shard in one generation. */
  datatype Id = Id(shard: Shard, gen: nat)

  datatype Action = MasterCrash | CavesCrash | GameUpdate | ModHotUpdate | ApiHalt | SystemHalt

  datatype Origin = Runner(id: Id) | Outside

  datatype Message = Message(action: Action, origin: Origin)

  datatype Bus = EmptyBus | FullBus(message: Message)

  /** The operating-system process and the goroutine that waits for it: it dies, the waiter posts the exit
      status, and then the waiter closes the death signal. */
  datatype Process = NotStarted | Live | Dead | Posted | Signalled

  /** Where a runner stands. From LoadClear on it is running its deferred calls. */
  datatype Phase =
    | Launching | BootFailed
    | SettingEpoch | LoadPid | SwapPid(loaded: Word) | Supervising | Crashed
    | LoadClear | SwapClear(loaded: Word)
    | KillCheck | KillProbe | KillSend | KillGrace | KillForce | KillWait
    | Cleanup | ZeroEpoch | CancelGen | SignalDone | Finished

  datatype Run = Run(phase: Phase, process: Process, pid: Pid, crashSent: bool)

  datatype MainPc =
    | Idle | Booting | PreUpdating | Opening | Draining | Spawning(shard: Shard)
    | Awaiting | Acting | Waiting | Deciding | PostUpdating | Exited

  /** trigger is the message the main loop took last; cancelled holds the generations whose context is cancelled. */
  datatype State = State(
    main: MainPc, gen: nat, cancelled: set<nat>, bus: Bus, trigger: Message,
    wg: int, runs: map<Id, Run>, word: Word, masterEpoch: int, cavesEpoch: int)

  datatype Event =
    // main loop
    | Allow | Leave | StartUpdate | SkipUpdate | EndUpdate | Open | Drain | Spawn | Skip
    | TakeAction | TakeShutdown | FinishActing | PassWait | Decide | EndPostUpdate
    // one runner
    | StartOk(id: Id, pid: Pid) | StartFail(id: Id) | SendCrash(id: Id)
    | SetEpoch(id: Id, epoch: int) | Load(id: Id) | Swap(id: Id)
    | SeeCancel(id: Id) | SeeExit(id: Id)
    | CheckReady(id: Id, ready: bool) | ProbeDeath(id: Id) | SendShutdown(id: Id, sent: bool)
    | GraceDeath(id: Id) | GraceTimeout(id: Id) | Force(id: Id) | SeeDeath(id: Id)
    | Clean(id: Id) | Zero(id: Id) | Cancel(id: Id) | Done(id: Id)
    // everything else
    | Dies(id: Id) | Post(id: Id) | Close(id: Id)
    | OutsideSend(action: Action) | ApiCancel(gen: nat) | GlobalCancel

  // ---- transitions ----

  predicate At(s: State, id: Id, phase: Phase) {
    id in s.runs && s.runs[id].phase == phase
  }

  predicate IsSwap(s: State, id: Id) {
    id in s.runs && (s.runs[id].phase.SwapPid? || s.runs[id].phase.SwapClear?)
  }

  /** The channel send with a default branch: a full bus drops the message. */
  function Send(bus: Bus, m: Message): Bus {
    if bus.EmptyBus? then FullBus(m) else bus
  }

  function CrashOf(shard: Shard): Action {
    if shard.Master? then MasterCrash else CavesCrash
  }

  function WithPid(word: Word, shard: Shard, pid: Pid): Word {
    if shard.Master? then WithHigh(word, pid) else WithLow(word, pid)
  }

  /** A run's first loop stores its PID, its deferred loop stores zero. */
  function SwapValue(r: Run): Pid {
    if r.phase.SwapPid? then r.pid else NO_PID
  }

  function StoreEpoch(s: State, shard: Shard, epoch: int): State {
    if shard.Master? then s.(masterEpoch := epoch) else s.(cavesEpoch := epoch)
  }

  predicate IsMain(e: Event) {
    || e.Allow? || e.Leave? || e.StartUpdate? || e.SkipUpdate? || e.EndUpdate?
    || e.Open? || e.Drain? || e.Spawn? || e.Skip? || e.TakeAction? || e.TakeShutdown? || e.FinishActing?
    || e.PassWait? || e.Decide? || e.EndPostUpdate?
  }

  predicate IsOutside(e: Event) {
    e.OutsideSend? || e.ApiCancel? || e.GlobalCancel?
  }

  predicate Enabled(s: State, e: Event) {
    match e
    case Allow => s.main.Idle?
    case Leave => s.main.Idle?
    case StartUpdate => s.main.Booting?
    case SkipUpdate => s.main.Booting?
    case EndUpdate => s.main.PreUpdating?
    case Open => s.main.Opening?
    case Drain => s.main.Draining?
    case Spawn => s.main.Spawning?
    case Skip => s.main.Spawning?
    case TakeAction => s.main.Awaiting? && s.bus.FullBus?
    case TakeShutdown => s.main.Awaiting?
    case FinishActing => s.main.Acting?
    case PassWait => s.main.Waiting? && s.wg == 0
    case Decide => s.main.Deciding?
    case EndPostUpdate => s.main.PostUpdating?
    case StartOk(id, _) => At(s, id, Launching)
    case StartFail(id) => At(s, id, Launching)
    case SendCrash(id) => At(s, id, BootFailed) || At(s, id, Crashed)
    case SetEpoch(id, epoch) => At(s, id, SettingEpoch) && epoch != 0
    case Load(id) => At(s, id, LoadPid) || At(s, id, LoadClear)
    case Swap(id) => IsSwap(s, id)
    case SeeCancel(id) => At(s, id, Supervising) && id.gen in s.cancelled
    case SeeExit(id) => At(s, id, Supervising) && (s.runs[id].process.Posted? || s.runs[id].process.Signalled?)
    case CheckReady(id, _) => At(s, id, KillCheck)
    case ProbeDeath(id) => At(s, id, KillProbe)
    case SendShutdown(id, _) => At(s, id, KillSend)
    case GraceDeath(id) => At(s, id, KillGrace) && s.runs[id].process.Signalled?
    case GraceTimeout(id) => At(s, id, KillGrace)
    case Force(id) => At(s, id, KillForce)
    case SeeDeath(id) => At(s, id, KillWait) && s.runs[id].process.Signalled?
    case Clean(id) => At(s, id, Cleanup)
    case Zero(id) => At(s, id, ZeroEpoch)
    case Cancel(id) => At(s, id, CancelGen)
    case Done(id) => At(s, id, SignalDone)
    case Dies(id) => id in s.runs && s.runs[id].process.Live?
    case Post(id) => id in s.runs && s.runs[id].process.Dead?
    case Close(id) => id in s.runs && s.runs[id].process.Posted?
    case OutsideSend(_) => true
    case ApiCancel(gen) => gen <= s.gen
    case GlobalCancel => true
  }

  /** What a step of a runner, or of its process, makes of the run's own record. */
  function RunAfter(r: Run, e: Event, word: Word): Run {
    match e
    case StartOk(_, pid) => r.(phase := SettingEpoch, process := Live, pid := pid)
    case StartFail(_) => r.(phase := BootFailed)
    case SendCrash(_) => r.(phase := if r.phase.BootFailed? then Cleanup else LoadClear, crashSent := true)
    case SetEpoch(_, _) => r.(phase := LoadPid)
    case Load(_) => r.(phase := if r.phase.LoadPid? then SwapPid(word) else SwapClear(word))
    case Swap(_) =>
      if r.phase.SwapPid? then r.(phase := if word == r.phase.loaded then Supervising else LoadPid)
      else if r.phase.SwapClear? then r.(phase := if word == r.phase.loaded then KillCheck else LoadClear)
      else r
    case SeeCancel(_) => r.(phase := LoadClear)
    case SeeExit(_) => r.(phase := Crashed)
    case CheckReady(_, ready) => r.(phase := if ready then KillProbe else KillForce)
    case ProbeDeath(_) => r.(phase := if r.process.Signalled? then Cleanup else KillSend)
    case SendShutdown(_, sent) => r.(phase := if sent then KillGrace else KillForce)
    case GraceDeath(_) => r.(phase := Cleanup)
    case GraceTimeout(_) => r.(phase := KillForce)
    case Force(_) => r.(phase := KillWait)
    case SeeDeath(_) => r.(phase := Cleanup)
    case Clean(_) => r.(phase := ZeroEpoch)
    case Zero(_) => r.(phase := CancelGen)
    case Cancel(_) => r.(phase := SignalDone)
    case Done(_) => r.(phase := Finished)
    case Dies(_) => r.(process := Dead)
    case Post(_) => r.(process := Posted)
    case Close(_) => r.(process := Signalled)
    case _ => r
  }

  /** What it makes of everything else. A compare-and-swap stores only when nobody changed the word since
      it was loaded; otherwise the run goes back to loading. */
  function SharedAfter(s: State, e: Event): State
    requires Enabled(s, e) && !IsMain(e) && !IsOutside(e)
  {
    var r := s.runs[e.id];
    match e
    case SendCrash(id) => s.(bus := Send(s.bus, Message(CrashOf(id.shard), Runner(id))))
    case SetEpoch(id, epoch) => StoreEpoch(s, id.shard, epoch)
    case Swap(id) =>
      if s.word == r.phase.loaded then s.(word := WithPid(r.phase.loaded, id.shard, SwapValue(r)))
      else s
    case Zero(id) => StoreEpoch(s, id.shard, 0)
    case Cancel(id) => s.(cancelled := s.cancelled + {id.gen})
    case Done(_) => s.(wg := s.wg - 1)
    case _ => s
  }

  function MainAfter(s: State, e: Event): State
    requires Enabled(s, e) && IsMain(e)
  {
    match e
    case Allow => s.(main := Booting)
    case Leave => s.(main := Exited)
    case StartUpdate => s.(main := PreUpdating)
    case SkipUpdate => s.(main := Opening)
    case EndUpdate => s.(main := Opening)
    case Open => s.(main := Draining, gen := s.gen + 1)
    case Drain => s.(main := Spawning(Master), bus := EmptyBus)
    case Spawn =>
      s.(main := if s.main.shard.Master? then Spawning(Caves) else Awaiting, wg := s.wg + 1,
         runs := s.runs[Id(s.main.shard, s.gen) := Run(Launching, NotStarted, NO_PID, false)])
    case Skip => s.(main := if s.main.shard.Master? then Spawning(Caves) else Awaiting)
    case TakeAction => s.(main := Acting, trigger := s.bus.message, bus := EmptyBus)
    case TakeShutdown => s.(main := Acting, trigger := Message(SystemHalt, Outside))
    case FinishActing => s.(main := Waiting, cancelled := s.cancelled + {s.gen})
    case PassWait => s.(main := Deciding)
    case Decide =>
      s.(main := if s.trigger.action.GameUpdate? then PostUpdating
                 else if s.trigger.action.SystemHalt? then Exited else Idle)
    case EndPostUpdate => s.(main := Idle)
  }

  /** Other goroutines: senders to the bus, /api/stop and /api/restart, and the global shutdown. */
  function OutsideAfter(s: State, e: Event): State
    requires Enabled(s, e) && IsOutside(e)
  {
    match e
    case OutsideSend(action) => s.(bus := Send(s.bus, Message(action, Outside)))
    case ApiCancel(gen) => s.(cancelled := s.cancelled + {gen})
    case GlobalCancel => s.(cancelled := s.cancelled + {s.gen})
  }

  function Apply(s: State, e: Event): State
    requires Enabled(s, e)
  {
    if IsMain(e) then MainAfter(s, e)
    else if IsOutside(e) then OutsideAfter(s, e)
    else SharedAfter(s, e).(runs := s.runs[e.id := RunAfter(s.runs[e.id], e, s.word)])
  }

  predicate Initial(s: State) {
    && s.main.Idle? && s.gen == 0 && s.wg == 0 && s.runs == map[] && s.bus.EmptyBus? && s.cancelled == {}
    && s.word == Word(0) && s.masterEpoch == 0 && s.cavesEpoch == 0
  }

  predicate Runs(s: State, es: seq<Event>, s': State)
    decreases |es|
  {
    if es == [] then s' == s else Enabled(s, es[0]) && Runs(Apply(s, es[0]), es[1..], s')
  }

  // ---- the invariant ----

  predicate Unfinished(runs: map<Id, Run>, id: Id) {
    id in runs && !runs[id].phase.Finished?
  }

  function One(b: bool): nat {
    if b then 1 else 0
  }

  /** This generation's unfinished runs. */
  function Running(runs: map<Id, Run>, gen: nat): nat {
    One(Unfinished(runs, Id(Master, gen))) + One(Unfinished(runs, Id(Caves, gen)))
  }

  /** The phases in which the runner answers for a started process. */
  predicate Answers(p: Phase) {
    p.SettingEpoch? || p.LoadPid? || p.SwapPid? || p.Supervising? || p.Crashed? || p.LoadClear? || p.SwapClear? ||
    p.KillCheck? || p.KillProbe? || p.KillSend? || p.KillGrace? || p.KillForce? || p.KillWait?
  }

  /** A process that was started is answered for until its death signal is closed. */
  predicate ProcessOk(r: Run) {
    && (Answers(r.phase) ==> !r.process.NotStarted?)
    && (r.phase.Launching? || r.phase.BootFailed? ==> r.process.NotStarted?)
    && (r.process.Live? || r.process.Dead? || r.process.Posted? ==> Answers(r.phase))
  }

  /** The phases in which the runner's PID is in the word. */
  predicate ShowsPid(p: Phase) {
    p.Supervising? || p.Crashed? || p.LoadClear? || p.SwapClear?
  }

  function ShownPid(s: State, shard: Shard): Pid {
    var id := Id(shard, s.gen);
    if id in s.runs && ShowsPid(s.runs[id].phase) then s.runs[id].pid else NO_PID
  }

  /** The phases in which the runner's epoch is published. */
  predicate ShowsEpoch(p: Phase) {
    (Answers(p) && !p.SettingEpoch?) || p.Cleanup? || p.ZeroEpoch?
  }

  predicate EpochOk(s: State, shard: Shard, epoch: int) {
    var id := Id(shard, s.gen);
    epoch != 0 ==> id in s.runs && ShowsEpoch(s.runs[id].phase)
  }

  predicate Quiescent(m: MainPc) {
    m.Idle? || m.Booting? || m.PreUpdating? || m.Opening? || m.Deciding? || m.PostUpdating? || m.Exited?
  }

  /** Whether this generation's run of a shard can exist already. */
  predicate MayRun(m: MainPc, shard: Shard) {
    !m.Draining? && (m.Spawning? ==> m.shard.Caves? && shard.Master?)
  }

  ghost predicate GenInv(s: State) {
    && (forall id :: id in s.runs ==> id.gen <= s.gen && ProcessOk(s.runs[id]))
    && (forall id :: id in s.runs && !s.runs[id].phase.Finished? ==> id.gen == s.gen && !Quiescent(s.main))
    && (forall id :: id in s.runs && id.gen == s.gen ==> MayRun(s.main, id.shard))
    && s.wg == Running(s.runs, s.gen)
    && (s.main.Waiting? ==> s.gen in s.cancelled)
  }

  function Half(word: Word, shard: Shard): Pid {
    if shard.Master? then High(word) else Low(word)
  }

  predicate PidOk(s: State, shard: Shard) {
    Half(s.word, shard) == ShownPid(s, shard)
  }

  predicate PidInv(s: State) {
    PidOk(s, Master) && PidOk(s, Caves)
  }

  predicate EpochInv(s: State) {
    EpochOk(s, Master, s.masterEpoch) && EpochOk(s, Caves, s.cavesEpoch)
  }

  predicate BeforeTake(m: MainPc) {
    m.Spawning? || m.Awaiting?
  }

  predicate AfterTake(m: MainPc) {
    m.Acting? || m.Waiting? || m.Deciding? || m.PostUpdating?
  }

  /** A message of a runner that main can take, or has taken, in a generation is of that generation. */
  predicate MessagesOk(s: State) {
    && (s.bus.FullBus? && s.bus.message.origin.Runner? ==> s.bus.message.origin.id.gen <= s.gen)
    && (s.bus.FullBus? && s.bus.message.origin.Runner? && BeforeTake(s.main) ==> s.bus.message.origin.id.gen == s.gen)
    && (AfterTake(s.main) && s.trigger.origin.Runner? ==> s.trigger.origin.id.gen == s.gen)
  }

  /** The crash wake-up: once the bus was offered a crash, it holds something until main takes it. */
  ghost predicate CrashesOk(s: State) {
    forall id :: id in s.runs && id.gen == s.gen && s.runs[id].crashSent && BeforeTake(s.main) ==> s.bus.FullBus?
  }

  ghost predicate CancelsOk(s: State) {
    forall id :: id in s.runs && (s.runs[id].phase.SignalDone? || s.runs[id].phase.Finished?) ==> id.gen in s.cancelled
  }

  ghost predicate BusInv(s: State) {
    MessagesOk(s) && CrashesOk(s) && CancelsOk(s)
  }

  // ---- every step keeps it ----

  /** The wait group counts this generation's unfinished runs, so an empty one means no run is unfinished. */
  lemma NobodyLeft(s: State)
    requires GenInv(s) && s.wg == 0
    ensures forall id :: id in s.runs ==> s.runs[id].phase.Finished?
  {
    hide ProcessOk, MayRun, Quiescent;
    forall id | id in s.runs
      ensures s.runs[id].phase.Finished?
    {
      assert !Unfinished(s.runs, Id(Master, s.gen)) && !Unfinished(s.runs, Id(Caves, s.gen));
      match id.shard
      case Master => assert id == Id(Master, id.gen);
      case Caves => assert id == Id(Caves, id.gen);
    }
  }

  lemma RunningAfter(runs: map<Id, Run>, gen: nat, id: Id, r: Run)
    requires id.gen == gen
    ensures Running(runs[id := r], gen) == Running(runs, gen) - One(Unfinished(runs, id)) + One(!r.phase.Finished?)
  {
    var other := Id(if id.shard.Master? then Caves else Master, gen);
    assert Unfinished(runs[id := r], other) == Unfinished(runs, other);
    assert id == Id(id.shard, gen);
  }

  lemma GenSpawn(s: State, e: Event)
    requires GenInv(s) && Enabled(s, e) && e.Spawn?
    ensures GenInv(Apply(s, e))
  {
    var id := Id(s.main.shard, s.gen);
    assert id !in s.runs;
    RunningAfter(s.runs, s.gen, id, Run(Launching, NotStarted, NO_PID, false));
    hide Running;
  }

  lemma GenPassWait(s: State, e: Event)
    requires GenInv(s) && Enabled(s, e) && e.PassWait?
    ensures GenInv(Apply(s, e))
  {
    NobodyLeft(s);
    hide ProcessOk, Running;
  }

  lemma GenOpen(s: State, e: Event)
    requires GenInv(s) && Enabled(s, e) && e.Open?
    ensures GenInv(Apply(s, e))
  {
    hide ProcessOk;
    assert Id(Master, s.gen + 1) !in s.runs && Id(Caves, s.gen + 1) !in s.runs;
    assert !Unfinished(s.runs, Id(Master, s.gen)) && !Unfinished(s.runs, Id(Caves, s.gen));
  }

  lemma GenMain(s: State, e: Event)
    requires GenInv(s) && Enabled(s, e) && IsMain(e)
    ensures GenInv(Apply(s, e))
  {
    hide ProcessOk, Running;
    if e.Spawn? {
      GenSpawn(s, e);
    } else if e.PassWait? {
      GenPassWait(s, e);
    } else if e.Open? {
      GenOpen(s, e);
    }
  }

  lemma GenOutside(s: State, e: Event)
    requires GenInv(s) && Enabled(s, e) && IsOutside(e)
    ensures GenInv(Apply(s, e))
  {
  }

  /** One run on its own: a started process stays answered for until its death signal is closed. */
  lemma RunKept(s: State, e: Event)
    requires Enabled(s, e) && !IsMain(e) && !IsOutside(e) && ProcessOk(s.runs[e.id])
    ensures var r, r' := s.runs[e.id], RunAfter(s.runs[e.id], e, s.word);
            ProcessOk(r') && !r.phase.Finished? && (r'.phase.Finished? <==> e.Done?)
  {
  }

  lemma SharedKept(s: State, e: Event)
    requires Enabled(s, e) && !IsMain(e) && !IsOutside(e)
    ensures var s' := SharedAfter(s, e);
            && s'.main == s.main && s'.gen == s.gen && s'.runs == s.runs && s'.trigger == s.trigger
            && s.cancelled <= s'.cancelled && s'.wg == s.wg - One(e.Done?)
            && (s'.cancelled == s.cancelled || e.Cancel?)
            && (s'.bus == s.bus
                || (e.SendCrash? && s.bus.EmptyBus? && s'.bus == FullBus(Message(CrashOf(e.id.shard), Runner(e.id)))))
            && (e.SendCrash? ==> s'.bus.FullBus?) && (e.Cancel? ==> e.id.gen in s'.cancelled)
  {
  }

  lemma ApplyRunner(s: State, e: Event)
    requires Enabled(s, e) && !IsMain(e) && !IsOutside(e)
    ensures e.id in s.runs
    ensures Apply(s, e) == SharedAfter(s, e).(runs := s.runs[e.id := RunAfter(s.runs[e.id], e, s.word)])
  {
  }

  lemma GenRunner(s: State, e: Event)
    requires GenInv(s) && Enabled(s, e) && !IsMain(e) && !IsOutside(e)
    ensures GenInv(Apply(s, e))
  {
    ApplyRunner(s, e);
    hide Enabled, Apply, RunAfter, SharedAfter, MayRun, Quiescent, IsMain, IsOutside;
    assert ProcessOk(s.runs[e.id]);
    hide ProcessOk;
    RunKept(s, e);
    SharedKept(s, e);
    assert Unfinished(s.runs, e.id);
    RunningAfter(s.runs, s.gen, e.id, RunAfter(s.runs[e.id], e, s.word));
    hide Running, Unfinished;
  }

  /** The main loop starts a generation when no run is unfinished, so when no PID and no epoch is out. */
  lemma NothingShown(s: State, shard: Shard)
    requires GenInv(s) && Quiescent(s.main)
    ensures ShownPid(s, shard) == NO_PID && (forall epoch :: EpochOk(s, shard, epoch) ==> epoch == 0)
  {
  }

  lemma ShownMain(s: State, e: Event, shard: Shard)
    requires GenInv(s) && Enabled(s, e) && IsMain(e)
    ensures var s' := Apply(s, e);
            && s'.word == s.word && s'.masterEpoch == s.masterEpoch && s'.cavesEpoch == s.cavesEpoch
            && ShownPid(s', shard) == ShownPid(s, shard)
            && (forall epoch :: EpochOk(s, shard, epoch) ==> EpochOk(s', shard, epoch))
  {
    if e.Open? {
      NothingShown(s, shard);
      assert Id(shard, s.gen + 1) !in s.runs;
    } else if e.Spawn? {
      assert Id(s.main.shard, s.gen) !in s.runs;
      hide GenInv;
    } else {
      hide GenInv, ShowsPid, ShowsEpoch;
    }
  }

  lemma WordMain(s: State, e: Event)
    requires GenInv(s) && PidInv(s) && EpochInv(s) && Enabled(s, e) && IsMain(e)
    ensures PidInv(Apply(s, e)) && EpochInv(Apply(s, e))
  {
    ShownMain(s, e, Master);
    ShownMain(s, e, Caves);
    hide GenInv, Half, Enabled, Apply, IsMain, ShownPid, EpochOk;
  }

  lemma WordOutside(s: State, e: Event)
    requires PidInv(s) && EpochInv(s) && Enabled(s, e) && IsOutside(e)
    ensures PidInv(Apply(s, e)) && EpochInv(Apply(s, e))
  {
  }

  predicate Swapped(s: State, e: Event) {
    e.Swap? && e.id in s.runs && IsSwap(s, e.id) && s.word == s.runs[e.id].phase.loaded
  }

  /** The successful swap of one shard stores that shard's half and keeps the other. */
  lemma HalfAfter(s: State, e: Event, shard: Shard)
    requires Enabled(s, e) && !IsMain(e) && !IsOutside(e)
    ensures var s' := SharedAfter(s, e);
            Half(s'.word, shard)
            == if Swapped(s, e) && shard == e.id.shard then SwapValue(s.runs[e.id]) else Half(s.word, shard)
  {
    hide High, Low, WithHigh, WithLow;
    if !e.Swap? {
      hide Half, WithPid;
    }
  }

  lemma EpochsAfter(s: State, e: Event)
    requires Enabled(s, e) && !IsMain(e) && !IsOutside(e)
    ensures var s' := SharedAfter(s, e);
            && s'.masterEpoch == (if e.id.shard.Caves? then s.masterEpoch
                                  else if e.SetEpoch? then e.epoch else if e.Zero? then 0 else s.masterEpoch)
            && s'.cavesEpoch == (if e.id.shard.Master? then s.cavesEpoch
                                 else if e.SetEpoch? then e.epoch else if e.Zero? then 0 else s.cavesEpoch)
  {
    hide High, Low, WithHigh, WithLow, WithPid;
  }

  /** A run's PID is in the word from its successful swap to its successful clear. */
  lemma RunShowsPid(s: State, e: Event)
    requires Enabled(s, e) && !IsMain(e) && !IsOutside(e)
    ensures var r, r' := s.runs[e.id], RunAfter(s.runs[e.id], e, s.word);
            (if ShowsPid(r'.phase) then r'.pid else NO_PID)
            == if Swapped(s, e) then SwapValue(r) else if ShowsPid(r.phase) then r.pid else NO_PID
  {
  }

  /** Its epoch is out from when it is set to when it is zeroed. */
  lemma RunShowsEpoch(s: State, e: Event)
    requires Enabled(s, e) && !IsMain(e) && !IsOutside(e)
    requires ShowsEpoch(s.runs[e.id].phase) || e.SetEpoch?
    ensures ShowsEpoch(RunAfter(s.runs[e.id], e, s.word).phase) || e.Zero?
  {
  }

  /** Changing one of this generation's runs changes what is shown for that shard only. */
  lemma ShownAfter(s: State, s': State, id: Id, r: Run, shard: Shard)
    requires id == Id(id.shard, s.gen) && s'.gen == s.gen && s'.runs == s.runs[id := r]
    ensures ShownPid(s', shard) ==
            if shard != id.shard then ShownPid(s, shard) else if ShowsPid(r.phase) then r.pid else NO_PID
  {
    hide ShowsPid;
  }

  lemma EpochKept(s: State, s': State, id: Id, r: Run, shard: Shard, epoch: int)
    requires id == Id(id.shard, s.gen) && s'.gen == s.gen && s'.runs == s.runs[id := r]
    requires if shard != id.shard then EpochOk(s, shard, epoch) else epoch != 0 ==> ShowsEpoch(r.phase)
    ensures EpochOk(s', shard, epoch)
  {
    hide ShowsEpoch;
  }

  lemma PidRunner(s: State, e: Event, shard: Shard)
    requires PidOk(s, shard) && Enabled(s, e) && !IsMain(e) && !IsOutside(e) && e.id.gen == s.gen
    ensures PidOk(Apply(s, e), shard)
  {
    ApplyRunner(s, e);
    assert e.id == Id(e.id.shard, s.gen);
    var r', s' := RunAfter(s.runs[e.id], e, s.word), Apply(s, e);
    SharedKept(s, e);
    HalfAfter(s, e, shard);
    RunShowsPid(s, e);
    ShownAfter(s, s', e.id, r', shard);
    hide Enabled, Apply, RunAfter, SharedAfter, IsMain, IsOutside, ShowsPid, Half, Swapped, SwapValue;
  }

  lemma EpochRunner(s: State, e: Event)
    requires EpochInv(s) && Enabled(s, e) && !IsMain(e) && !IsOutside(e) && e.id.gen == s.gen
    ensures EpochInv(Apply(s, e))
  {
    ApplyRunner(s, e);
    SharedKept(s, e);
    EpochsAfter(s, e);
    if ShowsEpoch(s.runs[e.id].phase) || e.SetEpoch? {
      RunShowsEpoch(s, e);
    }
    var r', s' := RunAfter(s.runs[e.id], e, s.word), Apply(s, e);
    hide Enabled, Apply, RunAfter, SharedAfter, IsMain, IsOutside, ShowsEpoch;
    EpochKept(s, s', e.id, r', Master, s'.masterEpoch);
    EpochKept(s, s', e.id, r', Caves, s'.cavesEpoch);
  }

  /** Only this generation's runs still take steps that matter to the shared state. */
  lemma RunnerIsCurrent(s: State, e: Event)
    requires GenInv(s) && Enabled(s, e) && !IsMain(e) && !IsOutside(e)
    ensures e.id in s.runs && e.id.gen == s.gen
  {
    assert ProcessOk(s.runs[e.id]);
  }

  lemma BusMain(s: State, e: Event)
    requires GenInv(s) && BusInv(s) && Enabled(s, e) && IsMain(e)
    ensures BusInv(Apply(s, e))
  {
  }

  lemma BusOutside(s: State, e: Event)
    requires BusInv(s) && Enabled(s, e) && IsOutside(e)
    ensures BusInv(Apply(s, e))
  {
  }

  lemma RunMarks(s: State, e: Event)
    requires Enabled(s, e) && !IsMain(e) && !IsOutside(e)
    ensures var r, r' := s.runs[e.id], RunAfter(s.runs[e.id], e, s.word);
            && (r'.crashSent <==> r.crashSent || e.SendCrash?)
            && (r'.phase.SignalDone? || r'.phase.Finished? ==> r.phase.SignalDone? || r.phase.Finished? || e.Cancel?)
  {
  }

  lemma BusRunner(s: State, e: Event)
    requires GenInv(s) && BusInv(s) && Enabled(s, e) && !IsMain(e) && !IsOutside(e)
    ensures BusInv(Apply(s, e))
  {
    ApplyRunner(s, e);
    RunnerIsCurrent(s, e);
    SharedKept(s, e);
    RunMarks(s, e);
    hide GenInv, Enabled, Apply, RunAfter, SharedAfter, IsMain, IsOutside, CrashOf, BeforeTake, AfterTake;
    var s' := Apply(s, e);
    assert MessagesOk(s') by {
      hide CrashesOk, CancelsOk;
    }
    assert CrashesOk(s') by {
      hide MessagesOk, CancelsOk;
    }
    assert CancelsOk(s') by {
      hide MessagesOk, CrashesOk;
    }
  }

  ghost predicate Inv(s: State) {
    GenInv(s) && PidInv(s) && EpochInv(s) && BusInv(s)
  }

  lemma Step(s: State, e: Event)
    requires Inv(s) && Enabled(s, e)
    ensures Inv(Apply(s, e))
  {
    hide GenInv, PidOk, EpochInv, BusInv, Apply, Enabled;
    if IsMain(e) {
      GenMain(s, e);
      WordMain(s, e);
      BusMain(s, e);
    } else if IsOutside(e) {
      GenOutside(s, e);
      WordOutside(s, e);
      BusOutside(s, e);
    } else {
      GenRunner(s, e);
      RunnerIsCurrent(s, e);
      PidRunner(s, e, Master);
      PidRunner(s, e, Caves);
      EpochRunner(s, e);
      BusRunner(s, e);
    }
  }

  lemma InitialInv(s: State)
    requires Initial(s)
    ensures Inv(s)
  {
  }

  /** The invariant holds in every state of every run. */
  lemma {:induction false} InvHolds(s: State, es: seq<Event>, s': State)
    requires Inv(s) && Runs(s, es, s')
    ensures Inv(s')
    decreases |es|
  {
    hide Inv, Apply, Enabled;
    if es != [] {
      Step(s, es[0]);
      InvHolds(Apply(s, es[0]), es[1..], s');
    }
  }
}
