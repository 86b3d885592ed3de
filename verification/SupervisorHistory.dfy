/** What happened before: in every run the events of the main loop, of each runner and of each process come in the
    order of the program, each for its reason, and the main loop ends up where the action it took sends it. */
module SupervisorHistory {
  import opened PidWord
  import opened Supervisor
  import opened Wrappers

  // ---- the order of a runner's steps ----

  /** The steps of a runner itself; the others are those of its process. */
  predicate IsRunnerStep(e: Event) {
    !IsMain(e) && !IsOutside(e) && !e.Dies? && !e.Post? && !e.Close?
  }

  /** The steps of one run. */
  function Own(es: seq<Event>, id: Id): seq<Event> {
    if es == [] then []
    else
      var e := es[|es| - 1];
      Own(es[..|es| - 1], id) + if IsRunnerStep(e) && e.id == id then [e] else []
  }

  /** The runner has left its supervision, and runs its deferred calls. */
  predicate Stopped(h: seq<Event>) {
    exists e :: e in h && (e.SeeCancel? || e.SeeExit?)
  }

  /** What a runner may do next. It starts its process or reports that it could not; publishes its epoch and its
      PID; supervises until it is cancelled or sees the exit, which it reports; and then takes its PID back, ends
      the process, and cleans up. A server that is not ready is killed, and so is one whose command was refused or
      that outlived its grace; a ready one gets the command first. */
  predicate MayFollow(h: seq<Event>, e: Event) {
    if h == [] then e.StartOk? || e.StartFail?
    else
      match h[|h| - 1]
      case StartOk(_, _) => e.SetEpoch?
      case StartFail(_) => e.SendCrash?
      case SetEpoch(_, _) => e.Load?
      case Load(_) => e.Swap?
      case Swap(_) => e.Load? || if Stopped(h) then e.CheckReady? else e.SeeCancel? || e.SeeExit?
      case SeeCancel(_) => e.Load?
      case SeeExit(_) => e.SendCrash?
      case SendCrash(_) => if Stopped(h) then e.Load? else e.Clean?
      case CheckReady(_, ready) => if ready then e.ProbeDeath? else e.Force?
      case ProbeDeath(_) => e.SendShutdown? || e.Clean?
      case SendShutdown(_, sent) => if sent then e.GraceDeath? || e.GraceTimeout? else e.Force?
      case GraceDeath(_) => e.Clean?
      case GraceTimeout(_) => e.Force?
      case Force(_) => e.SeeDeath?
      case SeeDeath(_) => e.Clean?
      case Clean(_) => e.Zero?
      case Zero(_) => e.Cancel?
      case Cancel(_) => e.Done?
      case _ => false
  }

  predicate Ordered(h: seq<Event>) {
    forall k :: 0 <= k < |h| ==> MayFollow(h[..k], h[k])
  }

  // ---- the order of the main loop ----

  function MainSteps(es: seq<Event>): seq<Event> {
    if es == [] then []
    else
      var e := es[|es| - 1];
      MainSteps(es[..|es| - 1]) + if IsMain(e) then [e] else []
  }

  /** The action that waits on the bus: the first one sent since the bus was empty. */
  function Pending(es: seq<Event>): Option<Action> {
    if es == [] then None
    else
      var before := Pending(es[..|es| - 1]);
      match es[|es| - 1]
      case SendCrash(id) => if before.Some? then before else Some(if id.shard.Master? then MasterCrash else CavesCrash)
      case OutsideSend(action) => if before.Some? then before else Some(action)
      case Drain => None
      case TakeAction => None
      case _ => before
  }

  /** The action the main loop took last; a shutdown of the program counts as one. */
  function Taken(es: seq<Event>): Option<Action> {
    if es == [] then None
    else
      match es[|es| - 1]
      case TakeAction => Pending(es[..|es| - 1])
      case TakeShutdown => Some(SystemHalt)
      case _ => Taken(es[..|es| - 1])
  }

  /** What the main loop may do next; taken is the action it took last. Only a game update overwrites the binary
      after the wait, and only a system halt ends the loop there. */
  predicate MainMayFollow(h: seq<Event>, e: Event, taken: Option<Action>) {
    if h == [] then e.Allow? || e.Leave?
    else
      match h[|h| - 1]
      case Allow => e.StartUpdate? || e.SkipUpdate?
      case StartUpdate => e.EndUpdate?
      case SkipUpdate => e.Open?
      case EndUpdate => e.Open?
      case Open => e.Drain?
      case Drain => e.Spawn? || e.Skip?
      case Spawn => SpawnMayFollow(h, e)
      case Skip => SpawnMayFollow(h, e)
      case TakeAction => e.FinishActing?
      case TakeShutdown => e.FinishActing?
      case FinishActing => e.PassWait?
      case PassWait => e.Decide?
      case Decide =>
        if taken == Some(GameUpdate) then e.EndPostUpdate?
        else if taken == Some(SystemHalt) then false
        else e.Allow? || e.Leave?
      case EndPostUpdate => e.Allow? || e.Leave?
      case _ => false
  }

  /** Two shards are started or skipped before the main loop awaits an action. */
  predicate SpawnMayFollow(h: seq<Event>, e: Event) {
    if |h| > 1 && h[|h| - 2].Drain? then e.Spawn? || e.Skip? else e.TakeAction? || e.TakeShutdown?
  }

  predicate MainOrdered(es: seq<Event>) {
    forall k :: 0 <= k < |es| && IsMain(es[k]) ==> MainMayFollow(MainSteps(es[..k]), es[k], Taken(es[..k]))
  }

  // ---- reasons ----

  function Opens(es: seq<Event>): nat {
    if es == [] then 0 else Opens(es[..|es| - 1]) + if es[|es| - 1].Open? then 1 else 0
  }

  /** The generations that were cancelled: by the main loop before it waits, by a runner that ends, by the API, or
      by the shutdown of the program. */
  function Cancels(es: seq<Event>): set<nat> {
    if es == [] then {}
    else
      var before := es[..|es| - 1];
      Cancels(before) +
      match es[|es| - 1]
      case FinishActing => {Opens(before)}
      case Cancel(id) => {id.gen}
      case ApiCancel(gen) => {gen}
      case GlobalCancel => {Opens(before)}
      case _ => {}
  }

  /** The epoch a shard publishes: the one its runner set last, until it is taken back. */
  function EpochOf(es: seq<Event>, shard: Shard): int {
    if es == [] then 0
    else
      var before := EpochOf(es[..|es| - 1], shard);
      match es[|es| - 1]
      case SetEpoch(id, epoch) => if id.shard == shard then epoch else before
      case Zero(id) => if id.shard == shard then 0 else before
      case _ => before
  }

  /** What must have happened before an event: a runner is cancelled only after a cancellation of its generation,
      and sees its process exit or die only after it did. */
  predicate Caused(before: seq<Event>, e: Event) {
    match e
    case SeeCancel(id) => id.gen in Cancels(before)
    case SeeExit(id) => Post(id) in before
    case GraceDeath(id) => Close(id) in before
    case SeeDeath(id) => Close(id) in before
    case Post(id) => Dies(id) in before
    case Close(id) => Post(id) in before
    case TakeAction => Pending(before).Some?
    case _ => true
  }

  predicate AllCaused(es: seq<Event>) {
    forall k :: 0 <= k < |es| ==> Caused(es[..k], es[k])
  }

  // ---- the invariant ----

  /** The last step of a run, by its phase. */
  predicate PhaseAfter(p: Phase, h: seq<Event>) {
    if p.Launching? then h == []
    else
      && h != []
      && var e := h[|h| - 1];
         match p
         case BootFailed => e.StartFail? && !Stopped(h)
         case SettingEpoch => e.StartOk? && !Stopped(h)
         case LoadPid => (e.SetEpoch? || e.Swap?) && !Stopped(h)
         case SwapPid(_) => e.Load? && !Stopped(h)
         case Supervising => e.Swap? && !Stopped(h)
         case Crashed => e.SeeExit?
         case LoadClear => Stopped(h) && (e.SeeCancel? || e.SendCrash? || e.Swap?)
         case SwapClear(_) => Stopped(h) && e.Load?
         case KillCheck => Stopped(h) && e.Swap?
         case KillProbe => e.CheckReady? && e.ready
         case KillSend => e.ProbeDeath?
         case KillGrace => e.SendShutdown? && e.sent
         case KillForce => (e.CheckReady? && !e.ready) || (e.SendShutdown? && !e.sent) || e.GraceTimeout?
         case KillWait => e.Force?
         case Cleanup => (e.SendCrash? && !Stopped(h)) || e.ProbeDeath? || e.GraceDeath? || e.SeeDeath?
         case ZeroEpoch => e.Clean?
         case CancelGen => e.Zero?
         case SignalDone => e.Cancel?
         case Finished => e.Done?
         case Launching => false
  }

  predicate ProcessAfter(r: Run, es: seq<Event>, id: Id) {
    && (!r.process.NotStarted? ==> StartOk(id, r.pid) in es)
    && match r.process
       case NotStarted => true
       case Live => true
       case Dead => Dies(id) in es
       case Posted => Post(id) in es
       case Signalled => Close(id) in es && Post(id) in es
  }

  predicate RunAfterAll(s: State, es: seq<Event>, id: Id) {
    var h := Own(es, id);
    Ordered(h) && if id in s.runs then PhaseAfter(s.runs[id].phase, h) && ProcessAfter(s.runs[id], es, id)
                  else h == []
  }

  /** The last step of the main loop, by where it stands. */
  predicate MainAfterAll(m: MainPc, h: seq<Event>, taken: Option<Action>) {
    if h == [] then m.Idle?
    else
      var e := h[|h| - 1];
      match m
      case Idle => e.EndPostUpdate? || (e.Decide? && taken != Some(GameUpdate) && taken != Some(SystemHalt))
      case Booting => e.Allow?
      case PreUpdating => e.StartUpdate?
      case Opening => e.SkipUpdate? || e.EndUpdate?
      case Draining => e.Open?
      case Spawning(shard) =>
        if shard.Master? then e.Drain? else (e.Spawn? || e.Skip?) && |h| > 1 && h[|h| - 2].Drain?
      case Awaiting => (e.Spawn? || e.Skip?) && |h| > 1 && !h[|h| - 2].Drain?
      case Acting => e.TakeAction? || e.TakeShutdown?
      case Waiting => e.FinishActing?
      case Deciding => e.PassWait?
      case PostUpdating => e.Decide? && taken == Some(GameUpdate)
      case Exited => e.Leave? || (e.Decide? && taken == Some(SystemHalt))
  }

  predicate BusAfterAll(s: State, es: seq<Event>) {
    && Pending(es) == (if s.bus.EmptyBus? then None else Some(s.bus.message.action))
    && (AfterTake(s.main) ==> Taken(es) == Some(s.trigger.action))
  }

  ghost predicate Hist(es: seq<Event>, s: State) {
    && (forall id :: RunAfterAll(s, es, id))
    && MainOrdered(es) && MainAfterAll(s.main, MainSteps(es), Taken(es)) && BusAfterAll(s, es)
    && AllCaused(es) && s.gen == Opens(es) && s.cancelled == Cancels(es)
    && s.masterEpoch == EpochOf(es, Master) && s.cavesEpoch == EpochOf(es, Caves)
  }

  // ---- one more event ----

  lemma Last(es: seq<Event>, e: Event)
    ensures (es + [e])[..|es|] == es && (es + [e])[|es|] == e && |es + [e]| == |es| + 1
  {
  }

  lemma OneMore(es: seq<Event>, e: Event, id: Id)
    ensures Own(es + [e], id) == if IsRunnerStep(e) && e.id == id then Own(es, id) + [e] else Own(es, id)
    ensures MainSteps(es + [e]) == if IsMain(e) then MainSteps(es) + [e] else MainSteps(es)
  {
    Last(es, e);
    assert Own(es, id) + [] == Own(es, id) && MainSteps(es) + [] == MainSteps(es);
  }

  lemma OrderedMore(h: seq<Event>, e: Event)
    requires Ordered(h) && MayFollow(h, e)
    ensures Ordered(h + [e])
  {
    hide MayFollow;
    Last(h, e);
    forall k | 0 <= k < |h + [e]|
      ensures MayFollow((h + [e])[..k], (h + [e])[k])
    {
      if k < |h| {
        assert (h + [e])[..k] == h[..k];
      }
    }
  }

  lemma StoppedMore(h: seq<Event>, e: Event)
    ensures Stopped(h + [e]) <==> Stopped(h) || e.SeeCancel? || e.SeeExit?
  {
    if Stopped(h) {
      var x :| x in h && (x.SeeCancel? || x.SeeExit?);
      assert x in h + [e];
    }
    assert e in h + [e];
  }

  /** The steps before the kill routine. */
  predicate IsEarly(e: Event) {
    || e.StartOk? || e.StartFail? || e.SendCrash? || e.SetEpoch? || e.Load? || e.Swap? || e.SeeCancel? || e.SeeExit?
  }

  lemma EarlyStep(s: State, e: Event, h: seq<Event>)
    requires Enabled(s, e) && IsRunnerStep(e) && PhaseAfter(s.runs[e.id].phase, h) && IsEarly(e)
    ensures MayFollow(h, e) && PhaseAfter(RunAfter(s.runs[e.id], e, s.word).phase, h + [e])
  {
    Last(h, e);
    StoppedMore(h, e);
    assert !Stopped([]);
    hide Stopped;
  }

  lemma LateStep(s: State, e: Event, h: seq<Event>)
    requires Enabled(s, e) && IsRunnerStep(e) && PhaseAfter(s.runs[e.id].phase, h) && !IsEarly(e)
    ensures MayFollow(h, e) && PhaseAfter(RunAfter(s.runs[e.id], e, s.word).phase, h + [e])
  {
    Last(h, e);
    StoppedMore(h, e);
    hide Stopped;
  }

  lemma ProcessStep(s: State, es: seq<Event>, e: Event)
    requires Enabled(s, e) && !IsMain(e) && !IsOutside(e) && ProcessAfter(s.runs[e.id], es, e.id)
    ensures ProcessAfter(RunAfter(s.runs[e.id], e, s.word), es + [e], e.id)
    ensures e.SeeExit? ==> Post(e.id) in es
    ensures e.GraceDeath? || e.SeeDeath? ==> Close(e.id) in es
    ensures e.Post? ==> Dies(e.id) in es
    ensures e.Close? ==> Post(e.id) in es
    ensures !IsRunnerStep(e) ==> RunAfter(s.runs[e.id], e, s.word).phase == s.runs[e.id].phase
  {
    assert e in es + [e];
  }

  lemma OtherProcess(r: Run, es: seq<Event>, e: Event, id: Id)
    requires ProcessAfter(r, es, id)
    ensures ProcessAfter(r, es + [e], id)
  {
  }

  /** The run that takes the step. */
  lemma RunStep(s: State, es: seq<Event>, e: Event)
    requires Enabled(s, e) && !IsMain(e) && !IsOutside(e) && RunAfterAll(s, es, e.id)
    ensures RunAfterAll(Apply(s, e), es + [e], e.id)
  {
    ApplyRunner(s, e);
    RunnerInRuns(s, e);
    ProcessStep(s, es, e);
    OneMore(es, e, e.id);
    var h := Own(es, e.id);
    hide Enabled, Apply, RunAfter, Own, PhaseAfter, ProcessAfter, MayFollow, Ordered;
    if IsRunnerStep(e) {
      if IsEarly(e) {
        EarlyStep(s, e, h);
      } else {
        LateStep(s, e, h);
      }
      OrderedMore(h, e);
    }
  }

  lemma RunnerInRuns(s: State, e: Event)
    requires Enabled(s, e) && !IsMain(e) && !IsOutside(e)
    ensures e.id in s.runs
  {
  }

  /** The other runs, and all runs when the main loop or somebody outside takes the step. */
  lemma RunKeeps(s: State, es: seq<Event>, e: Event, id: Id)
    requires GenInv(s) && Enabled(s, e) && RunAfterAll(s, es, id) && (IsMain(e) || IsOutside(e) || e.id != id)
    ensures RunAfterAll(Apply(s, e), es + [e], id)
  {
    OneMore(es, e, id);
    RunsAfter(s, e, id);
    hide GenInv, Enabled, Apply, Own, PhaseAfter, Ordered;
    if id in s.runs {
      OtherProcess(s.runs[id], es, e, id);
    }
    hide ProcessAfter;
    assert PhaseAfter(Launching, []) by {
      LaunchingAfterNothing();
    }
    assert ProcessAfter(Run(Launching, NotStarted, NO_PID, false), es + [e], id) by {
      NotStartedAfterAnything(es + [e], id);
    }
  }

  lemma LaunchingAfterNothing()
    ensures PhaseAfter(Launching, [])
  {
  }

  lemma NotStartedAfterAnything(es: seq<Event>, id: Id)
    ensures ProcessAfter(Run(Launching, NotStarted, NO_PID, false), es, id)
  {
  }

  lemma RunsAfter(s: State, e: Event, id: Id)
    requires GenInv(s) && Enabled(s, e) && (IsMain(e) || IsOutside(e) || e.id != id)
    ensures id in s.runs ==> id in Apply(s, e).runs && Apply(s, e).runs[id] == s.runs[id]
    ensures id !in s.runs && id in Apply(s, e).runs ==>
              Apply(s, e).runs[id] == Run(Launching, NotStarted, NO_PID, false)
  {
    hide RunAfter, ProcessOk, Running;
    if !IsMain(e) && !IsOutside(e) {
      ApplyRunner(s, e);
      hide Enabled, Apply;
    }
  }

  // ---- the main loop, the bus and the reasons ----

  lemma MainStep(s: State, e: Event, h: seq<Event>, taken: Option<Action>, taken': Option<Action>)
    requires Enabled(s, e) && IsMain(e) && MainAfterAll(s.main, h, taken)
    requires e.Decide? ==> taken == Some(s.trigger.action)
    requires !e.TakeAction? && !e.TakeShutdown? ==> taken' == taken
    ensures MainMayFollow(h, e, taken) && MainAfterAll(Apply(s, e).main, h + [e], taken')
  {
    Last(h, e);
  }

  lemma MainOrderedMore(es: seq<Event>, e: Event)
    requires MainOrdered(es) && (IsMain(e) ==> MainMayFollow(MainSteps(es), e, Taken(es)))
    ensures MainOrdered(es + [e])
  {
    hide MainMayFollow, MainSteps, Taken, IsMain;
    Last(es, e);
    forall k | 0 <= k < |es + [e]| && IsMain((es + [e])[k])
      ensures MainMayFollow(MainSteps((es + [e])[..k]), (es + [e])[k], Taken((es + [e])[..k]))
    {
      if k < |es| {
        assert (es + [e])[..k] == es[..k];
      }
    }
  }

  lemma BusStep(s: State, es: seq<Event>, e: Event)
    requires Enabled(s, e) && BusAfterAll(s, es)
    ensures BusAfterAll(Apply(s, e), es + [e])
    ensures e.TakeAction? ==> Pending(es).Some?
    ensures !e.TakeAction? && !e.TakeShutdown? ==> Taken(es + [e]) == Taken(es)
  {
    Last(es, e);
    hide RunAfter, WithPid, SwapValue;
  }

  lemma CountStep(s: State, es: seq<Event>, e: Event)
    requires Enabled(s, e) && s.gen == Opens(es) && s.cancelled == Cancels(es)
    ensures Apply(s, e).gen == Opens(es + [e]) && Apply(s, e).cancelled == Cancels(es + [e])
    ensures e.SeeCancel? ==> e.id.gen in Cancels(es)
  {
    Last(es, e);
    hide RunAfter, WithPid, SwapValue;
  }

  lemma EpochStep(s: State, es: seq<Event>, e: Event)
    requires Enabled(s, e) && s.masterEpoch == EpochOf(es, Master) && s.cavesEpoch == EpochOf(es, Caves)
    ensures Apply(s, e).masterEpoch == EpochOf(es + [e], Master) && Apply(s, e).cavesEpoch == EpochOf(es + [e], Caves)
  {
    Last(es, e);
    hide RunAfter, WithPid, SwapValue;
  }

  lemma CausedMore(es: seq<Event>, e: Event)
    requires AllCaused(es) && Caused(es, e)
    ensures AllCaused(es + [e])
  {
    hide Caused;
    Last(es, e);
    forall k | 0 <= k < |es + [e]|
      ensures Caused((es + [e])[..k], (es + [e])[k])
    {
      if k < |es| {
        assert (es + [e])[..k] == es[..k];
      }
    }
  }

  lemma HasCause(s: State, es: seq<Event>, e: Event)
    requires Hist(es, s) && Enabled(s, e)
    ensures Caused(es, e)
  {
    BusStep(s, es, e);
    CountStep(s, es, e);
    if !IsMain(e) && !IsOutside(e) {
      RunnerInRuns(s, e);
      assert RunAfterAll(s, es, e.id);
      ProcessStep(s, es, e);
    }
    hide Enabled, Apply, Hist, RunAfterAll, ProcessAfter, RunAfter, BusAfterAll, Cancels, Pending;
  }

  lemma HistStep(s: State, es: seq<Event>, e: Event)
    requires GenInv(s) && Hist(es, s) && Enabled(s, e)
    ensures Hist(es + [e], Apply(s, e))
  {
    HasCause(s, es, e);
    BusStep(s, es, e);
    CountStep(s, es, e);
    EpochStep(s, es, e);
    MainHistory(s, es, e);
    CausedMore(es, e);
    hide GenInv, Enabled, Apply, RunAfterAll, MainOrdered, MainAfterAll, BusAfterAll, AllCaused, Opens, Cancels,
      EpochOf;
    forall id
      ensures RunAfterAll(Apply(s, e), es + [e], id)
    {
      assert RunAfterAll(s, es, id);
      if !IsMain(e) && !IsOutside(e) && e.id == id {
        RunStep(s, es, e);
      } else {
        RunKeeps(s, es, e, id);
      }
    }
  }

  lemma MainHistory(s: State, es: seq<Event>, e: Event)
    requires Hist(es, s) && Enabled(s, e)
    ensures MainOrdered(es + [e]) && MainAfterAll(Apply(s, e).main, MainSteps(es + [e]), Taken(es + [e]))
  {
    hide Enabled, Apply, RunAfterAll, MainSteps, Taken, Pending, Opens, Cancels, MainAfterAll, MainMayFollow;
    OneMore(es, e, Id(Master, 0));
    BusStep(s, es, e);
    if !IsMain(e) {
      MainKept(s, e);
    } else {
      if e.Decide? {
        DecidedBy(s, es, e);
      }
      MainStep(s, e, MainSteps(es), Taken(es), Taken(es + [e]));
    }
    hide MainOrdered, BusAfterAll, AllCaused;
    MainOrderedMore(es, e);
  }

  lemma MainKept(s: State, e: Event)
    requires Enabled(s, e) && !IsMain(e)
    ensures Apply(s, e).main == s.main && !e.TakeAction? && !e.TakeShutdown?
  {
    hide RunAfter, WithPid, SwapValue;
  }

  lemma DecidedBy(s: State, es: seq<Event>, e: Event)
    requires BusAfterAll(s, es) && Enabled(s, e) && e.Decide?
    ensures Taken(es) == Some(s.trigger.action)
  {
    hide Taken, Pending;
  }

  // ---- over all runs ----

  lemma HistInitial(s: State)
    requires Initial(s)
    ensures Hist([], s)
  {
  }

  lemma {:induction false} HistHolds(before: seq<Event>, s: State, es: seq<Event>, s': State)
    requires Inv(s) && Hist(before, s) && Runs(s, es, s')
    ensures Hist(before + es, s')
    decreases |es|
  {
    hide Hist, Inv, Apply, Enabled;
    if es == [] {
      assert before + es == before;
    } else {
      InvIsGen(s);
      HistStep(s, before, es[0]);
      Step(s, es[0]);
      HistHolds(before + [es[0]], Apply(s, es[0]), es[1..], s');
      assert before + [es[0]] + es[1..] == before + es;
    }
  }

  lemma InvIsGen(s: State)
    requires Inv(s)
    ensures GenInv(s)
  {
  }

  lemma HistoryOf(s: State, es: seq<Event>, s': State)
    requires Initial(s) && Runs(s, es, s')
    ensures Hist(es, s')
  {
    InitialInv(s);
    HistInitial(s);
    hide Hist, Inv, Initial, Runs;
    HistHolds([], s, es, s');
    assert [] + es == es;
  }

  /** In every run the steps of every runner come in the order of the program, and whoever has finished has taken
      them all. */
  lemma RunnersInOrder(s: State, es: seq<Event>, s': State, id: Id)
    requires Initial(s) && Runs(s, es, s')
    ensures Ordered(Own(es, id))
    ensures var h := Own(es, id);
            Unfinished(s'.runs, id) || id !in s'.runs || (h != [] && h[|h| - 1] == Done(id))
  {
    hide Initial, Runs, Ordered, Own, PhaseAfter, ProcessAfter, MainOrdered, MainAfterAll, BusAfterAll, AllCaused;
    HistoryOf(s, es, s');
    assert RunAfterAll(s', es, id);
    if id in s'.runs && s'.runs[id].phase.Finished? {
      DoneLast(Own(es, id));
      OwnIsOwn(es, id);
    }
  }

  lemma DoneLast(h: seq<Event>)
    requires PhaseAfter(Finished, h)
    ensures h != [] && h[|h| - 1].Done?
  {
  }

  /** Why the kill routine resorts to killing: the server was not ready, its command was refused, or its grace ran
      out. */
  predicate IsCause(e: Event) {
    (e.CheckReady? && !e.ready) || (e.SendShutdown? && !e.sent) || e.GraceTimeout?
  }

  /** A process is killed only for such a cause, and right after it; and of a finished runner's process every such
      cause was followed by the kill. */
  lemma KilledForCause(s: State, es: seq<Event>, s': State, id: Id, k: nat)
    requires Initial(s) && Runs(s, es, s') && k < |Own(es, id)|
    ensures var h := Own(es, id);
            && (h[k].Force? ==> k > 0 && IsCause(h[k - 1]))
            && (IsCause(h[k]) && id in s'.runs && s'.runs[id].phase.Finished? ==> k + 1 < |h| && h[k + 1].Force?)
  {
    hide Initial, Runs, Own, Ordered, IsCause;
    RunnersInOrder(s, es, s', id);
    var h := Own(es, id);
    CauseBefore(h, k);
    if k + 1 < |h| {
      KillBehind(h, k);
    }
    DoneIsNoCause(id);
  }

  lemma DoneIsNoCause(id: Id)
    ensures !IsCause(Done(id))
  {
  }

  lemma CauseBefore(h: seq<Event>, k: nat)
    requires Ordered(h) && k < |h|
    ensures h[k].Force? ==> k > 0 && IsCause(h[k - 1])
  {
    hide Stopped;
    assert MayFollow(h[..k], h[k]);
  }

  lemma KillBehind(h: seq<Event>, k: nat)
    requires Ordered(h) && k + 1 < |h|
    ensures IsCause(h[k]) ==> h[k + 1].Force?
  {
    hide Stopped;
    assert MayFollow(h[..k + 1], h[k + 1]);
  }

  lemma {:induction false} OwnIsOwn(es: seq<Event>, id: Id)
    ensures forall e :: e in Own(es, id) ==> IsRunnerStep(e) && e.id == id
    decreases |es|
  {
    if es != [] {
      OwnIsOwn(es[..|es| - 1], id);
    }
  }

  /** So do the steps of the main loop. */
  lemma MainInOrder(s: State, es: seq<Event>, s': State)
    requires Initial(s) && Runs(s, es, s')
    ensures MainOrdered(es)
  {
    HistoryOf(s, es, s');
    hide Initial, Runs, RunAfterAll, MainOrdered, MainAfterAll, BusAfterAll, AllCaused;
  }

  /** And every step that needs a reason has one. */
  lemma EverythingCaused(s: State, es: seq<Event>, s': State)
    requires Initial(s) && Runs(s, es, s')
    ensures AllCaused(es)
  {
    HistoryOf(s, es, s');
    hide Initial, Runs, RunAfterAll, MainOrdered, MainAfterAll, BusAfterAll, AllCaused;
  }

  /** The action that was taken decides: behind the wait the main loop overwrites the binary precisely after a game
      update, ends precisely after a system halt, and starts over after anything else. */
  lemma ActionIsCarriedOut(s: State, es: seq<Event>, s': State)
    requires Initial(s) && Runs(s, es, s') && es != [] && es[|es| - 1].Decide?
    ensures var taken := Taken(es);
            && taken.Some?
            && (s'.main.PostUpdating? <==> taken == Some(GameUpdate))
            && (s'.main.Exited? <==> taken == Some(SystemHalt))
            && (s'.main.PostUpdating? || s'.main.Exited? || s'.main.Idle?)
  {
    hide Initial, Runs, RunAfterAll, MainOrdered, MainAfterAll, BusAfterAll, AllCaused;
    hide Taken, Opens, Cancels, MainSteps;
    HistoryOf(s, es, s');
    DecidedLast(s, es, s');
    assert es == es[..|es| - 1] + [Decide];
    OneMore(es[..|es| - 1], Decide, Id(Master, 0));
    DecidedIs(s'.main, MainSteps(es[..|es| - 1]), Taken(es));
  }

  lemma DecidedIs(m: MainPc, h: seq<Event>, taken: Option<Action>)
    requires MainAfterAll(m, h + [Decide], taken)
    ensures m.PostUpdating? <==> taken == Some(GameUpdate)
    ensures m.Exited? <==> taken == Some(SystemHalt)
    ensures m.PostUpdating? || m.Exited? || m.Idle?
  {
    Last(h, Decide);
  }

  /** What the program publishes is what its runners were told: each half of the word is zero, or the PID that the
      start of this generation's process reported, and each epoch is the one set last. */
  lemma PublishedIsReported(s: State, es: seq<Event>, s': State, shard: Shard)
    requires Initial(s) && Runs(s, es, s')
    ensures var p := Half(s'.word, shard); p == NO_PID || StartOk(Id(shard, s'.gen), p) in es
    ensures s'.masterEpoch == EpochOf(es, Master) && s'.cavesEpoch == EpochOf(es, Caves)
  {
    HistoryOf(s, es, s');
    InitialInv(s);
    InvHolds(s, es, s');
    var id := Id(shard, s'.gen);
    assert RunAfterAll(s', es, id) && PidOk(s', shard);
    hide Initial, Runs, Own, PhaseAfter, MainOrdered, MainAfterAll, BusAfterAll, AllCaused;
    hide Half, BusInv, EpochInv, EpochOf;
  }

  /** The main loop overwrites the binary behind the wait only after a game update. */
  lemma OnlyGameUpdates(s: State, es: seq<Event>, s': State)
    requires Initial(s) && Runs(s, es, s') && s'.main.PostUpdating?
    ensures Taken(es) == Some(GameUpdate)
  {
    HistoryOf(s, es, s');
    hide Initial, Runs, RunAfterAll, MainOrdered, BusAfterAll, AllCaused, Taken, Opens, Cancels, MainSteps;
  }

  /** A step that decides has an action to decide on. */
  lemma {:induction false} DecidedLast(s: State, es: seq<Event>, s': State)
    requires Initial(s) && Runs(s, es, s') && es != [] && es[|es| - 1].Decide?
    ensures Taken(es).Some?
  {
    var n := |es| - 1;
    var m := RunSplit(s, es, s', n);
    HistoryOf(s, es[..n], m);
    hide Initial, Runs, RunAfterAll, MainOrdered, MainAfterAll, AllCaused, Opens, Cancels, Pending;
    assert es[n..] == [Decide];
    OneStep(m, Decide, s');
    DecidedBy(m, es[..n], Decide);
  }

  lemma OneStep(s: State, e: Event, s': State)
    requires Runs(s, [e], s')
    ensures Enabled(s, e) && s' == Apply(s, e)
  {
    hide Enabled, Apply;
    assert [e][1..] == [];
  }

  lemma {:induction false} RunSplit(s: State, es: seq<Event>, s': State, n: nat) returns (m: State)
    requires Runs(s, es, s') && n <= |es|
    ensures Runs(s, es[..n], m) && Runs(m, es[n..], s')
    decreases n
  {
    hide Enabled, Apply;
    if n == 0 {
      m := s;
      assert es[0..] == es && es[..0] == [];
    } else {
      m := RunSplit(Apply(s, es[0]), es[1..], s', n - 1);
      assert es[..n][1..] == es[1..][..n - 1] && es[1..][n - 1..] == es[n..];
    }
  }

  /** The main loop is never stuck, unless it waits for its runners or has ended. */
  lemma MainGoesOn(s: State)
    requires !s.main.Waiting? && !s.main.Exited?
    ensures exists e :: IsMain(e) && Enabled(s, e)
  {
    var e :=
      match s.main
      case Idle => Allow
      case Booting => SkipUpdate
      case PreUpdating => EndUpdate
      case Opening => Open
      case Draining => Drain
      case Spawning(_) => Spawn
      case Awaiting => TakeShutdown
      case Acting => FinishActing
      case Deciding => Decide
      case _ => EndPostUpdate;
    assert IsMain(e) && Enabled(s, e);
  }
}
