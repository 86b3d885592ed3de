/** The main loop's wait for its runners ends: it is bounded and never stuck. */
module SupervisorWait {
  import opened PidWord
  import opened Supervisor

  /** How far a run is from its end. A swap whose word has changed since it was loaded counts as further away
      than the load it falls back to; only a successful swap of the other shard makes one such. */
  function Rank(p: Phase, word: Word): nat {
    match p
    case Launching => 38
    case BootFailed => 34
    case SettingEpoch => 37
    case LoadPid => 35
    case SwapPid(loaded) => if loaded == word then 34 else 36
    case Supervising => 25
    case Crashed => 24
    case LoadClear => 22
    case SwapClear(loaded) => if loaded == word then 21 else 23
    case KillCheck => 12
    case KillProbe => 11
    case KillSend => 10
    case KillGrace => 9
    case KillForce => 8
    case KillWait => 7
    case Cleanup => 4
    case ZeroEpoch => 3
    case CancelGen => 2
    case SignalDone => 1
    case Finished => 0
  }

  function ProcessRank(p: Process): nat {
    match p
    case NotStarted => 4
    case Live => 3
    case Dead => 2
    case Posted => 1
    case Signalled => 0
  }

  function RunWork(runs: map<Id, Run>, id: Id, word: Word): nat {
    if id in runs then Rank(runs[id].phase, word) + ProcessRank(runs[id].process) else 0
  }

  /** The steps this generation's runs can still take. */
  function Work(s: State): nat {
    RunWork(s.runs, Id(Master, s.gen), s.word) + RunWork(s.runs, Id(Caves, s.gen), s.word)
  }

  function IsRunnerStep(e: Event): nat {
    One(!IsMain(e) && !IsOutside(e))
  }

  lemma OnlySwapsStore(s: State, e: Event)
    requires Enabled(s, e) && !IsMain(e) && !IsOutside(e)
    ensures !Swapped(s, e) ==> SharedAfter(s, e).word == s.word
  {
    hide WithPid, SwapValue;
  }

  lemma SwapAdvances(r: Run, e: Event, word: Word)
    requires e.Swap? && (r.phase.SwapPid? || r.phase.SwapClear?)
    ensures var p, p' := r.phase, RunAfter(r, e, word).phase;
            && (word == p.loaded ==> forall w :: Rank(p', w) + 3 <= Rank(p, word))
            && (word != p.loaded ==> Rank(p', word) + 1 <= Rank(p, word))
            && RunAfter(r, e, word).process == r.process
  {
  }

  /** Between start and the kill routine. */
  predicate IsEarly(e: Event) {
    e.StartOk? || e.StartFail? || e.SendCrash? || e.SetEpoch? || e.Load? || e.SeeCancel? || e.SeeExit?
  }

  predicate IsProcessStep(e: Event) {
    e.Dies? || e.Post? || e.Close?
  }

  lemma EarlyAdvances(r: Run, e: Event, word: Word, s: State)
    requires Enabled(s, e) && IsEarly(e) && r == s.runs[e.id]
    requires r.phase.Launching? ==> r.process.NotStarted?
    ensures var r' := RunAfter(r, e, word);
            Rank(r'.phase, word) + ProcessRank(r'.process) + 1 <= Rank(r.phase, word) + ProcessRank(r.process)
  {
    hide IsSwap;
  }

  lemma ProcessAdvances(r: Run, e: Event, word: Word, s: State)
    requires Enabled(s, e) && IsProcessStep(e) && r == s.runs[e.id]
    ensures var r' := RunAfter(r, e, word);
            r'.phase == r.phase && ProcessRank(r'.process) + 1 <= ProcessRank(r.process)
  {
    hide IsSwap, Rank, At;
  }

  lemma LateAdvances(r: Run, e: Event, word: Word, s: State)
    requires Enabled(s, e) && !IsMain(e) && !IsOutside(e) && !e.Swap? && r == s.runs[e.id]
    requires !IsEarly(e) && !IsProcessStep(e)
    ensures var r' := RunAfter(r, e, word); r'.process == r.process && Rank(r'.phase, word) + 1 <= Rank(r.phase, word)
  {
    hide IsSwap, ProcessRank;
  }

  lemma StepAdvances(r: Run, e: Event, word: Word, s: State)
    requires Enabled(s, e) && !IsMain(e) && !IsOutside(e) && !e.Swap? && r == s.runs[e.id]
    requires r.phase.Launching? ==> r.process.NotStarted?
    ensures var r' := RunAfter(r, e, word);
            Rank(r'.phase, word) + ProcessRank(r'.process) + 1 <= Rank(r.phase, word) + ProcessRank(r.process)
  {
    hide Enabled, RunAfter, Rank, ProcessRank;
    if IsEarly(e) {
      EarlyAdvances(r, e, word, s);
    } else if IsProcessStep(e) {
      ProcessAdvances(r, e, word, s);
    } else {
      LateAdvances(r, e, word, s);
    }
  }

  /** A step of a run brings that run nearer its end, by more than it can set back the other run. */
  lemma RunAdvances(s: State, e: Event)
    requires Enabled(s, e) && !IsMain(e) && !IsOutside(e) && ProcessOk(s.runs[e.id])
    ensures var r, r', w' := s.runs[e.id], RunAfter(s.runs[e.id], e, s.word), SharedAfter(s, e).word;
            Rank(r'.phase, w') + ProcessRank(r'.process) + (if w' == s.word then 1 else 3)
            <= Rank(r.phase, s.word) + ProcessRank(r.process)
  {
    OnlySwapsStore(s, e);
    if e.Swap? {
      SwapAdvances(s.runs[e.id], e, s.word);
    } else {
      StepAdvances(s.runs[e.id], e, s.word, s);
    }
    hide SharedAfter, Rank, ProcessRank, ProcessOk, RunAfter;
  }

  lemma OtherSetBack(p: Phase, w: Word, w': Word)
    ensures Rank(p, w') <= Rank(p, w) + 2
  {
  }

  lemma RunnerWorks(s: State, e: Event)
    requires GenInv(s) && Enabled(s, e) && !IsMain(e) && !IsOutside(e)
    ensures Apply(s, e).main == s.main && Work(Apply(s, e)) + 1 <= Work(s)
  {
    RunnerIsCurrent(s, e);
    assert ProcessOk(s.runs[e.id]);
    hide GenInv, ProcessOk;
    ApplyRunner(s, e);
    SharedKept(s, e);
    RunAdvances(s, e);
    var other := Id(if e.id.shard.Master? then Caves else Master, s.gen);
    assert e.id == Id(e.id.shard, s.gen);
    var s' := Apply(s, e);
    hide Enabled, Apply, RunAfter, SharedAfter, IsMain, IsOutside, Rank, ProcessRank;
    if other in s.runs {
      OtherSetBack(s.runs[other].phase, s.word, s'.word);
    }
    assert RunWork(s'.runs, other, s'.word) <= RunWork(s.runs, other, s.word) + if s'.word == s.word then 0 else 2;
  }

  lemma StepWorks(s: State, e: Event)
    requires GenInv(s) && Enabled(s, e) && s.main.Waiting? && !e.PassWait?
    ensures Apply(s, e).main.Waiting? && Work(Apply(s, e)) + IsRunnerStep(e) <= Work(s)
  {
    if !IsMain(e) && !IsOutside(e) {
      RunnerWorks(s, e);
      hide GenInv, Work, Apply, Enabled;
    } else {
      hide GenInv, RunWork;
    }
  }

  function RunnerSteps(es: seq<Event>): nat {
    if es == [] then 0 else IsRunnerStep(es[0]) + RunnerSteps(es[1..])
  }

  lemma WorkBound(s: State)
    ensures Work(s) <= 84
  {
  }

  /** Between entering the wait and passing it, the runners and their processes take a bounded number of
      steps, failed swaps included. */
  lemma {:induction false} WaitIsBounded(s: State, es: seq<Event>, s': State)
    requires Inv(s) && Runs(s, es, s') && s.main.Waiting? && PassWait !in es
    ensures s'.main.Waiting? && Work(s') + RunnerSteps(es) <= Work(s) <= 84
    decreases |es|
  {
    hide GenInv, PidOk, EpochInv, BusInv, Enabled, Apply, Rank, ProcessRank, RunWork, IsRunnerStep;
    if es != [] {
      Step(s, es[0]);
      StepWorks(s, es[0]);
      WaitIsBounded(Apply(s, es[0]), es[1..], s');
    }
    WorkBound(s);
  }

  /** The next step of an unfinished run of a cancelled generation. */
  function NextStep(id: Id, r: Run): Event {
    match r.phase
    case Launching => StartFail(id)
    case BootFailed => SendCrash(id)
    case SettingEpoch => SetEpoch(id, 1)
    case LoadPid => Load(id)
    case SwapPid(_) => Swap(id)
    case Supervising => SeeCancel(id)
    case Crashed => SendCrash(id)
    case LoadClear => Load(id)
    case SwapClear(_) => Swap(id)
    case KillCheck => CheckReady(id, true)
    case KillProbe => ProbeDeath(id)
    case KillSend => SendShutdown(id, true)
    case KillGrace => GraceTimeout(id)
    case KillForce => Force(id)
    case KillWait =>
      (match r.process
       case Live => Dies(id)
       case Dead => Post(id)
       case Posted => Close(id)
       case _ => SeeDeath(id))
    case Cleanup => Clean(id)
    case ZeroEpoch => Zero(id)
    case CancelGen => Cancel(id)
    case _ => Done(id)
  }

  lemma NextStepEnabled(s: State, id: Id)
    requires s.main.Waiting? && id in s.runs && ProcessOk(s.runs[id]) && !s.runs[id].phase.Finished?
    requires id.gen in s.cancelled
    ensures Enabled(s, NextStep(id, s.runs[id])) && IsRunnerStep(NextStep(id, s.runs[id])) == 1
  {
  }

  /** And it never gets stuck: the main loop can pass, or some runner or its process can move. */
  lemma WaitNeverStuck(s: State, es: seq<Event>, s': State)
    requires Initial(s) && Runs(s, es, s') && s'.main.Waiting?
    ensures Enabled(s', PassWait) || exists e :: Enabled(s', e) && IsRunnerStep(e) == 1
  {
    InitialInv(s);
    InvHolds(s, es, s');
    hide Runs, PidOk, EpochInv, BusInv, ProcessOk;
    if s'.wg != 0 {
      var id := Id(if Unfinished(s'.runs, Id(Master, s'.gen)) then Master else Caves, s'.gen);
      NextStepEnabled(s', id);
      hide Enabled, NextStep, IsRunnerStep, GenInv;
    }
  }
}
