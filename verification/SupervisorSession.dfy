/** One session of the supervisor, step by step: the states its theorems speak of exist. */
module SupervisorSession {
  import opened PidWord
  import opened Supervisor

  lemma RunsCons(s: State, e: Event, es: seq<Event>, s': State)
    requires Enabled(s, e)
    ensures Runs(s, [e] + es, s') <==> Runs(Apply(s, e), es, s')
  {
    hide Apply, Enabled;
    assert ([e] + es)[1..] == es;
  }

  lemma Drained(s: State) returns (s1: State, s2: State, s3: State, s4: State)
    requires Initial(s)
    ensures Enabled(s, Allow) && s1 == Apply(s, Allow) && Enabled(s1, SkipUpdate) && s2 == Apply(s1, SkipUpdate)
    ensures Enabled(s2, Open) && s3 == Apply(s2, Open) && Enabled(s3, Drain) && s4 == Apply(s3, Drain)
    ensures s4 == s.(main := Spawning(Master), gen := 1)
  {
    s1 := Apply(s, Allow);
    s2 := Apply(s1, SkipUpdate);
    s3 := Apply(s2, Open);
    s4 := Apply(s3, Drain);
  }

  lemma Spawned(s: State, p: Pid, q: Pid) returns (s1: State, s2: State, s3: State, s4: State)
    requires s.main == Spawning(Master) && s.gen == 1 && s.runs == map[]
    ensures Enabled(s, Spawn) && s1 == Apply(s, Spawn) && Enabled(s1, Spawn) && s2 == Apply(s1, Spawn)
    ensures Enabled(s2, StartOk(Id(Master, 1), p)) && s3 == Apply(s2, StartOk(Id(Master, 1), p))
    ensures Enabled(s3, StartOk(Id(Caves, 1), q)) && s4 == Apply(s3, StartOk(Id(Caves, 1), q))
    ensures s4.main.Awaiting? && s4.gen == 1 && s4.wg == s.wg + 2
    ensures s4.runs == map[Id(Master, 1) := Run(SettingEpoch, Live, p, false),
                           Id(Caves, 1) := Run(SettingEpoch, Live, q, false)]
  {
    s1 := Apply(s, Spawn);
    s2 := Apply(s1, Spawn);
    s3 := Apply(s2, StartOk(Id(Master, 1), p));
    s4 := Apply(s3, StartOk(Id(Caves, 1), q));
  }

  lemma ShutDown(s: State) returns (s1: State, s2: State)
    requires s.main.Awaiting?
    ensures Enabled(s, TakeShutdown) && s1 == Apply(s, TakeShutdown)
    ensures Enabled(s1, FinishActing) && s2 == Apply(s1, FinishActing) && Runs(s2, [], s2)
    ensures s2.main.Waiting? && s2.gen == s.gen && s2.wg == s.wg && s2.runs == s.runs
  {
    s1 := Apply(s, TakeShutdown);
    s2 := Apply(s1, FinishActing);
  }

  /** Boot without an update, both shards started, and a shutdown. */
  function Session(p: Pid, q: Pid): seq<Event> {
    [Allow] + ([SkipUpdate] + ([Open] + ([Drain] + ([Spawn] + ([Spawn] + ([StartOk(Id(Master, 1), p)]
    + ([StartOk(Id(Caves, 1), q)] + ([TakeShutdown] + ([FinishActing] + [])))))))))
  }

  /** A run exists in which the main loop comes to wait for both shards while both are up. */
  lemma BothShardsUp(s: State, p: Pid, q: Pid) returns (s': State)
    requires Initial(s)
    ensures Runs(s, Session(p, q), s') && s'.main.Waiting? && s'.wg == 2
    ensures Id(Master, s'.gen) in s'.runs && s'.runs[Id(Master, s'.gen)].process.Live?
    ensures Id(Caves, s'.gen) in s'.runs && s'.runs[Id(Caves, s'.gen)].process.Live?
  {
    hide Runs, Apply, Enabled;
    var s1, s2, s3, s4 := Drained(s);
    var s5, s6, s7, s8 := Spawned(s4, p, q);
    var s9;
    s9, s' := ShutDown(s8);
    var es := [FinishActing] + [];
    RunsCons(s9, FinishActing, [], s');
    RunsCons(s8, TakeShutdown, es, s');
    es := [TakeShutdown] + es;
    RunsCons(s7, StartOk(Id(Caves, 1), q), es, s');
    es := [StartOk(Id(Caves, 1), q)] + es;
    RunsCons(s6, StartOk(Id(Master, 1), p), es, s');
    es := [StartOk(Id(Master, 1), p)] + es;
    RunsCons(s5, Spawn, es, s');
    es := [Spawn] + es;
    RunsCons(s4, Spawn, es, s');
    es := [Spawn] + es;
    RunsCons(s3, Drain, es, s');
    es := [Drain] + es;
    RunsCons(s2, Open, es, s');
    es := [Open] + es;
    RunsCons(s1, SkipUpdate, es, s');
    es := [SkipUpdate] + es;
    RunsCons(s, Allow, es, s');
  }
}
