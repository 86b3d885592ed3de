/** What the supervisor's invariant is for: generations do not overlap, the binary is overwritten only while
    nothing runs, no update of the PID word is lost, and crashes are neither lost nor stale. */
module SupervisorSafety {
  import opened PidWord
  import opened Supervisor

  /** Started and not yet seen dead by its waiter. */
  predicate Up(p: Process) {
    p.Live? || p.Dead? || p.Posted?
  }

  predicate Overwriting(m: MainPc) {
    m.PreUpdating? || m.PostUpdating?
  }

  /** At most one process of each shard is up, it belongs to the current generation, and none is up while the
      game binary is being overwritten. */
  lemma AtMostOneAlive(s: State, es: seq<Event>, s': State)
    requires Initial(s) && Runs(s, es, s')
    ensures forall id :: id in s'.runs && Up(s'.runs[id].process) ==> id.gen == s'.gen && !Overwriting(s'.main)
    ensures forall a, b :: a in s'.runs && b in s'.runs && a.shard == b.shard ==>
              Up(s'.runs[a].process) && Up(s'.runs[b].process) ==> a == b
  {
    InitialInv(s);
    InvHolds(s, es, s');
    hide Enabled, Runs, BusInv, PidOk, EpochInv;
    forall id | id in s'.runs && Up(s'.runs[id].process)
      ensures id.gen == s'.gen && !Quiescent(s'.main)
    {
      assert ProcessOk(s'.runs[id]);
    }
  }

  /** Once the main loop is past its wait, no run is unfinished, no PID is in the word and no epoch is out. */
  lemma NothingLeftAfterWait(s: State, es: seq<Event>, s': State)
    requires Initial(s) && Runs(s, es, s') && Quiescent(s'.main)
    ensures forall id :: id in s'.runs ==> s'.runs[id].phase.Finished? && !Up(s'.runs[id].process)
    ensures s'.word == Word(0) && s'.masterEpoch == 0 && s'.cavesEpoch == 0
  {
    InitialInv(s);
    InvHolds(s, es, s');
    hide Enabled, Runs, BusInv, High, Low;
    WordIsItsHalves(s'.word);
    forall id | id in s'.runs
      ensures s'.runs[id].phase.Finished? && !Up(s'.runs[id].process)
    {
      assert ProcessOk(s'.runs[id]);
    }
  }

  /** The value the last successful swap of a shard stored, p if there was none. */
  function LastWrite(s: State, es: seq<Event>, shard: Shard, p: Pid): Pid
    decreases |es|
  {
    if es == [] || !Enabled(s, es[0]) then p
    else LastWrite(Apply(s, es[0]), es[1..], shard,
                   if Swapped(s, es[0]) && es[0].id.shard == shard then SwapValue(s.runs[es[0].id]) else p)
  }

  lemma HalfAfterAny(s: State, e: Event, shard: Shard)
    requires Enabled(s, e)
    ensures Half(Apply(s, e).word, shard)
            == if Swapped(s, e) && e.id.shard == shard then SwapValue(s.runs[e.id]) else Half(s.word, shard)
  {
    hide Half, WithPid, SwapValue, RunAfter;
    if !IsMain(e) && !IsOutside(e) {
      HalfAfter(s, e, shard);
    }
  }

  /** No lost update: whatever the loops interleave, each half of the word is the last value its shard stored. */
  lemma {:induction false} HalfIsLastWrite(s: State, es: seq<Event>, s': State, shard: Shard)
    requires Runs(s, es, s')
    ensures Half(s'.word, shard) == LastWrite(s, es, shard, Half(s.word, shard))
    decreases |es|
  {
    hide Half, Enabled, Apply, Swapped, SwapValue;
    if es != [] {
      HalfAfterAny(s, es[0], shard);
      HalfIsLastWrite(Apply(s, es[0]), es[1..], s', shard);
    }
  }

  /** A crash wakes the main loop: from the crash until the main loop takes an action in that generation, the
      bus holds one, so that a main loop that awaits one can take it. A finished runner has cancelled its
      generation, which stops the sibling. */
  lemma CrashWakesMain(s: State, es: seq<Event>, s': State, id: Id)
    requires Initial(s) && Runs(s, es, s') && id in s'.runs
    ensures s'.runs[id].crashSent && id.gen == s'.gen ==>
              && (s'.bus.FullBus? || !BeforeTake(s'.main))
              && (s'.main.Awaiting? ==> Enabled(s', TakeAction))
    ensures s'.runs[id].phase.Finished? ==> id.gen in s'.cancelled
  {
    InitialInv(s);
    InvHolds(s, es, s');
    hide Runs, GenInv, PidOk, EpochInv;
  }

  /** A crash a runner sent is only ever the trigger of that runner's own generation. */
  lemma NoStaleCrash(s: State, es: seq<Event>, s': State)
    requires Initial(s) && Runs(s, es, s') && AfterTake(s'.main) && s'.trigger.origin.Runner?
    ensures s'.trigger.origin.id.gen == s'.gen
  {
    InitialInv(s);
    InvHolds(s, es, s');
    hide Enabled, Runs, GenInv, PidOk, EpochInv;
  }
}
