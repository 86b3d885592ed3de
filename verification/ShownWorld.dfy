/** What the status shows of a world once the script was activated in it, said in the terms of the game. */
module ShownWorld {
  import opened GameState
  import opened Parasite
  import opened Telemetry
  import opened Wrappers

  // ---- lengths of time ----

  /** So many days in seconds. */
  function Span(days: int, day: DayLength): real {
    days as real * day
  }

  /** r days are shown for t seconds: the days begun, none when the time is over, and never more than 126. */
  predicate DaysFor(r: int, t: real, day: DayLength) {
    if t <= 0.0 then r == 0
    else
      && 1 <= r <= 126 && (r < 126 ==> Span(r - 1, day) < t <= Span(r, day))
      && (r == 126 <==> Span(125, day) < t)
  }

  /** r minutes are shown for t seconds: the full minutes, and never more than 126. */
  predicate MinutesFor(r: int, t: real) {
    if t < 60.0 then r == 0
    else 1 <= r <= 126 && (r < 126 ==> 60.0 * r as real <= t < 60.0 * (r + 1) as real) && (r == 126 <==> 7560.0 <= t)
  }

  lemma Scaled(x: real, y: real, day: DayLength)
    requires x < y
    ensures x * day < y * day
  {
  }

  /** Comparing days is comparing seconds. */
  lemma SpanBelow(days: int, t: real, day: DayLength)
    ensures days as real < t / day <==> Span(days, day) < t
  {
    var x, n := t / day, days as real;
    assert x * day == t;
    if n < x {
      Scaled(n, x, day);
    } else if x < n {
      Scaled(x, n, day);
    } else {
      assert n * day == t;
    }
  }

  lemma DaysMean(t: real, day: DayLength)
    ensures DaysFor(Days(After(t), day), t, day)
  {
    if t > 0.0 {
      var r := Days(After(t), day);
      SpanBelow(0, t, day);
      assert Span(0, day) == 0.0;
      DaysBegun(t / day, r);
      hide Days, Span;
      SpanBelow(r - 1, t, day);
      SpanBelow(r, t, day);
      SpanBelow(125, t, day);
    }
  }

  lemma DaysBegun(x: real, r: int)
    requires x > 0.0 && r == Clamp(Ceil(x), 0, 126)
    ensures 1 <= r <= 126 && (r < 126 ==> (r - 1) as real < x <= r as real) && (r == 126 <==> 125.0 < x)
  {
  }

  lemma MinutesMean(t: real)
    ensures MinutesFor(Minutes(After(t)), t)
  {
  }

  // ---- the bosses ----

  /** The answer of the world's own timers. */
  function Told(w: World, name: string): Reading {
    if w.timer.Timer? && name in w.timer.readings then w.timer.readings[name] else Missing
  }

  /** The answer to the first of these names that has one. */
  function FirstTold(readings: map<string, Reading>, names: seq<string>): Reading {
    if names == [] then Missing
    else if names[0] in readings && !readings[names[0]].Missing? then readings[names[0]]
    else FirstTold(readings, names[1..])
  }

  /** r is shown for a boss: 0 while one of these is in the world, else the days its timer has left, else idle. */
  predicate BossFor(r: int, w: World, here: seq<string>, timer: Reading, idle: int) {
    if exists p :: p in here && p in w.present then r == 0
    else if timer.Left? then DaysFor(r, timer.seconds, w.dayTime)
    else r == idle
  }

  lemma CountdownShown(w: World, c: Countdown, here: seq<string>, timer: Reading, idle: int)
    requires (exists p :: p in here && p in w.present) ==> c.Due?
    requires (forall p :: p in here ==> p !in w.present) && timer.Left? ==> c == After(timer.seconds)
    requires (forall p :: p in here ==> p !in w.present) && !timer.Left? ==>
               (idle == 0 && c.Due?) || (idle == 127 && c.Unknown?)
    ensures BossFor(Days(c, w.dayTime), w, here, timer, idle)
  {
    if c.After? {
      DaysMean(c.seconds, w.dayTime);
    }
    hide DaysFor;
  }

  /** The four bosses the world's own timers announce, and Deerclops, on the surface. */
  lemma TimedBosses(v: View, w: World)
    requires !ScriptFails(w) && !w.isCave
    ensures var t := Shown(v, w).timers;
            && BossFor(t.bearger, w, ["bearger"], Told(w, "bearger_timetospawn"), 127)
            && BossFor(t.klaus, w, ["klaus", "klaus_sack"], Told(w, "klaussack_spawntimer"), 127)
            && BossFor(t.lordfruitfly, w, ["lordfruitfly"], Told(w, "lordfruitfly_spawntime"),
                       if w.timer.NoTimer? && w.farmingManager then 0 else 127)
  {
    hide Days, DaysFor, BossFor;
    CountdownShown(w, Bearger(w), ["bearger"], Told(w, "bearger_timetospawn"), 127);
    CountdownShown(w, Klaus(w), ["klaus", "klaus_sack"], Told(w, "klaussack_spawntimer"), 127);
    CountdownShown(w, FruitFly(w), ["lordfruitfly"], Told(w, "lordfruitfly_spawntime"),
                   if w.timer.NoTimer? && w.farmingManager then 0 else 127);
  }

  /** Deerclops comes while his spawner is not dormant. */
  lemma DeerclopsShown(v: View, w: World)
    requires !ScriptFails(w) && !w.isCave
    ensures var active := w.deerclopsSpawner.Some? && !w.deerclopsSpawner.value.dormant;
            BossFor(Shown(v, w).timers.deerclops, w, ["deerclops"],
                    if active then Told(w, "deerclops_timetoattack") else Missing,
                    if active && w.deerclopsSpawner.value.attacking then 0 else 127)
  {
    hide Days, DaysFor, BossFor;
    var active := w.deerclopsSpawner.Some? && !w.deerclopsSpawner.value.dormant;
    CountdownShown(w, Deerclops(w), ["deerclops"], if active then Told(w, "deerclops_timetoattack") else Missing,
                   if active && w.deerclopsSpawner.value.attacking then 0 else 127);
  }

  /** The bosses with a nest, a hive or a spawner of their own. */
  lemma NestedBosses(v: View, w: World)
    requires !ScriptFails(w) && !w.isCave
    ensures var t := Shown(v, w).timers;
            && BossFor(t.moose, w, ["moose", "mooseegg"], if w.nest.Some? then w.nest.value else Missing, 127)
            && BossFor(t.dragonfly, w, ["dragonfly"],
                       if w.dragonflySpawner.Some? then w.dragonflySpawner.value else Missing,
                       if w.dragonflySpawner.Some? then 0 else 127)
  {
    hide Days, DaysFor, BossFor;
    CountdownShown(w, Moose(w), ["moose", "mooseegg"], if w.nest.Some? then w.nest.value else Missing, 127);
    CountdownShown(w, Dragonfly(w), ["dragonfly"],
                   if w.dragonflySpawner.Some? then w.dragonflySpawner.value else Missing,
                   if w.dragonflySpawner.Some? then 0 else 127);
  }

  /** The bee queen, by the first growth timer of her hive that answers. */
  lemma BeeQueenShown(v: View, w: World)
    requires !ScriptFails(w) && !w.isCave
    ensures BossFor(Shown(v, w).timers.beequeen, w, ["beequeen", "beequeenhivegrown"], HiveTold(w), 127)
  {
    HiveIsTold(w);
    hide Days, DaysFor, BossFor, HiveTold, HiveReading;
    CountdownShown(w, BeeQueen(w), ["beequeen", "beequeenhivegrown"], HiveTold(w), 127);
  }

  function HiveTold(w: World): Reading {
    if w.hive.Some?
    then FirstTold(w.hive.value, ["hivegrowth", "hivegrowth2", "hivegrowth1", "shorthivegrowth", "firsthivegrowth"])
    else Missing
  }

  lemma HiveIsTold(w: World)
    ensures HiveTold(w) == if w.hive.Some? then HiveReading(w.hive.value) else Missing
  {
    if w.hive.Some? {
      var h := w.hive.value;
      var last := ["firsthivegrowth"];
      var fourth := ["shorthivegrowth"] + last;
      var third := ["hivegrowth1"] + fourth;
      var second := ["hivegrowth2"] + third;
      ToldNext(h, "firsthivegrowth", []);
      ToldNext(h, "shorthivegrowth", last);
      ToldNext(h, "hivegrowth1", fourth);
      ToldNext(h, "hivegrowth2", third);
      ToldNext(h, "hivegrowth", second);
      assert ["firsthivegrowth"] + [] == last;
      assert ["hivegrowth"] + second
             == ["hivegrowth", "hivegrowth2", "hivegrowth1", "shorthivegrowth", "firsthivegrowth"];
    }
  }

  lemma ToldNext(h: map<string, Reading>, name: string, rest: seq<string>)
    ensures FirstTold(h, [name] + rest) == OrElse(Ask(h, name), FirstTold(h, rest))
  {
    assert ([name] + rest)[1..] == rest;
  }

  /** Malbatross, whose spawner tells by its text, and the minutes to Antlion's rage. */
  lemma ToldBosses(v: View, w: World)
    requires !ScriptFails(w) && !w.isCave
    ensures var t := Shown(v, w).timers; var m := w.malbatrossSpawner;
            && BossFor(t.malbatross, w, ["malbatross"],
                       if m.Some? && m.value.spawnsIn.Some? then Left(m.value.spawnsIn.value) else Missing,
                       if m.Some? && m.value.spawning then 0 else 127)
            && (if w.antlion.Some? && w.antlion.value.Left? then MinutesFor(t.antlion, w.antlion.value.seconds)
                else t.antlion == 127)
  {
    if w.antlion.Some? && w.antlion.value.Left? {
      MinutesMean(w.antlion.value.seconds);
    }
    hide Days, DaysFor, MinutesFor, BossFor;
    var m := w.malbatrossSpawner;
    CountdownShown(w, Malbatross(w), ["malbatross"],
                   if m.Some? && m.value.spawnsIn.Some? then Left(m.value.spawnsIn.value) else Missing,
                   if m.Some? && m.value.spawning then 0 else 127);
  }

  /** The two bosses of the caves. */
  lemma CaveBosses(v: View, w: World)
    requires !ScriptFails(w) && w.isCave
    ensures var t := Shown(v, w).timers;
            && BossFor(t.toadstool, w, ["toadstool", "toadstool_dark"], Told(w, "toadstool_respawntask"), 0)
            && BossFor(t.fuelweaver, w, ["stalker_atrium"], if w.gate.Some? then w.gate.value else Missing,
                       if w.gate.Some? then 0 else 127)
  {
    hide Days, DaysFor, BossFor;
    CountdownShown(w, Toadstool(w), ["toadstool", "toadstool_dark"], Told(w, "toadstool_respawntask"), 0);
    CountdownShown(w, Fuelweaver(w), ["stalker_atrium"], if w.gate.Some? then w.gate.value else Missing,
                   if w.gate.Some? then 0 else 127);
  }

  /** A packet leaves alone what the other shard's packet tells; the caves tell nothing of the environment. */
  lemma OthersKept(v: View, w: World)
    ensures var s := Shown(v, w);
            && (ScriptFails(w) ==> s == v)
            && (w.isCave ==>
                  s == v.(timers := v.timers.(toadstool := s.timers.toadstool, fuelweaver := s.timers.fuelweaver)))
            && (!w.isCave ==> s.timers.toadstool == v.timers.toadstool && s.timers.fuelweaver == v.timers.fuelweaver)
  {
  }

  /** The script prints nothing only when Deerclops is awaited in a world that has no timers to ask. */
  lemma FailsWithoutTimers(w: World)
    ensures w.timer.Timer? || w.timer.NoMethod? ==> !ScriptFails(w)
    ensures "deerclops" in w.present || w.deerclopsSpawner.None? ==> !ScriptFails(w)
    ensures w.timer.NoTimer? && "deerclops" !in w.present && w.deerclopsSpawner.Some? ==>
              (ScriptFails(w) <==> !w.deerclopsSpawner.value.dormant)
  {
  }

  // ---- the environment ----

  /** r stands for the name at position r of a list, or for the default. */
  predicate NameFor(r: int, name: Option<string>, names: seq<string>, default: int, unknown: int) {
    if name.None? then r == default
    else if name.value in names then 0 <= r < |names| && names[r] == name.value
    else r == unknown
  }

  /** The largest whole number up to x, within bounds. */
  predicate FloorFor(r: int, x: real, low: int, high: int) {
    && low <= r <= high
    && (r < high ==> x < (r + 1) as real) && (low < r ==> r as real <= x)
  }

  lemma EnvNames(v: View, w: World)
    requires !ScriptFails(w) && !w.isCave
    ensures var e := Shown(v, w).env;
            && NameFor(e.season, w.season, ["autumn", "winter", "spring", "summer"], 0, 0)
            && NameFor(e.phase, w.phase, ["day", "dusk", "night"], 0, 0)
            && NameFor(e.nightmare, w.nightmarePhase, ["calm", "warn", "wild", "dawn"], 0, 4)
            && e.isRaining == w.isRaining && e.isSnowing == w.isSnowing && e.alterAwake == w.isAlterAwake
  {
  }

  lemma EnvNumbers(v: View, w: World)
    requires !ScriptFails(w) && !w.isCave
    ensures var e := Shown(v, w).env;
            && (w.clients.Some? ==> e.players == if w.clients.value < 127 then w.clients.value else 127)
            && (w.clients.None? ==> e.players == 0)
            && FloorFor(e.cycles, if w.cycles.Some? then (w.cycles.value + 1) as real else 1.0, 1, 2097152)
            && FloorFor(e.remDays, if w.remainingDays.Some? then w.remainingDays.value else 0.0, 0, 127)
            && FloorFor(e.temp, if w.temperature.Some? then w.temperature.value else 0.0, -8191, 8191)
            && (if w.moonCycle.Some? && 1 <= w.moonCycle.value <= 20 then e.moonPhase == w.moonCycle.value
                else e.moonPhase == 1)
  {
  }
}
