/** The script that runs inside the game: it reads the world and prints the packets the decoder undoes. */
module Parasite {
  import opened GameState
  import opened Telemetry
  import opened Wrappers

  /** A length of day; the game's default is 480 seconds. */
  type DayLength = r: real | r > 0.0 witness 480.0

  /** The answer of a protected GetTimeLeft call: failed or nil, a value that is no number, or seconds. */
  datatype Reading = Missing | Odd | Left(seconds: real)

  /** The world's settings timer: absent, without the method, or answering by name. */
  datatype TimerComp = NoTimer | NoMethod | Timer(readings: map<string, Reading>)

  datatype DeerclopsText = DeerclopsText(dormant: bool, attacking: bool)

  datatype MalbatrossText = MalbatrossText(spawnsIn: Option<real>, spawning: bool)

  /** What the script reads. present holds the prefabs that exist; the spawner entities come with the
      reading of their own timer; moonCycle is the number in the clock's debug string. */
  datatype World = World(
    isCave: bool, dayTime: DayLength,
    cycles: Option<int>, clients: Option<nat>, season: Option<string>, moonCycle: Option<nat>,
    temperature: Option<real>, phase: Option<string>, isRaining: bool, isSnowing: bool, nightmarePhase: Option<string>,
    remainingDays: Option<real>, isAlterAwake: bool,
    present: set<string>, timer: TimerComp,
    deerclopsSpawner: Option<DeerclopsText>, nest: Option<Reading>, dragonflySpawner: Option<Reading>,
    hive: Option<map<string, Reading>>, gate: Option<Reading>, malbatrossSpawner: Option<MalbatrossText>,
    farmingManager: bool, antlion: Option<Reading>)

  /** What the world says about a boss: nothing, here or due, or due after some seconds. */
  datatype Countdown = Unknown | Due | After(seconds: real)

  function Or<T>(o: Option<T>, default: T): T {
    if o.None? then default else o.value
  }

  function Clamp(n: int, low: int, high: int): (r: int)
    requires low <= high
    ensures low <= r <= high
  {
    if n < low then low else if n > high then high else n
  }

  function Ceil(x: real): (r: int)
    ensures r as real - 1.0 < x <= r as real
  {
    -(-x).Floor
  }

  // ---- the clamped world, as the decoder should show it ----

  function SeasonCode(season: string): (r: nat)
    ensures r < 4
  {
    if season == "winter" then 1 else if season == "spring" then 2 else if season == "summer" then 3 else 0
  }

  function PhaseCode(phase: string): (r: nat)
    ensures r < 3
  {
    if phase == "dusk" then 1 else if phase == "night" then 2 else 0
  }

  function NightmareCode(phase: string): (r: nat)
    ensures r < 5
  {
    if phase == "calm" then 0 else if phase == "warn" then 1 else if phase == "wild" then 2
    else if phase == "dawn" then 3 else 4
  }

  function SeenEnv(w: World): Env {
    Env(players := Clamp(Or(w.clients, 0), 0, 127),
        cycles := Clamp(Or(w.cycles, 0), 0, 2097151) + 1,
        season := SeasonCode(Or(w.season, "autumn")),
        phase := PhaseCode(Or(w.phase, "day")),
        remDays := Clamp(Or(w.remainingDays, 0.0).Floor, 0, 127),
        temp := Clamp(Or(w.temperature, 0.0).Floor, -8191, 8191),
        isRaining := w.isRaining,
        isSnowing := w.isSnowing,
        moonPhase := if w.moonCycle.Some? && 1 <= w.moonCycle.value <= 20 then w.moonCycle.value else 1,
        nightmare := NightmareCode(Or(w.nightmarePhase, "calm")),
        alterAwake := w.isAlterAwake)
  }

  /** Days as shown: 127 when unknown, else rounded up and saturating at 126. */
  function Days(c: Countdown, day: DayLength): (r: nat)
    ensures r <= 127 && (r == 127 <==> c.Unknown?)
  {
    match c
    case Unknown => 127
    case Due => 0
    case After(t) => if t <= 0.0 then 0 else Clamp(Ceil(t / day), 0, 126)
  }

  /** Minutes as shown: rounded down and saturating at 126. */
  function Minutes(c: Countdown): (r: nat)
    ensures r <= 127 && (r == 127 <==> c.Unknown?)
  {
    match c
    case Unknown => 127
    case Due => 0
    case After(t) => Clamp((t / 60.0).Floor, 0, 126)
  }

  function CountdownOf(r: Reading, otherwise: Countdown): Countdown {
    if r.Left? then After(r.seconds) else otherwise
  }

  function TimeLeft(w: World, name: string): Reading {
    if w.timer.Timer? then Ask(w.timer.readings, name) else Missing
  }

  /** The answer of a timer component of an entity. */
  function Ask(readings: map<string, Reading>, name: string): Reading {
    if name in readings then readings[name] else Missing
  }

  function OrElse(r: Reading, other: Reading): Reading {
    if r.Missing? then other else r
  }

  /** The first of a hive's growth timers that answers anything. */
  function HiveReading(h: map<string, Reading>): Reading {
    OrElse(Ask(h, "hivegrowth"), OrElse(Ask(h, "hivegrowth2"), OrElse(Ask(h, "hivegrowth1"),
           OrElse(Ask(h, "shorthivegrowth"), Ask(h, "firsthivegrowth")))))
  }

  function Deerclops(w: World): Countdown {
    if "deerclops" in w.present then Due
    else if w.deerclopsSpawner.None? || w.deerclopsSpawner.value.dormant then Unknown
    else CountdownOf(TimeLeft(w, "deerclops_timetoattack"),
                     if w.deerclopsSpawner.value.attacking then Due else Unknown)
  }

  function Bearger(w: World): Countdown {
    if "bearger" in w.present then Due else CountdownOf(TimeLeft(w, "bearger_timetospawn"), Unknown)
  }

  function Moose(w: World): Countdown {
    if "moose" in w.present || "mooseegg" in w.present then Due else CountdownOf(Or(w.nest, Missing), Unknown)
  }

  function Dragonfly(w: World): Countdown {
    if "dragonfly" in w.present then Due
    else if w.dragonflySpawner.None? then Unknown
    else CountdownOf(w.dragonflySpawner.value, Due)
  }

  function BeeQueen(w: World): Countdown {
    if "beequeen" in w.present || "beequeenhivegrown" in w.present then Due
    else if w.hive.None? then Unknown
    else CountdownOf(HiveReading(w.hive.value), Unknown)
  }

  function Klaus(w: World): Countdown {
    if "klaus" in w.present || "klaus_sack" in w.present then Due
    else CountdownOf(TimeLeft(w, "klaussack_spawntimer"), Unknown)
  }

  function Toadstool(w: World): Countdown {
    if "toadstool" in w.present || "toadstool_dark" in w.present then Due
    else if w.isCave then CountdownOf(TimeLeft(w, "toadstool_respawntask"), Due)
    else Unknown
  }

  function Fuelweaver(w: World): Countdown {
    if "stalker_atrium" in w.present then Due
    else if w.gate.None? then Unknown
    else CountdownOf(w.gate.value, Due)
  }

  function Malbatross(w: World): Countdown {
    if "malbatross" in w.present then Due
    else if w.malbatrossSpawner.None? then Unknown
    else if w.malbatrossSpawner.value.spawnsIn.Some? then After(w.malbatrossSpawner.value.spawnsIn.value)
    else if w.malbatrossSpawner.value.spawning then Due
    else Unknown
  }

  function FruitFly(w: World): Countdown {
    if "lordfruitfly" in w.present then Due
    else if w.timer.NoTimer? then (if w.farmingManager then Due else Unknown)
    else CountdownOf(TimeLeft(w, "lordfruitfly_spawntime"), Unknown)
  }

  function Antlion(w: World): Countdown {
    CountdownOf(Or(w.antlion, Missing), Unknown)
  }

  /** The timers one world's packet writes: a cave reports two, the surface the other nine. */
  function SeenTimers(t: Timers, w: World): Timers {
    var day := w.dayTime;
    if w.isCave then
      t.(toadstool := Days(Toadstool(w), day), fuelweaver := Days(Fuelweaver(w), day))
    else
      t.(deerclops := Days(Deerclops(w), day), bearger := Days(Bearger(w), day), moose := Days(Moose(w), day),
         dragonfly := Days(Dragonfly(w), day), beequeen := Days(BeeQueen(w), day), klaus := Days(Klaus(w), day),
         malbatross := Days(Malbatross(w), day), lordfruitfly := Days(FruitFly(w), day),
         antlion := Minutes(Antlion(w)))
  }

  // ---- the script ----

  /** What a countdown is as a byte. */
  predicate Says(b: int, c: Countdown, day: DayLength) {
    b == 128 + Days(c, day)
  }

  /** A number of days as a byte: 255 for no number. */
  function GetDays(r: Reading, day: DayLength): (b: Byte)
    ensures Says(b, CountdownOf(r, Unknown), day)
  {
    if !r.Left? then 255
    else if r.seconds <= 0.0 then 128
    else
      var d := Ceil(r.seconds / day);
      assert d > 0 by { assert r.seconds / day > 0.0; }
      128 + if d > 126 then 126 else d
  }

  function M(t: real): (b: Byte)
    ensures b == 128 + Minutes(After(t))
  {
    var m := (t / 60.0).Floor;
    if m > 126 then 254 else if m < 0 then 128 else 128 + m
  }

  /** The timer by name; 127, which no other answer can be, says that the world has no timer component. */
  function GetTimer(w: World, name: string): (b: Byte)
    ensures b == 127 <==> w.timer.NoTimer?
    ensures !w.timer.NoTimer? ==> Says(b, CountdownOf(TimeLeft(w, name), Unknown), w.dayTime)
  {
    if w.timer.NoTimer? then 127
    else if w.timer.NoMethod? then 255
    else GetDays(TimeLeft(w, name), w.dayTime)
  }

  lemma SevenBits(n: nat)
    requires n < 128
    ensures Low(128 + n) == n
  {
  }

  lemma Septets(c: nat)
    requires c <= 2097151
    ensures c / 16384 < 128
    ensures Low(128 + c / 16384) * 16384 + Low(128 + c / 128 % 128) * 128 + Low(128 + c % 128) == c
  {
    SevenBits(c / 16384);
    SevenBits(c / 128 % 128);
    SevenBits(c % 128);
    hide Low;
    assert c / 128 / 128 == c / 16384;
  }

  /** The day counter as three seven-bit bytes. */
  method CycleBytes(w: World) returns (d1: Byte, d2: Byte, d3: Byte)
    ensures d1 >= 0x80 && d2 >= 0x80 && d3 >= 0x80
    ensures Low(d1) * 16384 + Low(d2) * 128 + Low(d3) + 1 == SeenEnv(w).cycles
  {
    hide Low, SeasonCode, PhaseCode, NightmareCode;
    var c := Or(w.cycles, 0);
    if c < 0 {
      c := 0;
    } else if c > 2097151 {
      c := 2097151;
    }
    Septets(c);
    d1 := 128 + c / 16384;
    d2 := 128 + c / 128 % 128;
    d3 := 128 + c % 128;
  }

  lemma SeasonAndMoon(season: nat, moon: nat)
    requires season < 4 && moon < 32
    ensures Field(128 + season * 32 + moon, 32, 4) == season && Field(128 + season * 32 + moon, 1, 32) == moon
  {
  }

  /** Season and moon phase in one byte. */
  method SeasonByte(w: World) returns (env: Byte)
    ensures env >= 0x80
    ensures Field(env, 32, 4) == SeenEnv(w).season && Field(env, 1, 32) == SeenEnv(w).moonPhase
  {
    var s := Or(w.season, "autumn");
    var sv := 0;
    if s == "winter" {
      sv := 1;
    } else if s == "spring" {
      sv := 2;
    } else if s == "summer" {
      sv := 3;
    }
    var mv: int := 1;
    if w.moonCycle.Some? && w.moonCycle.value >= 1 && w.moonCycle.value <= 20 {
      mv := w.moonCycle.value;
    }
    env := 128 + sv * 32 + mv;
    SeasonAndMoon(sv, mv);
  }

  lemma SignAndMagnitude(sign: nat, magnitude: int)
    requires sign < 2 && 0 <= magnitude <= 8191
    ensures var t1 := 128 + sign * 64 + magnitude / 128;
            && 128 <= t1 < 256
            && Field(t1, 1, 64) * 128 + Low(128 + magnitude % 128) == magnitude && Field(t1, 64, 2) == sign
  {
    SevenBits(magnitude % 128);
    hide Low;
    var high := magnitude / 128;
    assert high < 64;
    assert Field(128 + high, 1, 64) == high && Field(128 + high, 64, 2) == 0;
    assert Field(192 + high, 1, 64) == high && Field(192 + high, 64, 2) == 1;
  }

  /** The temperature as a sign bit and thirteen bits of magnitude. */
  method TemperatureBytes(w: World) returns (t1: Byte, t2: Byte)
    ensures t1 >= 0x80 && t2 >= 0x80
    ensures (Field(t1, 1, 64) * 128 + Low(t2)) * (1 - 2 * Field(t1, 64, 2)) == SeenEnv(w).temp
  {
    hide Low, Field, SeasonCode, PhaseCode, NightmareCode;
    var rawTemp := Or(w.temperature, 0.0).Floor;
    var sign := 0;
    if rawTemp < 0 {
      sign := 1;
    }
    var absTemp := if rawTemp < 0 then -rawTemp else rawTemp;
    if absTemp > 8191 {
      absTemp := 8191;
    }
    SignAndMagnitude(sign, absTemp);
    t1 := 128 + sign * 64 + absTemp / 128;
    t2 := 128 + absTemp % 128;
  }

  lemma PhaseAndWeather(phase: nat, rain: nat, snow: nat, nightmare: nat)
    requires phase < 3 && rain < 2 && snow < 2 && nightmare < 5
    ensures var b := 128 + phase * 32 + rain * 16 + snow * 8 + nightmare;
            Field(b, 32, 4) == phase && Field(b, 16, 2) == rain && Field(b, 8, 2) == snow && Field(b, 1, 8) == nightmare
  {
  }

  /** Day phase, rain, snow and nightmare phase in one byte. */
  method WeatherByte(w: World) returns (byte8: Byte)
    ensures byte8 >= 0x80
    ensures Field(byte8, 32, 4) == SeenEnv(w).phase && Field(byte8, 1, 8) == SeenEnv(w).nightmare
    ensures (Field(byte8, 16, 2) == 1 <==> w.isRaining) && (Field(byte8, 8, 2) == 1 <==> w.isSnowing)
  {
    var ph := 0;
    var wph := Or(w.phase, "day");
    if wph == "dusk" {
      ph := 1;
    } else if wph == "night" {
      ph := 2;
    }
    var rain := 0;
    if w.isRaining {
      rain := 1;
    }
    var snow := 0;
    if w.isSnowing {
      snow := 1;
    }
    var nm := 0;
    var wnm := Or(w.nightmarePhase, "calm");
    if wnm == "warn" {
      nm := 1;
    } else if wnm == "wild" {
      nm := 2;
    } else if wnm == "dawn" {
      nm := 3;
    } else if wnm != "calm" {
      nm := 4;
    }
    byte8 := 128 + ph * 32 + rain * 16 + snow * 8 + nm;
    PhaseAndWeather(ph, rain, snow, nm);
  }

  /** Players, remaining days and the awakened altar, a byte each. */
  method CountBytes(w: World) returns (ply: Byte, remB: Byte, byte10: Byte)
    ensures ply >= 0x80 && remB >= 0x80 && byte10 >= 0x80
    ensures Low(ply) == SeenEnv(w).players && Low(remB) == SeenEnv(w).remDays
    ensures Low(byte10) == 1 <==> SeenEnv(w).alterAwake
  {
    var p: int := Or(w.clients, 0);
    if p > 127 {
      p := 127;
    }
    ply := 128 + p;
    var rem := Or(w.remainingDays, 0.0).Floor;
    if rem > 127 {
      rem := 127;
    } else if rem < 0 {
      rem := 0;
    }
    remB := 128 + rem;
    var aw := 0;
    if w.isAlterAwake {
      aw := 1;
    }
    byte10 := 128 + aw;
  }

  /** The environment packet. Decoding it gives back the clamped world, whatever the state was. */
  method EnvPayload(w: World) returns (packet: seq<Byte>)
    ensures |packet| == 13 && packet[0] == 206 && packet[1] == 223 && packet[2] == 128
    ensures forall i :: 0 <= i < 13 ==> packet[i] >= 0x80
    ensures forall v :: Decoded(v, packet[2..]) == v.(env := SeenEnv(w))
  {
    hide Field, Low, Decoded, HeaderFrom;
    var d1, d2, d3 := CycleBytes(w);
    var ply, remB, byte10 := CountBytes(w);
    var env := SeasonByte(w);
    var t1, t2 := TemperatureBytes(w);
    var byte8 := WeatherByte(w);
    ghost var data := [d1, d2, d3, ply, env, t1, t2, byte8, remB, byte10];
    FlagsSeen(w);
    hide SeenEnv;
    assert DecodedEnv(data) == SeenEnv(w);
    hide DecodedEnv;
    packet := [206, 223, 128, d1, d2, d3, ply, env, t1, t2, byte8, remB, byte10];
    assert packet[2..][1..] == data;
    EnvDecoded(packet[2..]);
  }

  lemma FlagsSeen(w: World)
    ensures SeenEnv(w).isRaining == w.isRaining && SeenEnv(w).isSnowing == w.isSnowing
  {
    hide SeasonCode, PhaseCode, NightmareCode;
  }

  lemma EnvDecoded(p: seq<Byte>)
    requires |p| == 11 && p[0] == 0x80
    ensures forall v :: Decoded(v, p) == v.(env := DecodedEnv(p[1..]))
  {
    HeaderMeaning(p);
    hide HeaderFrom;
  }

  /** The script fails, and prints nothing, when it has to ask a settings timer that is not there. */
  predicate ScriptFails(w: World) {
    && "deerclops" !in w.present && w.deerclopsSpawner.Some? && !w.deerclopsSpawner.value.dormant
    && w.timer.NoTimer?
  }

  method WorldTimerBytes(w: World) returns (ok: bool, deer: Byte, bear: Byte, klaus: Byte, toad: Byte, fly: Byte)
    ensures ok == !ScriptFails(w)
    ensures ok ==> Says(deer, Deerclops(w), w.dayTime) && Says(bear, Bearger(w), w.dayTime)
                   && Says(klaus, Klaus(w), w.dayTime) && Says(toad, Toadstool(w), w.dayTime)
                   && Says(fly, FruitFly(w), w.dayTime)
  {
    var day := w.dayTime;
    assert Says(128, Due, day) && Says(255, Unknown, day);
    hide Says, TimeLeft;
    ok, deer, bear, klaus, toad, fly := true, 255, 255, 255, 255, 255;
    if "deerclops" in w.present {
      deer := 128;
    } else if w.deerclopsSpawner.Some? {
      if !w.deerclopsSpawner.value.dormant {
        if w.timer.NoTimer? {
          ok := false;
          return;
        }
        var t := TimeLeft(w, "deerclops_timetoattack");
        if t.Left? {
          deer := GetDays(t, day);
        } else if w.deerclopsSpawner.value.attacking {
          deer := 128;
        }
      }
    }
    if "bearger" in w.present {
      bear := 128;
    } else {
      var t := TimeLeft(w, "bearger_timetospawn");
      if !t.Missing? {
        bear := GetDays(t, day);
      }
    }
    if "klaus" in w.present || "klaus_sack" in w.present {
      klaus := 128;
    } else {
      var t := TimeLeft(w, "klaussack_spawntimer");
      if t.Left? {
        klaus := GetDays(t, day);
      }
    }
    if "toadstool" in w.present || "toadstool_dark" in w.present {
      toad := 128;
    } else if w.isCave {
      toad := 128;
      var t := TimeLeft(w, "toadstool_respawntask");
      if t.Left? {
        toad := GetDays(t, day);
      }
    }
    if "lordfruitfly" in w.present {
      fly := 128;
    } else {
      var t := GetTimer(w, "lordfruitfly_spawntime");
      if t != 127 {
        fly := t;
      } else if w.farmingManager {
        fly := 128;
      }
    }
  }

  method BeeQueenByte(w: World) returns (bee: Byte)
    ensures Says(bee, BeeQueen(w), w.dayTime)
  {
    var day := w.dayTime;
    assert Says(128, Due, day) && Says(255, Unknown, day);
    hide Says, Ask;
    bee := 255;
    if "beequeen" in w.present || "beequeenhivegrown" in w.present {
      bee := 128;
    } else if w.hive.Some? {
      var t := Ask(w.hive.value, "hivegrowth");
      if t.Missing? {
        t := Ask(w.hive.value, "hivegrowth2");
      }
      if t.Missing? {
        t := Ask(w.hive.value, "hivegrowth1");
      }
      if t.Missing? {
        t := Ask(w.hive.value, "shorthivegrowth");
      }
      if t.Missing? {
        t := Ask(w.hive.value, "firsthivegrowth");
      }
      if !t.Missing? {
        bee := GetDays(t, day);
      }
    }
  }

  method EntityTimerBytes(w: World)
    returns (goose: Byte, dragon: Byte, weaver: Byte, mal: Byte, antlion: Byte)
    ensures Says(goose, Moose(w), w.dayTime) && Says(dragon, Dragonfly(w), w.dayTime)
    ensures Says(weaver, Fuelweaver(w), w.dayTime) && Says(mal, Malbatross(w), w.dayTime)
    ensures antlion == 128 + Minutes(Antlion(w))
  {
    var day := w.dayTime;
    assert Says(128, Due, day) && Says(255, Unknown, day);
    hide Says, M, Minutes;
    goose, dragon, weaver, mal, antlion := 255, 255, 255, 255, 255;
    if "moose" in w.present || "mooseegg" in w.present {
      goose := 128;
    } else if w.nest.Some? && !w.nest.value.Missing? {
      goose := GetDays(w.nest.value, day);
    }
    if "dragonfly" in w.present {
      dragon := 128;
    } else if w.dragonflySpawner.Some? {
      var coolingDown := false;
      if w.dragonflySpawner.value.Left? {
        dragon := GetDays(w.dragonflySpawner.value, day);
        coolingDown := true;
      }
      if !coolingDown {
        dragon := 128;
      }
    }
    if "stalker_atrium" in w.present {
      weaver := 128;
    } else if w.gate.Some? {
      var ready := true;
      if w.gate.value.Left? {
        weaver := GetDays(w.gate.value, day);
        ready := false;
      }
      if ready {
        weaver := 128;
      }
    }
    if "malbatross" in w.present {
      mal := 128;
    } else if w.malbatrossSpawner.Some? {
      var dbg := w.malbatrossSpawner.value;
      if dbg.spawnsIn.Some? {
        mal := GetDays(Left(dbg.spawnsIn.value), day);
      } else if dbg.spawning {
        mal := 128;
      }
    }
    if w.antlion.Some? && w.antlion.value.Left? {
      antlion := M(w.antlion.value.seconds);
    }
  }

  lemma BossDecoded(p: seq<Byte>)
    requires |p| == 12 && (p[0] == 0x81 || p[0] == 0x82)
    ensures forall v :: Decoded(v, p) == v.(timers := if p[0] == 0x81 then MasterTimers(v.timers, p[1..])
                                                     else CavesTimers(v.timers, p[1..]))
  {
    HeaderMeaning(p);
    hide HeaderFrom;
  }

  /** The eleven data bytes. */
  function BossData(w: World): (d: seq<Byte>)
    ensures |d| == BOSS_PAYLOAD && forall i :: 0 <= i < BOSS_PAYLOAD ==> d[i] >= 0x80
  {
    var day := w.dayTime;
    [128 + Days(Deerclops(w), day), 128 + Days(Bearger(w), day), 128 + Days(Moose(w), day),
     128 + Days(Dragonfly(w), day), 128 + Days(BeeQueen(w), day), 128 + Days(Klaus(w), day),
     128 + Days(Toadstool(w), day), 128 + Days(Fuelweaver(w), day), 128 + Days(Malbatross(w), day),
     128 + Days(FruitFly(w), day), 128 + Minutes(Antlion(w))]
  }

  lemma TimersDecoded(w: World, d: seq<Byte>)
    requires d == BossData(w)
    ensures forall t :: (if w.isCave then CavesTimers(t, d) else MasterTimers(t, d)) == SeenTimers(t, w)
  {
    hide Deerclops, Bearger, Moose, Dragonfly, BeeQueen, Klaus, Toadstool, Fuelweaver, Malbatross, FruitFly, Antlion,
      Days, Minutes, BossData, Low;
    MarkedFieldsLow(w, d);
  }

  lemma MarkedFieldsLow(w: World, d: seq<Byte>)
    requires d == BossData(w)
    ensures var day := w.dayTime;
            && Low(d[0]) == Days(Deerclops(w), day) && Low(d[1]) == Days(Bearger(w), day)
            && Low(d[2]) == Days(Moose(w), day) && Low(d[3]) == Days(Dragonfly(w), day)
            && Low(d[4]) == Days(BeeQueen(w), day) && Low(d[5]) == Days(Klaus(w), day)
            && Low(d[6]) == Days(Toadstool(w), day) && Low(d[7]) == Days(Fuelweaver(w), day)
            && Low(d[8]) == Days(Malbatross(w), day) && Low(d[9]) == Days(FruitFly(w), day)
            && Low(d[10]) == Minutes(Antlion(w))
  {
    hide Deerclops, Bearger, Moose, Dragonfly, BeeQueen, Klaus, Toadstool, Fuelweaver, Malbatross, FruitFly, Antlion,
      Days, Minutes;
  }

  /** The boss packet. Decoding it sets exactly the timers this kind of world reports. */
  method BossPayload(w: World) returns (ok: bool, packet: seq<Byte>)
    ensures ok == !ScriptFails(w)
    ensures ok ==> |packet| == 14 && packet[0] == 206 && packet[1] == 223 && packet[2] == if w.isCave then 130 else 129
    ensures ok ==> forall i :: 0 <= i < 14 ==> packet[i] >= 0x80
    ensures ok ==> forall v :: Decoded(v, packet[2..]) == v.(timers := SeenTimers(v.timers, w))
  {
    hide Days, Minutes, Deerclops, Bearger, Moose, Dragonfly, BeeQueen, Klaus, Toadstool, Fuelweaver, Malbatross,
      FruitFly, Antlion, SeenTimers, MasterTimers, CavesTimers, Decoded, HeaderFrom, ScriptFails;
    packet := [];
    var deer, bear, klaus, toad, fly;
    ok, deer, bear, klaus, toad, fly := WorldTimerBytes(w);
    if !ok {
      return;
    }
    var goose, dragon, weaver, mal, antlion := EntityTimerBytes(w);
    var bee := BeeQueenByte(w);
    var boss: Byte := if w.isCave then 130 else 129;
    packet := [206, 223, boss, deer, bear, goose, dragon, bee, klaus, toad, weaver, mal, fly, antlion];
    ghost var data := [deer, bear, goose, dragon, bee, klaus, toad, weaver, mal, fly, antlion];
    assert data == BossData(w);
    assert packet[2..][1..] == data;
    hide Says, BossData;
    TimersDecoded(w, data);
    BossDecoded(packet[2..]);
  }

  /** What one activation of the script tells the state. */
  function Shown(v: View, w: World): View {
    if ScriptFails(w) then v
    else
      var told := v.(timers := SeenTimers(v.timers, w));
      if w.isCave then told else told.(env := SeenEnv(w))
  }

  /** What a log with these lines, each behind the same text, makes of the state. */
  ghost function ReceivedAll(v: View, text: seq<Byte>, lines: seq<seq<Byte>>): View
    decreases |lines|
  {
    if lines == [] then v else ReceivedAll(Received(v, text + lines[0]), text, lines[1..])
  }

  predicate IsPacket(line: seq<Byte>) {
    |line| >= 2 && line[0] == 0xCE && line[1] == 0xDF && forall k :: 0 <= k < |line| ==> line[k] >= 0x80
  }

  lemma ReceivedOne(v: View, text: seq<Byte>, line: seq<Byte>)
    requires Harmless(text) && IsPacket(line)
    ensures ReceivedAll(v, text, [line]) == Decoded(v, line[2..])
  {
    ReceivedBehindText(v, text, line);
    hide Received, Decoded, Harmless;
    assert [line][1..] == [];
  }

  lemma ReceivedTwo(v: View, text: seq<Byte>, first: seq<Byte>, second: seq<Byte>)
    requires Harmless(text) && IsPacket(first) && IsPacket(second)
    ensures ReceivedAll(v, text, [first, second]) == Decoded(Decoded(v, first[2..]), second[2..])
  {
    ReceivedBehindText(v, text, first);
    hide Received, Decoded, Harmless;
    assert [first, second][1..] == [second];
    ReceivedOne(Decoded(v, first[2..]), text, second);
  }

  /** One activation. No printed line holds a line break, and whatever text the game puts in front of its
      lines, receiving them shows the clamped world. */
  method Activate(w: World) returns (lines: seq<seq<Byte>>)
    ensures forall i, k :: 0 <= i < |lines| && 0 <= k < |lines[i]| ==> lines[i][k] >= 0x80
    ensures forall v, text :: Harmless(text) ==> ReceivedAll(v, text, lines) == Shown(v, w)
  {
    hide Decoded, SeenEnv, SeenTimers, Harmless;
    lines := [];
    var env := EnvPayload(w);
    var ok, boss := BossPayload(w);
    if !ok {
      return;
    }
    if !w.isCave {
      lines := [env, boss];
      forall v, text | Harmless(text)
        ensures ReceivedAll(v, text, lines) == Shown(v, w)
      {
        ReceivedTwo(v, text, env, boss);
      }
    } else {
      lines := [boss];
      forall v, text | Harmless(text)
        ensures ReceivedAll(v, text, lines) == Shown(v, w)
      {
        ReceivedOne(v, text, boss);
      }
    }
  }
}
