/** The status page: a rendering that fits its slot whatever the fields hold, and that a reader who knows only the
    names can read back. */
module StatusPage {
  import opened Decimal
  import opened GameState
  import opened PageReader

  const SLOT := 1024

  datatype Status = Status(
    gameUpd: bool, modUpd: bool, masterRdy: bool, cavesRdy: bool, baselineCycles: uint64, currentCycles: uint64,
    enableCaves: bool, enableMaster: bool, view: View)

  // ---- the rendering, as what a buffer becomes ----

  function Bool(b: bool): (s: string)
    ensures |s| <= 5
  {
    if b then "true" else "false"
  }

  function Num(n: UInt32): (s: string)
    ensures |s| <= 10
  {
    PrintLength(n, 10);
    Print(n)
  }

  function Num64(n: uint64): (s: string)
    ensures |s| <= 20
  {
    IdLength(n);
    Print(n)
  }

  function Signed(n: Int32): (s: string)
    ensures |s| <= 11
  {
    PrintLength(if n < 0 then 0 - n else n, 10);
    PrintInt(n)
  }

  function WithLocks(buf: string, s: Status): (r: string)
    ensures |r| <= |buf| + 260
  {
    buf + "{\"status\":\"success\",\"locks\":{\"game_upd\":" + Bool(s.gameUpd)
    + ",\"mod_upd\":" + Bool(s.modUpd)
    + ",\"master_rdy\":" + Bool(s.masterRdy)
    + ",\"caves_rdy\":" + Bool(s.cavesRdy)
    + "},\"performance\":{\"baseline_cycles\":" + Num64(s.baselineCycles)
    + ",\"current_cycles\":" + Num64(s.currentCycles)
  }

  function WithEnv(buf: string, s: Status): (r: string)
    ensures |r| <= |buf| + 300
  {
    var e := s.view.env;
    buf + "},\"data\":{\"players\":" + Num(e.players)
    + ",\"enable_caves\":" + Bool(s.enableCaves)
    + ",\"enable_master\":" + Bool(s.enableMaster)
    + ",\"cycles\":" + Num(e.cycles)
    + ",\"season\":" + Num(e.season)
    + ",\"phase\":" + Num(e.phase)
    + ",\"rem_days\":" + Num(e.remDays)
    + ",\"temp\":" + Signed(e.temp)
  }

  function WithWeather(buf: string, s: Status): (r: string)
    ensures |r| <= |buf| + 120
  {
    var e := s.view.env;
    buf + ",\"is_raining\":" + Bool(e.isRaining)
    + ",\"is_snowing\":" + Bool(e.isSnowing)
    + ",\"moon_phase\":" + Num(e.moonPhase)
    + ",\"nightmare\":" + Num(e.nightmare)
    + ",\"alter_awake\":" + Bool(e.alterAwake)
  }

  function WithTimers(buf: string, t: Timers): (r: string)
    ensures |r| <= |buf| + 180
  {
    buf + ",\"boss_timers\":{"
    + "\"deerclops\":" + Num(t.deerclops)
    + ",\"bearger\":" + Num(t.bearger)
    + ",\"moose\":" + Num(t.moose)
    + ",\"dragonfly\":" + Num(t.dragonfly)
    + ",\"beequeen\":" + Num(t.beequeen)
    + ",\"klaus\":" + Num(t.klaus)
  }

  function WithMoreTimers(buf: string, t: Timers): (r: string)
    ensures |r| <= |buf| + 150
  {
    buf + ",\"toadstool\":" + Num(t.toadstool)
    + ",\"fuelweaver\":" + Num(t.fuelweaver)
    + ",\"malbatross\":" + Num(t.malbatross)
    + ",\"lordfruitfly\":" + Num(t.lordfruitfly)
    + ",\"antlion\":" + Num(t.antlion)
    + "}}}"
  }

  function Render(s: Status): (r: string)
    ensures |r| <= SLOT
  {
    WithMoreTimers(WithTimers(WithWeather(WithEnv(WithLocks("", s), s), s), s.view.timers), s.view.timers)
  }

  // ---- what a reader of the page finds ----

  function YesNo(b: bool): string {
    if b then "true" else "false"
  }

  /** The fields of the page: every name and what is to be read behind it. */
  function PageFields(s: Status): seq<Entry> {
    LockFields(s) + EnvFields(s) + WeatherFields(s) + TimerFields(s.view.timers) + MoreTimerFields(s.view.timers)
  }

  function LockFields(s: Status): seq<Entry> {
    [Entry("game_upd", YesNo(s.gameUpd)),
     Entry("mod_upd", YesNo(s.modUpd)),
     Entry("master_rdy", YesNo(s.masterRdy)),
     Entry("caves_rdy", YesNo(s.cavesRdy)),
     Entry("baseline_cycles", Print(s.baselineCycles)),
     Entry("current_cycles", Print(s.currentCycles))]
  }

  function EnvFields(s: Status): seq<Entry> {
    var e := s.view.env;
    [Entry("players", Print(e.players)),
     Entry("enable_caves", YesNo(s.enableCaves)),
     Entry("enable_master", YesNo(s.enableMaster)),
     Entry("cycles", Print(e.cycles)),
     Entry("season", Print(e.season)),
     Entry("phase", Print(e.phase)),
     Entry("rem_days", Print(e.remDays)),
     Entry("temp", PrintInt(e.temp))]
  }

  function WeatherFields(s: Status): seq<Entry> {
    var e := s.view.env;
    [Entry("is_raining", YesNo(e.isRaining)),
     Entry("is_snowing", YesNo(e.isSnowing)),
     Entry("moon_phase", Print(e.moonPhase)),
     Entry("nightmare", Print(e.nightmare)),
     Entry("alter_awake", YesNo(e.alterAwake))]
  }

  function TimerFields(t: Timers): seq<Entry> {
    [Entry("deerclops", Print(t.deerclops)),
     Entry("bearger", Print(t.bearger)),
     Entry("moose", Print(t.moose)),
     Entry("dragonfly", Print(t.dragonfly)),
     Entry("beequeen", Print(t.beequeen)),
     Entry("klaus", Print(t.klaus))]
  }

  function MoreTimerFields(t: Timers): seq<Entry> {
    [Entry("toadstool", Print(t.toadstool)),
     Entry("fuelweaver", Print(t.fuelweaver)),
     Entry("malbatross", Print(t.malbatross)),
     Entry("lordfruitfly", Print(t.lordfruitfly)),
     Entry("antlion", Print(t.antlion))]
  }

  /** Reading any name of the page in this text gives the field's value. */
  predicate PageShows(page: string, s: Status) {
    forall k :: 0 <= k < |PageFields(s)| ==> ReadField(page, 0, PageFields(s)[k].name) == PageFields(s)[k].text
  }

  lemma TextSound(b: bool, n: nat, i: int)
    ensures forall c :: c in YesNo(b) || c in Print(n) || c in PrintInt(i) ==> c != '"' && c != ',' && c != '}'
  {
  }

  /** This is how a name is written, with the text in front of it. */
  predicate Opens(open: string, lead: string, key: string) {
    open == Field(lead, key) && '"' !in key
  }

  /** One field more. */
  lemma Step(p: string, entries: seq<Entry>, open: string, lead: string, key: string, value: string)
    returns (q: string, more: seq<Entry>)
    requires Holds(p, entries) && Transparent(lead) && Separated(lead) && Opens(open, lead, key)
    requires forall c :: c in value ==> c != '"' && c != ',' && c != '}'
    ensures q == p + open + value && more == entries + [Entry(key, value)] && Holds(q, more)
  {
    hide Holds, Transparent, Separated, Field;
    FieldHeld(p, entries, lead, key, value);
    q, more := p + open + value, entries + [Entry(key, value)];
  }

  lemma First(open: string, lead: string, key: string, value: string) returns (q: string, es: seq<Entry>)
    requires Transparent(lead) && Opens(open, lead, key)
    requires forall c :: c in value ==> c != '"' && c != ',' && c != '}'
    ensures q == "" + open + value && es == [Entry(key, value)] && Holds(q, es)
  {
    hide Holds, Transparent, Field;
    FirstHeld(lead, key, value);
    q, es := open + value, [Entry(key, value)];
    assert "" + open + value == q;
  }

  // The names as they are written.

  lemma LockNames1()
    ensures Opens("{\"status\":\"success\",\"locks\":{\"game_upd\":", "{\"status\":\"success\",\"locks\":{", "game_upd")
    ensures Opens(",\"mod_upd\":", ",", "mod_upd")
  {
  }

  lemma LockNames2()
    ensures Opens(",\"master_rdy\":", ",", "master_rdy")
    ensures Opens(",\"caves_rdy\":", ",", "caves_rdy")
  {
  }

  lemma LockNames3()
    ensures Opens("},\"performance\":{\"baseline_cycles\":", "},\"performance\":{", "baseline_cycles")
    ensures Opens(",\"current_cycles\":", ",", "current_cycles")
  {
  }

  lemma EnvNames1()
    ensures Opens("},\"data\":{\"players\":", "},\"data\":{", "players")
    ensures Opens(",\"enable_caves\":", ",", "enable_caves")
  {
  }

  lemma EnvNames2()
    ensures Opens(",\"enable_master\":", ",", "enable_master")
    ensures Opens(",\"cycles\":", ",", "cycles")
  {
  }

  lemma EnvNames3()
    ensures Opens(",\"season\":", ",", "season")
    ensures Opens(",\"phase\":", ",", "phase")
  {
  }

  lemma EnvNames4()
    ensures Opens(",\"rem_days\":", ",", "rem_days")
    ensures Opens(",\"temp\":", ",", "temp")
  {
  }

  lemma WeatherNames1()
    ensures Opens(",\"is_raining\":", ",", "is_raining")
    ensures Opens(",\"is_snowing\":", ",", "is_snowing")
  {
  }

  lemma WeatherNames2()
    ensures Opens(",\"moon_phase\":", ",", "moon_phase")
    ensures Opens(",\"nightmare\":", ",", "nightmare")
  {
  }

  lemma WeatherNames3()
    ensures Opens(",\"alter_awake\":", ",", "alter_awake")
  {
  }

  lemma TimerNames1()
    ensures Opens(",\"boss_timers\":{\"deerclops\":", ",\"boss_timers\":{", "deerclops")
    ensures Opens(",\"bearger\":", ",", "bearger")
  {
  }

  lemma TimerNames2()
    ensures Opens(",\"moose\":", ",", "moose")
    ensures Opens(",\"dragonfly\":", ",", "dragonfly")
  {
  }

  lemma TimerNames3()
    ensures Opens(",\"beequeen\":", ",", "beequeen")
    ensures Opens(",\"klaus\":", ",", "klaus")
  {
  }

  lemma MoreTimerNames1()
    ensures Opens(",\"toadstool\":", ",", "toadstool")
    ensures Opens(",\"fuelweaver\":", ",", "fuelweaver")
  {
  }

  lemma MoreTimerNames2()
    ensures Opens(",\"malbatross\":", ",", "malbatross")
    ensures Opens(",\"lordfruitfly\":", ",", "lordfruitfly")
  {
  }

  lemma MoreTimerNames3()
    ensures Opens(",\"antlion\":", ",", "antlion")
  {
  }

  lemma Leads()
    ensures Transparent(",")
    ensures Transparent("{\"status\":\"success\",\"locks\":{")
    ensures Transparent("},\"performance\":{")
    ensures Transparent("},\"data\":{")
    ensures Transparent(",\"boss_timers\":{")
  {
    hide Transparent;
    PlainLead(",");
    PlainLead(":{");
    HeadLead(",", "locks", ":{");
    HeadLead(":", "success", Head(",", "locks", ":{"));
    HeadLead("{", "status", Head(":", "success", Head(",", "locks", ":{")));
    HeadLead("},", "performance", ":{");
    HeadLead("},", "data", ":{");
    HeadLead(",", "boss_timers", ":{");
    FirstHead();
    OtherHeads();
  }

  lemma FirstHead()
    ensures Head("{", "status", Head(":", "success", Head(",", "locks", ":{")))
            == "{\"status\":\"success\",\"locks\":{"
  {
  }

  lemma OtherHeads()
    ensures Head("},", "performance", ":{") == "},\"performance\":{"
    ensures Head("},", "data", ":{") == "},\"data\":{"
    ensures Head(",", "boss_timers", ":{") == ",\"boss_timers\":{"
  {
  }

  lemma LocksHeld(s: Status)
    ensures Holds(WithLocks("", s), LockFields(s))
  {
    hide Holds, Transparent, Print, PrintInt, Field, Opens;
    Leads();
    LockNames1();
    LockNames2();
    LockNames3();
    TextSound(s.gameUpd, s.baselineCycles, 0);
    TextSound(s.modUpd, s.currentCycles, 0);
    TextSound(s.masterRdy, 0, 0);
    TextSound(s.cavesRdy, 0, 0);
    var q, es;
    q, es := First("{\"status\":\"success\",\"locks\":{\"game_upd\":", "{\"status\":\"success\",\"locks\":{",
                   "game_upd", Bool(s.gameUpd));
    q, es := Step(q, es, ",\"mod_upd\":", ",", "mod_upd", Bool(s.modUpd));
    q, es := Step(q, es, ",\"master_rdy\":", ",", "master_rdy", Bool(s.masterRdy));
    q, es := Step(q, es, ",\"caves_rdy\":", ",", "caves_rdy", Bool(s.cavesRdy));
    q, es := Step(q, es, "},\"performance\":{\"baseline_cycles\":", "},\"performance\":{", "baseline_cycles",
                  Num64(s.baselineCycles));
    q, es := Step(q, es, ",\"current_cycles\":", ",", "current_cycles", Num64(s.currentCycles));
    assert es == LockFields(s);
  }

  /** The first half of the environment. */
  lemma EnvBegun(p: string, entries: seq<Entry>, s: Status) returns (q: string, es: seq<Entry>)
    requires Holds(p, entries)
    ensures var e := s.view.env;
            && q == p + "},\"data\":{\"players\":" + Num(e.players)
                    + ",\"enable_caves\":" + Bool(s.enableCaves)
                    + ",\"enable_master\":" + Bool(s.enableMaster)
                    + ",\"cycles\":" + Num(e.cycles)
            && es == entries + EnvFields(s)[..4] && Holds(q, es)
  {
    hide Holds, Transparent, Print, PrintInt, Field, Opens;
    Leads();
    EnvNames1();
    EnvNames2();
    var e := s.view.env;
    TextSound(s.enableCaves, e.players, 0);
    TextSound(s.enableMaster, e.cycles, 0);
    q, es := Step(p, entries, "},\"data\":{\"players\":", "},\"data\":{", "players", Num(e.players));
    q, es := Step(q, es, ",\"enable_caves\":", ",", "enable_caves", Bool(s.enableCaves));
    q, es := Step(q, es, ",\"enable_master\":", ",", "enable_master", Bool(s.enableMaster));
    q, es := Step(q, es, ",\"cycles\":", ",", "cycles", Num(e.cycles));
    assert es == entries + EnvFields(s)[..4];
  }

  lemma EnvHeld(p: string, entries: seq<Entry>, s: Status)
    requires Holds(p, entries)
    ensures Holds(WithEnv(p, s), entries + EnvFields(s))
  {
    hide Holds, Transparent, Print, PrintInt, Field, Opens;
    Leads();
    EnvNames3();
    EnvNames4();
    var e := s.view.env;
    TextSound(true, e.season, e.temp);
    TextSound(true, e.phase, 0);
    TextSound(true, e.remDays, 0);
    var q, es := EnvBegun(p, entries, s);
    q, es := Step(q, es, ",\"season\":", ",", "season", Num(e.season));
    q, es := Step(q, es, ",\"phase\":", ",", "phase", Num(e.phase));
    q, es := Step(q, es, ",\"rem_days\":", ",", "rem_days", Num(e.remDays));
    q, es := Step(q, es, ",\"temp\":", ",", "temp", Signed(e.temp));
    assert es == entries + EnvFields(s);
  }

  lemma WeatherHeld(p: string, entries: seq<Entry>, s: Status)
    requires Holds(p, entries)
    ensures Holds(WithWeather(p, s), entries + WeatherFields(s))
  {
    hide Holds, Transparent, Print, PrintInt, Field, Opens;
    Leads();
    WeatherNames1();
    WeatherNames2();
    WeatherNames3();
    var e := s.view.env;
    TextSound(e.isRaining, e.moonPhase, 0);
    TextSound(e.isSnowing, e.nightmare, 0);
    TextSound(e.alterAwake, 0, 0);
    var q, es;
    q, es := Step(p, entries, ",\"is_raining\":", ",", "is_raining", Bool(e.isRaining));
    q, es := Step(q, es, ",\"is_snowing\":", ",", "is_snowing", Bool(e.isSnowing));
    q, es := Step(q, es, ",\"moon_phase\":", ",", "moon_phase", Num(e.moonPhase));
    q, es := Step(q, es, ",\"nightmare\":", ",", "nightmare", Num(e.nightmare));
    q, es := Step(q, es, ",\"alter_awake\":", ",", "alter_awake", Bool(e.alterAwake));
    assert es == entries + WeatherFields(s);
  }

  lemma TimerHeld(p: string, entries: seq<Entry>, t: Timers)
    requires Holds(p, entries)
    ensures Holds(WithTimers(p, t), entries + TimerFields(t))
  {
    hide Holds, Transparent, Print, PrintInt, Field, Opens;
    Leads();
    TimerNames1();
    TimerNames2();
    TimerNames3();
    TextSound(true, t.deerclops, 0);
    TextSound(true, t.bearger, 0);
    TextSound(true, t.moose, 0);
    TextSound(true, t.dragonfly, 0);
    TextSound(true, t.beequeen, 0);
    TextSound(true, t.klaus, 0);
    var q, es;
    assert p + ",\"boss_timers\":{" + "\"deerclops\":" == p + ",\"boss_timers\":{\"deerclops\":";
    q, es := Step(p, entries, ",\"boss_timers\":{\"deerclops\":", ",\"boss_timers\":{", "deerclops", Num(t.deerclops));
    q, es := Step(q, es, ",\"bearger\":", ",", "bearger", Num(t.bearger));
    q, es := Step(q, es, ",\"moose\":", ",", "moose", Num(t.moose));
    q, es := Step(q, es, ",\"dragonfly\":", ",", "dragonfly", Num(t.dragonfly));
    q, es := Step(q, es, ",\"beequeen\":", ",", "beequeen", Num(t.beequeen));
    q, es := Step(q, es, ",\"klaus\":", ",", "klaus", Num(t.klaus));
    assert es == entries + TimerFields(t);
  }

  lemma MoreTimersHeld(p: string, entries: seq<Entry>, t: Timers) returns (q: string)
    requires Holds(p, entries)
    ensures WithMoreTimers(p, t) == q + "}}}" && Holds(q, entries + MoreTimerFields(t))
  {
    hide Holds, Transparent, Print, PrintInt, Field, Opens;
    Leads();
    MoreTimerNames1();
    MoreTimerNames2();
    MoreTimerNames3();
    TextSound(true, t.toadstool, 0);
    TextSound(true, t.fuelweaver, 0);
    TextSound(true, t.malbatross, 0);
    TextSound(true, t.lordfruitfly, 0);
    TextSound(true, t.antlion, 0);
    var es;
    q, es := Step(p, entries, ",\"toadstool\":", ",", "toadstool", Num(t.toadstool));
    q, es := Step(q, es, ",\"fuelweaver\":", ",", "fuelweaver", Num(t.fuelweaver));
    q, es := Step(q, es, ",\"malbatross\":", ",", "malbatross", Num(t.malbatross));
    q, es := Step(q, es, ",\"lordfruitfly\":", ",", "lordfruitfly", Num(t.lordfruitfly));
    q, es := Step(q, es, ",\"antlion\":", ",", "antlion", Num(t.antlion));
    assert es == entries + MoreTimerFields(t);
  }

  /** Before the page is closed it holds all its fields. */
  lemma PageWritten(s: Status) returns (q: string)
    ensures Render(s) == q + "}}}" && Holds(q, PageFields(s))
  {
    hide Holds, WithLocks, WithEnv, WithWeather, WithTimers, WithMoreTimers, LockFields, EnvFields, WeatherFields,
      TimerFields, MoreTimerFields;
    LocksHeld(s);
    var p1, es1 := WithLocks("", s), LockFields(s);
    EnvHeld(p1, es1, s);
    var p2, es2 := WithEnv(p1, s), es1 + EnvFields(s);
    WeatherHeld(p2, es2, s);
    var p3, es3 := WithWeather(p2, s), es2 + WeatherFields(s);
    TimerHeld(p3, es3, s.view.timers);
    q := MoreTimersHeld(WithTimers(p3, s.view.timers), es3 + TimerFields(s.view.timers), s.view.timers);
  }

  // ---- the names are different ----

  /** Enough of a name to tell it from the others: its length, its first and its fourth letter. */
  function Trait(name: string): int {
    if |name| < 4 then 0 else (|name| * 1000 + name[0] as int) * 1000 + name[3] as int
  }

  function Traits(entries: seq<Entry>): (traits: seq<int>)
    ensures |traits| == |entries| && forall k :: 0 <= k < |entries| ==> traits[k] == Trait(entries[k].name)
  {
    seq(|entries|, k requires 0 <= k < |entries| => Trait(entries[k].name))
  }

  const LOCK_TRAITS: seq<int> := [8103101, 7109095, 10109116, 9099101, 15098101, 14099114]
  const ENV_TRAITS: seq<int> := [7112121, 12101098, 13101098, 6099108, 6115115, 5112115, 8114095, 4116112]
  const WEATHER_TRAITS: seq<int> := [10105114, 10105115, 10109110, 9110104, 11097101]
  const TIMER_TRAITS: seq<int> := [9100114, 7098114, 5109115, 9100103, 8098113, 5107117]
  const MORE_TIMER_TRAITS: seq<int> := [9116100, 10102108, 10109098, 12108100, 7097108]

  const TRAITS: seq<int> :=
    [8103101, 7109095, 10109116, 9099101, 15098101, 14099114, 7112121, 12101098, 13101098, 6099108,
     6115115, 5112115, 8114095, 4116112, 10105114, 10105115, 10109110, 9110104, 11097101, 9100114,
     7098114, 5109115, 9100103, 8098113, 5107117, 9116100, 10102108, 10109098, 12108100, 7097108]

  lemma TraitsInParts()
    ensures TRAITS == LOCK_TRAITS + ENV_TRAITS + WEATHER_TRAITS + TIMER_TRAITS + MORE_TIMER_TRAITS
  {
  }

  lemma LockFieldsTraits(s: Status)
    ensures Traits(LockFields(s)) == LOCK_TRAITS
  {
    hide Print, PrintInt, YesNo;
    var fields := LockFields(s);
  }

  lemma EnvFieldsTraits(s: Status)
    ensures Traits(EnvFields(s)) == ENV_TRAITS
  {
    hide Print, PrintInt, YesNo;
    var fields := EnvFields(s);
  }

  lemma WeatherFieldsTraits(s: Status)
    ensures Traits(WeatherFields(s)) == WEATHER_TRAITS
  {
    hide Print, PrintInt, YesNo;
    var fields := WeatherFields(s);
  }

  lemma TimerFieldsTraits(s: Status)
    ensures Traits(TimerFields(s.view.timers)) == TIMER_TRAITS
  {
    hide Print, PrintInt, YesNo;
    var fields := TimerFields(s.view.timers);
  }

  lemma MoreTimerFieldsTraits(s: Status)
    ensures Traits(MoreTimerFields(s.view.timers)) == MORE_TIMER_TRAITS
  {
    hide Print, PrintInt, YesNo;
    var fields := MoreTimerFields(s.view.timers);
  }

  lemma TraitsAre(s: Status)
    ensures Traits(PageFields(s)) == TRAITS
  {
    LockFieldsTraits(s);
    EnvFieldsTraits(s);
    WeatherFieldsTraits(s);
    TimerFieldsTraits(s);
    MoreTimerFieldsTraits(s);
    hide LockFields, EnvFields, WeatherFields, TimerFields, MoreTimerFields, Trait;
    var a, b, c := LockFields(s), EnvFields(s), WeatherFields(s);
    var d, e := TimerFields(s.view.timers), MoreTimerFields(s.view.timers);
    TraitsInParts();
    TraitsConcat(a + b + c + d, e);
    TraitsConcat(a + b + c, d);
    TraitsConcat(a + b, c);
    TraitsConcat(a, b);
  }

  lemma TraitsConcat(a: seq<Entry>, b: seq<Entry>)
    ensures Traits(a + b) == Traits(a) + Traits(b)
  {
    hide Trait;
  }

  lemma TraitsDiffer()
    ensures forall j, k :: 0 <= j < k < |TRAITS| ==> TRAITS[j] != TRAITS[k]
  {
  }

  lemma HeadTraits(name: string)
    requires IsHead(name)
    ensures Trait(name) !in TRAITS
  {
  }

  /** No two fields have the same name. */
  lemma NamesDiffer(s: Status)
    ensures forall j, k :: 0 <= j < k < |PageFields(s)| ==> PageFields(s)[j].name != PageFields(s)[k].name
    ensures forall k :: 0 <= k < |PageFields(s)| ==> !IsHead(PageFields(s)[k].name)
  {
    var fields := PageFields(s);
    TraitsAre(s);
    TraitsDiffer();
    hide PageFields, Trait, IsHead;
    forall k | 0 <= k < |fields|
      ensures !IsHead(fields[k].name)
    {
      assert Trait(fields[k].name) == TRAITS[k];
      if IsHead(fields[k].name) {
        HeadTraits(fields[k].name);
      }
    }
    forall j, k | 0 <= j < k < |fields|
      ensures fields[j].name != fields[k].name
    {
      assert Trait(fields[j].name) == TRAITS[j] && Trait(fields[k].name) == TRAITS[k];
    }
  }

  /** Every field of the status can be read back from the page, under its own name. */
  lemma PageReads(s: Status)
    ensures PageShows(Render(s), s)
  {
    hide Holds, Render, PageFields, ReadField;
    NamesDiffer(s);
    var q := PageWritten(s);
    forall k | 0 <= k < |PageFields(s)|
      ensures ReadField(Render(s), 0, PageFields(s)[k].name) == PageFields(s)[k].text
    {
      PageHeld(q, PageFields(s), "}}}", k);
    }
  }
}
