/** A report that names every field, and what the receiver makes of it. */
module FullReport {
  import opened Bridge
  import opened Decimal
  import opened GameState
  import opened LuaText

  /** The fields by their names in a report. */
  function Named(v: View): seq<Pair> {
    EnvNamed(v) + TimersNamed(v)
  }

  function EnvNamed(v: View): seq<Pair> {
    [Pair("players", Print(v.env.players)),
     Pair("cycles", Print(v.env.cycles)),
     Pair("season", Print(v.env.season)),
     Pair("phase", Print(v.env.phase)),
     Pair("rem_days", Print(v.env.remDays)),
     Pair("temp", PrintInt(v.env.temp)),
     Pair("is_raining", if v.env.isRaining then "true" else "false"),
     Pair("is_snowing", if v.env.isSnowing then "true" else "false"),
     Pair("alter_awake", if v.env.alterAwake then "true" else "false"),
     Pair("moon_phase", Print(v.env.moonPhase)),
     Pair("nightmare", Print(v.env.nightmare))]
  }

  function TimersNamed(v: View): seq<Pair> {
    [Pair("deerclops", Print(v.timers.deerclops)),
     Pair("bearger", Print(v.timers.bearger)),
     Pair("moose", Print(v.timers.moose)),
     Pair("dragonfly", Print(v.timers.dragonfly)),
     Pair("beequeen", Print(v.timers.beequeen)),
     Pair("klaus", Print(v.timers.klaus)),
     Pair("toadstool", Print(v.timers.toadstool)),
     Pair("fuelweaver", Print(v.timers.fuelweaver)),
     Pair("malbatross", Print(v.timers.malbatross)),
     Pair("lordfruitfly", Print(v.timers.lordfruitfly)),
     Pair("antlion", Print(v.timers.antlion))]
  }

  const ENV_KEYS: seq<Key> :=
    [Players, Cycles, Season, Phase, RemDays, Temp,
     IsRaining, IsSnowing, AlterAwake, MoonPhase, Nightmare]

  const TIMER_KEYS: seq<Key> :=
    [Deerclops, Bearger, Moose, Dragonfly, BeeQueen, Klaus,
     Toadstool, Fuelweaver, Malbatross, LordFruitfly, Antlion]

  predicate IsName(name: string, k: Key) {
    name != "" && NoEquals(name) && KeyOf(name) == k
  }

  lemma Keys1()
    ensures IsName("players", Players)
    ensures IsName("cycles", Cycles)
    ensures IsName("season", Season)
    ensures IsName("phase", Phase)
    ensures IsName("rem_days", RemDays)
    ensures IsName("temp", Temp)
  {
  }

  lemma Keys2()
    ensures IsName("is_raining", IsRaining)
    ensures IsName("is_snowing", IsSnowing)
    ensures IsName("alter_awake", AlterAwake)
    ensures IsName("moon_phase", MoonPhase)
    ensures IsName("nightmare", Nightmare)
    ensures IsName("deerclops", Deerclops)
  {
  }

  lemma Keys3()
    ensures IsName("bearger", Bearger)
    ensures IsName("moose", Moose)
    ensures IsName("dragonfly", Dragonfly)
    ensures IsName("beequeen", BeeQueen)
    ensures IsName("klaus", Klaus)
    ensures IsName("toadstool", Toadstool)
  {
  }

  lemma Keys4()
    ensures IsName("fuelweaver", Fuelweaver)
    ensures IsName("malbatross", Malbatross)
    ensures IsName("lordfruitfly", LordFruitfly)
    ensures IsName("antlion", Antlion)
  {
  }

  /** These pairs name these fields, with their values, and print plainly. */
  predicate Names(ps: seq<Pair>, keys: seq<Key>, v: View) {
    && |ps| == |keys|
    && forall j :: 0 <= j < |ps| ==> NamesField(ps[j], keys[j], v)
  }

  predicate NamesField(p: Pair, k: Key, v: View) {
    KeyOf(p.key) == k && Plain(p) && Parsed(k, p.val) == Field(v, k)
  }

  lemma NumberNamed(name: string, k: Key, n: UInt32, v: View)
    requires IsName(name, k) && !k.Temp? && !k.IsRaining? && !k.IsSnowing? && !k.AlterAwake?
    requires Field(v, k) == n
    ensures NamesField(Pair(name, Print(n)), k, v)
  {
    hide Print, ParseApiUint, Field, NoEquals, KeyOf;
    UintRoundTrip(n);
    NumeralIsPlain(name, n);
  }

  lemma TemperatureNamed(v: View)
    requires IsName("temp", Temp)
    ensures NamesField(Pair("temp", PrintInt(v.env.temp)), Temp, v)
  {
    var n: int := v.env.temp;
    IntRoundTrip(n);
    NumeralIsPlain("temp", if n < 0 then -n else n);
    hide Print, ParseApiInt, KeyOf;
  }

  lemma FlagNamed(name: string, k: Key, b: bool, v: View)
    requires IsName(name, k) && (k.IsRaining? || k.IsSnowing? || k.AlterAwake?) && Field(v, k) == Bit(b)
    ensures NamesField(Pair(name, if b then "true" else "false"), k, v)
  {
    hide KeyOf;
  }

  lemma EnvNamedNames(v: View)
    ensures Names(EnvNamed(v), ENV_KEYS, v)
  {
    hide IsName, Print, PrintInt, NamesField;
    Keys1();
    Keys2();
    NumberNamed("players", Players, v.env.players, v);
    NumberNamed("cycles", Cycles, v.env.cycles, v);
    NumberNamed("season", Season, v.env.season, v);
    NumberNamed("phase", Phase, v.env.phase, v);
    NumberNamed("rem_days", RemDays, v.env.remDays, v);
    TemperatureNamed(v);
    FlagNamed("is_raining", IsRaining, v.env.isRaining, v);
    FlagNamed("is_snowing", IsSnowing, v.env.isSnowing, v);
    FlagNamed("alter_awake", AlterAwake, v.env.alterAwake, v);
    NumberNamed("moon_phase", MoonPhase, v.env.moonPhase, v);
    NumberNamed("nightmare", Nightmare, v.env.nightmare, v);
  }

  lemma TimersNamedNames(v: View)
    ensures Names(TimersNamed(v), TIMER_KEYS, v)
  {
    hide IsName, Print, PrintInt, NamesField;
    Keys2();
    Keys3();
    Keys4();
    NumberNamed("deerclops", Deerclops, v.timers.deerclops, v);
    NumberNamed("bearger", Bearger, v.timers.bearger, v);
    NumberNamed("moose", Moose, v.timers.moose, v);
    NumberNamed("dragonfly", Dragonfly, v.timers.dragonfly, v);
    NumberNamed("beequeen", BeeQueen, v.timers.beequeen, v);
    NumberNamed("klaus", Klaus, v.timers.klaus, v);
    NumberNamed("toadstool", Toadstool, v.timers.toadstool, v);
    NumberNamed("fuelweaver", Fuelweaver, v.timers.fuelweaver, v);
    NumberNamed("malbatross", Malbatross, v.timers.malbatross, v);
    NumberNamed("lordfruitfly", LordFruitfly, v.timers.lordfruitfly, v);
    NumberNamed("antlion", Antlion, v.timers.antlion, v);
  }

  lemma AllNamed(v: View)
    ensures Names(Named(v), ENV_KEYS + TIMER_KEYS, v)
  {
    EnvNamedNames(v);
    TimersNamedNames(v);
    hide KeyOf, NamesField, EnvNamed, TimersNamed;
  }

  lemma KeysDiffer()
    ensures var keys := ENV_KEYS + TIMER_KEYS;
            && (forall j, k :: 0 <= j < k < |keys| ==> keys[j] != keys[k])
            && forall k: Key :: k != NoKey ==> k in keys
  {
    assert ENV_KEYS + TIMER_KEYS ==
      [Players, Cycles, Season, Phase, RemDays, Temp,
       IsRaining, IsSnowing, AlterAwake, MoonPhase, Nightmare, Deerclops,
       Bearger, Moose, Dragonfly, BeeQueen, Klaus, Toadstool,
       Fuelweaver, Malbatross, LordFruitfly, Antlion];
  }

  lemma {:induction false} LastValueIs(ps: seq<Pair>, k: Key, j: nat, before: int)
    requires j < |ps| && KeyOf(ps[j].key) == k && forall i :: j < i < |ps| ==> KeyOf(ps[i].key) != k
    ensures LastValue(ps, k, before) == Parsed(k, ps[j].val)
    decreases |ps|
  {
    hide KeyOf, Parsed;
    if j < |ps| - 1 {
      LastValueIs(ps[..|ps| - 1], k, j, before);
    }
  }

  /** Whatever the state was, a report that names every field leaves exactly the state it was written from. */
  lemma ReportSetsAll(v: View, before: View, after: View)
    requires Applied(before, after, Named(v))
    ensures after == v
  {
    var keys := ENV_KEYS + TIMER_KEYS;
    AllNamed(v);
    KeysDiffer();
    hide KeyOf, Named, Parsed, Field;
    forall k
      ensures Field(after, k) == Field(v, k)
    {
      if k == NoKey {
        NoField(after, v);
      } else {
        assert k in keys;
        var j :| 0 <= j < |keys| && keys[j] == k;
        assert NamesField(Named(v)[j], k, v);
        LastValueIs(Named(v), k, j, Field(before, k));
      }
    }
    SameFields(after, v);
  }

  lemma NoField(v: View, v': View)
    ensures Field(v, NoKey) == Field(v', NoKey)
  {
  }

  /** Pairs with any separator between them. */
  function JoinBy(ps: seq<Pair>, seps: string): string
    requires |seps| >= |ps|
  {
    if ps == [] then ""
    else ps[0].key + ("=" + (ps[0].val + (if |ps| == 1 then "" else [seps[0]] + JoinBy(ps[1..], seps[1..]))))
  }

  /** A pair that can be cut out of a text, though one of its halves may be empty. */
  predicate Cuttable(p: Pair) {
    '=' !in p.key && '&' !in p.val && ';' !in p.val && '\n' !in p.val
  }

  /** The pairs of which neither half is empty. */
  function Filled(ps: seq<Pair>): seq<Pair> {
    if ps == [] then [] else (if ps[0].key == "" || ps[0].val == "" then [] else [ps[0]]) + Filled(ps[1..])
  }

  /** One round of the parser, on any pair. */
  lemma AnyPairThenTail(t: string, i: nat, p: Pair, tail: string)
    requires At(t, i, p.key + ("=" + (p.val + tail))) && i + |p.key| + 1 + |p.val| + |tail| == |t|
    requires Cuttable(p) && (tail != "" ==> IsSeparator(tail[0]))
    ensures var end := i + |p.key| + 1 + |p.val|;
            && At(t, end, tail) && end <= |t| && (tail == "" <==> end == |t|)
            && Pairs(t, i) == Filled([p]) + if tail == "" then [] else Pairs(t, end + 1)
  {
    hide At, Pairs;
    var eq := i + |p.key|;
    var end := eq + 1 + |p.val|;
    FourParts(t, i, p.key, "=", p.val, tail);
    AtChar(t, eq, "=", 0);
    if tail != "" {
      AtChar(t, end, tail, 0);
    }
    AtSlice(t, i, p.key);
    AtSlice(t, eq + 1, p.val);
    KeyEndIs(t, i, p.key, 0);
    ValEndIs(t, eq + 1, p.val, 0);
    PairsAny(t, i, eq, end);
    assert [p][1..] == [] && Filled([]) == [];
  }

  lemma PairsAny(t: string, i: nat, eq: nat, end: nat)
    requires i <= eq < |t| && KeyEnd(t, i) == eq && eq + 1 <= end <= |t| && ValEnd(t, eq + 1) == end
    ensures Pairs(t, i) == (if eq == i || end == eq + 1 then [] else [Pair(t[i..eq], t[eq + 1..end])])
                           + (if end < |t| then Pairs(t, end + 1) else [])
  {
    hide KeyEnd, ValEnd;
  }

  /** Reading pairs back gives exactly those of which neither half is empty. */
  lemma {:induction false} SeparatedPairs(t: string, i: nat, ps: seq<Pair>, seps: string)
    requires |seps| >= |ps| && (forall c :: c in seps ==> c in "&;\n") && forall p :: p in ps ==> Cuttable(p)
    requires At(t, i, JoinBy(ps, seps)) && i + |JoinBy(ps, seps)| == |t|
    ensures Pairs(t, i) == Filled(ps)
    decreases |ps|
  {
    hide At, Cuttable, KeyEnd, ValEnd, IsSeparator;
    if ps == [] {
      NoPairs(t);
    } else {
      var rest := ps[1..];
      var tail := if |ps| == 1 then "" else [seps[0]] + JoinBy(rest, seps[1..]);
      Separator(seps);
      assert ps[0] in ps;
      AnyPairThenTail(t, i, ps[0], tail);
      FilledFirst(ps);
      hide Pairs, Filled;
      if rest != [] {
        var end := i + |ps[0].key| + 1 + |ps[0].val|;
        AtConcat(t, end, [seps[0]], JoinBy(rest, seps[1..]));
        SeparatedPairs(t, end + 1, rest, seps[1..]);
      }
    }
  }

  lemma FilledFirst(ps: seq<Pair>)
    requires ps != []
    ensures Filled(ps) == Filled([ps[0]]) + Filled(ps[1..]) && Filled([]) == []
  {
    assert [ps[0]][1..] == [];
  }

  lemma {:induction false} AllFilled(ps: seq<Pair>)
    requires forall p :: p in ps ==> p.key != "" && p.val != ""
    ensures Filled(ps) == ps
    decreases |ps|
  {
    if ps != [] {
      assert ps[0] in ps && ps == [ps[0]] + ps[1..];
      AllFilled(ps[1..]);
    }
  }

  lemma Separator(seps: string)
    requires seps != "" && forall c :: c in seps ==> c in "&;\n"
    ensures IsSeparator(seps[0])
  {
    assert seps[0] in seps;
  }

  /** The same for the text of such a report, with ampersands, semicolons or newlines between the pairs. */
  lemma ReportTextSetsAll(v: View, seps: string, before: View, after: View)
    requires |seps| >= |Named(v)| && forall c :: c in seps ==> c in "&;\n"
    requires Applied(before, after, Pairs(JoinBy(Named(v), seps), 0))
    ensures after == v
  {
    AllNamed(v);
    hide Plain, Named, JoinBy, Pairs, At, KeyOf, Filled, Cuttable;
    forall p | p in Named(v)
      ensures Cuttable(p) && p.key != "" && p.val != ""
    {
      var j :| 0 <= j < |Named(v)| && Named(v)[j] == p;
      assert NamesField(p, (ENV_KEYS + TIMER_KEYS)[j], v);
      PlainIsCuttable(p);
    }
    AtWhole(JoinBy(Named(v), seps));
    SeparatedPairs(JoinBy(Named(v), seps), 0, Named(v), seps);
    AllFilled(Named(v));
    ReportSetsAll(v, before, after);
  }

  lemma PlainIsCuttable(p: Pair)
    requires Plain(p)
    ensures Cuttable(p) && p.key != "" && p.val != ""
  {
    assert forall k :: 0 <= k < |p.val| ==> !IsSeparator(p.val[k]);
  }

  /** What a flag may be written as. */
  lemma FlagWords(rest: string)
    ensures ParseFlag("1" + rest) && ParseFlag("t" + rest) && ParseFlag("T" + rest)
    ensures !ParseFlag("") && !ParseFlag("0" + rest) && !ParseFlag("f" + rest) && !ParseFlag("F" + rest)
  {
  }

  /** Numbers that are none, or too large, read as the sentinels of a state that is not known. */
  lemma BadNumbers(digits: string, c: char)
    requires Digits(digits) && !IsDigit(c)
    ensures ParseApiUint("") == 4294967295 == ParseApiUint(digits + [c])
    ensures ParseApiInt("") == 2147483647 && ParseApiInt("-") == 2147483647 == ParseApiInt("1" + digits + [c])
    ensures Value(digits) > 4294967295 ==> ParseApiUint(digits) == 4294967295
    ensures Value(digits) > 2147483647 ==> ParseApiInt(digits) == 2147483647
    ensures Value(digits) > 2147483648 ==> ParseApiInt("-" + digits) == 2147483647
  {
  }
}
