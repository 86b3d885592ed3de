/** The text bridge from a caves machine to the machine with the Master: a printed list of pairs, and the
    parser of /api/update_state that reads it back. */
module Bridge {
  import opened Decimal
  import opened Wrappers
  import opened GameState
  import opened LuaText

  /** The size of the receive buffer. */
  const CAPACITY := 10 * 1024

  datatype Pair = Pair(key: string, val: string)

  // ---- numbers ----

  /** An unsigned 32-bit decimal; anything else, an overflow too, reads as the largest value. */
  function ParseApiUint(s: string): UInt32 {
    if s != "" && Digits(s) && Value(s) < 0x1_0000_0000 then Value(s) else 4294967295
  }

  /** A signed 32-bit decimal with an optional sign; anything else reads as the largest value. */
  function ParseApiInt(s: string): Int32 {
    match ParseSigned(s)
    case Some(n) => if -0x8000_0000 <= n < 0x8000_0000 then n else 2147483647
    case None => 2147483647
  }

  lemma UintRoundTrip(n: UInt32)
    ensures ParseApiUint(Print(n)) == n
  {
    PrintParse(n);
  }

  lemma IntRoundTrip(n: Int32)
    ensures ParseApiInt(PrintInt(n)) == n
  {
    SignedRoundTrip(n);
  }

  function ParseFlag(s: string): bool {
    s != "" && (s[0] == '1' || s[0] == 't' || s[0] == 'T')
  }

  // ---- the pairs of a text ----

  predicate IsSeparator(c: char) {
    c == '&' || c == ';' || c == '\n'
  }

  predicate NoEquals(s: string) {
    forall k :: 0 <= k < |s| ==> s[k] != '='
  }

  predicate NoSeparator(s: string) {
    forall k :: 0 <= k < |s| ==> !IsSeparator(s[k])
  }

  /** The first '=' at or after i, or the end. */
  function KeyEnd(t: string, i: nat): (j: nat)
    requires i <= |t|
    ensures i <= j <= |t|
    decreases |t| - i
  {
    if i < |t| && t[i] != '=' then KeyEnd(t, i + 1) else i
  }

  /** The first separator at or after i, or the end. */
  function ValEnd(t: string, i: nat): (j: nat)
    requires i <= |t|
    ensures i <= j <= |t|
    decreases |t| - i
  {
    if i < |t| && !IsSeparator(t[i]) then ValEnd(t, i + 1) else i
  }

  /** The pairs from position i on. A key runs to the next '=', its value to the next separator; a pair with
      an empty half is skipped, and text without '=' ends the list. */
  function Pairs(t: string, i: nat): (ps: seq<Pair>)
    requires i <= |t|
    decreases |t| - i
  {
    var eq := KeyEnd(t, i);
    if eq == |t| then []
    else
      var end := ValEnd(t, eq + 1);
      var rest := if end < |t| then Pairs(t, end + 1) else [];
      if eq == i || end == eq + 1 then rest else [Pair(t[i..eq], t[eq + 1..end])] + rest
  }

  /** Pairs that survive the trip. */
  predicate Plain(p: Pair) {
    p.key != "" && NoEquals(p.key) && p.val != "" && NoSeparator(p.val)
  }

  function Join(ps: seq<Pair>): string
    decreases |ps|, 0
  {
    if ps == [] then ""
    else ps[0].key + ("=" + (ps[0].val + JoinTail(ps[1..])))
  }

  function JoinTail(ps: seq<Pair>): (s: string)
    ensures s != "" ==> IsSeparator(s[0])
    decreases |ps|, 1
  {
    if ps == [] then "" else "&" + Join(ps)
  }

  lemma {:induction false} KeyEndIs(t: string, i: nat, key: string, k: nat)
    requires At(t, i, key) && NoEquals(key) && At(t, i + |key|, "=") && k <= |key|
    ensures i + |key| < |t| && KeyEnd(t, i + k) == i + |key|
    decreases |key| - k
  {
    AtChar(t, i + |key|, "=", 0);
    if k < |key| {
      AtChar(t, i, key, k);
      hide At;
      KeyEndIs(t, i, key, k + 1);
    }
  }

  lemma {:induction false} ValEndIs(t: string, i: nat, val: string, k: nat)
    requires At(t, i, val) && NoSeparator(val) && k <= |val| && i + |val| <= |t|
    requires i + |val| < |t| ==> IsSeparator(t[i + |val|])
    ensures ValEnd(t, i + k) == i + |val|
    decreases |val| - k
  {
    if k < |val| {
      AtChar(t, i, val, k);
      hide At, IsSeparator;
      ValEndIs(t, i, val, k + 1);
    }
  }

  /** One round of the parser takes one pair and leaves what is behind its separator. */
  lemma PairThenTail(t: string, i: nat, p: Pair, tail: string)
    requires At(t, i, p.key + ("=" + (p.val + tail))) && i + |p.key| + 1 + |p.val| + |tail| == |t|
    requires Plain(p) && (tail != "" ==> IsSeparator(tail[0]))
    ensures var end := i + |p.key| + 1 + |p.val|;
            && At(t, end, tail)
            && (tail != "" ==> Pairs(t, i) == [p] + Pairs(t, end + 1))
            && (tail == "" ==> Pairs(t, i) == [p])
  {
    hide At, IsSeparator, NoEquals, NoSeparator, Pairs;
    var eq := i + |p.key|;
    var end := eq + 1 + |p.val|;
    FourParts(t, i, p.key, "=", p.val, tail);
    if tail != "" {
      AtChar(t, end, tail, 0);
    }
    AtSlice(t, i, p.key);
    AtSlice(t, eq + 1, p.val);
    KeyEndIs(t, i, p.key, 0);
    ValEndIs(t, eq + 1, p.val, 0);
    PairsStep(t, i, eq, end);
  }

  lemma FourParts(t: string, i: nat, a: string, b: string, c: string, d: string)
    requires At(t, i, a + (b + (c + d)))
    ensures At(t, i, a) && At(t, i + |a|, b) && At(t, i + |a| + |b|, c) && At(t, i + |a| + |b| + |c|, d)
  {
    hide At;
    AtConcat(t, i, a, b + (c + d));
    AtConcat(t, i + |a|, b, c + d);
    AtConcat(t, i + |a| + |b|, c, d);
  }

  lemma PairsStep(t: string, i: nat, eq: nat, end: nat)
    requires i < eq < |t| && KeyEnd(t, i) == eq && eq + 1 < end <= |t| && ValEnd(t, eq + 1) == end
    ensures Pairs(t, i) == [Pair(t[i..eq], t[eq + 1..end])] + if end < |t| then Pairs(t, end + 1) else []
  {
    hide KeyEnd, ValEnd;
  }

  lemma NoPairs(t: string)
    ensures Pairs(t, |t|) == []
  {
  }

  lemma Unfold(ps: seq<Pair>)
    requires ps != []
    ensures Join(ps) == ps[0].key + ("=" + (ps[0].val + JoinTail(ps[1..])))
    ensures JoinTail(ps) == "&" + Join(ps)
  {
  }

  /** Reading back a joined list, wherever it stands at the end of a text, gives exactly that list. */
  lemma {:induction false} JoinedPairs(t: string, i: nat, ps: seq<Pair>)
    requires At(t, i, Join(ps)) && i + |Join(ps)| == |t| && forall k :: 0 <= k < |ps| ==> Plain(ps[k])
    ensures Pairs(t, i) == ps
    decreases |ps|
  {
    hide At, Plain, KeyEnd, ValEnd;
    if ps == [] {
      NoPairs(t);
    } else {
      var rest := ps[1..];
      Unfold(ps);
      if rest != [] {
        Unfold(rest);
      }
      assert rest == [] ==> JoinTail(rest) == "";
      hide Pairs, Join, JoinTail;
      PairThenTail(t, i, ps[0], JoinTail(rest));
      if rest != [] {
        var end := i + |ps[0].key| + 1 + |ps[0].val|;
        AtConcat(t, end, "&", Join(rest));
        JoinedPairs(t, end + 1, rest);
      }
      assert ps == [ps[0]] + rest;
    }
  }

  // ---- the fields the pairs set ----

  datatype Key =
    | Players | Cycles | Season | Phase | RemDays | Temp | IsRaining | IsSnowing | AlterAwake | MoonPhase | Nightmare
    | Deerclops | Bearger | Moose | Dragonfly | BeeQueen | Klaus | Toadstool | Fuelweaver | Malbatross
    | LordFruitfly | Antlion | NoKey

  function KeyOf(s: string): Key {
    match s
    case "players" => Players
    case "cycles" => Cycles
    case "season" => Season
    case "phase" => Phase
    case "rem_days" => RemDays
    case "temp" => Temp
    case "is_raining" => IsRaining
    case "is_snowing" => IsSnowing
    case "alter_awake" => AlterAwake
    case "moon_phase" => MoonPhase
    case "nightmare" => Nightmare
    case "deerclops" => Deerclops
    case "bearger" => Bearger
    case "moose" => Moose
    case "dragonfly" => Dragonfly
    case "beequeen" => BeeQueen
    case "klaus" => Klaus
    case "toadstool" => Toadstool
    case "fuelweaver" => Fuelweaver
    case "malbatross" => Malbatross
    case "lordfruitfly" => LordFruitfly
    case "antlion" => Antlion
    case _ => NoKey
  }

  function Bit(b: bool): nat {
    if b then 1 else 0
  }

  /** One field of the state as a number. */
  function Field(v: View, k: Key): int {
    match k
    case Players => v.env.players
    case Cycles => v.env.cycles
    case Season => v.env.season
    case Phase => v.env.phase
    case RemDays => v.env.remDays
    case Temp => v.env.temp
    case IsRaining => Bit(v.env.isRaining)
    case IsSnowing => Bit(v.env.isSnowing)
    case AlterAwake => Bit(v.env.alterAwake)
    case MoonPhase => v.env.moonPhase
    case Nightmare => v.env.nightmare
    case Deerclops => v.timers.deerclops
    case Bearger => v.timers.bearger
    case Moose => v.timers.moose
    case Dragonfly => v.timers.dragonfly
    case BeeQueen => v.timers.beequeen
    case Klaus => v.timers.klaus
    case Toadstool => v.timers.toadstool
    case Fuelweaver => v.timers.fuelweaver
    case Malbatross => v.timers.malbatross
    case LordFruitfly => v.timers.lordfruitfly
    case Antlion => v.timers.antlion
    case NoKey => 0
  }

  /** What a value means for a field. */
  function Parsed(k: Key, val: string): int {
    if k.Temp? then ParseApiInt(val)
    else if k.IsRaining? || k.IsSnowing? || k.AlterAwake? then Bit(ParseFlag(val))
    else ParseApiUint(val)
  }

  lemma TimerFields(v: View)
    ensures var t := v.timers;
            && Field(v, Deerclops) == t.deerclops && Field(v, Bearger) == t.bearger && Field(v, Moose) == t.moose
            && Field(v, Dragonfly) == t.dragonfly && Field(v, BeeQueen) == t.beequeen && Field(v, Klaus) == t.klaus
            && Field(v, Toadstool) == t.toadstool && Field(v, Fuelweaver) == t.fuelweaver
            && Field(v, Malbatross) == t.malbatross && Field(v, LordFruitfly) == t.lordfruitfly
            && Field(v, Antlion) == t.antlion
  {
  }

  lemma EnvFields(v: View)
    ensures var e := v.env;
            && Field(v, Players) == e.players && Field(v, Cycles) == e.cycles && Field(v, Season) == e.season
            && Field(v, Phase) == e.phase && Field(v, RemDays) == e.remDays && Field(v, Temp) == e.temp
            && Field(v, IsRaining) == Bit(e.isRaining) && Field(v, IsSnowing) == Bit(e.isSnowing)
            && Field(v, AlterAwake) == Bit(e.alterAwake) && Field(v, MoonPhase) == e.moonPhase
            && Field(v, Nightmare) == e.nightmare
  {
  }

  /** A view is its fields. */
  lemma SameFields(v: View, v': View)
    requires forall k :: Field(v, k) == Field(v', k)
    ensures v == v'
  {
    hide Field;
    EnvFields(v);
    EnvFields(v');
    TimerFields(v);
    TimerFields(v');
  }

  /** The value the last pair for a field gives it, old if there is none. */
  function LastValue(ps: seq<Pair>, k: Key, before: int): int {
    if ps == [] then before
    else if KeyOf(ps[|ps| - 1].key) == k then Parsed(k, ps[|ps| - 1].val)
    else LastValue(ps[..|ps| - 1], k, before)
  }

  /** What one pair does: it sets the field it names and no other; an unknown key sets nothing. */
  predicate Stored(v: View, v': View, p: Pair) {
    && (KeyOf(p.key) != NoKey ==> Field(v', KeyOf(p.key)) == Parsed(KeyOf(p.key), p.val))
    && forall k :: k != KeyOf(p.key) ==> Field(v', k) == Field(v, k)
  }

  /** What a list of pairs does: every field ends with the value of the last pair that names it, and the
      other fields keep theirs. */
  predicate Applied(v: View, v': View, ps: seq<Pair>) {
    forall k :: k != NoKey ==> Field(v', k) == LastValue(ps, k, Field(v, k))
  }

  lemma NothingApplied(v: View)
    ensures Applied(v, v, [])
  {
  }

  lemma OneMoreApplied(v: View, v1: View, v2: View, ps: seq<Pair>, p: Pair)
    requires Applied(v, v1, ps) && Stored(v1, v2, p)
    ensures Applied(v, v2, ps + [p])
  {
    hide Field, KeyOf, Parsed;
    assert (ps + [p])[..|ps|] == ps;
  }

  predicate IsTimer(k: Key) {
    k in {Deerclops, Bearger, Moose, Dragonfly, BeeQueen, Klaus, Toadstool, Fuelweaver, Malbatross, LordFruitfly,
          Antlion}
  }

  class Receiver {
    const state: State

    constructor (state: State)
      ensures this.state == state
    {
      this.state := state;
    }

    method StoreField(key: string, val: string)
      modifies state
      ensures Stored(old(state.Snapshot()), state.Snapshot(), Pair(key, val))
    {
      hide KeyOf, ParseApiUint, ParseApiInt, ParseFlag;
      var k := KeyOf(key);
      if k == Players {
        state.players := ParseApiUint(val);
      } else if k == Cycles {
        state.cycles := ParseApiUint(val);
      } else if k == Season {
        state.season := ParseApiUint(val);
      } else if k == Phase {
        state.phase := ParseApiUint(val);
      } else if k == RemDays {
        state.remDays := ParseApiUint(val);
      } else if k == Temp {
        state.temp := ParseApiInt(val);
      } else if k != NoKey {
        StoreWeather(key, val);
      }
    }

    method StoreWeather(key: string, val: string)
      requires KeyOf(key) !in {Players, Cycles, Season, Phase, RemDays, Temp, NoKey}
      modifies state
      ensures Stored(old(state.Snapshot()), state.Snapshot(), Pair(key, val))
    {
      hide KeyOf, ParseApiUint, ParseFlag;
      var k := KeyOf(key);
      if k == IsRaining {
        state.isRaining := ParseFlag(val);
      } else if k == IsSnowing {
        state.isSnowing := ParseFlag(val);
      } else if k == AlterAwake {
        state.alterAwake := ParseFlag(val);
      } else if k == MoonPhase {
        state.moonPhase := ParseApiUint(val);
      } else if k == Nightmare {
        state.nightmare := ParseApiUint(val);
      } else {
        StoreTimer(key, val);
      }
    }

    method StoreTimer(key: string, val: string)
      requires IsTimer(KeyOf(key))
      modifies state
      ensures Stored(old(state.Snapshot()), state.Snapshot(), Pair(key, val))
    {
      hide KeyOf, ParseApiUint;
      var k := KeyOf(key);
      if k == Deerclops {
        state.deerclops := ParseApiUint(val);
      } else if k == Bearger {
        state.bearger := ParseApiUint(val);
      } else if k == Moose {
        state.moose := ParseApiUint(val);
      } else if k == Dragonfly {
        state.dragonfly := ParseApiUint(val);
      } else {
        StoreMiddleTimer(key, val);
      }
    }

    method StoreMiddleTimer(key: string, val: string)
      requires IsTimer(KeyOf(key)) && KeyOf(key) !in {Deerclops, Bearger, Moose, Dragonfly}
      modifies state
      ensures Stored(old(state.Snapshot()), state.Snapshot(), Pair(key, val))
    {
      hide KeyOf, ParseApiUint;
      var k := KeyOf(key);
      if k == BeeQueen {
        state.beequeen := ParseApiUint(val);
      } else if k == Klaus {
        state.klaus := ParseApiUint(val);
      } else if k == Toadstool {
        state.toadstool := ParseApiUint(val);
      } else if k == Fuelweaver {
        state.fuelweaver := ParseApiUint(val);
      } else {
        StoreLateTimer(key, val);
      }
    }

    method StoreLateTimer(key: string, val: string)
      requires KeyOf(key) in {Malbatross, LordFruitfly, Antlion}
      modifies state
      ensures Stored(old(state.Snapshot()), state.Snapshot(), Pair(key, val))
    {
      hide KeyOf, ParseApiUint;
      var k := KeyOf(key);
      if k == Malbatross {
        state.malbatross := ParseApiUint(val);
      } else if k == LordFruitfly {
        state.lordfruitfly := ParseApiUint(val);
      } else if k == Antlion {
        state.antlion := ParseApiUint(val);
      }
    }

    /** A body that fits the buffer is applied pair by pair. */
    method UpdateState(body: string) returns (status: nat)
      modifies state
      ensures status == if |body| > CAPACITY then 413 else if body == "" then 400 else 200
      ensures if status == 200 then Applied(old(state.Snapshot()), state.Snapshot(), Pairs(body, 0))
              else state.Snapshot() == old(state.Snapshot())
    {
      if |body| > CAPACITY {
        return 413;
      }
      if body == "" {
        return 400;
      }
      hide Applied, Stored, Pairs, KeyEnd, ValEnd, Parts, Rest;
      status := 200;
      ghost var before := state.Snapshot();
      ghost var applied: seq<Pair> := [];
      NothingApplied(before);
      NoneTaken(body);
      var cursor := 0;
      while cursor < |body|
        invariant 0 <= cursor <= |body| + 1
        invariant Parts(Pairs(body, 0), applied, Rest(body, cursor))
        invariant Applied(before, state.Snapshot(), applied)
        decreases |body| + 1 - cursor
      {
        var found, key, val, next := NextPair(body, cursor);
        if !found {
          break;
        }
        cursor := next;
        if |key| == 0 || |val| == 0 {
          continue;
        }
        ghost var current := state.Snapshot();
        Shift(Pairs(body, 0), applied, Pair(key, val), Rest(body, cursor));
        StoreField(key, val);
        OneMoreApplied(before, current, state.Snapshot(), applied, Pair(key, val));
        applied := applied + [Pair(key, val)];
      }
      assert Rest(body, cursor) == [] by { NoMorePairs(body, cursor); }
      Whole(Pairs(body, 0), applied);
    }
  }

  /** The pairs from a cursor on, which may have passed the end. */
  function Rest(t: string, i: nat): seq<Pair> {
    if i <= |t| then Pairs(t, i) else []
  }

  predicate Parts(all: seq<Pair>, taken: seq<Pair>, rest: seq<Pair>) {
    all == taken + rest
  }

  lemma NoneTaken(t: string)
    ensures Parts(Pairs(t, 0), [], Rest(t, 0))
  {
  }

  lemma Shift(all: seq<Pair>, taken: seq<Pair>, p: Pair, rest: seq<Pair>)
    requires Parts(all, taken, [p] + rest)
    ensures Parts(all, taken + [p], rest)
  {
    assert taken + ([p] + rest) == taken + [p] + rest;
  }

  lemma Whole(all: seq<Pair>, taken: seq<Pair>)
    requires Parts(all, taken, [])
    ensures taken == all
  {
  }

  lemma NoMorePairs(t: string, i: nat)
    requires i >= |t| || KeyEnd(t, i) == |t|
    ensures Rest(t, i) == []
  {
  }

  lemma PairsUnfold(t: string, i: nat)
    requires i <= |t| && KeyEnd(t, i) < |t|
    ensures var eq := KeyEnd(t, i); var end := ValEnd(t, eq + 1);
            Rest(t, i) == if eq == i || end == eq + 1 then Rest(t, end + 1)
                          else [Pair(t[i..eq], t[eq + 1..end])] + Rest(t, end + 1)
  {
  }

  method FindKeyEnd(t: string, i: nat) returns (cursor: nat)
    requires i <= |t|
    ensures cursor == KeyEnd(t, i)
  {
    cursor := i;
    while cursor < |t| && t[cursor] != '='
      invariant i <= cursor <= |t| && KeyEnd(t, cursor) == KeyEnd(t, i)
    {
      cursor := cursor + 1;
    }
  }

  method FindValEnd(t: string, i: nat) returns (cursor: nat)
    requires i <= |t|
    ensures cursor == ValEnd(t, i)
  {
    cursor := i;
    while cursor < |t| && t[cursor] != '&' && t[cursor] != ';' && t[cursor] != '\n'
      invariant i <= cursor <= |t| && ValEnd(t, cursor) == ValEnd(t, i)
    {
      cursor := cursor + 1;
    }
  }

  /** One round of the cursor loop. */
  method NextPair(t: string, i: nat) returns (found: bool, key: string, val: string, next: nat)
    requires i < |t|
    ensures found <==> KeyEnd(t, i) < |t|
    ensures found ==> i < next <= |t| + 1
                      && Rest(t, i) ==
                         if key == "" || val == "" then Rest(t, next) else [Pair(key, val)] + Rest(t, next)
    ensures !found ==> Rest(t, i) == []
  {
    hide Rest, KeyEnd, ValEnd;
    found, key, val := true, "", "";
    var cursor := FindKeyEnd(t, i);
    next := cursor;
    if cursor >= |t| {
      NoMorePairs(t, i);
      found := false;
      return;
    }
    key := t[i..cursor];
    var end := FindValEnd(t, cursor + 1);
    val := t[cursor + 1..end];
    next := end + 1;
    PairsUnfold(t, i);
  }

  // ---- the report ----

  lemma NumeralIsPlain(key: string, n: nat)
    requires key != "" && NoEquals(key)
    ensures Plain(Pair(key, Print(n)))
  {
    forall k | 0 <= k < |Print(n)|
      ensures !IsSeparator(Print(n)[k])
    {
      assert IsDigit(Print(n)[k]);
    }
  }

  /** The two pairs of a report. */
  function ReportPairs(toad: UInt32, fw: UInt32): seq<Pair> {
    [Pair("toadstool", Print(toad)), Pair("fuelweaver", Print(fw))]
  }

  lemma ReportSets(toad: UInt32, fw: UInt32, k: Key, before: int)
    ensures LastValue(ReportPairs(toad, fw), k, before)
            == if k == Toadstool then toad else if k == Fuelweaver then fw else before
  {
    var ps := ReportPairs(toad, fw);
    assert KeyOf(ps[0].key) == Toadstool && KeyOf(ps[1].key) == Fuelweaver;
    UintRoundTrip(toad);
    UintRoundTrip(fw);
    hide KeyOf, ParseApiUint, Print;
    assert ps[..1] == [ps[0]] && [ps[0]][..0] == [];
    assert LastValue([ps[0]], k, before) == if k == Toadstool then toad else before;
  }

  /** Prints a caves machine's report. The receiver accepts it, and it sets the two timers to the numbers sent
      and leaves every other field alone. */
  method PostCavesTelemetry(toad: UInt32, fw: UInt32) returns (payload: string)
    ensures 0 < |payload| <= CAPACITY
    ensures forall v, v' :: Applied(v, v', Pairs(payload, 0)) ==>
              v' == v.(timers := v.timers.(toadstool := toad, fuelweaver := fw))
  {
    hide *;
    payload := "toadstool=";
    payload := payload + Print(toad);
    payload := payload + "&fuelweaver=";
    payload := payload + Print(fw);
    ReportText(toad, fw, payload);
    forall v, v' | Applied(v, v', Pairs(payload, 0))
      ensures v' == v.(timers := v.timers.(toadstool := toad, fuelweaver := fw))
    {
      ReportApplied(toad, fw, v, v');
    }
  }

  lemma TwoPairs(a: Pair, b: Pair)
    ensures Join([a, b]) == a.key + "=" + a.val + "&" + b.key + "=" + b.val
  {
    Unfold([a, b]);
    Unfold([b]);
    assert [a, b][1..] == [b] && [b][1..] == [] && JoinTail([]) == "";
    hide Join, JoinTail;
    Assoc(a.key, "=", a.val, "&", b.key, "=", b.val);
  }

  lemma Assoc(a: string, b: string, c: string, d: string, e: string, f: string, g: string)
    ensures a + (b + (c + (d + (e + (f + (g + "")))))) == a + b + c + d + e + f + g
  {
  }

  lemma Regroup(a: string, b: string, p: string, c: string, d: string, e: string, q: string)
    ensures a + b + p + (c + d + e) + q == a + b + p + c + d + e + q
  {
  }

  lemma ReportIsJoined(p: string, q: string)
    ensures "toadstool=" + p + "&fuelweaver=" + q == Join([Pair("toadstool", p), Pair("fuelweaver", q)])
  {
    TwoPairs(Pair("toadstool", p), Pair("fuelweaver", q));
    hide Join;
    Regroup("toadstool", "=", p, "&", "fuelweaver", "=", q);
    assert "toadstool=" == "toadstool" + "=" && "&fuelweaver=" == "&" + "fuelweaver" + "=";
  }

  lemma ReportText(toad: UInt32, fw: UInt32, t: string)
    requires t == "toadstool=" + Print(toad) + "&fuelweaver=" + Print(fw)
    ensures Pairs(t, 0) == ReportPairs(toad, fw) && 0 < |t| <= CAPACITY
  {
    PrintLength(toad, 10);
    PrintLength(fw, 10);
    ReportIsJoined(Print(toad), Print(fw));
    NumeralIsPlain("toadstool", toad);
    NumeralIsPlain("fuelweaver", fw);
    hide Join, Pairs, Plain, Print;
    AtWhole(t);
    JoinedPairs(t, 0, ReportPairs(toad, fw));
  }

  lemma ReportApplied(toad: UInt32, fw: UInt32, v: View, v': View)
    requires Applied(v, v', ReportPairs(toad, fw))
    ensures v' == v.(timers := v.timers.(toadstool := toad, fuelweaver := fw))
  {
    var w := v.(timers := v.timers.(toadstool := toad, fuelweaver := fw));
    forall k
      ensures Field(v', k) == Field(w, k)
    {
      ReportSets(toad, fw, k, Field(v, k));
      hide LastValue, ReportPairs;
    }
    SameFields(v', w);
  }
}
