/** The binary telemetry: what the decoder makes of a packet, for every packet. */
module Telemetry {
  import opened GameState

  type Byte = b: int | 0 <= b < 256

  /** The longest line the log reader delivers. */
  const LINE_LIMIT := 256 * 1024
  const ERROR_BIT := 0x8000_0000
  const ENV_PAYLOAD := 10
  const BOSS_PAYLOAD := 11

  datatype Report = NoReport | Report(toadstool: UInt32, fuelweaver: UInt32)

  /** The packet number and where the data starts. */
  datatype Header = Header(opcode: UInt32, start: nat)

  // ---- the packet number ----

  /** The low seven bits of a byte. */
  function Low(b: Byte): (r: int)
    ensures 0 <= r < 128
  {
    b % 128
  }

  /** Setting bit 31 of a 32-bit number. */
  function WithErrorBit(n: UInt32): UInt32 {
    if n < ERROR_BIT then n + ERROR_BIT else n
  }

  /** The accumulator loop from position i on: 0xFF adds 127 and goes on, other bytes with the top bit end the
      number, bytes without it set the error bit. 32-bit addition wraps. */
  function HeaderFrom(p: seq<Byte>, i: nat, acc: UInt32): (h: Header)
    requires i <= |p|
    ensures i <= h.start <= |p|
    decreases |p| - i
  {
    if i == |p| then Header(acc, i)
    else if p[i] < 0x80 then Header(WithErrorBit(acc), i + 1)
    else
      var sum := (acc + Low(p[i])) % 0x1_0000_0000;
      if p[i] == 0xFF then HeaderFrom(p, i + 1, sum) else Header(sum, i + 1)
  }

  /** One turn of the loop. */
  lemma HeaderStep(p: seq<Byte>, i: nat, acc: UInt32)
    requires i < |p|
    ensures var sum := (acc + Low(p[i])) % 0x1_0000_0000;
            HeaderFrom(p, i, acc) ==
            if p[i] < 0x80 then Header(WithErrorBit(acc), i + 1)
            else if p[i] == 0xFF then HeaderFrom(p, i + 1, sum) else Header(sum, i + 1)
  {
    hide Low, WithErrorBit;
  }

  lemma HeaderEnd(p: seq<Byte>, acc: UInt32)
    ensures HeaderFrom(p, |p|, acc) == Header(acc, |p|)
  {
  }

  /** How many 0xFF bytes p has from i on. */
  function Extensions(p: seq<Byte>, i: nat): (n: nat)
    requires i <= |p|
    ensures i + n <= |p| && (i + n < |p| ==> p[i + n] != 0xFF)
    ensures forall k :: i <= k < i + n ==> p[k] == 0xFF
    decreases |p| - i
  {
    if i < |p| && p[i] == 0xFF then 1 + Extensions(p, i + 1) else 0
  }

  lemma {:induction false} HeaderMeaningFrom(p: seq<Byte>, i: nat, acc: UInt32)
    requires i <= |p| <= LINE_LIMIT && acc == 127 * i
    ensures var n := i + Extensions(p, i);
            HeaderFrom(p, i, acc) ==
            if n == |p| then Header(127 * n, n)
            else if p[n] < 0x80 then Header(ERROR_BIT + 127 * n, n + 1)
            else Header(127 * n + p[n] - 0x80, n + 1)
    decreases |p| - i
  {
    hide Low;
    if i < |p| {
      NoWrap(acc, p[i]);
      if p[i] == 0xFF {
        HeaderMeaningFrom(p, i + 1, acc + 127);
      }
    }
  }

  lemma NoWrap(acc: UInt32, b: Byte)
    requires acc < ERROR_BIT
    ensures b >= 0x80 ==> (acc + Low(b)) % 0x1_0000_0000 == acc + b - 0x80
  {
  }

  /** In every line the reader can deliver the accumulator stays below 2^31, so the error bit marks exactly the
      headers that meet a byte without the top bit, and the packets 0, 1 and 2 are exactly those that start
      with 0x80, 0x81 and 0x82. */
  lemma HeaderMeaning(p: seq<Byte>)
    requires |p| <= LINE_LIMIT
    ensures var h, n := HeaderFrom(p, 0, 0), Extensions(p, 0);
            && (h.opcode >= ERROR_BIT <==> n < |p| && p[n] < 0x80)
            && (n < |p| && p[n] >= 0x80 ==> h == Header(127 * n + p[n] - 0x80, n + 1))
            && (p != [] && h.opcode <= 2 ==> p[0] == 0x80 + h.opcode)
            && (p != [] && 0x80 <= p[0] <= 0x82 ==> h == Header(p[0] - 0x80, 1))
  {
    HeaderMeaningFrom(p, 0, 0);
  }

  // ---- the data ----

  /** A field of size values whose lowest bit is worth unit. */
  function Field(b: Byte, unit: int, size: int): (r: int)
    requires unit > 0 && size > 0
    ensures 0 <= r < size
  {
    b / unit % size
  }

  // ---- the masks and shifts of the decoder ----

  lemma Doubled(w: bv8, bit: bool)
    requires w < 0x80
    ensures ((w << 1) | (if bit then 1 else 0)) as int == 2 * w as int + if bit then 1 else 0
  {
  }

  lemma SmallWord(w: bv8)
    ensures w as int < 128 <==> w < 0x80
  {
  }

  /** A byte as the word its masks are applied to. */
  function Word(b: Byte): (w: bv8)
    ensures w as int == b
  {
    if b == 0 then 0
    else
      SmallWord(Word(b / 2));
      Doubled(Word(b / 2), b % 2 == 1);
      (Word(b / 2) << 1) | (if b % 2 == 1 then 1 else 0)
  }

  lemma SevenBitMask(b: bv8)
    ensures (b & 0x7F) as int == Low(b as int)
  {
  }

  lemma SeasonAndMoonMasks(b: bv8)
    ensures ((b >> 5) & 0x03) as int == Field(b as int, 32, 4) && (b & 0x1F) as int == Field(b as int, 1, 32)
  {
  }

  lemma MagnitudeMask(b: bv8)
    ensures (b & 0x3F) as int == Field(b as int, 1, 64)
  {
  }

  lemma SignMask(b: bv8)
    ensures ((b & 0x40) >> 5) as int == 2 * Field(b as int, 64, 2)
  {
  }

  lemma RainMask(b: bv8)
    ensures ((b >> 4) & 0x01) as int == Field(b as int, 16, 2)
  {
  }

  lemma SnowMask(b: bv8)
    ensures ((b >> 3) & 0x01) as int == Field(b as int, 8, 2)
  {
  }

  lemma NightmareMask(b: bv8)
    ensures (b & 0x07) as int == Field(b as int, 1, 8)
  {
  }

  /** Groups of bits put together with shifts and bitwise or are added up: no two of them overlap. */
  lemma TwoGroups(b: bv32, c: bv32)
    requires b < 128 && c < 128
    ensures (b << 7) | c < 0x4000 && ((b << 7) | c) as int == b as int * 128 + c as int
  {
  }

  lemma ThirdGroup(a: bv32, rest: bv32)
    requires a < 128 && rest < 0x4000
    ensures ((a << 14) | rest) as int == a as int * 16384 + rest as int
  {
  }

  lemma Widened(b: bv8)
    ensures (b as bv32) as int == b as int && b as bv32 < 256 && (b < 0x80 ==> b as bv32 < 128)
  {
  }

  lemma ErrorBitAdds(w: bv32)
    ensures (w | 0x8000_0000) as int == if w as int < 0x8000_0000 then w as int + 0x8000_0000 else w as int
  {
  }

  /** Setting bit 31 with bitwise or adds it, unless it is there already. */
  lemma ErrorBitMask(w: bv32)
    ensures w as int < 0x1_0000_0000 && (w | 0x8000_0000) as int == WithErrorBit(w as int)
  {
    ErrorBitAdds(w);
  }

  // A 32-bit number as a word, put together from its bytes.

  lemma SecondByte(a: bv32, rest: bv32)
    requires a < 256 && rest < 0x100
    ensures (a << 8) | rest < 0x1_0000 && ((a << 8) | rest) as int == a as int * 0x100 + rest as int
  {
  }

  lemma ThirdByte(a: bv32, rest: bv32)
    requires a < 256 && rest < 0x1_0000
    ensures (a << 16) | rest < 0x100_0000 && ((a << 16) | rest) as int == a as int * 0x1_0000 + rest as int
  {
  }

  lemma FourthByte(a: bv32, rest: bv32)
    requires a < 256 && rest < 0x100_0000
    ensures ((a << 24) | rest) as int == a as int * 0x100_0000 + rest as int
  {
  }

  method WideByte(b: Byte) returns (w: bv32)
    ensures w < 256 && w as int == b
  {
    Widened(Word(b));
    w := Word(b) as bv32;
  }

  method LowBytes(n: int) returns (w: bv32)
    requires 0 <= n < 0x1_0000
    ensures w < 0x1_0000 && w as int == n
  {
    var a := WideByte(n / 0x100);
    var rest := WideByte(n % 0x100);
    SecondByte(a, rest);
    w := (a << 8) | rest;
  }

  method ThreeBytes(n: int) returns (w: bv32)
    requires 0 <= n < 0x100_0000
    ensures w < 0x100_0000 && w as int == n
  {
    var a := WideByte(n / 0x1_0000);
    var rest := LowBytes(n % 0x1_0000);
    ThirdByte(a, rest);
    w := (a << 16) | rest;
  }

  method ToWord(n: UInt32) returns (w: bv32)
    ensures w as int == n
  {
    var a := WideByte(n / 0x100_0000);
    var rest := ThreeBytes(n % 0x100_0000);
    FourthByte(a, rest);
    w := (a << 24) | rest;
  }

  method SetErrorBit(n: UInt32) returns (r: UInt32)
    ensures r == WithErrorBit(n)
  {
    var w := ToWord(n);
    ErrorBitMask(w);
    r := (w | 0x8000_0000) as int;
  }

  function Bits7F(b: Byte): (r: bv32)
    ensures r < 128 && r as int == Low(b)
  {
    SevenBitMask(Word(b));
    Widened(Word(b) & 0x7F);
    assert Word(b) & 0x7F < 0x80;
    (Word(b) & 0x7F) as bv32
  }

  function And7F(b: Byte): (r: int)
    ensures r == Low(b)
  {
    Bits7F(b) as int
  }

  function TwoBytes(b: Byte, c: Byte): (r: bv32)
    ensures r < 0x4000 && r as int == Low(b) * 128 + Low(c)
  {
    TwoGroups(Bits7F(b), Bits7F(c));
    (Bits7F(b) << 7) | Bits7F(c)
  }

  function DayCount(a: Byte, b: Byte, c: Byte): (r: int)
    ensures r == Low(a) * 16384 + Low(b) * 128 + Low(c)
  {
    ThirdGroup(Bits7F(a), TwoBytes(b, c));
    ((Bits7F(a) << 14) | TwoBytes(b, c)) as int
  }

  function TopBits(b: Byte): (r: int)
    ensures r == Field(b, 32, 4)
  {
    SeasonAndMoonMasks(Word(b));
    ((Word(b) >> 5) & 0x03) as int
  }

  function MoonBits(b: Byte): (r: int)
    ensures r == Field(b, 1, 32)
  {
    SeasonAndMoonMasks(Word(b));
    (Word(b) & 0x1F) as int
  }

  function TemperatureBits(high: Byte, low: Byte): (r: int)
    ensures r == (Field(high, 1, 64) * 128 + Low(low)) * (1 - 2 * Field(high, 64, 2))
  {
    MagnitudeMask(Word(high));
    SignMask(Word(high));
    var h := Word(high) & 0x3F;
    Widened(h);
    assert h < 0x80;
    TwoGroups(h as bv32, Bits7F(low));
    ((h as bv32 << 7) | Bits7F(low)) as int * (1 - ((Word(high) & 0x40) >> 5) as int)
  }

  function RainBit(b: Byte): (r: int)
    ensures r == Field(b, 16, 2)
  {
    RainMask(Word(b));
    ((Word(b) >> 4) & 0x01) as int
  }

  function SnowBit(b: Byte): (r: int)
    ensures r == Field(b, 8, 2)
  {
    SnowMask(Word(b));
    ((Word(b) >> 3) & 0x01) as int
  }

  function NightmareBits(b: Byte): (r: int)
    ensures r == Field(b, 1, 8)
  {
    NightmareMask(Word(b));
    (Word(b) & 0x07) as int
  }

  // ---- what a packet means ----

  function DecodedEnv(d: seq<Byte>): Env
    requires |d| >= ENV_PAYLOAD
  {
    var magnitude := Field(d[5], 1, 64) * 128 + Low(d[6]);
    Env(players := Low(d[3]),
        cycles := Low(d[0]) * 16384 + Low(d[1]) * 128 + Low(d[2]) + 1,
        season := Field(d[4], 32, 4),
        phase := Field(d[7], 32, 4),
        remDays := Low(d[8]),
        temp := magnitude * (1 - 2 * Field(d[5], 64, 2)),
        isRaining := Field(d[7], 16, 2) == 1,
        isSnowing := Field(d[7], 8, 2) == 1,
        moonPhase := Field(d[4], 1, 32),
        nightmare := Field(d[7], 1, 8),
        alterAwake := Low(d[9]) == 1)
  }

  function MasterTimers(t: Timers, d: seq<Byte>): Timers
    requires |d| >= BOSS_PAYLOAD
  {
    t.(deerclops := Low(d[0]), bearger := Low(d[1]), moose := Low(d[2]), dragonfly := Low(d[3]),
       beequeen := Low(d[4]), klaus := Low(d[5]), malbatross := Low(d[8]), lordfruitfly := Low(d[9]),
       antlion := Low(d[10]))
  }

  function CavesTimers(t: Timers, d: seq<Byte>): Timers
    requires |d| >= BOSS_PAYLOAD
  {
    t.(toadstool := Low(d[6]), fuelweaver := Low(d[7]))
  }

  /** What a packet makes of the state. */
  function Decoded(v: View, p: seq<Byte>): View {
    if p == [] then v
    else
      var h := HeaderFrom(p, 0, 0);
      var d := p[h.start..];
      if h.opcode == 0 && |d| >= ENV_PAYLOAD then v.(env := DecodedEnv(d))
      else if h.opcode == 1 && |d| >= BOSS_PAYLOAD then v.(timers := MasterTimers(v.timers, d))
      else if h.opcode == 2 && |d| >= BOSS_PAYLOAD then v.(timers := CavesTimers(v.timers, d))
      else v
  }

  class Decoder {
    const state: State

    constructor (state: State)
      ensures this.state == state
    {
      this.state := state;
    }

    /** Decodes one packet into the game state. A caves packet on a machine without a Master is also
        reported to the machine that has one. */
    method ParseRawPacket(p: seq<Byte>, masterEnabled: bool) returns (report: Report)
      modifies state
      ensures state.Snapshot() == Decoded(old(state.Snapshot()), p)
      ensures report.Report? <==> !masterEnabled && p != [] && HeaderFrom(p, 0, 0).opcode == 2
                                  && |p| - HeaderFrom(p, 0, 0).start >= BOSS_PAYLOAD
      ensures report.Report? ==> report == Report(state.Snapshot().timers.toadstool, state.Snapshot().timers.fuelweaver)
    {
      report := NoReport;
      if |p| == 0 {
        return;
      }
      hide HeaderFrom, Low, And7F, WithErrorBit;
      var opcode: UInt32 := 0;
      var cursor := 0;
      var more := true;
      while cursor < |p| && more
        invariant 0 <= cursor <= |p| && state.Snapshot() == old(state.Snapshot())
        invariant if more then HeaderFrom(p, 0, 0) == HeaderFrom(p, cursor, opcode)
                  else HeaderFrom(p, 0, 0) == Header(opcode, cursor)
        decreases |p| - cursor
      {
        HeaderStep(p, cursor, opcode);
        var current := p[cursor];
        cursor := cursor + 1;
        if current < 0x80 {
          opcode := SetErrorBit(opcode);
          more := false;
        } else {
          opcode := (opcode + And7F(current)) % 0x1_0000_0000;
          more := current == 0xFF;
        }
      }
      if more {
        HeaderEnd(p, opcode);
      }
      var d := p[cursor..];
      if opcode == 0 {
        if |d| < ENV_PAYLOAD {
          return;
        }
        StoreEnv(d);
      } else if opcode == 1 {
        if |d| < BOSS_PAYLOAD {
          return;
        }
        StoreMasterTimers(d);
      } else if opcode == 2 {
        if |d| < BOSS_PAYLOAD {
          return;
        }
        state.toadstool := And7F(d[6]);
        state.fuelweaver := And7F(d[7]);
        if !masterEnabled {
          report := Report(state.toadstool, state.fuelweaver);
        }
      }
    }

    method StoreEnv(d: seq<Byte>)
      requires |d| >= ENV_PAYLOAD
      modifies state
      ensures state.Snapshot() == old(state.Snapshot()).(env := DecodedEnv(d))
    {
      hide Low, Field, And7F, DayCount, TopBits, MoonBits, TemperatureBits, RainBit, SnowBit, NightmareBits;
      StoreCalendar(d);
      StoreWeather(d);
    }

    method StoreCalendar(d: seq<Byte>)
      requires |d| >= ENV_PAYLOAD
      modifies state
      ensures var v, e := old(state.Snapshot()), DecodedEnv(d);
              state.Snapshot() == v.(env := v.env.(cycles := e.cycles, players := e.players, season := e.season,
                                                   moonPhase := e.moonPhase, temp := e.temp))
    {
      hide Low, Field, And7F, DayCount, TopBits, MoonBits, TemperatureBits, RainBit, SnowBit, NightmareBits;
      state.cycles := DayCount(d[0], d[1], d[2]) + 1;
      state.players := And7F(d[3]);
      state.season := TopBits(d[4]);
      state.moonPhase := MoonBits(d[4]);
      state.temp := TemperatureBits(d[5], d[6]);
    }

    method StoreWeather(d: seq<Byte>)
      requires |d| >= ENV_PAYLOAD
      modifies state
      ensures var v, e := old(state.Snapshot()), DecodedEnv(d);
              state.Snapshot() == v.(env := v.env.(phase := e.phase, isRaining := e.isRaining, isSnowing := e.isSnowing,
                                                   nightmare := e.nightmare, remDays := e.remDays,
                                                   alterAwake := e.alterAwake))
    {
      hide Low, Field, And7F, DayCount, TopBits, MoonBits, TemperatureBits, RainBit, SnowBit, NightmareBits;
      state.phase := TopBits(d[7]);
      state.isRaining := RainBit(d[7]) == 1;
      state.isSnowing := SnowBit(d[7]) == 1;
      state.nightmare := NightmareBits(d[7]);
      state.remDays := And7F(d[8]);
      state.alterAwake := And7F(d[9]) == 1;
    }

    method StoreMasterTimers(d: seq<Byte>)
      requires |d| >= BOSS_PAYLOAD
      modifies state
      ensures state.Snapshot() == old(state.Snapshot()).(timers := MasterTimers(old(state.Snapshot()).timers, d))
    {
      hide Low, And7F;
      StoreSeasonTimers(d);
      StoreOtherTimers(d);
    }

    method StoreSeasonTimers(d: seq<Byte>)
      requires |d| >= BOSS_PAYLOAD
      modifies state
      ensures var v := old(state.Snapshot());
              state.Snapshot() == v.(timers := v.timers.(deerclops := Low(d[0]), bearger := Low(d[1]),
                                                         moose := Low(d[2]), dragonfly := Low(d[3])))
    {
      hide Low, And7F;
      state.deerclops := And7F(d[0]);
      state.bearger := And7F(d[1]);
      state.moose := And7F(d[2]);
      state.dragonfly := And7F(d[3]);
    }

    method StoreOtherTimers(d: seq<Byte>)
      requires |d| >= BOSS_PAYLOAD
      modifies state
      ensures var v := old(state.Snapshot());
              state.Snapshot() == v.(timers := v.timers.(beequeen := Low(d[4]), klaus := Low(d[5]),
                                                         malbatross := Low(d[8]), lordfruitfly := Low(d[9]),
                                                         antlion := Low(d[10])))
    {
      hide Low, And7F;
      state.beequeen := And7F(d[4]);
      state.klaus := And7F(d[5]);
      state.malbatross := And7F(d[8]);
      state.lordfruitfly := And7F(d[9]);
      state.antlion := And7F(d[10]);
    }
  }

  /** Only a packet that starts with 0x80, 0x81 or 0x82 and carries enough data can change anything. */
  lemma OnlyThreePackets(v: View, p: seq<Byte>)
    requires |p| <= LINE_LIMIT && Decoded(v, p) != v
    ensures (|p| > ENV_PAYLOAD && p[0] == 0x80) || (|p| > BOSS_PAYLOAD && (p[0] == 0x81 || p[0] == 0x82))
  {
    HeaderMeaning(p);
  }

  /** The packets of the two shards never write the same timer: received in either order they leave the same
      state, and neither touches the environment. */
  lemma ShardsDoNotInterfere(v: View, master: seq<Byte>, caves: seq<Byte>)
    requires 0 < |master| <= LINE_LIMIT && 0 < |caves| <= LINE_LIMIT && master[0] == 0x81 && caves[0] == 0x82
    ensures Decoded(Decoded(v, master), caves) == Decoded(Decoded(v, caves), master)
    ensures Decoded(Decoded(v, master), caves).env == v.env
  {
    HeaderMeaning(master);
    HeaderMeaning(caves);
    hide HeaderFrom;
  }

  // ---- where the packet starts in a log line ----

  predicate MarkAt(line: seq<Byte>, i: nat) {
    i + 1 < |line| && line[i] == 0xCE && line[i + 1] == 0xDF
  }

  /** The position of the first packet mark at or after i, |line| if there is none. */
  function MarkFrom(line: seq<Byte>, i: nat): (r: nat)
    requires i <= |line|
    ensures i <= r <= |line| && (r < |line| ==> MarkAt(line, r))
    ensures forall k: nat :: i <= k < r ==> !MarkAt(line, k)
    decreases |line| - i
  {
    if i == |line| || MarkAt(line, i) then i else MarkFrom(line, i + 1)
  }

  /** The bytes of "RemoteCommandInput". */
  const ECHO: seq<Byte> :=
    [82, 101, 109, 111, 116, 101, 67, 111, 109, 109, 97, 110, 100, 73, 110, 112, 117, 116]

  /** The bytes of "NUCLEUS_ACTIVATE". */
  const ACTIVATE: seq<Byte> := [78, 85, 67, 76, 69, 85, 83, 95, 65, 67, 84, 73, 86, 65, 84, 69]

  predicate PatternAt(line: seq<Byte>, i: nat, p: seq<Byte>) {
    i + |p| <= |line| && line[i..i + |p|] == p
  }

  ghost predicate Contains(line: seq<Byte>, p: seq<Byte>) {
    exists i: nat :: PatternAt(line, i, p)
  }

  /** What a log line makes of the state: nothing for the echo of the script itself or without a mark, else
      what the bytes behind the first mark say. */
  ghost function Received(v: View, line: seq<Byte>): View {
    var i := MarkFrom(line, 0);
    if (Contains(line, ECHO) && Contains(line, ACTIVATE)) || i == |line| then v else Decoded(v, line[i + 2..])
  }

  /** The game's echo of the script's own command changes nothing, whatever else stands in the line. */
  lemma EchoIgnored(v: View, a: seq<Byte>, b: seq<Byte>, c: seq<Byte>)
    ensures Received(v, a + (ECHO + (b + (ACTIVATE + c)))) == v
  {
    var line := a + (ECHO + (b + (ACTIVATE + c)));
    var k := |a| + |ECHO| + |b|;
    assert line[|a|..] == ECHO + (b + (ACTIVATE + c));
    assert line[|a|..|a| + |ECHO|] == line[|a|..][..|ECHO|] == ECHO;
    assert PatternAt(line, |a|, ECHO);
    assert line[k..] == ACTIVATE + c;
    assert line[k..k + |ACTIVATE|] == line[k..][..|ACTIVATE|] == ACTIVATE;
    assert PatternAt(line, k, ACTIVATE);
  }

  /** Text that neither holds the mark of a packet nor echoes a command. */
  ghost predicate Harmless(text: seq<Byte>) {
    (forall i :: 0 <= i < |text| - 1 ==> !(text[i] == 0xCE && text[i + 1] == 0xDF)) && !Contains(text, ECHO)
  }

  lemma NoEcho(text: seq<Byte>, packet: seq<Byte>)
    requires !Contains(text, ECHO) && forall k :: 0 <= k < |packet| ==> packet[k] >= 0x80
    ensures !Contains(text + packet, ECHO)
  {
    var line := text + packet;
    forall i: nat
      ensures !PatternAt(line, i, ECHO)
    {
      if i + |ECHO| <= |text| {
        assert line[i..i + |ECHO|] == text[i..i + |ECHO|];
        assert !PatternAt(text, i, ECHO);
      } else if i + |ECHO| <= |line| {
        assert line[i..i + |ECHO|][|ECHO| - 1] == line[i + |ECHO| - 1];
      }
    }
  }

  /** Text the game prints in front of a packet hides nothing of it. */
  lemma ReceivedBehindText(v: View, text: seq<Byte>, packet: seq<Byte>)
    requires Harmless(text) && |packet| >= 2 && packet[0] == 0xCE && packet[1] == 0xDF
    requires forall k :: 0 <= k < |packet| ==> packet[k] >= 0x80
    ensures Received(v, text + packet) == Decoded(v, packet[2..])
  {
    NoEcho(text, packet);
    hide Contains;
    var line := text + packet;
    var i := MarkFrom(line, 0);
    assert MarkAt(line, |text|);
    assert forall k :: 0 <= k < |text| ==> line[k] == text[k];
    assert line[|text|] == packet[0];
    assert i == |text|;
    assert line[i + 2..] == packet[2..];
  }
}
