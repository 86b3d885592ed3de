/** The epoch sensor: when a line of the remote machine's epoch stream makes this shard give up. */
module EpochSensor {
  import opened Decimal
  import opened Wrappers

  const DATA: string := "data: "

  type Int64 = n: int | -0x8000_0000_0000_0000 <= n < 0x8000_0000_0000_0000

  // ---- one line ----

  predicate IsSpace(c: char) {
    c == ' ' || c == '\t' || c == '\n' || c == '\r' || c == 11 as char || c == 12 as char
  }

  function TrimLeft(s: string): string {
    if s != "" && IsSpace(s[0]) then TrimLeft(s[1..]) else s
  }

  function TrimRight(s: string): string {
    if s != "" && IsSpace(s[|s| - 1]) then TrimRight(s[..|s| - 1]) else s
  }

  /** A signed 64-bit decimal. */
  function ParseInt64(s: string): Option<Int64> {
    match ParseSigned(s)
    case Some(n) => if -0x8000_0000_0000_0000 <= n < 0x8000_0000_0000_0000 then Some(n) else None
    case None => None
  }

  /** The epoch a line carries. */
  function SampleOf(line: string): Option<Int64> {
    if DATA <= line then ParseInt64(TrimRight(TrimLeft(line[|DATA|..]))) else None
  }

  function SamplesOf(lines: seq<string>): (s: seq<Int64>) {
    if lines == [] then []
    else
      var rest := SamplesOf(lines[..|lines| - 1]);
      var last := SampleOf(lines[|lines| - 1]);
      if last.Some? then rest + [last.value] else rest
  }

  /** The line the other machine's heartbeat writes. */
  function EpochLine(n: Int64): string {
    "data: " + PrintInt(n)
  }

  lemma PrintedIsTrimmed(n: int)
    ensures !IsSpace(PrintInt(n)[0]) && !IsSpace(PrintInt(n)[|PrintInt(n)| - 1])
  {
    var digits := Print(if n < 0 then -n else n);
    assert IsDigit(digits[0]) && IsDigit(digits[|digits| - 1]);
  }

  lemma EpochRoundTrip(n: Int64)
    ensures SampleOf(EpochLine(n)) == Some(n)
  {
    var text := PrintInt(n);
    SignedRoundTrip(n);
    PrintedIsTrimmed(n);
    hide PrintInt, ParseSigned;
    assert EpochLine(n)[..|DATA|] == DATA && EpochLine(n)[|DATA|..] == text;
  }

  // ---- what the other machine sends ----

  /** A line of the stream: an epoch, perhaps with blanks around it, or anything else, such as the empty lines
      between the events and the comments that keep the connection alive. */
  datatype StreamLine = Epoch(left: string, n: Int64, right: string) | Other(text: string)

  predicate Blanks(s: string) {
    forall c :: c in s ==> c in " \t\r"
  }

  predicate LineOk(x: StreamLine) {
    match x
    case Epoch(left, _, right) => Blanks(left) && Blanks(right)
    case Other(text) => !("data: " <= text)
  }

  function PrintLine(x: StreamLine): string {
    match x
    case Epoch(left, n, right) => "data: " + (left + (PrintInt(n) + right))
    case Other(text) => text
  }

  function PrintStream(xs: seq<StreamLine>): (lines: seq<string>)
    ensures |lines| == |xs|
  {
    if xs == [] then [] else PrintStream(xs[..|xs| - 1]) + [PrintLine(xs[|xs| - 1])]
  }

  function Epochs(xs: seq<StreamLine>): seq<Int64> {
    if xs == [] then []
    else Epochs(xs[..|xs| - 1]) + if xs[|xs| - 1].Epoch? then [xs[|xs| - 1].n] else []
  }

  lemma {:induction false} TrimmedLeft(blanks: string, text: string)
    requires Blanks(blanks) && text != "" && !IsSpace(text[0])
    ensures TrimLeft(blanks + text) == text
    decreases |blanks|
  {
    if blanks == "" {
      assert blanks + text == text;
    } else {
      assert blanks[0] in blanks;
      assert (blanks + text)[1..] == blanks[1..] + text;
      TrimmedLeft(blanks[1..], text);
    }
  }

  lemma {:induction false} TrimmedRight(text: string, blanks: string)
    requires Blanks(blanks) && text != "" && !IsSpace(text[|text| - 1])
    ensures TrimRight(text + blanks) == text
    decreases |blanks|
  {
    if blanks == "" {
      assert text + blanks == text;
    } else {
      var n := |blanks| - 1;
      assert blanks[n] in blanks;
      assert (text + blanks)[..|text + blanks| - 1] == text + blanks[..n];
      TrimmedRight(text, blanks[..n]);
    }
  }

  /** A line carries its epoch, and every other line carries none. */
  lemma LineSample(x: StreamLine)
    requires LineOk(x)
    ensures SampleOf(PrintLine(x)) == if x.Epoch? then Some(x.n) else None
  {
    if x.Epoch? {
      var text := PrintInt(x.n);
      var behind := x.left + (text + x.right);
      PrintedIsTrimmed(x.n);
      SignedRoundTrip(x.n);
      hide PrintInt, ParseSigned, TrimLeft, TrimRight;
      assert text + x.right != "" && (text + x.right)[0] == text[0];
      TrimmedLeft(x.left, text + x.right);
      TrimmedRight(text, x.right);
      assert PrintLine(x)[..|DATA|] == DATA && PrintLine(x)[|DATA|..] == behind;
    }
  }

  /** The samples of a stream are its epochs, whatever lines stand between them. */
  lemma {:induction false} StreamSamples(xs: seq<StreamLine>)
    requires forall x :: x in xs ==> LineOk(x)
    ensures SamplesOf(PrintStream(xs)) == Epochs(xs)
    decreases |xs|
  {
    hide SampleOf, PrintLine, LineOk;
    if xs != [] {
      var n := |xs| - 1;
      assert xs[n] in xs && forall x :: x in xs[..n] ==> x in xs;
      StreamSamples(xs[..n]);
      LineSample(xs[n]);
      assert PrintStream(xs)[..n] == PrintStream(xs[..n]) && PrintStream(xs)[n] == PrintLine(xs[n]);
      assert Epochs(xs[..n]) + [] == Epochs(xs[..n]);
    }
  }

  // ---- a stream of lines ----

  /** A non-zero epoch was seen and a different value, zero included, after it. */
  predicate Changed(s: seq<Int64>) {
    exists i, j :: 0 <= i < j < |s| && s[i] != 0 && s[j] != s[i]
  }

  /** a is s with some samples lost. */
  predicate Lossy(a: seq<Int64>, s: seq<Int64>)
    decreases |s|
  {
    if s == [] then a == []
    else (a != [] && a[0] == s[0] && Lossy(a[1..], s[1..])) || Lossy(a, s[1..])
  }

  lemma {:induction false} LossyMember(a: seq<Int64>, s: seq<Int64>, i: nat) returns (k: nat)
    requires Lossy(a, s) && i < |a|
    ensures k < |s| && s[k] == a[i]
    decreases |s|
  {
    if a[0] == s[0] && Lossy(a[1..], s[1..]) {
      if i == 0 {
        k := 0;
      } else {
        k := LossyMember(a[1..], s[1..], i - 1);
        k := k + 1;
      }
    } else {
      k := LossyMember(a, s[1..], i);
      k := k + 1;
    }
  }

  /** Losing samples, on the way or between two connections, never invents a change. */
  lemma {:induction false} LossInventsNothing(a: seq<Int64>, s: seq<Int64>)
    requires Lossy(a, s) && Changed(a)
    ensures Changed(s)
    decreases |s|
  {
    var i, j :| 0 <= i < j < |a| && a[i] != 0 && a[j] != a[i];
    if a[0] == s[0] && Lossy(a[1..], s[1..]) {
      if i == 0 {
        var k := LossyMember(a[1..], s[1..], j - 1);
        assert s[0] != 0 && s[k + 1] != s[0];
      } else {
        assert a[1..][i - 1] != 0 && a[1..][j - 1] != a[1..][i - 1];
        LossInventsNothing(a[1..], s[1..]);
        Shifted(s);
      }
    } else {
      LossInventsNothing(a, s[1..]);
      Shifted(s);
    }
  }

  lemma Shifted(s: seq<Int64>)
    requires s != [] && Changed(s[1..])
    ensures Changed(s)
  {
    var i, j :| 0 <= i < j < |s[1..]| && s[1..][i] != 0 && s[1..][j] != s[1..][i];
    assert s[i + 1] != 0 && s[j + 1] != s[i + 1];
  }

  /** What the remote machine publishes over one generation: zero until it is up, then its epoch. */
  predicate OneGeneration(s: seq<Int64>, up: nat, epoch: Int64) {
    up <= |s| && (forall i :: 0 <= i < up ==> s[i] == 0) && (forall i :: up <= i < |s| ==> s[i] == epoch)
  }

  /** Nothing that is left of one generation's samples is a change. */
  lemma OneGenerationIsQuiet(s: seq<Int64>, up: nat, epoch: Int64, a: seq<Int64>)
    requires OneGeneration(s, up, epoch) && Lossy(a, s)
    ensures !Changed(a)
  {
    if Changed(a) {
      LossInventsNothing(a, s);
    }
  }

  /** What it publishes over two: zero, the old epoch, zero again while it restarts, and the new epoch. */
  predicate TwoGenerations(s: seq<Int64>, up: nat, down: nat, back: nat, first: Int64, second: Int64) {
    && up <= down <= back <= |s| && first != 0 && second != 0 && second != first
    && OneGeneration(s[..down], up, first) && OneGeneration(s[down..], back - down, second)
  }

  /** What is left of a sequence is what is left of its first part and then of its second. */
  lemma {:induction false} LossySplit(a: seq<Int64>, s: seq<Int64>, k: nat) returns (n: nat)
    requires Lossy(a, s) && k <= |s|
    ensures n <= |a| && Lossy(a[..n], s[..k]) && Lossy(a[n..], s[k..])
    decreases |s|
  {
    if k == 0 {
      n := 0;
      assert s[..0] == [] && a[0..] == a && s[0..] == s;
    } else {
      assert s[..k][0] == s[0] && s[..k][1..] == s[1..][..k - 1] && s[1..][k - 1..] == s[k..];
      if a != [] && a[0] == s[0] && Lossy(a[1..], s[1..]) {
        n := LossySplit(a[1..], s[1..], k - 1);
        n := n + 1;
        assert a[..n][0] == a[0] && a[..n][1..] == a[1..][..n - 1] && a[1..][n - 1..] == a[n..];
      } else {
        n := LossySplit(a, s[1..], k - 1);
      }
    }
  }

  /** A restart is noticed exactly when a sample of the old generation was seen, and anything, zero or the new
      epoch, after it went down. */
  lemma RestartIsNoticed(s: seq<Int64>, up: nat, down: nat, back: nat, first: Int64, second: Int64,
                         before: seq<Int64>, after: seq<Int64>)
    requires TwoGenerations(s, up, down, back, first, second)
    requires Lossy(before, s[..down]) && Lossy(after, s[down..])
    ensures Changed(before + after) <==> first in before && after != []
  {
    var a := before + after;
    SamplesBefore(s, up, down, back, first, second, before, after);
    if first in before && after != [] {
      var i :| 0 <= i < |before| && before[i] == first;
      assert a[i] == first && a[|before|] == after[0];
    } else if after == [] {
      OneGenerationIsQuiet(s[..down], up, first, before);
      assert a == before;
    } else {
      OneGenerationIsQuiet(s[down..], back - down, second, after);
      ZerosAhead(before, after);
    }
  }

  lemma ZerosAhead(zeros: seq<Int64>, a: seq<Int64>)
    requires forall i :: 0 <= i < |zeros| ==> zeros[i] == 0
    ensures Changed(zeros + a) ==> Changed(a)
  {
    var s := zeros + a;
    if Changed(s) {
      var i, j :| 0 <= i < j < |s| && s[i] != 0 && s[j] != s[i];
      assert a[i - |zeros|] != 0 && a[j - |zeros|] != a[i - |zeros|];
    }
  }

  /** Which samples there are before and after it goes down. */
  lemma SamplesBefore(s: seq<Int64>, up: nat, down: nat, back: nat, first: Int64, second: Int64,
                      before: seq<Int64>, after: seq<Int64>)
    requires TwoGenerations(s, up, down, back, first, second)
    requires Lossy(before, s[..down]) && Lossy(after, s[down..])
    ensures forall i :: 0 <= i < |before| ==> before[i] == 0 || before[i] == first
    ensures forall i :: 0 <= i < |after| ==> after[i] == 0 || after[i] == second
  {
    hide Lossy;
    forall i | 0 <= i < |before|
      ensures before[i] == 0 || before[i] == first
    {
      var k := LossyMember(before, s[..down], i);
    }
    forall i | 0 <= i < |after|
      ensures after[i] == 0 || after[i] == second
    {
      var k := LossyMember(after, s[down..], i);
    }
  }

  // ---- the sensor ----

  /** Where the latch stands and whether a change was seen after s. */
  predicate Latched(s: seq<Int64>, latch: Int64) {
    && (latch == 0 ==> forall k :: 0 <= k < |s| ==> s[k] == 0)
    && (latch != 0 ==> latch in s && forall k :: 0 <= k < |s| ==> s[k] == 0 || s[k] == latch)
    && !Changed(s)
  }

  lemma OneMoreSample(s: seq<Int64>, latch: Int64, n: Int64)
    requires Latched(s, latch)
    ensures Changed(s + [n]) <==> latch != 0 && n != latch
    ensures latch == 0 || n == latch ==> Latched(s + [n], if latch == 0 then n else latch)
  {
    var t := s + [n];
    if latch != 0 && n != latch {
      var i :| 0 <= i < |s| && s[i] == latch;
      assert t[i] == latch && t[|s|] == n;
    } else {
      forall i, j | 0 <= i < j < |t| && t[i] != 0
        ensures t[j] == t[i]
      {
        if j < |s| {
          assert s[i] == 0 || s[j] == s[i];
        }
      }
      if latch == 0 && n != 0 {
        assert t[|s|] == n;
      }
    }
  }

  lemma SamplesStep(read: seq<string>, line: string)
    ensures SamplesOf(read + [line])
            == SamplesOf(read) + match SampleOf(line) { case None => [] case Some(n) => [n] }
  {
    assert (read + [line])[..|read|] == read;
    hide SampleOf;
  }

  lemma {:induction false} SamplesPrefix(read: seq<string>, all: seq<string>)
    requires read <= all
    ensures SamplesOf(read) <= SamplesOf(all)
    decreases |all|
  {
    if |read| < |all| {
      SamplesPrefix(read, all[..|all| - 1]);
      hide SampleOf;
    } else {
      assert read == all;
    }
  }

  lemma ChangedPrefix(a: seq<Int64>, s: seq<Int64>)
    requires a <= s && Changed(a)
    ensures Changed(s)
  {
    var i, j :| 0 <= i < j < |a| && a[i] != 0 && a[j] != a[i];
    assert s[i] != 0 && s[j] != s[i];
  }

  /** The lines of all connections in order. */
  function Flat(connections: seq<seq<string>>): seq<string> {
    if connections == [] then [] else Flat(connections[..|connections| - 1]) + connections[|connections| - 1]
  }

  lemma {:induction false} FlatPrefix(connections: seq<seq<string>>, c: nat)
    requires c <= |connections|
    ensures Flat(connections[..c]) <= Flat(connections)
    decreases |connections|
  {
    if c < |connections| {
      var shorter := connections[..|connections| - 1];
      assert shorter[..c] == connections[..c];
      FlatPrefix(shorter, c);
    } else {
      assert connections[..c] == connections;
    }
  }

  lemma ReadIsPrefix(connections: seq<seq<string>>, c: nat, k: nat)
    requires c < |connections| && k <= |connections[c]|
    ensures Flat(connections[..c]) + connections[c][..k] <= Flat(connections)
  {
    FlatPrefix(connections, c + 1);
    assert connections[..c + 1][..c] == connections[..c];
  }

  /** One line: the latch after it, and whether it makes the shard give up. */
  method Sense(latch: Int64, line: string, ghost read: seq<string>) returns (next: Int64, fire: bool)
    requires Latched(SamplesOf(read), latch)
    ensures fire ==> Changed(SamplesOf(read + [line]))
    ensures !fire ==> Latched(SamplesOf(read + [line]), next)
  {
    SamplesStep(read, line);
    next, fire := latch, false;
    if |line| >= |DATA| && line[..|DATA|] == DATA {
      var parsed := ParseInt64(TrimRight(TrimLeft(line[|DATA|..])));
      assert parsed == SampleOf(line);
      hide SamplesOf, SampleOf, ParseInt64;
      if parsed.None? {
        return;
      }
      var epoch := parsed.value;
      OneMoreSample(SamplesOf(read), latch, epoch);
      hide Latched;
      if epoch == 0 {
        if latch != 0 {
          fire := true;
        }
      } else {
        if latch == 0 {
          next := epoch;
        } else if latch != epoch {
          fire := true;
        }
      }
    }
  }

  lemma NothingRead()
    ensures Latched(SamplesOf(Flat([])), 0)
  {
  }

  lemma LatchedIsQuiet(s: seq<Int64>, latch: Int64)
    requires Latched(s, latch)
    ensures !Changed(s)
  {
  }

  lemma OneConnection(connections: seq<seq<string>>, c: nat)
    requires c < |connections|
    ensures Flat(connections[..c + 1]) == Flat(connections[..c]) + connections[c][..|connections[c]|]
  {
    assert connections[..c + 1][..c] == connections[..c];
    assert connections[c][..|connections[c]|] == connections[c];
  }

  /** Reads the lines of one connection after another, with the latch kept across them, until it fires. It
      fires exactly when the samples of the lines show a change. */
  method RemoteEpochSensor(connections: seq<seq<string>>) returns (fired: bool)
    ensures fired <==> Changed(SamplesOf(Flat(connections)))
  {
    hide Changed, SamplesOf, Flat, Latched;
    var latch: Int64 := 0;
    NothingRead();
    assert connections[..0] == [];
    for c := 0 to |connections|
      invariant Latched(SamplesOf(Flat(connections[..c])), latch)
    {
      var lines := connections[c];
      ghost var before := Flat(connections[..c]);
      assert before + lines[..0] == before;
      for k := 0 to |lines|
        invariant Latched(SamplesOf(before + lines[..k]), latch)
      {
        var fire;
        latch, fire := Sense(latch, lines[k], before + lines[..k]);
        assert before + lines[..k] + [lines[k]] == before + lines[..k + 1];
        if fire {
          ReadIsPrefix(connections, c, k + 1);
          SamplesPrefix(before + lines[..k + 1], Flat(connections));
          ChangedPrefix(SamplesOf(before + lines[..k + 1]), SamplesOf(Flat(connections)));
          return true;
        }
      }
      OneConnection(connections, c);
    }
    assert connections[..|connections|] == connections;
    LatchedIsQuiet(SamplesOf(Flat(connections)), latch);
    return false;
  }
}
