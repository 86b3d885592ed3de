/** ReadLocalVer: the search for the build ID in a file read through a 32 KiB window. */
module VersionWindow {
  import opened Decimal

  const TARGET := "\"TargetBuildID\""
  const WINDOW: nat := 32 * 1024
  const CARRY: nat := 128

  /** What the look-ahead guarantees behind a marker that is examined before the end of the file. */
  const LOOKAHEAD: nat := CARRY + 1 - 15

  // ---- the value parser ----

  function SkipTabs(s: string, i: nat): (j: nat)
    requires i <= |s|
    ensures i <= j <= |s|
    ensures j < |s| ==> s[j] != ' ' && s[j] != '\t'
    ensures forall k :: i <= k < j ==> s[k] == ' ' || s[k] == '\t'
    decreases |s| - i
  {
    if i < |s| && (s[i] == ' ' || s[i] == '\t') then SkipTabs(s, i + 1) else i
  }

  /** The quoted number behind leading blanks, or "" when there is none. */
  function ParseVerNum(s: string): string {
    var q := SkipTabs(s, 0);
    if q < |s| && s[q] == '"' then
      var e := DigitsEnd(s, q + 1);
      if e > q + 1 && e < |s| && s[e] == '"' then s[q + 1..e] else ""
    else ""
  }

  /** How many bytes the parser has to see to read a value it can read. */
  function ValueLength(s: string): (n: nat)
    ensures n <= |s|
  {
    if ParseVerNum(s) == "" then 0 else SkipTabs(s, 0) + 1 + |ParseVerNum(s)| + 1
  }

  lemma {:induction false} SkipTabsPrefix(s: string, k: nat, i: nat)
    requires i <= k <= |s|
    ensures SkipTabs(s[..k], i) == if SkipTabs(s, i) < k then SkipTabs(s, i) else k
    decreases k - i
  {
    if i < k && (s[i] == ' ' || s[i] == '\t') {
      SkipTabsPrefix(s, k, i + 1);
    }
  }

  lemma {:induction false} DigitsEndPrefix(s: string, k: nat, i: nat)
    requires i <= k <= |s|
    ensures DigitsEnd(s[..k], i) == if DigitsEnd(s, i) < k then DigitsEnd(s, i) else k
    decreases k - i
  {
    if i < k && IsDigit(s[i]) {
      DigitsEndPrefix(s, k, i + 1);
    }
  }

  /** Where the opening quotation mark and the end of the digits stand when a value is read. */
  lemma ParseShape(s: string, q: nat, e: nat)
    requires q == SkipTabs(s, 0) && q < |s| && s[q] == '"' && e == DigitsEnd(s, q + 1)
    ensures ParseVerNum(s) == if q + 1 < e < |s| && s[e] == '"' then s[q + 1..e] else ""
    ensures ValueLength(s) == if q + 1 < e < |s| && s[e] == '"' then e + 1 else 0
  {
  }

  lemma CutBehindQuote(s: string, k: nat, q: nat)
    requires q < k <= |s| && q == SkipTabs(s, 0) && s[q] == '"' && SkipTabs(s[..k], 0) == q
    ensures ParseVerNum(s[..k]) == if ValueLength(s) <= k then ParseVerNum(s) else ""
  {
    hide SkipTabs, DigitsEnd, ParseVerNum, ValueLength, Digits, IsDigit;
    var cut, e := s[..k], DigitsEnd(s, q + 1);
    ParseShape(s, q, e);
    DigitsEndPrefix(s, k, q + 1);
    if e < k {
      ParseShape(cut, q, e);
      assert cut[q + 1..e] == s[q + 1..e];
    } else {
      ParseShape(cut, q, k);
    }
  }

  /** Cutting the text changes what is parsed only by losing it: either the whole value is still there,
      or nothing is read. */
  lemma ParseCut(s: string, k: nat)
    requires k <= |s|
    ensures ParseVerNum(s[..k]) == if ValueLength(s) <= k then ParseVerNum(s) else ""
  {
    hide SkipTabs, DigitsEnd;
    var q := SkipTabs(s, 0);
    SkipTabsPrefix(s, k, 0);
    if q < |s| && s[q] == '"' {
      if q < k {
        CutBehindQuote(s, k, q);
      } else {
        ParseShape(s, q, DigitsEnd(s, q + 1));
      }
    }
  }

  // ---- hits in the whole file ----

  predicate HitAt(f: string, p: nat) {
    p + 15 <= |f| && f[p..p + 15] == TARGET
  }

  function ValueAt(f: string, p: nat): string {
    if HitAt(f, p) then ParseVerNum(f[p + 15..]) else ""
  }

  /** The version of the first hit at or after p whose value can be parsed, or "". */
  function FirstVersion(f: string, p: nat): string
    decreases |f| - p
  {
    if p >= |f| then ""
    else if ValueAt(f, p) != "" then ValueAt(f, p)
    else FirstVersion(f, p + 1)
  }

  lemma {:induction false} FirstVersionSkips(f: string, p: nat, q: nat)
    requires p <= q && forall k :: p <= k < q ==> ValueAt(f, k) == ""
    ensures FirstVersion(f, p) == FirstVersion(f, q)
    decreases q - p
  {
    if p < q && p < |f| {
      assert ValueAt(f, p) == "";
      FirstVersionSkips(f, p + 1, q);
    }
  }

  // ---- the windowed search ----

  /** bytes.Index: the first occurrence of the target in data at or after i. */
  function IndexFrom(data: string, i: nat): (r: int)
    ensures r == -1 || (i <= r && HitAt(data, r) && forall k :: i <= k < r ==> !HitAt(data, k))
    ensures r == -1 ==> forall k :: i <= k ==> !HitAt(data, k)
    decreases |data| - i
  {
    if i + 15 > |data| then -1
    else if HitAt(data, i) then i
    else IndexFrom(data, i + 1)
  }

  /** The inner loop on one window; eof says that the read that filled it ended the file. */
  function SearchWindow(data: string, offset: nat, eof: bool): string
    decreases |data| - offset
  {
    var i := IndexFrom(data, offset);
    if i == -1 || !(|data| - i > CARRY || eof) then ""
    else if ParseVerNum(data[i + 15..]) != "" then ParseVerNum(data[i + 15..])
    else SearchWindow(data, i + 15, eof)
  }

  function Min(a: nat, b: nat): nat {
    if a < b then a else b
  }

  /** The bytes delivered so far that are still in the window. */
  function Carried(delivered: nat): nat {
    Min(CARRY, delivered)
  }

  /** What reading a file can give: reads that deliver something and fit the free part of the window until all
      of the file is there, and then an empty one that reports its end. */
  predicate Legal(f: string, delivered: nat, chops: seq<nat>)
    decreases |chops|
  {
    && chops != []
    && chops[0] <= WINDOW - Carried(delivered)
    && delivered + chops[0] <= |f|
    && if |chops| == 1 then chops[0] == 0 && delivered == |f|
       else chops[0] > 0 && Legal(f, delivered + chops[0], chops[1..])
  }

  /** The search as the program performs it, for one way of chopping the file into reads. */
  function Windowed(f: string, delivered: nat, chops: seq<nat>): string
    requires delivered <= |f| && Legal(f, delivered, chops)
    decreases |chops|
  {
    var base, end := delivered - Carried(delivered), delivered + chops[0];
    var v := SearchWindow(f[base..end], 0, |chops| == 1);
    if v != "" || |chops| == 1 then v else Windowed(f, end, chops[1..])
  }

  /** The value behind the hit at p can be read whenever the program decides to look at it: it fits the
      look-ahead, or the file ends so soon that the hit is looked at only then. */
  predicate Fits(f: string, p: nat)
    requires HitAt(f, p)
  {
    ValueLength(f[p + 15..]) <= LOOKAHEAD || |f| - p <= CARRY
  }

  /** No hit before hi has a value that can be parsed. */
  ghost predicate Settled(f: string, hi: int) {
    forall k: nat :: k < hi ==> ValueAt(f, k) == ""
  }

  /** The first hit whose value can be parsed. */
  ghost predicate FirstHit(f: string, p: nat) {
    Settled(f, p) && ValueAt(f, p) != ""
  }

  /** The first hit with a value does not start on the closing quotation mark of another hit. */
  ghost predicate FirstStandsFree(f: string) {
    forall p: nat :: FirstHit(f, p) && p >= 14 ==> !HitAt(f, p - 14)
  }

  /** The first parsable value can be read whenever the program decides to look at it. */
  ghost predicate FirstFits(f: string) {
    forall p: nat :: FirstHit(f, p) ==> Fits(f, p)
  }

  lemma SliceOfSlice(f: string, base: nat, end: nat, i: nat, j: nat)
    requires base <= end <= |f| && i <= j <= end - base
    ensures f[base..end][i..j] == f[base + i..base + j]
  {
    forall k | 0 <= k < j - i ensures f[base..end][i..j][k] == f[base + i..base + j][k] {
      assert f[base..end][i..j][k] == f[base..end][i + k] == f[base + i + k];
    }
  }

  lemma WindowHit(f: string, base: nat, end: nat, i: nat)
    requires base <= end <= |f|
    ensures HitAt(f[base..end], i) <==> base + i + 15 <= end && HitAt(f, base + i)
  {
    if base + i + 15 <= end {
      SliceOfSlice(f, base, end, i, i + 15);
    }
  }

  /** What the window shows of a value, compared with the whole of it. */
  lemma WindowValue(f: string, base: nat, end: nat, i: nat)
    requires base <= end <= |f| && HitAt(f[base..end], i)
    ensures HitAt(f, base + i)
    ensures var v := ParseVerNum(f[base..end][i + 15..]);
            v == if ValueLength(f[base + i + 15..]) <= end - (base + i + 15) then ValueAt(f, base + i) else ""
  {
    hide ParseVerNum, ValueLength;
    WindowHit(f, base, end, i);
    var data, p := f[base..end], base + i + 15;
    SliceOfSlice(f, base, end, i + 15, end - base);
    SliceOfSlice(f, p, |f|, 0, end - p);
    assert data[i + 15..] == data[i + 15..end - base];
    assert f[p..] == f[p..|f|] && f[p..][..end - p] == f[p..][0..end - p];
    ParseCut(f[p..], end - p);
  }

  /** The window shows no hit between two points: nothing there has a value. */
  lemma NoHitsShown(f: string, base: nat, end: nat, offset: nat, i: nat)
    requires base <= end <= |f| && offset <= i && Settled(f, base + offset)
    requires forall k :: offset <= k < i ==> !HitAt(f[base..end], k)
    ensures Settled(f, Min(base + i, if end >= 14 then end - 14 else 0))
  {
    hide ParseVerNum;
    forall k: nat | base + offset <= k < base + i && k + 15 <= end
      ensures ValueAt(f, k) == ""
    {
      WindowHit(f, base, end, k - base);
    }
  }

  /** Two hits can only overlap in a shared quotation mark. */
  lemma NoOverlap(f: string, p: nat, k: nat)
    requires HitAt(f, p) && p < k < p + 15
    ensures HitAt(f, k) ==> k == p + 14
  {
    assert f[p..p + 15][k - p] == f[k];
    assert k < p + 14 ==> TARGET[k - p] != '"';
    if HitAt(f, k) {
      assert f[k..k + 15][0] == f[k];
    }
  }

  lemma NoValueInside(f: string, p: nat)
    requires HitAt(f, p)
    ensures forall k: nat :: p < k < p + 14 ==> ValueAt(f, k) == ""
  {
    forall k: nat | p < k < p + 14
      ensures ValueAt(f, k) == ""
    {
      NoOverlap(f, p, k);
      hide ParseVerNum, HitAt;
    }
  }

  /** Stepping over a hit without a value passes no value: one that overlaps it would be the first. */
  lemma Examined(f: string, base: nat, end: nat, i: nat)
    requires FirstStandsFree(f) && base <= end <= |f| && HitAt(f[base..end], i)
    requires Settled(f, base + i) && ValueAt(f, base + i) == ""
    ensures Settled(f, base + (i + 15))
  {
    hide ParseVerNum, HitAt, ValueAt;
    WindowHit(f, base, end, i);
    var p := base + i;
    NoValueInside(f, p);
    assert Settled(f, p + 14);
    assert ValueAt(f, p + 14) != "" ==> FirstHit(f, p + 14);
  }

  lemma SettledAll(f: string)
    requires Settled(f, |f| - 14)
    ensures FirstVersion(f, 0) == ""
  {
    forall k: nat | 0 <= k < |f| ensures ValueAt(f, k) == "" {
    }
    FirstVersionSkips(f, 0, |f|);
  }

  /** One window: either it finds the answer, or everything before its carry-over is settled. */
  lemma {:induction false} WindowSearched(f: string, base: nat, end: nat, offset: nat, eof: bool)
    requires FirstStandsFree(f) && FirstFits(f) && base <= end <= |f| && offset <= end - base
    requires eof ==> end == |f|
    requires Settled(f, base + offset)
    ensures var v := SearchWindow(f[base..end], offset, eof);
            && (v != "" ==> v == FirstVersion(f, 0))
            && (v == "" && eof ==> FirstVersion(f, 0) == "")
            && (v == "" ==> Settled(f, end - Min(CARRY, end - base)))
    decreases end - offset
  {
    hide HitAt, ValueAt, ParseVerNum, ValueLength, FirstVersion, FirstStandsFree, IndexFrom;
    var data := f[base..end];
    var i := IndexFrom(data, offset);
    if i == -1 {
      NoHitsShown(f, base, end, offset, if |data| > offset then |data| else offset);
      if eof {
        SettledAll(f);
      }
    } else {
      HitFits(data, i);
      NoHitsShown(f, base, end, offset, i);
      if |data| - i > CARRY || eof {
        WindowValue(f, base, end, i);
        if ParseVerNum(data[i + 15..]) != "" {
          FirstVersionIs(f, base + i);
        } else {
          assert ValueAt(f, base + i) != "" ==> FirstHit(f, base + i);
          Examined(f, base, end, i);
          WindowSearched(f, base, end, i + 15, eof);
        }
      }
    }
  }

  lemma HitFits(data: string, i: nat)
    requires HitAt(data, i)
    ensures i + 15 <= |data|
  {
  }

  lemma FirstVersionIs(f: string, p: nat)
    requires p < |f| && Settled(f, p) && ValueAt(f, p) != ""
    ensures FirstVersion(f, 0) == ValueAt(f, p)
  {
    FirstVersionSkips(f, 0, p);
  }

  /** Windowed search, from any point on, agrees with searching the whole file. */
  lemma {:induction false} WindowedFrom(f: string, delivered: nat, chops: seq<nat>)
    requires FirstStandsFree(f) && FirstFits(f) && delivered <= |f| && Legal(f, delivered, chops)
    requires Settled(f, delivered - Carried(delivered))
    ensures Windowed(f, delivered, chops) == FirstVersion(f, 0)
    decreases |chops|
  {
    hide SearchWindow, FirstVersion, ValueAt, FirstStandsFree, FirstFits;
    var base, end := delivered - Carried(delivered), delivered + chops[0];
    WindowSearched(f, base, end, 0, |chops| == 1);
    if SearchWindow(f[base..end], 0, |chops| == 1) == "" && |chops| > 1 {
      WindowedFrom(f, end, chops[1..]);
    }
  }

  /** For every file whose first value stands free and fits the look-ahead, every way of chopping it into
      reads finds the version the whole file shows first. */
  lemma WindowedAgrees(f: string, chops: seq<nat>)
    requires FirstStandsFree(f) && FirstFits(f) && Legal(f, 0, chops)
    ensures Windowed(f, 0, chops) == FirstVersion(f, 0)
  {
    WindowedFrom(f, 0, chops);
  }

  // ---- the imperative search ----

  method ParseVersion(data: string) returns (v: string)
    ensures v == ParseVerNum(data)
  {
    var p := 0;
    while p < |data| && (data[p] == ' ' || data[p] == '\t')
      invariant 0 <= p <= |data| && SkipTabs(data, p) == SkipTabs(data, 0)
    {
      p := p + 1;
    }
    if p < |data| && data[p] == '"' {
      p := p + 1;
      var start := p;
      p := SkipDigits(data, start);
      if p > start && p < |data| && data[p] == '"' {
        return data[start..p];
      }
    }
    return "";
  }

  lemma SearchStep(data: string, offset: nat, eof: bool)
    ensures var i := IndexFrom(data, offset);
            && (i != -1 ==> offset <= i && i + 15 <= |data|)
            && SearchWindow(data, offset, eof) ==
               if i == -1 || !(|data| - i > CARRY || eof) then ""
               else if ParseVerNum(data[i + 15..]) != "" then ParseVerNum(data[i + 15..])
               else SearchWindow(data, i + 15, eof)
  {
    hide ParseVerNum;
  }

  /** The inner loop over the filled part of the window. */
  method Search(data: string, eof: bool) returns (found: string)
    ensures found == SearchWindow(data, 0, eof)
  {
    hide SearchWindow, ParseVerNum, HitAt, IndexFrom;
    var offset := 0;
    while true
      invariant 0 <= offset && SearchWindow(data, offset, eof) == SearchWindow(data, 0, eof)
      decreases |data| - offset
    {
      SearchStep(data, offset, eof);
      var i := IndexFrom(data, offset);
      if i == -1 || !(|data| - i > CARRY || eof) {
        return "";
      }
      found := ParseVersion(data[i + 15..]);
      if found != "" {
        return;
      }
      offset := i + 15;
    }
  }

  /** One read: n bytes of the file go into the buffer behind the carried ones. */
  method Fill(buf: array<char>, tailLen: nat, f: string, delivered: nat, n: nat) returns (data: string)
    requires tailLen + n <= buf.Length && tailLen <= delivered && delivered + n <= |f|
    requires buf[..tailLen] == f[delivered - tailLen..delivered]
    modifies buf
    ensures data == buf[..tailLen + n] == f[delivered - tailLen..delivered + n]
  {
    ghost var carried := buf[..tailLen];
    forall i | 0 <= i < n {
      buf[tailLen + i] := f[delivered + i];
    }
    assert buf[..tailLen] == carried && buf[tailLen..tailLen + n] == f[delivered..delivered + n];
    data := buf[..tailLen + n];
    assert data == buf[..tailLen] + buf[tailLen..tailLen + n];
    assert f[delivered - tailLen..delivered + n] == f[delivered - tailLen..delivered] + f[delivered..delivered + n];
  }

  /** The last bytes of the filled part move to the front; source and target may overlap. */
  method KeepTail(buf: array<char>, total: nat)
    requires CARRY <= total <= buf.Length
    modifies buf
    ensures buf[..CARRY] == old(buf[total - CARRY..total])
  {
    forall i | 0 <= i < CARRY {
      buf[i] := buf[total - CARRY + i];
    }
  }

  /** What one round of the reading loop makes of the reads from k on. */
  lemma ReadStep(f: string, delivered: nat, chops: seq<nat>, k: nat)
    requires k < |chops| && delivered <= |f| && Legal(f, delivered, chops[k..])
    ensures var n, eof := chops[k], k + 1 == |chops|; var tailLen := Carried(delivered);
            && tailLen <= delivered && tailLen + n <= WINDOW && delivered + n <= |f|
            && var v := SearchWindow(f[delivered - tailLen..delivered + n], 0, eof);
            if v != "" || eof then Windowed(f, delivered, chops[k..]) == v
            else Legal(f, delivered + n, chops[k + 1..])
                 && Windowed(f, delivered, chops[k..]) == Windowed(f, delivered + n, chops[k + 1..])
  {
    hide SearchWindow;
    assert chops[k..][0] == chops[k] && chops[k..][1..] == chops[k + 1..];
  }

  /** The bytes that stay in the window are the last ones delivered. */
  lemma TailOf(f: string, from: nat, to: nat, tail: nat)
    requires from <= tail <= to <= |f|
    ensures f[from..to][tail - from..] == f[tail..to]
  {
  }

  lemma NeverEmpty(f: string, delivered: nat, chops: seq<nat>)
    requires Legal(f, delivered, chops)
    ensures chops != []
  {
  }

  method ReadLocalVer(f: string, chops: seq<nat>) returns (found: string)
    requires Legal(f, 0, chops)
    ensures found == Windowed(f, 0, chops)
  {
    hide SearchWindow, IndexFrom, Legal, Windowed;
    var buf := new char[WINDOW](_ => '\0');
    var tailLen, delivered, k := 0, 0, 0;
    assert chops[0..] == chops && chops != [] by { NeverEmpty(f, 0, chops); }
    while true
      invariant 0 <= k < |chops| && 0 <= delivered <= |f|
      invariant tailLen == Carried(delivered)
      invariant Legal(f, delivered, chops[k..])
      invariant Windowed(f, delivered, chops[k..]) == Windowed(f, 0, chops)
      invariant buf[..tailLen] == f[delivered - tailLen..delivered]
      decreases |chops| - k
    {
      ReadStep(f, delivered, chops, k);
      var n, eof := chops[k], k + 1 == |chops|;
      var total := tailLen + n;
      var data := Fill(buf, tailLen, f, delivered, n);
      ghost var base := delivered - tailLen;
      found := Search(data, eof);
      delivered := delivered + n;
      if found != "" || eof {
        return;
      }
      if total > CARRY {
        TailOf(f, base, delivered, delivered - CARRY);
        assert buf[total - CARRY..total] == data[total - CARRY..];
        KeepTail(buf, total);
        tailLen := CARRY;
      } else {
        tailLen := total;
      }
      k := k + 1;
    }
  }
}
