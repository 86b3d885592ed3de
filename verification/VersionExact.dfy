/** Exactly when the windowed search for the build ID agrees with searching the whole file. */
module VersionExact {
  import opened Decimal
  import opened VersionWindow

  // ---- where the search takes its value ----

  /** The hit in one window whose value the inner loop takes, or -1. */
  function FoundIn(data: string, offset: nat, eof: bool): (r: int)
    ensures r == -1 || (offset <= r && r + 15 <= |data|)
    decreases |data| - offset
  {
    var i := IndexFrom(data, offset);
    if i == -1 || !(|data| - i > CARRY || eof) then -1
    else if ParseVerNum(data[i + 15..]) != "" then i
    else FoundIn(data, i + 15, eof)
  }

  lemma {:induction false} FoundInWindow(data: string, offset: nat, eof: bool)
    ensures var r := FoundIn(data, offset, eof);
            && (r == -1 ==> SearchWindow(data, offset, eof) == "")
            && (r != -1 ==> HitAt(data, r) && ParseVerNum(data[r + 15..]) != ""
                            && SearchWindow(data, offset, eof) == ParseVerNum(data[r + 15..]))
    decreases |data| - offset
  {
    hide HitAt, ParseVerNum, IndexFrom;
    var i := IndexFrom(data, offset);
    if i != -1 {
      HitFits(data, i);
      if |data| - i > CARRY || eof {
        FoundInWindow(data, i + 15, eof);
      }
    }
  }

  /** The same as a position in the file, for the window f[base..end]. */
  function Taken(f: string, base: nat, end: nat, offset: nat, eof: bool): (r: int)
    requires base <= end <= |f|
    ensures r == -1 || base + offset <= r
  {
    var r := FoundIn(f[base..end], offset, eof);
    if r == -1 then -1 else base + r
  }

  /** Where in the file the value stands that the search takes, or -1. */
  function FoundAt(f: string, delivered: nat, chops: seq<nat>): (r: int)
    requires delivered <= |f| && Legal(f, delivered, chops)
    ensures r == -1 || delivered - Carried(delivered) <= r
    decreases |chops|
  {
    var base, end := delivered - Carried(delivered), delivered + chops[0];
    var r := Taken(f, base, end, 0, |chops| == 1);
    if r != -1 || |chops| == 1 then r else FoundAt(f, end, chops[1..])
  }

  lemma TakenValue(f: string, base: nat, end: nat, eof: bool)
    requires base <= end <= |f|
    ensures var r := Taken(f, base, end, 0, eof);
            && (r == -1 <==> SearchWindow(f[base..end], 0, eof) == "")
            && (r != -1 ==> SearchWindow(f[base..end], 0, eof) == ValueAt(f, r))
  {
    hide HitAt, ParseVerNum, SearchWindow, ValueAt, ValueLength, FoundIn;
    var r := FoundIn(f[base..end], 0, eof);
    FoundInWindow(f[base..end], 0, eof);
    if r != -1 {
      WindowValue(f, base, end, r);
    }
  }

  /** What the search returns is the value at that position. */
  lemma {:induction false} WindowedIsFound(f: string, delivered: nat, chops: seq<nat>)
    requires delivered <= |f| && Legal(f, delivered, chops)
    ensures var r := FoundAt(f, delivered, chops);
            Windowed(f, delivered, chops) == if r == -1 then "" else ValueAt(f, r)
    decreases |chops|
  {
    hide SearchWindow, ValueAt, Taken;
    TakenValue(f, delivered - Carried(delivered), delivered + chops[0], |chops| == 1);
    if |chops| > 1 {
      WindowedIsFound(f, delivered + chops[0], chops[1..]);
    }
  }

  // ---- one step of the inner loop, in terms of the file ----

  /** The value behind the hit at q ends before end. */
  predicate Shown(f: string, q: nat, end: nat) {
    HitAt(f, q) && ValueAt(f, q) != "" && q + 15 + ValueLength(f[q + 15..]) <= end
  }

  lemma ShownValue(f: string, base: nat, end: nat, i: nat)
    requires base <= end <= |f| && HitAt(f[base..end], i)
    ensures i + 15 <= end - base && HitAt(f, base + i)
    ensures ParseVerNum(f[base..end][i + 15..]) != "" <==> Shown(f, base + i, end)
  {
    hide ParseVerNum, ValueLength, ValueAt, HitAt;
    HitFits(f[base..end], i);
    WindowValue(f, base, end, i);
  }

  lemma FoundStep(data: string, offset: nat, eof: bool)
    ensures var i := IndexFrom(data, offset);
            && (i != -1 ==> offset <= i && i + 15 <= |data|)
            && FoundIn(data, offset, eof) ==
               if i == -1 || !(|data| - i > CARRY || eof) then -1
               else if ParseVerNum(data[i + 15..]) != "" then i
               else FoundIn(data, i + 15, eof)
  {
    hide ParseVerNum;
  }

  /** There is no hit from a on that ends before b. */
  predicate NoHit(f: string, a: nat, b: int) {
    forall q: nat :: a <= q && q + 15 <= b ==> !HitAt(f, q)
  }

  /** The next hit of the window, or -1. */
  lemma NextHit(f: string, base: nat, end: nat, offset: nat) returns (i: int)
    requires base <= end <= |f|
    ensures i == IndexFrom(f[base..end], offset)
    ensures i == -1 ==> NoHit(f, base + offset, end)
    ensures i != -1 ==> offset <= i && HitAt(f[base..end], i) && NoHit(f, base + offset, base + i + 14)
  {
    hide HitAt, IndexFrom;
    i := IndexFrom(f[base..end], offset);
    forall q: nat | base + offset <= q && q + 15 <= if i == -1 then end else base + i + 14
      ensures !HitAt(f, q)
    {
      if i != -1 {
        HitFits(f[base..end], i);
      }
      WindowHit(f, base, end, q - base);
    }
  }

  /** One step of the inner loop: the next hit k, or -1, and what the window makes of it. */
  lemma TakenStep(f: string, base: nat, end: nat, offset: nat, eof: bool) returns (k: int)
    requires base <= end <= |f|
    ensures k == -1 ==> NoHit(f, base + offset, end) && Taken(f, base, end, offset, eof) == -1
    ensures k != -1 ==>
              && base + offset <= k && k + 15 <= end && HitAt(f, k) && NoHit(f, base + offset, k + 14)
              && Taken(f, base, end, offset, eof) ==
                 if !(end - k > CARRY || eof) then -1
                 else if Shown(f, k, end) then k
                 else Taken(f, base, end, k - base + 15, eof)
  {
    hide HitAt, ParseVerNum, IndexFrom, FoundIn, Shown, NoHit;
    var i := NextHit(f, base, end, offset);
    FoundStep(f[base..end], offset, eof);
    if i == -1 {
      k := -1;
    } else {
      ShownValue(f, base, end, i);
      k := base + i;
    }
  }

  // ---- hits and the first value ----

  /** The hit at p does not start on the closing quotation mark of another hit. */
  predicate Free(f: string, p: nat) {
    p >= 14 ==> !HitAt(f, p - 14)
  }

  lemma FirstHitIsHit(f: string, p: nat)
    requires FirstHit(f, p)
    ensures HitAt(f, p) && p + 15 <= |f|
  {
  }

  lemma HasValue(f: string, p: nat)
    requires FirstHit(f, p)
    ensures ValueAt(f, p) != "" && FirstVersion(f, 0) == ValueAt(f, p)
  {
    FirstHitIsHit(f, p);
    FirstVersionIs(f, p);
  }

  lemma Behind(f: string, q: nat, p: nat)
    requires Free(f, p) && HitAt(f, q) && HitAt(f, p) && q < p
    ensures q + 15 <= p
  {
    if p < q + 15 {
      NoOverlap(f, q, p);
    }
  }

  /** The next hit from a on that ends before end stands at p or before it. */
  lemma NotPassed(f: string, a: nat, end: nat, k: int, p: nat)
    requires HitAt(f, p) && a <= p && p + 15 <= end && k >= -1
    requires NoHit(f, a, if k == -1 then end else k + 14)
    ensures 0 <= k <= p
  {
    hide HitAt;
  }

  lemma AllShown(f: string, p: nat)
    requires p <= |f|
    ensures ValueLength(f[p..]) <= |f| - p
  {
  }

  /** A value that fits the look-ahead is shown whole by every window that looks at it. */
  lemma FittingIsShown(f: string, p: nat, end: nat)
    requires FirstHit(f, p) && Fits(f, p) && end <= |f| && (end - p > CARRY || end == |f|)
    ensures Shown(f, p, end)
  {
    FirstHitIsHit(f, p);
    AllShown(f, p + 15);
    hide HitAt, ValueAt, ValueLength;
  }

  /** A value that does not fit is not shown by the window that first looks at it. */
  lemma TooLongIsNotShown(f: string, p: nat)
    requires HitAt(f, p) && !Fits(f, p)
    ensures p + CARRY < |f| && !Shown(f, p, p + CARRY + 1)
  {
    hide HitAt, ValueAt, ValueLength;
  }

  lemma EarlierNotShown(f: string, q: nat, p: nat, end: nat)
    requires Settled(f, p) && q < p
    ensures !Shown(f, q, end)
  {
    hide HitAt, ValueAt, ValueLength;
  }

  // ---- a value that stands free and fits ----

  lemma {:induction false} WindowTakes(f: string, base: nat, end: nat, offset: nat, eof: bool, p: nat)
    requires FirstHit(f, p) && Free(f, p) && Fits(f, p)
    requires base + offset <= p && base <= end <= |f| && (eof ==> end == |f|)
    ensures var r := Taken(f, base, end, offset, eof); r == p || (r == -1 && !eof && end <= p + CARRY)
    decreases p - offset
  {
    hide HitAt, ValueAt, Taken, Shown, Free, Fits, Settled;
    FirstHitIsHit(f, p);
    var k := TakenStep(f, base, end, offset, eof);
    if end - p > CARRY || eof {
      FittingIsShown(f, p, end);
    }
    if 0 <= k < p {
      EarlierNotShown(f, k, p, end);
      Behind(f, k, p);
      WindowTakes(f, base, end, k - base + 15, eof, p);
    }
  }

  /** Every way of chopping the file takes the first value, if it stands free and fits the look-ahead. */
  lemma {:induction false} FreeIsTaken(f: string, delivered: nat, chops: seq<nat>, p: nat)
    requires FirstHit(f, p) && Free(f, p) && Fits(f, p)
    requires delivered <= |f| && Legal(f, delivered, chops) && delivered - Carried(delivered) <= p
    ensures FoundAt(f, delivered, chops) == p
    decreases |chops|
  {
    hide Taken, FirstHit, Free, Fits;
    WindowTakes(f, delivered - Carried(delivered), delivered + chops[0], 0, |chops| == 1, p);
    if |chops| > 1 && delivered + chops[0] <= p + CARRY {
      FreeIsTaken(f, delivered + chops[0], chops[1..], p);
    }
  }

  // ---- a value that some reads miss ----

  /** A window that ends before the hit at p may be looked at takes nothing, unless it ends the file. */
  lemma {:induction false} NothingYet(f: string, base: nat, end: nat, offset: nat, p: nat)
    requires Settled(f, p) && base <= end <= |f| && end <= p + CARRY
    ensures Taken(f, base, end, offset, false) == -1
    decreases end - offset
  {
    hide HitAt, Taken, Shown, Settled;
    var k := TakenStep(f, base, end, offset, false);
    if 0 <= k < p {
      EarlierNotShown(f, k, p, end);
      NothingYet(f, base, end, k - base + 15, p);
    }
  }

  /** n reads of one byte and the end of the file. */
  function Ones(n: nat): seq<nat> {
    seq(n, _ => 1) + [0]
  }

  lemma {:induction false} OnesLegal(f: string, delivered: nat)
    requires delivered <= |f|
    ensures Legal(f, delivered, Ones(|f| - delivered))
    decreases |f| - delivered
  {
    if delivered < |f| {
      assert Ones(|f| - delivered)[1..] == Ones(|f| - delivered - 1);
      OnesLegal(f, delivered + 1);
    }
  }

  lemma ReadsOn(f: string, delivered: nat, n: nat, rest: seq<nat>)
    requires 0 < n <= WINDOW - Carried(delivered) && delivered + n <= |f| && Legal(f, delivered + n, rest)
    ensures var chops := [n] + rest; var base := delivered - Carried(delivered);
            && Legal(f, delivered, chops)
            && var r := Taken(f, base, delivered + n, 0, false);
               FoundAt(f, delivered, chops) == if r != -1 then r else FoundAt(f, delivered + n, rest)
  {
    hide Taken;
    var chops := [n] + rest;
    NeverEmpty(f, delivered + n, rest);
    assert chops[0] == n && chops[1..] == rest && |chops| > 1;
    assert Legal(f, delivered, chops);
    hide Legal;
  }

  /** Reads of one byte bring the start of the window to b, and a read of n bytes moves it on behind p. If the
      window does not take the value at p then, these reads never do. */
  lemma {:induction false} MissedFrom(f: string, delivered: nat, b: nat, n: nat, p: nat) returns (chops: seq<nat>)
    requires Settled(f, p) && b <= p < b + n && n <= CARRY && delivered <= b + CARRY && b + CARRY + n <= |f|
    requires Taken(f, b, b + CARRY + n, 0, false) != p
    ensures Legal(f, delivered, chops) && FoundAt(f, delivered, chops) != p
    decreases b + CARRY - delivered
  {
    hide Taken, Settled, FoundAt, Legal;
    if delivered == b + CARRY {
      OnesLegal(f, b + CARRY + n);
      var rest := Ones(|f| - (b + CARRY + n));
      ReadsOn(f, delivered, n, rest);
      chops := [n] + rest;
    } else {
      var rest := MissedFrom(f, delivered + 1, b, n, p);
      NothingYet(f, delivered - Carried(delivered), delivered + 1, 0, p);
      ReadsOn(f, delivered, 1, rest);
      chops := [1] + rest;
    }
  }

  /** A value that does not fit the look-ahead is missed when the window starts with its marker and shows no
      more than the look-ahead. */
  lemma TooLongMissed(f: string, p: nat) returns (chops: seq<nat>)
    requires FirstHit(f, p) && !Fits(f, p)
    ensures Legal(f, 0, chops) && FoundAt(f, 0, chops) != p
  {
    hide HitAt, ValueAt, ValueLength, Taken, Shown, Fits, FoundAt, Legal, NoHit, Settled;
    FirstHitIsHit(f, p);
    TooLongIsNotShown(f, p);
    var k := TakenStep(f, p, p + CARRY + 1, 0, false);
    NotPassed(f, p, p + CARRY + 1, k, p);
    chops := MissedFrom(f, 0, p, 1, p);
  }

  /** A marker that starts on the closing quotation mark of another one is stepped over when the window starts
      with that one. */
  lemma OverlapMissed(f: string, p: nat) returns (chops: seq<nat>)
    requires FirstHit(f, p) && !Free(f, p) && p + CARRY < |f|
    ensures Legal(f, 0, chops) && FoundAt(f, 0, chops) != p
  {
    hide HitAt, ValueAt, Taken, Shown, FoundAt, Legal, NoHit, Settled;
    var b := p - 14;
    EarlierNotShown(f, b, p, p + CARRY + 1);
    var k := TakenStep(f, b, p + CARRY + 1, 0, false);
    NotPassed(f, b, p + CARRY + 1, k, b);
    chops := MissedFrom(f, 0, b, 15, p);
  }

  // ---- a value so close to the end that only the last window looks at it ----

  /** How many hits, each starting on the closing quotation mark of the one before, lead to p from b on. */
  function Chain(f: string, p: nat, b: nat): nat
    decreases p
  {
    if p >= b + 14 && HitAt(f, p - 14) then 1 + Chain(f, p - 14, b) else 0
  }

  /** The first hit from b on, looked at from the chain that leads to p: it belongs to the chain, which is then
      two hits shorter behind it, or the chain starts behind it. */
  lemma {:induction false} ChainBehind(f: string, p: nat, b: nat, i: nat)
    requires b <= i && i + 15 <= p && HitAt(f, i) && HitAt(f, p) && NoHit(f, b, i + 14)
    ensures Chain(f, p, i + 15) % 2 == Chain(f, p, b) % 2
    decreases p
  {
    hide HitAt;
    if p >= b + 14 && HitAt(f, p - 14) {
      if p - 14 < i + 15 {
        NoOverlap(f, i, p - 14);
        assert p - 14 == i + 14;
        assert Chain(f, i + 14, b) == 1 + Chain(f, i, b);
        assert Chain(f, i, b) == 0;
      } else {
        ChainBehind(f, p - 14, b, i);
      }
    }
  }

  lemma ShortChains(f: string, b: nat, i: nat)
    requires b <= i && HitAt(f, i) && NoHit(f, b, i + 14)
    ensures Chain(f, i, b) == 0 && Chain(f, i + 14, b) == 1
  {
    hide HitAt;
  }

  /** The last window takes the first value exactly when the chain that leads to it is even. */
  lemma {:induction false} LastWindow(f: string, b: nat, offset: nat, p: nat)
    requires FirstHit(f, p) && b + offset <= p
    ensures b <= |f| && (Taken(f, b, |f|, offset, true) == p <==> Chain(f, p, b + offset) % 2 == 0)
    decreases p - offset
  {
    hide HitAt, ValueAt, Taken, Shown, NoHit, Chain, Settled;
    FirstHitIsHit(f, p);
    var k := TakenStep(f, b, |f|, offset, true);
    NotPassed(f, b + offset, |f|, k, p);
    ShortChains(f, b + offset, k);
    if k < p {
      EarlierNotShown(f, k, p, |f|);
      if k + 15 <= p {
        ChainBehind(f, p, b + offset, k);
        LastWindow(f, b, k - b + 15, p);
      } else {
        NoOverlap(f, k, p);
      }
    } else {
      LastIsShown(f, p);
    }
  }

  lemma LastIsShown(f: string, p: nat)
    requires FirstHit(f, p)
    ensures Shown(f, p, |f|)
  {
    FirstHitIsHit(f, p);
    AllShown(f, p + 15);
    hide HitAt, ValueAt, ValueLength;
  }

  /** Where the window starts in which the end of the file is seen. */
  function LastBase(f: string): (b: nat)
    ensures b <= |f|
  {
    |f| - Carried(|f|)
  }

  /** Every way of reading a file that ends within the look-ahead behind p comes down to its last window. */
  lemma {:induction false} DownToLastWindow(f: string, delivered: nat, chops: seq<nat>, p: nat)
    requires Settled(f, p) && |f| <= p + CARRY && delivered <= |f| && Legal(f, delivered, chops)
    ensures FoundAt(f, delivered, chops) == Taken(f, LastBase(f), |f|, 0, true)
    decreases |chops|
  {
    hide Taken, Settled;
    if |chops| > 1 {
      NothingYet(f, delivered - Carried(delivered), delivered + chops[0], 0, p);
      DownToLastWindow(f, delivered + chops[0], chops[1..], p);
    }
  }

  /** So all ways of reading it take the first value, or none does. */
  lemma NearEndExact(f: string, chops: seq<nat>, p: nat)
    requires FirstHit(f, p) && |f| <= p + CARRY && Legal(f, 0, chops)
    ensures FoundAt(f, 0, chops) == p <==> Chain(f, p, LastBase(f)) % 2 == 0
  {
    hide Taken, ValueAt, Chain, FoundAt, Legal;
    DownToLastWindow(f, 0, chops, p);
    LastWindow(f, LastBase(f), 0, p);
  }

  // ---- the exact condition ----

  /** Some window steps over the first value, at p, because it starts on the closing quotation mark of another
      hit: any such hit does it when the window can start with that hit and move on behind p; closer to the end
      of the file it takes an odd chain of hits in the last window. */
  predicate Shadowed(f: string, p: nat) {
    if p + CARRY < |f| then !Free(f, p) else Chain(f, p, LastBase(f)) % 2 == 1
  }

  /** However the file is chopped into reads, the search takes the value at p. */
  ghost predicate AlwaysTaken(f: string, p: nat) {
    forall chops :: Legal(f, 0, chops) ==> FoundAt(f, 0, chops) == p
  }

  /** The condition is exact. All ways of chopping the file into reads take the value that a search of the whole
      file finds first if and only if it fits the look-ahead and no window steps over its marker. */
  lemma AgreementExact(f: string, p: nat)
    requires FirstHit(f, p)
    ensures HitAt(f, p) && (AlwaysTaken(f, p) <==> Fits(f, p) && !Shadowed(f, p))
  {
    FirstHitIsHit(f, p);
    hide HitAt, ValueAt, FoundAt, Legal, Chain, FirstHit;
    if |f| <= p + CARRY {
      OnesLegal(f, 0);
      forall chops | Legal(f, 0, chops)
        ensures FoundAt(f, 0, chops) == p <==> !Shadowed(f, p)
      {
        NearEndExact(f, chops, p);
      }
      assert Fits(f, p);
    } else if !Free(f, p) {
      var chops := OverlapMissed(f, p);
    } else if !Fits(f, p) {
      var chops := TooLongMissed(f, p);
    } else {
      forall chops | Legal(f, 0, chops)
        ensures FoundAt(f, 0, chops) == p
      {
        FreeIsTaken(f, 0, chops, p);
      }
    }
  }

  /** Where the marker stands free, the look-ahead alone decides. */
  lemma LookaheadExact(f: string, p: nat)
    requires FirstHit(f, p) && Free(f, p)
    ensures HitAt(f, p) && (AlwaysTaken(f, p) <==> Fits(f, p))
  {
    hide HitAt, ValueAt, FirstHit, AlwaysTaken;
    AgreementExact(f, p);
  }

  // ---- the same for the value ----

  /** These reads return what a search of the whole file finds first. */
  predicate Finds(f: string, chops: seq<nat>)
    requires Legal(f, 0, chops)
  {
    Windowed(f, 0, chops) == FirstVersion(f, 0)
  }

  ghost predicate AllReadsAgree(f: string) {
    forall chops :: Legal(f, 0, chops) ==> Finds(f, chops)
  }

  /** A value that no later hit repeats. */
  ghost predicate Unrepeated(f: string, p: nat) {
    forall q: nat :: q > p ==> ValueAt(f, q) != ValueAt(f, p)
  }

  /** The value is right where its place is; a wrong place shows unless a later hit repeats the value. */
  lemma FindsByPlace(f: string, chops: seq<nat>, p: nat)
    requires FirstHit(f, p) && Legal(f, 0, chops)
    ensures FoundAt(f, 0, chops) == p ==> Finds(f, chops)
    ensures Unrepeated(f, p) && Finds(f, chops) ==> FoundAt(f, 0, chops) == p
  {
    hide ValueAt, Windowed, FirstVersion, FoundAt, Legal;
    HasValue(f, p);
    WindowedIsFound(f, 0, chops);
    var r := FoundAt(f, 0, chops);
    assert 0 <= r < p ==> ValueAt(f, r) == "";
  }

  lemma ValuesExact(f: string, p: nat)
    requires FirstHit(f, p)
    ensures HitAt(f, p) && (Fits(f, p) && !Shadowed(f, p) ==> AllReadsAgree(f))
    ensures Unrepeated(f, p) && AllReadsAgree(f) ==> Fits(f, p) && !Shadowed(f, p)
  {
    hide HitAt, ValueAt, FoundAt, Legal, Finds, Fits, Shadowed, FirstHit, Unrepeated;
    AgreementExact(f, p);
    forall chops | Legal(f, 0, chops)
      ensures FoundAt(f, 0, chops) == p ==> Finds(f, chops)
      ensures Unrepeated(f, p) && Finds(f, chops) ==> FoundAt(f, 0, chops) == p
    {
      FindsByPlace(f, chops, p);
    }
  }

  // ---- two files that are not read alike ----

  function Blanks(n: nat): (s: string)
    ensures |s| == n
  {
    seq(n, _ => ' ')
  }

  lemma {:induction false} BlanksSkipped(s: string, n: nat, i: nat)
    requires i <= n < |s| && s[n] == '"' && forall k: nat :: i <= k < n ==> s[k] == ' '
    ensures SkipTabs(s, i) == n
    decreases n - i
  {
    if i < n {
      BlanksSkipped(s, n, i + 1);
    }
  }

  /** The single digit in quotation marks behind n blanks. */
  lemma PaddedValue(s: string, n: nat)
    requires s == Blanks(n) + "\"1\""
    ensures ParseVerNum(s) == "1" && ValueLength(s) == n + 3
  {
    BlanksSkipped(s, n, 0);
    assert s[n] == '"' && s[n + 1] == '1' && s[n + 2] == '"';
    assert DigitsEnd(s, n + 2) == n + 2;
    assert DigitsEnd(s, n + 1) == n + 2;
    ParseShape(s, n, n + 2);
  }

  lemma OnlyHit(f: string, p: nat)
    requires HitAt(f, p) && (p + 15 < |f| ==> f[p + 15] != 'T')
    requires forall q: nat :: p + 15 <= q && q + 15 <= |f| ==> f[q] != '"'
    ensures forall q: nat :: q > p ==> ValueAt(f, q) == ""
  {
    forall q: nat | q > p
      ensures !HitAt(f, q)
    {
      if HitAt(f, q) {
        assert f[q] == f[q..q + 15][0] == '"' && f[q + 1] == f[q..q + 15][1] == 'T';
        if q < p + 15 {
          NoOverlap(f, p, q);
        }
      }
    }
    hide HitAt, ParseVerNum;
  }

  /** Reading a file in one go. */
  lemma OneRead(f: string)
    requires 0 < |f| <= WINDOW
    ensures Legal(f, 0, [|f|, 0])
    ensures FoundAt(f, 0, [|f|, 0]) ==
            var r := Taken(f, 0, |f|, 0, false); if r != -1 then r else Taken(f, LastBase(f), |f|, 0, true)
  {
    hide Taken;
    assert [|f|, 0][1..] == [0];
    assert Legal(f, |f|, [0]);
  }

  lemma DistantFile(f: string)
    requires f == TARGET + Blanks(200) + "\"1\""
    ensures |f| == 218 && HitAt(f, 0) && ValueAt(f, 0) == "1" && ValueLength(f[15..]) == 203
    ensures f[15] != 'T' && forall q: nat :: 15 <= q && q + 15 <= 218 ==> f[q] != '"'
  {
    assert f[0..15] == TARGET && f[15..] == Blanks(200) + "\"1\"";
    hide ParseVerNum, ValueLength;
    PaddedValue(f[15..], 200);
  }

  /** A value behind 200 blanks is found when the file is read in one go, and not by all reads. */
  lemma DistantValueLost(f: string)
    requires f == TARGET + Blanks(200) + "\"1\""
    ensures !AllReadsAgree(f) && Legal(f, 0, [218, 0]) && Finds(f, [218, 0])
  {
    DistantFile(f);
    OnlyHit(f, 0);
    hide HitAt, ValueAt, ValueLength, AllReadsAgree, Legal, Taken, FoundAt, Shown, Finds;
    assert FirstHit(f, 0) && Unrepeated(f, 0) && !Fits(f, 0);
    LastIsShown(f, 0);
    hide FirstHit, Unrepeated, Fits;
    ValuesExact(f, 0);
    OneRead(f);
    var k := TakenStep(f, 0, 218, 0, false);
    NotPassed(f, 0, 218, k, 0);
    FindsByPlace(f, [218, 0], 0);
  }

  lemma SharedQuoteFile(f: string)
    requires f == "\"TargetBuildID\"TargetBuildID\"\"1\""
    ensures |f| == 32 && HitAt(f, 0) && ValueAt(f, 0) == "" && HitAt(f, 14)
    ensures f[29] != 'T' && f[29..] == Blanks(0) + "\"1\""
  {
    hide DigitsEnd;
    assert f[0..15] == TARGET && f[14..29] == TARGET;
    assert f[15..][0] == 'T';
  }

  lemma SecondHitFirst(f: string)
    requires |f| == 32 && HitAt(f, 0) && ValueAt(f, 0) == "" && HitAt(f, 14) && f[29] != 'T' && ValueAt(f, 14) != ""
    ensures FirstHit(f, 14) && Unrepeated(f, 14)
  {
    hide ParseVerNum, HitAt, ValueAt;
    NoValueInside(f, 0);
    OnlyHit(f, 14);
  }

  /** Two markers that share a quotation mark: no way of reading this file finds its only value. */
  lemma SharedQuoteMissed(f: string, chops: seq<nat>)
    requires f == "\"TargetBuildID\"TargetBuildID\"\"1\"" && Legal(f, 0, chops)
    ensures !Finds(f, chops)
  {
    hide ParseVerNum, ValueLength, FirstHit, Unrepeated, Legal, Finds, FoundAt;
    SharedQuoteFile(f);
    PaddedValue(f[29..], 0);
    assert ValueAt(f, 14) == "1";
    hide ValueAt, HitAt;
    SecondHitFirst(f);
    assert Chain(f, 14, 0) == 1;
    NearEndExact(f, chops, 14);
    FindsByPlace(f, chops, 14);
  }

  // ---- a manifest as it is written ----

  predicate AllBlank(s: string) {
    forall k :: 0 <= k < |s| ==> s[k] in " \t"
  }

  lemma {:induction false} BlankPrefixSkipped(s: string, blanks: string, i: nat)
    requires AllBlank(blanks) && blanks <= s && i <= |blanks| && (|blanks| < |s| ==> s[|blanks|] !in " \t")
    ensures SkipTabs(s, i) == |blanks|
    decreases |blanks| - i
  {
    if i < |blanks| {
      assert s[i] == blanks[i];
      BlankPrefixSkipped(s, blanks, i + 1);
    }
  }

  /** A number in quotation marks behind blanks is read as it is written. */
  lemma QuotedNumberRead(blanks: string, digits: string, post: string)
    requires AllBlank(blanks) && digits != "" && Digits(digits)
    ensures var s := blanks + ("\"" + (digits + ("\"" + post)));
            ParseVerNum(s) == digits && ValueLength(s) == |blanks| + |digits| + 2
  {
    var s := blanks + ("\"" + (digits + ("\"" + post)));
    var q := |blanks|;
    var e := q + 1 + |digits|;
    assert s[q] == '"' && s[q + 1..e] == digits && s[e] == '"';
    hide ParseVerNum, ValueLength, SkipTabs, DigitsEnd;
    BlankPrefixSkipped(s, blanks, 0);
    DigitsEndUnique(s, q + 1, e);
    ParseShape(s, q, e);
  }

  /** And nothing else is read as a number. */
  lemma OnlyQuotedNumbers(s: string) returns (q: nat)
    requires ParseVerNum(s) != ""
    ensures var v := ParseVerNum(s); var e := q + 1 + |v|;
            && e < |s| && AllBlank(s[..q]) && s[q] == '"' == s[e] && s[q + 1..e] == v && Digits(v)
  {
    q := SkipTabs(s, 0);
  }

  /** A manifest with one build ID, written behind its name. */
  function Manifest(pre: string, blanks: string, digits: string, post: string): string {
    pre + ("\"TargetBuildID\"" + (blanks + ("\"" + (digits + ("\"" + post)))))
  }

  /** However it is read, its build ID is found, if it stands near its name or near the end of the file. */
  lemma ManifestRead(pre: string, blanks: string, digits: string, post: string, chops: seq<nat>)
    requires AllBlank(blanks) && digits != "" && Digits(digits)
    requires |blanks| + |digits| <= 112 || |blanks| + |digits| + |post| <= 111
    requires forall q: nat :: q < |pre| ==> !HitAt(Manifest(pre, blanks, digits, post), q)
    requires Legal(Manifest(pre, blanks, digits, post), 0, chops)
    ensures Windowed(Manifest(pre, blanks, digits, post), 0, chops) == digits
  {
    var f := Manifest(pre, blanks, digits, post);
    var p := |pre|;
    ManifestHit(pre, blanks, digits, post);
    QuotedNumberRead(blanks, digits, post);
    hide ParseVerNum, ValueLength, HitAt, Manifest, SkipTabs, Windowed, Legal;
    NothingBefore(f, p);
    hide ValueAt;
    FreeAmongNone(f, p);
    AgreementExact(f, p);
    ChainIsNone(f, p);
    FindsByPlace(f, chops, p);
    HasValue(f, p);
  }

  lemma ManifestHit(pre: string, blanks: string, digits: string, post: string)
    ensures var f := Manifest(pre, blanks, digits, post);
            && HitAt(f, |pre|) && f[|pre| + 15..] == blanks + ("\"" + (digits + ("\"" + post)))
            && |f| == |pre| + 15 + |blanks| + |digits| + 2 + |post|
  {
    var f := Manifest(pre, blanks, digits, post);
    var rest := blanks + ("\"" + (digits + ("\"" + post)));
    assert f[|pre|..] == TARGET + rest;
    assert f[|pre|..|pre| + 15] == f[|pre|..][..15] == TARGET;
    assert f[|pre| + 15..] == f[|pre|..][15..] == rest;
  }

  lemma NothingBefore(f: string, p: nat)
    requires (forall q: nat :: q < p ==> !HitAt(f, q)) && ValueAt(f, p) != ""
    ensures FirstHit(f, p)
  {
    hide HitAt, ParseVerNum;
  }

  lemma FreeAmongNone(f: string, p: nat)
    requires forall q: nat :: q < p ==> !HitAt(f, q)
    ensures Free(f, p)
  {
    hide HitAt;
  }

  lemma ChainIsNone(f: string, p: nat)
    requires forall q: nat :: q < p ==> !HitAt(f, q)
    ensures !Shadowed(f, p)
  {
    hide HitAt;
    FreeAmongNone(f, p);
    assert Chain(f, p, LastBase(f)) == 0;
  }
}
