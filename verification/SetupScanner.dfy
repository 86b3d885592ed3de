/** The scanner of dedicated_server_mods_setup.lua and the renderer whose output it reads back. */
module SetupScanner {
  import opened Decimal
  import opened LineText
  import opened LuaText

  const CALL_DQ := "ServerModSetup(\""
  const CALL_SQ := "ServerModSetup('"
  const CLOSE := "\")\n"

  /** Where the lexer stands when the text is used up. */
  datatype Mode = Code | InComment | InString(quote: char)

  /** One turn of the scanner's outer loop: the next cursor, the IDs reported, and the mode in which
      the turn ended if it used up the text inside a comment or a string. */
  datatype Turn = Turn(next: nat, ids: seq<uint64>, mode: Mode)

  /** The position just behind a marker that announces an ID at i, or i when there is none. */
  function AfterMarker(t: string, i: nat): (j: nat)
    requires i <= |t|
    ensures j == i || i < j <= |t|
    ensures i < |t| && t[i] != 'S' && t[i] != 'w' ==> j == i
  {
    assert CALL_DQ[0] == 'S' && CALL_SQ[0] == 'S' && WORKSHOP[0] == 'w';
    assert At(t, i, CALL_DQ) ==> t[i..i + 16][0] == 'S';
    assert At(t, i, CALL_SQ) ==> t[i..i + 16][0] == 'S';
    assert At(t, i, WORKSHOP) ==> t[i..i + 9][0] == 'w';
    if At(t, i, CALL_DQ) || At(t, i, CALL_SQ) then i + 16
    else if At(t, i, WORKSHOP) then i + 9
    else i
  }

  predicate IsCloser(c: char) {
    IsQuote(c) || c == ')'
  }

  function SkipClosers(t: string, i: nat): (j: nat)
    requires i <= |t|
    ensures i <= j <= |t|
    decreases |t| - i
  {
    if i < |t| && IsCloser(t[i]) then SkipClosers(t, i + 1) else i
  }

  function IdsOf(digits: string): seq<uint64>
    requires Digits(digits)
  {
    if digits == "" then [] else [Wrapped(digits)]
  }

  function TurnAt(t: string, i: nat): (r: Turn)
    requires i < |t|
    ensures i < r.next
    ensures r.mode.Code? ==> r.next <= |t|
    ensures !r.mode.Code? ==> r.next >= |t| && r.ids == []
  {
    if CommentAt(t, i) then
      var j := LineEnd(t, i + 2);
      Turn(j, [], if j < |t| then Code else InComment)
    else if IsQuote(t[i]) then
      var s := StringEnd(t, i + 1, t[i]);
      Turn(s.next, [], if s.closed then Code else InString(t[i]))
    else
      var j := AfterMarker(t, i);
      if j == i then Turn(i + 1, [], Code)
      else
        var e := DigitsEnd(t, j);
        Turn(SkipClosers(t, e), IdsOf(t[j..e]), Code)
  }

  /** All IDs reported from i on, in order, repetitions included. */
  function Scan(t: string, i: nat): seq<uint64>
    decreases |t| - i
  {
    if i >= |t| then [] else TurnAt(t, i).ids + Scan(t, TurnAt(t, i).next)
  }

  /** The mode in which scanning from i reaches the end of the text. */
  function EndMode(t: string, i: nat): Mode
    decreases |t| - i
  {
    if i >= |t| then Code
    else if TurnAt(t, i).mode != Code then TurnAt(t, i).mode
    else EndMode(t, TurnAt(t, i).next)
  }

  /** The declarations appended for a list of missing IDs. */
  function Render(ids: seq<uint64>): string {
    if ids == [] then "" else CALL_DQ + Print(ids[0]) + CLOSE + Render(ids[1..])
  }

  // ---- single turns ----

  /** A turn outside comments and strings. */
  lemma MarkerTurn(t: string, i: nat)
    requires i < |t| && !CommentAt(t, i) && !IsQuote(t[i])
    ensures var j := AfterMarker(t, i);
            var e := DigitsEnd(t, j);
            && (j == i ==> TurnAt(t, i).next == i + 1 && TurnAt(t, i).ids == [])
            && (j > i ==> TurnAt(t, i).next == SkipClosers(t, e)
                          && TurnAt(t, i).ids == if e > j then [Wrapped(t[j..e])] else [])
  {
    hide AfterMarker, Wrapped, Value;
  }

  lemma PlainTurn(t: string, i: nat)
    requires i < |t| && t[i] != '-' && !IsQuote(t[i]) && t[i] != 'S' && t[i] != 'w'
    ensures TurnAt(t, i) == Turn(i + 1, [], Code) && Scan(t, i) == Scan(t, i + 1)
  {
  }

  lemma QuoteTurn(t: string, i: nat)
    requires i < |t| && IsQuote(t[i])
    ensures TurnAt(t, i).ids == [] && TurnAt(t, i).next == StringEnd(t, i + 1, t[i]).next
    ensures Scan(t, i) == Scan(t, StringEnd(t, i + 1, t[i]).next)
  {
    hide StringEnd;
  }

  // ---- the renderer is undone by the scanner ----

  /** A declaration of id at i, as the renderer writes it. */
  predicate CallAt(t: string, i: nat, id: uint64) {
    && At(t, i, CALL_DQ)
    && At(t, i + 16, Print(id))
    && At(t, i + 16 + |Print(id)|, CLOSE)
  }

  /** The text behind a declaration of id at i. */
  function AfterCall(i: nat, id: uint64): nat {
    i + 16 + |Print(id)| + 3
  }

  lemma CallsAt(t: string, i: nat, ids: seq<uint64>)
    requires ids != [] && At(t, i, Render(ids))
    ensures CallAt(t, i, ids[0]) && At(t, AfterCall(i, ids[0]), Render(ids[1..]))
    ensures |Render(ids)| == AfterCall(0, ids[0]) + |Render(ids[1..])|
  {
    var d, rest := Print(ids[0]), Render(ids[1..]);
    assert Render(ids) == CALL_DQ + d + CLOSE + rest;
    hide At, Print, Render;
    AtConcat(t, i, CALL_DQ + d + CLOSE, rest);
    AtConcat(t, i, CALL_DQ + d, CLOSE);
    AtConcat(t, i, CALL_DQ, d);
  }

  /** The bytes of a declaration that are not its number. */
  lemma CallBytes(t: string, i: nat, id: uint64)
    requires CallAt(t, i, id)
    ensures AfterCall(i, id) <= |t| && t[i] == 'S'
    ensures var j := i + 16 + |Print(id)|; t[j] == '"' && t[j + 1] == ')' && t[j + 2] == '\n'
  {
    var j := i + 16 + |Print(id)|;
    AtChar(t, i, CALL_DQ, 0);
    AtChar(t, j, CLOSE, 0);
    AtChar(t, j, CLOSE, 1);
    AtChar(t, j, CLOSE, 2);
  }

  lemma NumberBytes(t: string, i: nat, id: uint64)
    requires CallAt(t, i, id)
    ensures forall m :: i + 16 <= m < i + 16 + |Print(id)| ==> m < |t| && IsDigit(t[m])
  {
    forall m | i + 16 <= m < i + 16 + |Print(id)| ensures m < |t| && IsDigit(t[m]) {
      AtChar(t, i + 16, Print(id), m - i - 16);
    }
  }

  lemma CallTurn(t: string, i: nat, id: uint64)
    requires CallAt(t, i, id)
    ensures i < |t| && TurnAt(t, i) == Turn(AfterCall(i, id) - 1, [id], Code)
  {
    var d := Print(id);
    var j := i + 16 + |d|;
    CallBytes(t, i, id);
    DigitsEndUnique(t, i + 16, j);
    WrappedPrint(id);
    assert SkipClosers(t, j) == SkipClosers(t, j + 1) == SkipClosers(t, j + 2) == j + 2;
  }

  lemma ScanCall(t: string, i: nat, id: uint64)
    requires CallAt(t, i, id)
    ensures Scan(t, i) == [id] + Scan(t, AfterCall(i, id))
  {
    hide TurnAt, CallAt;
    CallBytes(t, i, id);
    CallTurn(t, i, id);
    var j := AfterCall(i, id) - 1;
    assert Scan(t, i) == [id] + Scan(t, j);
    PlainTurn(t, j);
  }

  /** Scanning appended declarations yields exactly the IDs they declare, wherever they stand. */
  lemma {:induction false} ScanRendered(t: string, i: nat, ids: seq<uint64>)
    requires At(t, i, Render(ids)) && i + |Render(ids)| == |t|
    ensures Scan(t, i) == ids
    decreases |ids|
  {
    if ids != [] {
      CallsAt(t, i, ids);
      ScanCall(t, i, ids[0]);
      ScanRendered(t, AfterCall(i, ids[0]), ids[1..]);
    }
  }

  /** ParseSetup undoes the renderer on every list of uint64 IDs. */
  lemma RenderRoundTrip(ids: seq<uint64>)
    ensures Scan(Render(ids), 0) == ids
  {
    ScanRendered(Render(ids), 0, ids);
  }

  // ---- appending declarations to a text whose scan ends in code ----

  /** p can be what the renderer appends: empty, or a declaration call. */
  predicate Appendable(p: string) {
    p == "" || At(p, 0, CALL_DQ)
  }

  lemma AppendableStart(s: string, p: string)
    requires Appendable(p) && p != ""
    ensures |s + p| >= |s| + 16 && (s + p)[|s|] == 'S' && (s + p)[|s| + 2] == 'r'
  {
    AtChar(p, 0, CALL_DQ, 0);
    AtChar(p, 0, CALL_DQ, 2);
  }

  /** No marker has a border that a declaration could complete. */
  lemma NoBorder(m: string, k: nat)
    requires m == CALL_DQ || m == CALL_SQ || m == WORKSHOP
    requires 0 < k < |m|
    ensures m[k] == 'S' ==> k + 2 < |m| && m[k + 2] != 'r'
  {
  }

  /** No marker straddles the seam: one that starts inside s is either inside s or nowhere. */
  lemma MarkerSeam(s: string, p: string, i: nat, m: string)
    requires i < |s| && Appendable(p)
    requires m == CALL_DQ || m == CALL_SQ || m == WORKSHOP
    ensures At(s + p, i, m) <==> At(s, i, m)
  {
    if i + |m| <= |s| {
      AtPrefix(s, p, i, m);
    } else {
      if p != "" {
        var k := |s| - i;
        NoBorder(m, k);
        AppendableStart(s, p);
        MarkerDiffers(s + p, i, m, k);
      }
    }
  }

  lemma MarkerDiffers(t: string, i: nat, m: string, k: nat)
    requires k < |m| && i + k + 2 < |t|
    requires t[i + k] == 'S' && t[i + k + 2] == 'r'
    requires m[k] == 'S' ==> k + 2 < |m| && m[k + 2] != 'r'
    ensures !At(t, i, m)
  {
    if At(t, i, m) {
      AtChar(t, i, m, k);
      AtChar(t, i, m, k + 2);
    }
  }

  lemma NoStraddle(s: string, p: string, i: nat)
    requires i < |s| && Appendable(p)
    ensures AfterMarker(s + p, i) == AfterMarker(s, i)
  {
    MarkerSeam(s, p, i, CALL_DQ);
    MarkerSeam(s, p, i, CALL_SQ);
    MarkerSeam(s, p, i, WORKSHOP);
  }

  lemma {:induction false} DigitsEndSeam(s: string, p: string, i: nat)
    requires i <= |s| && Appendable(p)
    ensures DigitsEnd(s + p, i) == DigitsEnd(s, i)
    decreases |s| - i
  {
    if i < |s| {
      assert (s + p)[i] == s[i];
      if IsDigit(s[i]) {
        DigitsEndSeam(s, p, i + 1);
      }
    } else if p != "" {
      AppendableStart(s, p);
    }
  }

  lemma {:induction false} SkipClosersSeam(s: string, p: string, i: nat)
    requires i <= |s| && Appendable(p)
    ensures SkipClosers(s + p, i) == SkipClosers(s, i)
    decreases |s| - i
  {
    if i < |s| {
      assert (s + p)[i] == s[i];
      if IsCloser(s[i]) {
        SkipClosersSeam(s, p, i + 1);
      }
    } else if p != "" {
      AppendableStart(s, p);
    }
  }

  lemma CommentSeam(s: string, p: string, i: nat)
    requires i < |s| && Appendable(p)
    ensures CommentAt(s + p, i) <==> CommentAt(s, i)
  {
    if i + 1 == |s| && p != "" {
      AppendableStart(s, p);
    }
  }

  /** A turn that ends in code is the same turn after the append. */
  lemma TurnSeam(s: string, p: string, i: nat)
    requires i < |s| && Appendable(p) && TurnAt(s, i).mode == Code
    ensures TurnAt(s + p, i) == TurnAt(s, i)
  {
    var t := s + p;
    assert t[i] == s[i];
    CommentSeam(s, p, i);
    NoStraddle(s, p, i);
    if CommentAt(s, i) {
      LineEndPrefix(s, p, i + 2);
    } else if IsQuote(s[i]) {
      StringEndPrefix(s, p, i + 1, s[i]);
    } else {
      var j := AfterMarker(s, i);
      if j != i {
        DigitsEndSeam(s, p, j);
        SkipClosersSeam(s, p, DigitsEnd(s, j));
        assert t[j..DigitsEnd(s, j)] == s[j..DigitsEnd(s, j)];
      }
    }
  }

  /** A text that ends in code keeps its IDs, and what is appended is scanned from its own start. */
  lemma {:induction false} ScanSeam(s: string, p: string, i: nat)
    requires i <= |s| && Appendable(p) && EndMode(s, i) == Code
    ensures Scan(s + p, i) == Scan(s, i) + Scan(s + p, |s|)
    decreases |s| - i
  {
    hide TurnAt, Appendable;
    if i < |s| {
      TurnSeam(s, p, i);
      ScanSeam(s, p, TurnAt(s, i).next);
    }
  }

  // ---- appending declarations to a text whose scan ends in a comment or a string ----

  /** Where the last turn of an unfinished scan started. */
  function LastTurn(t: string, i: nat): (k: nat)
    requires EndMode(t, i) != Code
    ensures i <= k < |t| && TurnAt(t, k).mode == EndMode(t, i)
    decreases |t| - i
  {
    if TurnAt(t, i).mode != Code then i else LastTurn(t, TurnAt(t, i).next)
  }

  lemma {:induction false} ScanUpToLastTurn(s: string, p: string, i: nat)
    requires Appendable(p) && EndMode(s, i) != Code
    ensures Scan(s + p, i) == Scan(s, i) + Scan(s + p, LastTurn(s, i))
    decreases |s| - i
  {
    hide TurnAt, Appendable;
    if TurnAt(s, i).mode == Code {
      TurnSeam(s, p, i);
      ScanUpToLastTurn(s, p, TurnAt(s, i).next);
    } else {
      assert Scan(s, i) == [];
    }
  }

  /** A double-quoted string that runs into the declarations swallows all of them: every quote that
      should open an ID closes a string instead. k bytes of the first call have been passed already. */
  lemma {:induction false} StringSwallows(t: string, i: nat, k: nat, ids: seq<uint64>)
    requires ids != [] && k <= 14 && At(t, i, Render(ids)) && i + |Render(ids)| == |t|
    ensures StringEnd(t, i + k, '"').closed
    ensures Scan(t, StringEnd(t, i + k, '"').next) == []
    decreases |ids|
  {
    hide Scan, TurnAt, Render, StringEnd, CallAt, Print;
    var id := ids[0];
    var j := i + 16 + |Print(id)|;
    CallsAt(t, i, ids);
    CallStart(t, i, id);
    OpenCall(t, i, k);
    NumberBytes(t, i, id);
    CallBytes(t, i, id);
    ScanDigits(t, i + 16, j);
    QuoteTurn(t, j);
    CloseTail(t, j + 1);
    if ids[1..] != [] {
      StringSwallows(t, j + 3, 0, ids[1..]);
    } else {
      NothingLeft(t, j + 3, ids[1..], '"');
    }
  }

  lemma PastTheEnd(t: string, i: nat)
    ensures i >= |t| ==> Scan(t, i) == []
  {
  }

  lemma NothingLeft(t: string, i: nat, ids: seq<uint64>, quote: char)
    requires ids == [] && i + |Render(ids)| == |t|
    ensures StringEnd(t, i, quote).next == |t| && Scan(t, |t|) == []
  {
  }

  lemma CloseTail(t: string, j: nat)
    requires j + 2 <= |t| && t[j] == ')' && t[j + 1] == '\n'
    ensures StringEnd(t, j, '"') == StringEnd(t, j + 2, '"')
  {
    assert StringEnd(t, j + 1, '"') == StringEnd(t, j + 2, '"');
  }

  /** Inside a call, the next double quote is the one behind the parenthesis. */
  lemma {:induction false} OpenCall(t: string, i: nat, k: nat)
    requires k <= 15 && At(t, i, CALL_DQ)
    ensures StringEnd(t, i + k, '"') == StringTail(i + 16, true)
    decreases 15 - k
  {
    AtChar(t, i, CALL_DQ, k);
    if k < 15 {
      OpenCall(t, i, k + 1);
    }
  }

  /** Digits outside a marker report nothing. */
  lemma {:induction false} ScanDigits(t: string, i: nat, j: nat)
    requires i <= j <= |t| && forall m :: i <= m < j ==> IsDigit(t[m])
    ensures Scan(t, i) == Scan(t, j)
    decreases j - i
  {
    hide TurnAt;
    if i < j {
      PlainTurn(t, i);
      ScanDigits(t, i + 1, j);
    }
  }

  /** A single-quoted string swallows the declarations whole. */
  lemma {:induction false} SingleQuoteSwallows(t: string, i: nat, e: nat, ids: seq<uint64>)
    requires At(t, i, Render(ids)) && i + |Render(ids)| == |t| && i <= e
    ensures !StringEnd(t, e, '\'').closed
    decreases |t| - e
  {
    if e < |t| {
      RenderAlphabet(ids);
      AtChar(t, i, Render(ids), e - i);
      SingleQuoteSwallows(t, i, e + 1, ids);
    }
  }

  lemma {:induction false} RenderAlphabet(ids: seq<uint64>)
    ensures '\'' !in Render(ids) && '\\' !in Render(ids)
  {
    if ids != [] {
      RenderAlphabet(ids[1..]);
    }
  }

  /** A comment swallows the first declaration, up to its newline, and nothing else. */
  lemma CommentSwallows(t: string, i: nat, ids: seq<uint64>)
    requires ids != [] && At(t, i, Render(ids)) && i + |Render(ids)| == |t|
    ensures LineEnd(t, i) < |t| && Scan(t, LineEnd(t, i)) == ids[1..]
  {
    hide At, Render, Print, Scan, TurnAt, CallAt, LineEnd;
    var id := ids[0];
    var j := i + 16 + |Print(id)|;
    CallsAt(t, i, ids);
    CallBytes(t, i, id);
    NumberBytes(t, i, id);
    CallStart(t, i, id);
    forall m | i <= m < i + 16 ensures t[m] != '\n' {
      AtChar(t, i, CALL_DQ, m - i);
    }
    LineEndIs(t, i, j + 2);
    PlainTurn(t, j + 2);
    ScanRendered(t, j + 3, ids[1..]);
  }

  lemma CallStart(t: string, i: nat, id: uint64)
    requires CallAt(t, i, id)
    ensures At(t, i, CALL_DQ)
  {
  }

  /** What the renderer writes is appendable, and it is found where it was appended. */
  lemma RenderAt(s: string, ids: seq<uint64>)
    ensures Appendable(Render(ids))
    ensures At(s + Render(ids), |s|, Render(ids)) && |s + Render(ids)| == |s| + |Render(ids)|
  {
    var p := Render(ids);
    if ids != [] {
      CallsAt(p, 0, ids);
    }
  }

  lemma CommentTurn(t: string, i: nat)
    requires CommentAt(t, i)
    ensures Scan(t, i) == Scan(t, LineEnd(t, i + 2))
  {
    hide LineEnd;
  }

  /** Declarations appended behind an unfinished comment or string: the first one is always lost. */
  lemma FirstDeclarationLost(s: string, ids: seq<uint64>)
    requires ids != [] && EndMode(s, 0) != Code
    ensures Scan(s + Render(ids), 0) == Scan(s, 0) + (if EndMode(s, 0) == InComment then ids[1..] else [])
  {
    var k := LastTurn(s, 0);
    RenderAt(s, ids);
    ScanUpToLastTurn(s, Render(ids), 0);
    LastTurnLoses(s, ids, k);
  }

  lemma LastTurnLoses(s: string, ids: seq<uint64>, k: nat)
    requires ids != [] && k < |s| && TurnAt(s, k).mode != Code
    ensures Scan(s + Render(ids), k) == if TurnAt(s, k).mode == InComment then ids[1..] else []
  {
    var p := Render(ids);
    var t := s + p;
    hide Scan, StringEnd, LineEnd, Render;
    RenderAt(s, ids);
    CommentSeam(s, p, k);
    if CommentAt(s, k) {
      CommentTurn(t, k);
      LineEndPrefix(s, p, k + 2);
      CommentSwallows(t, |s|, ids);
    } else {
      assert t[k] == s[k];
      QuoteTurn(t, k);
      OpenStringLoses(s, ids, k + 1, s[k]);
    }
  }

  lemma OpenStringLoses(s: string, ids: seq<uint64>, i: nat, q: char)
    requires ids != [] && i <= |s| && !StringEnd(s, i, q).closed && IsQuote(q)
    ensures Scan(s + Render(ids), StringEnd(s + Render(ids), i, q).next) == []
  {
    hide At, Render, Scan, TurnAt, StringEnd;
    var p := Render(ids);
    RenderAt(s, ids);
    StringEndPrefix(s, p, i, q);
    var e := StringEnd(s, i, q).next;
    PastTheEnd(s + p, StringEnd(s + p, e, q).next);
    if q == '"' {
      StringSwallows(s + p, |s|, e - |s|, ids);
    } else {
      SingleQuoteSwallows(s + p, |s|, e, ids);
    }
  }
}
