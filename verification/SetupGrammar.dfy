/** The printed form of a setup file and the proof that the scanner reports exactly its declarations. */
module SetupGrammar {
  import opened Decimal
  import opened LineText
  import opened LuaGrammar
  import opened LuaText
  import opened SetupScanner

  // ---- the grammar ----

  /** What a setup file is made of. A Call declares a mod, and so does a Bare name of a mod outside strings.
      A Word is any other name, keyword or number; Sign is a lone minus; Punct is any other single byte that
      is neither part of a name nor a quote (blanks included); Remark is a line comment. */
  datatype Piece =
    | Call(quote: char, id: uint64)
    | Bare(id: uint64)
    | Word(w: string)
    | Sign
    | Punct(c: char)
    | Remark(text: string)
    | Quoted(quote: char, body: seq<Lit>)

  function PrintPiece(x: Piece): string {
    match x
    case Call(q, id) => "ServerModSetup(" + ([q] + (Print(id) + ([q] + ")")))
    case Bare(id) => "workshop-" + Print(id)
    case Word(w) => w
    case Sign => "-"
    case Punct(c) => [c]
    case Remark(text) => "--" + (text + "\n")
    case Quoted(q, body) => [q] + (PrintLits(body) + [q])
  }

  function PrintPieces(xs: seq<Piece>): string {
    if xs == [] then "" else PrintPiece(xs[0]) + PrintPieces(xs[1..])
  }

  /** The declared mods, in order, repetitions included. */
  function Declarations(xs: seq<Piece>): seq<uint64> {
    if xs == [] then []
    else (if xs[0].Call? || xs[0].Bare? then [xs[0].id] else []) + Declarations(xs[1..])
  }

  // ---- well-formedness ----

  predicate PieceOk(x: Piece) {
    match x
    case Call(q, _) => q in "\"'"
    case Bare(_) => true
    case Word(w) => IsWord(w)
    case Sign => true
    case Punct(c) => !IsVarChar(c) && c !in "\"'-"
    case Remark(text) => '\n' !in text && !OpensLong(text)
    case Quoted(q, body) => q in "\"'" && forall l :: l in body ==> LitOk(l, q)
  }

  predicate EndsWith(w: string, suffix: string) {
    |w| >= |suffix| && w[|w| - |suffix|..] == suffix
  }

  /** Two pieces that stay apart and do not look like the start of a declaration. */
  predicate Apart(x: Piece, y: Piece) {
    && !((x.Word? || x.Bare?) && (y.Word? || y.Bare? || y.Call?))
    && !(x.Sign? && (y.Sign? || y.Remark?))
    && !(x.Word? && EndsWith(x.w, "ServerModSetup") && y == Punct('('))
    && !(x.Word? && EndsWith(x.w, "workshop") && (y.Sign? || y.Remark?))
  }

  /** Behind closing parentheses there is no string. */
  predicate NoStringNext(xs: seq<Piece>) {
    xs != [] ==> !xs[0].Quoted? && (xs[0] == Punct(')') ==> NoStringNext(xs[1..]))
  }

  predicate PiecesOk(xs: seq<Piece>) {
    xs != [] ==>
      && PieceOk(xs[0]) && PiecesOk(xs[1..]) && (|xs| > 1 ==> Apart(xs[0], xs[1]))
      && (xs[0].Call? || xs[0].Bare? ==> NoStringNext(xs[1..]))
  }

  // ---- steps ----

  /** From i on the scan reports ids, and then what it reports from j on. */
  predicate Passes(t: string, i: nat, ids: seq<uint64>, j: nat) {
    Scan(t, i) == ids + Scan(t, j) && EndMode(t, i) == EndMode(t, j)
  }

  lemma TurnPasses(t: string, i: nat, ids: seq<uint64>, j: nat)
    requires i < |t| && TurnAt(t, i) == Turn(j, ids, Code)
    ensures Passes(t, i, ids, j)
  {
    hide TurnAt;
  }

  lemma PassesOn(t: string, i: nat, ids: seq<uint64>, j: nat, k: nat)
    requires Passes(t, i, ids, j) && Passes(t, j, [], k)
    ensures Passes(t, i, ids, k)
  {
    assert [] + Scan(t, k) == Scan(t, k);
  }

  /** A byte that starts nothing. */
  lemma BytePasses(t: string, i: nat)
    requires i < |t| && !CommentAt(t, i) && !IsQuote(t[i]) && AfterMarker(t, i) == i
    ensures Passes(t, i, [], i + 1)
  {
    hide AfterMarker;
    assert TurnAt(t, i) == Turn(i + 1, [], Code);
    TurnPasses(t, i, [], i + 1);
  }

  // ---- pieces that declare nothing ----

  /** No marker starts inside a word, given what may follow the word. */
  lemma NoMarkerInWord(t: string, i: nat, w: string, k: nat)
    requires At(t, i, w) && IsWord(w) && k < |w|
    requires i + |w| < |t| ==>
               && !IsVarChar(t[i + |w|])
               && (EndsWith(w, "ServerModSetup") ==> t[i + |w|] != '(')
               && (EndsWith(w, "workshop") ==> t[i + |w|] != '-')
    ensures i + k < |t| && AfterMarker(t, i + k) == i + k
  {
    AtChar(t, i, w, k);
    NoSuffix(t, i, w, k, CALL_DQ, "ServerModSetup");
    NoSuffix(t, i, w, k, CALL_SQ, "ServerModSetup");
    NoSuffix(t, i, w, k, WORKSHOP, "workshop");
  }

  lemma NoSuffix(t: string, i: nat, w: string, k: nat, marker: string, name: string)
    requires At(t, i, w) && IsWord(w) && k < |w| && IsWord(name) && |name| < |marker| && name == marker[..|name|]
    requires !IsVarChar(marker[|name|])
    requires i + |w| < |t| ==>
               !IsVarChar(t[i + |w|]) && (EndsWith(w, name) ==> t[i + |w|] != marker[|name|])
    ensures !At(t, i + k, marker)
  {
    var left := |w| - k;
    if left > |name| {
      AtChar(t, i, w, k + |name|);
      Mismatch(t, i + k, marker, |name|);
    } else if left < |name| {
      assert marker[left] == name[left];
      Mismatch(t, i + k, marker, left);
    } else if w[k..] == name {
      Mismatch(t, i + k, marker, |name|);
    } else {
      var m :| 0 <= m < left && w[k..][m] != name[m];
      AtChar(t, i, w, k + m);
      assert marker[m] == name[m];
      Mismatch(t, i + k, marker, m);
    }
  }

  lemma Mismatch(t: string, i: nat, p: string, k: nat)
    requires k < |p| && (i + k < |t| ==> t[i + k] != p[k])
    ensures !At(t, i, p)
  {
    if At(t, i, p) {
      AtChar(t, i, p, k);
    }
  }

  lemma {:induction false} WordPasses(t: string, i: nat, w: string, k: nat)
    requires At(t, i, w) && IsWord(w) && k <= |w|
    requires i + |w| < |t| ==>
               && !IsVarChar(t[i + |w|])
               && (EndsWith(w, "ServerModSetup") ==> t[i + |w|] != '(')
               && (EndsWith(w, "workshop") ==> t[i + |w|] != '-')
    ensures Passes(t, i + k, [], i + |w|)
    decreases |w| - k
  {
    hide At, AfterMarker, Passes, EndsWith;
    if k < |w| {
      AtChar(t, i, w, k);
      NoMarkerInWord(t, i, w, k);
      BytePasses(t, i + k);
      WordPasses(t, i, w, k + 1);
      PassesOn(t, i + k, [], i + k + 1, i + |w|);
    } else {
      Stays(t, i + k);
    }
  }

  lemma Stays(t: string, i: nat)
    ensures Passes(t, i, [], i)
  {
    assert [] + Scan(t, i) == Scan(t, i);
  }

  lemma RemarkPasses(t: string, i: nat, text: string)
    requires At(t, i, "--" + (text + "\n")) && '\n' !in text
    ensures Passes(t, i, [], i + |text| + 3)
  {
    hide At, LineEnd, Passes, AfterMarker, StringEnd;
    AtConcat(t, i, "--", text + "\n");
    AtChar(t, i, "--", 0);
    AtChar(t, i, "--", 1);
    RemarkEnd(t, i + 2, text);
    AtChar(t, i + 2, text + "\n", |text|);
    var j := i + 2 + |text|;
    NewlineStarts(t, j);
    assert TurnAt(t, i) == Turn(j, [], Code);
    TurnPasses(t, i, [], j);
    BytePasses(t, j);
    PassesOn(t, i, [], j, j + 1);
  }

  lemma NewlineStarts(t: string, i: nat)
    requires i < |t| && t[i] == '\n'
    ensures AfterMarker(t, i) == i
  {
  }

  lemma QuotedPasses(t: string, i: nat, q: char, body: seq<Lit>)
    requires At(t, i, [q] + (PrintLits(body) + [q])) && q in "\"'" && forall l :: l in body ==> LitOk(l, q)
    ensures Passes(t, i, [], i + |PrintLits(body)| + 2)
  {
    hide At, PrintLits, StringEnd, Passes, AfterMarker, LitOk;
    AtConcat(t, i, [q], PrintLits(body) + [q]);
    AtChar(t, i, [q], 0);
    QuotedEnd(t, i + 1, q, body);
    var j := i + |PrintLits(body)| + 2;
    assert TurnAt(t, i) == Turn(j, [], Code);
    TurnPasses(t, i, [], j);
  }

  // ---- declarations ----

  lemma MarkerFound(t: string, i: nat, q: char)
    requires At(t, i, "ServerModSetup(") && At(t, i + 15, [q]) && q in "\"'"
    ensures i < |t| && t[i] == 'S' && AfterMarker(t, i) == i + 16
  {
    AtConcat(t, i, "ServerModSetup(", [q]);
    AtChar(t, i, "ServerModSetup(", 0);
    assert "ServerModSetup(" + [q] == if q == '"' then CALL_DQ else CALL_SQ;
  }

  lemma BareFound(t: string, i: nat)
    requires At(t, i, "workshop-")
    ensures i < |t| && t[i] == 'w' && AfterMarker(t, i) == i + 9
  {
    AtChar(t, i, "workshop-", 0);
    if At(t, i, CALL_DQ) {
      AtChar(t, i, CALL_DQ, 0);
    }
    if At(t, i, CALL_SQ) {
      AtChar(t, i, CALL_SQ, 0);
    }
  }

  lemma NumberRead(t: string, i: nat, id: uint64)
    requires At(t, i, Print(id)) && (i + |Print(id)| < |t| ==> !IsDigit(t[i + |Print(id)|]))
    ensures var e := i + |Print(id)|;
            e <= |t| && DigitsEnd(t, i) == e && IdsOf(t[i..e]) == [id]
  {
    AtSlice(t, i, Print(id));
    WrappedPrint(id);
    hide At, Print, Wrapped;
    DigitsEndUnique(t, i, i + |Print(id)|);
  }

  /** The turn at a marker: the ID, and then every closer. */
  lemma MarkedPasses(t: string, i: nat, j: nat, id: uint64)
    requires i < |t| && (t[i] == 'S' || t[i] == 'w') && AfterMarker(t, i) == j > i && At(t, j, Print(id))
    requires j + |Print(id)| < |t| ==> !IsDigit(t[j + |Print(id)|])
    ensures var e := j + |Print(id)|; e <= |t| && Passes(t, i, [id], SkipClosers(t, e))
  {
    hide At, AfterMarker, Print, IdsOf, Passes, TurnAt, DigitsEnd, SkipClosers;
    NumberRead(t, j, id);
    var e := j + |Print(id)|;
    MarkedTurn(t, i, j, e);
    TurnPasses(t, i, [id], SkipClosers(t, e));
  }

  lemma MarkedTurn(t: string, i: nat, j: nat, e: nat)
    requires i < |t| && (t[i] == 'S' || t[i] == 'w') && AfterMarker(t, i) == j > i && j <= |t| && DigitsEnd(t, j) == e
    ensures TurnAt(t, i) == Turn(SkipClosers(t, e), IdsOf(t[j..e]), Code)
  {
    hide At, AfterMarker, IdsOf, DigitsEnd, SkipClosers, StringEnd, LineEnd;
  }

  /** Everything closers take behind a declaration are parentheses that declare nothing. */
  lemma {:induction false} ClosersPass(t: string, i: nat, xs: seq<Piece>)
    requires PiecesOk(xs) && NoStringNext(xs) && At(t, i, PrintPieces(xs)) && i + |PrintPieces(xs)| == |t|
    ensures Passes(t, i, [], SkipClosers(t, i))
    decreases |xs|
  {
    hide At, PrintPiece, Passes;
    if xs == [] {
      Stays(t, i);
    } else {
      AtConcat(t, i, PrintPiece(xs[0]), PrintPieces(xs[1..]));
      FirstByte(t, i, xs[0]);
      if xs[0] == Punct(')') {
        ParenPasses(t, i);
        ClosersPass(t, i + 1, xs[1..]);
        PassesOn(t, i, [], i + 1, SkipClosers(t, i));
      } else {
        Stays(t, i);
      }
    }
  }

  lemma ParenPasses(t: string, i: nat)
    requires i < |t| && t[i] == ')'
    ensures Passes(t, i, [], i + 1) && SkipClosers(t, i) == SkipClosers(t, i + 1)
  {
    hide Passes;
    BytePasses(t, i);
  }

  /** How a piece begins. */
  lemma FirstByte(t: string, i: nat, x: Piece)
    requires PieceOk(x) && At(t, i, PrintPiece(x))
    ensures |PrintPiece(x)| > 0 && i < |t|
    ensures x == Punct(')') ==> t[i] == ')' && |PrintPiece(x)| == 1
    ensures x != Punct(')') && !x.Quoted? ==> !IsCloser(t[i])
    ensures !x.Word? && !x.Bare? && !x.Call? ==> !IsVarChar(t[i])
    ensures !x.Sign? && !x.Remark? ==> t[i] != '-'
    ensures x != Punct('(') ==> t[i] != '('
  {
    hide Print, PrintLits;
    assert PrintPiece(x) != "";
    AtChar(t, i, PrintPiece(x), 0);
  }

  lemma CallPasses(t: string, i: nat, x: Piece, xs: seq<Piece>)
    requires x.Call? && PieceOk(x) && PiecesOk(xs) && NoStringNext(xs)
    requires var j := i + |PrintPiece(x)|;
             At(t, i, PrintPiece(x)) && At(t, j, PrintPieces(xs)) && j + |PrintPieces(xs)| == |t|
    ensures Passes(t, i, [x.id], i + |PrintPiece(x)|)
  {
    hide At, Print, PiecesOk, PrintPieces, NoStringNext, AfterMarker, Passes, DigitsEnd;
    var e := i + 16 + |Print(x.id)|;
    CallParts(t, i, x);
    hide PrintPiece, SkipClosers;
    MarkerFound(t, i, x.quote);
    MarkedPasses(t, i, i + 16, x.id);
    ClosersPass(t, e + 2, xs);
    SamePassage(t, i, [x.id], e + 2, SkipClosers(t, e));
  }

  /** Where the parts of a call stand; its closing quotation mark and parenthesis are closers. */
  lemma CallParts(t: string, i: nat, x: Piece)
    requires x.Call? && x.quote in "\"'" && At(t, i, PrintPiece(x))
    ensures var e := i + 16 + |Print(x.id)|;
            && At(t, i, "ServerModSetup(") && At(t, i + 15, [x.quote]) && At(t, i + 16, Print(x.id))
            && |PrintPiece(x)| == e + 2 - i && e + 2 <= |t| && !IsDigit(t[e])
            && SkipClosers(t, e) == SkipClosers(t, e + 2)
  {
    hide At, Print, PrintPiece, SkipClosers, IsCloser;
    var q, d := x.quote, Print(x.id);
    PrintedCall(x);
    CallPartsAt(t, i, q, d);
    QuoteCloses(q);
    TwoClosers(t, i + 16 + |d|);
  }

  lemma PrintedCall(x: Piece)
    requires x.Call?
    ensures PrintPiece(x) == "ServerModSetup(" + ([x.quote] + (Print(x.id) + ([x.quote] + ")")))
    ensures |PrintPiece(x)| == 18 + |Print(x.id)|
  {
    hide Print;
  }

  lemma CallPartsAt(t: string, i: nat, q: char, d: string)
    requires At(t, i, "ServerModSetup(" + ([q] + (d + ([q] + ")"))))
    ensures var e := i + 16 + |d|;
            && At(t, i, "ServerModSetup(") && At(t, i + 15, [q]) && At(t, i + 16, d)
            && e + 2 <= |t| && t[e] == q && t[e + 1] == ')'
  {
    hide At;
    var e := i + 16 + |d|;
    AtConcat(t, i, "ServerModSetup(", [q] + (d + ([q] + ")")));
    AtConcat(t, i + 15, [q], d + ([q] + ")"));
    AtConcat(t, i + 16, d, [q] + ")");
    AtConcat(t, e, [q], ")");
    AtChar(t, e, [q], 0);
    AtChar(t, e + 1, ")", 0);
  }

  lemma QuoteCloses(q: char)
    requires q in "\"'"
    ensures IsCloser(q) && !IsDigit(q) && IsCloser(')')
  {
  }

  lemma TwoClosers(t: string, e: nat)
    requires e + 2 <= |t| && IsCloser(t[e]) && IsCloser(t[e + 1])
    ensures SkipClosers(t, e) == SkipClosers(t, e + 2)
  {
    assert SkipClosers(t, e) == SkipClosers(t, e + 1) == SkipClosers(t, e + 2);
  }

  lemma SamePassage(t: string, i: nat, ids: seq<uint64>, j: nat, k: nat)
    requires Passes(t, i, ids, k) && Passes(t, j, [], k)
    ensures Passes(t, i, ids, j)
  {
    assert [] + Scan(t, k) == Scan(t, k);
  }

  lemma BarePasses(t: string, i: nat, x: Piece, xs: seq<Piece>)
    requires x.Bare? && PiecesOk(xs) && NoStringNext(xs) && (xs != [] ==> Apart(x, xs[0]))
    requires var j := i + |PrintPiece(x)|;
             At(t, i, PrintPiece(x)) && At(t, j, PrintPieces(xs)) && j + |PrintPieces(xs)| == |t|
    ensures Passes(t, i, [x.id], i + |PrintPiece(x)|)
  {
    hide At, Print, PiecesOk, PrintPieces, NoStringNext, AfterMarker, Passes, Apart;
    var e := i + 9 + |Print(x.id)|;
    NextByte(t, e, x, xs);
    AtConcat(t, i, "workshop-", Print(x.id));
    BareFound(t, i);
    MarkedPasses(t, i, i + 9, x.id);
    ClosersPass(t, e, xs);
    SamePassage(t, i, [x.id], e, SkipClosers(t, e));
  }

  /** What follows a name. */
  lemma NextByte(t: string, j: nat, x: Piece, xs: seq<Piece>)
    requires PiecesOk(xs) && (xs != [] ==> Apart(x, xs[0]))
    requires At(t, j, PrintPieces(xs)) && j + |PrintPieces(xs)| == |t|
    ensures j < |t| && (x.Word? || x.Bare?) ==> !IsVarChar(t[j])
    ensures j < |t| && x.Word? && EndsWith(x.w, "ServerModSetup") ==> t[j] != '('
    ensures j < |t| && x.Word? && EndsWith(x.w, "workshop") ==> t[j] != '-'
    ensures j < |t| && x.Sign? ==> t[j] != '-'
  {
    if xs != [] {
      hide EndsWith;
      AtConcat(t, j, PrintPiece(xs[0]), PrintPieces(xs[1..]));
      FirstByte(t, j, xs[0]);
    }
  }

  // ---- the whole file ----

  lemma OtherPasses(t: string, i: nat, x: Piece)
    requires PieceOk(x) && (x.Sign? || x.Punct?) && At(t, i, PrintPiece(x))
    requires x.Sign? && i + 1 < |t| ==> t[i + 1] != '-'
    ensures Passes(t, i, [], i + 1)
  {
    FirstByte(t, i, x);
    AtChar(t, i, PrintPiece(x), 0);
    NoMarkerHere(t, i);
    hide AfterMarker, Passes;
    BytePasses(t, i);
  }

  lemma NoMarkerHere(t: string, i: nat)
    requires i < |t| && !IsVarChar(t[i])
    ensures AfterMarker(t, i) == i
  {
  }

  lemma PiecePasses(t: string, i: nat, x: Piece, xs: seq<Piece>)
    requires PieceOk(x) && PiecesOk(xs) && (xs != [] ==> Apart(x, xs[0])) && (x.Call? || x.Bare? ==> NoStringNext(xs))
    requires var j := i + |PrintPiece(x)|;
             At(t, i, PrintPiece(x)) && At(t, j, PrintPieces(xs)) && j + |PrintPieces(xs)| == |t|
    ensures Passes(t, i, if x.Call? || x.Bare? then [x.id] else [], i + |PrintPiece(x)|)
  {
    hide At, Passes, PiecesOk, PrintPieces, NoStringNext, Apart, AfterMarker, PrintLits, Print, EndsWith;
    NextByte(t, i + |PrintPiece(x)|, x, xs);
    if x.Call? {
      CallPasses(t, i, x, xs);
    } else if x.Bare? {
      BarePasses(t, i, x, xs);
    } else if x.Word? {
      WordPasses(t, i, x.w, 0);
    } else if x.Remark? {
      RemarkPasses(t, i, x.text);
    } else if x.Quoted? {
      QuotedPasses(t, i, x.quote, x.body);
    } else {
      OtherPasses(t, i, x);
    }
  }

  lemma {:induction false} PiecesScanned(t: string, i: nat, xs: seq<Piece>)
    requires PiecesOk(xs) && At(t, i, PrintPieces(xs)) && i + |PrintPieces(xs)| == |t|
    ensures Scan(t, i) == Declarations(xs) && EndMode(t, i) == Code
    decreases |xs|
  {
    hide At, PrintPiece, PieceOk, Apart, Scan, EndMode, NoStringNext;
    if xs == [] {
      EndReached(t, i);
    } else {
      AtConcat(t, i, PrintPiece(xs[0]), PrintPieces(xs[1..]));
      PiecePasses(t, i, xs[0], xs[1..]);
      PiecesScanned(t, i + |PrintPiece(xs[0])|, xs[1..]);
    }
  }

  lemma EndReached(t: string, i: nat)
    requires i == |t|
    ensures Scan(t, i) == [] && EndMode(t, i) == Code
  {
  }

  /** Scanning the printed form of any setup file reports exactly its declarations, in order, and ends in code. */
  lemma SetupScanned(xs: seq<Piece>)
    requires PiecesOk(xs)
    ensures Scan(PrintPieces(xs), 0) == Declarations(xs) && EndMode(PrintPieces(xs), 0) == Code
  {
    AtWhole(PrintPieces(xs));
    PiecesScanned(PrintPieces(xs), 0, xs);
  }

  /** A line for each mod. */
  function CallLines(ids: seq<uint64>): seq<Piece> {
    if ids == [] then [] else [Call('"', ids[0])] + ([Punct('\n')] + CallLines(ids[1..]))
  }

  /** What the renderer appends is the printed form of such lines. */
  lemma {:induction false} RenderIsPrinted(ids: seq<uint64>)
    ensures PrintPieces(CallLines(ids)) == Render(ids)
    ensures PiecesOk(CallLines(ids)) && Declarations(CallLines(ids)) == ids
    decreases |ids|
  {
    if ids != [] {
      var x, rest := Call('"', ids[0]), CallLines(ids[1..]);
      RenderIsPrinted(ids[1..]);
      var line := [Punct('\n')] + rest;
      assert ([x] + line)[1..] == line && line[1..] == rest;
      LinePrinted(ids[0], PrintPieces(rest));
      assert PrintPieces(line) == "\n" + PrintPieces(rest);
      assert PrintPieces([x] + line) == PrintPiece(x) + PrintPieces(line);
      hide PrintPieces;
      assert PiecesOk(line) && NoStringNext(line);
      assert [ids[0]] + ids[1..] == ids && [] + ids[1..] == ids[1..];
    }
  }

  lemma LinePrinted(id: uint64, rest: string)
    ensures PrintPiece(Call('"', id)) + ("\n" + rest) == CALL_DQ + Print(id) + CLOSE + rest
  {
    var d := Print(id);
    hide Print;
    assert CALL_DQ == "ServerModSetup(" + ['"'] && CLOSE == ['"'] + ")" + "\n";
  }
}
