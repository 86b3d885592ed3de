/** The printed form of a mod table and the proof that the scanner recovers exactly its enabled mods. */
module ModTable {
  import opened Decimal
  import opened LineText
  import opened LuaGrammar
  import opened LuaText
  import opened OverrideScanner

  // ---- the grammar ----

  /** Lua material between the parts the scanner reacts to. A Word is a name, keyword or number; Sign
      is a lone minus; Punct is any other single byte that is neither part of a name, a quote nor one side
      of a pair (blanks included); Remark is a line comment; Index is bracketed, as in a key; Nested is a
      brace-enclosed table. */
  datatype Item =
    | Word(w: string)
    | Sign
    | Punct(c: char)
    | Remark(text: string)
    | Quoted(quote: char, body: seq<Lit>)
    | Index(key: seq<Item>)
    | Nested(items: seq<Item>)

  datatype Body =
    | Unflagged(items: seq<Item>)
    | Flagged(before: seq<Item>, gap1: string, gap2: string, value: string, after: seq<Item>)

  datatype Entry = Entry(padL: string, id: uint64, padR: string, gap: seq<Item>, body: Body, rest: seq<Item>)

  datatype Table = Table(head: seq<Item>, lead: seq<Item>, entries: seq<Entry>, tail: seq<Item>)

  // ---- printing ----

  function PrintItem(x: Item): string
    decreases x, 1
  {
    match x
    case Word(w) => w
    case Sign => "-"
    case Punct(c) => [c]
    case Remark(text) => "--" + (text + "\n")
    case Quoted(q, body) => [q] + (PrintLits(body) + [q])
    case Index(key) => "[" + (PrintItems(key) + "]")
    case Nested(items) => "{" + (PrintItems(items) + "}")
  }

  function PrintItems(xs: seq<Item>): string
    decreases xs, 0
  {
    if xs == [] then "" else PrintItem(xs[0]) + PrintItems(xs[1..])
  }

  function PrintBody(b: Body): string {
    match b
    case Unflagged(items) => PrintItems(items)
    case Flagged(before, gap1, gap2, value, after) =>
      PrintItems(before) + ("enabled" + (gap1 + ("=" + (gap2 + (value + PrintItems(after))))))
  }

  function PrintEntry(e: Entry): string {
    "[" + (e.padL + ("workshop-" + (Print(e.id) + (e.padR + ("]" +
      (PrintItems(e.gap) + ("{" + (PrintBody(e.body) + ("}" + PrintItems(e.rest))))))))))
  }

  function PrintEntries(es: seq<Entry>): string {
    if es == [] then "" else PrintEntry(es[0]) + PrintEntries(es[1..])
  }

  function PrintTable(tab: Table): string {
    PrintItems(tab.head) + ("{" + (PrintItems(tab.lead) + (PrintEntries(tab.entries) + ("}" + PrintItems(tab.tail)))))
  }

  // ---- well-formedness ----

  /** Two items that may stand side by side without running together. */
  predicate Apart(x: Item, y: Item) {
    !(x.Word? && y.Word?) && !(x.Sign? && (y.Sign? || y.Remark?))
  }

  /** A bracketed key that is not a mod key, and does not open a long string. */
  predicate OtherKey(key: seq<Item>) {
    && key != [] && !key[0].Index? && key[0] != Punct('=')
    && KeyAt("[" + (PrintItems(key) + "]"), 0) == NoKey
  }

  /** A name in quotation marks that is, or with the help of escapes may be, the flag's. */
  predicate MayNameFlag(x: Item) {
    x.Quoted? && (PrintLits(x.body) == ENABLED || exists l :: l in x.body && l.Escaped?)
  }

  /** x is lexically sound and means nothing to the scanner at this depth. busy says that a mod table is
      being read. Names merely containing the word enabled pass, and so does anything nested deeper. */
  predicate Quiet(x: Item, depth: nat, busy: bool)
    decreases x, 1
  {
    match x
    case Word(w) => IsWord(w) && (depth == 2 && busy ==> w != ENABLED)
    case Sign => true
    case Punct(c) => !IsVarChar(c) && !IsQuote(c) && c !in "{}[]-"
    case Remark(text) => '\n' !in text && !OpensLong(text)
    case Quoted(q, body) => IsQuote(q) && forall l :: l in body ==> LitOk(l, q)
    case Index(key) =>
      && QuietAll(key, depth, busy) && (depth == 1 ==> OtherKey(key))
      && (depth == 2 && busy ==> forall k :: k in key ==> !MayNameFlag(k))
    case Nested(items) => (depth >= 2 || (depth == 1 && !busy)) && QuietAll(items, depth + 1, busy)
  }

  predicate QuietAll(xs: seq<Item>, depth: nat, busy: bool)
    decreases xs, 0
  {
    xs == [] || (Quiet(xs[0], depth, busy) && QuietAll(xs[1..], depth, busy) && (|xs| > 1 ==> Apart(xs[0], xs[1])))
  }

  predicate Blank(s: string) {
    forall k :: 0 <= k < |s| ==> IsSpace(s[k])
  }

  predicate Padding(s: string) {
    forall k :: 0 <= k < |s| ==> IsPad(s[k])
  }

  /** The value before xs is complete: the next field, or nothing, follows. */
  predicate FieldEnds(xs: seq<Item>) {
    xs == [] || xs[0] == Punct(',') || xs[0] == Punct(';')
    || ((xs[0].Remark? || (xs[0].Punct? && IsSpace(xs[0].c))) && FieldEnds(xs[1..]))
  }

  /** At most one enabled field, with a word for its value. */
  predicate BodyOk(b: Body) {
    match b
    case Unflagged(items) => QuietAll(items, 2, true)
    case Flagged(before, gap1, gap2, value, after) =>
      && QuietAll(before, 2, true) && QuietAll(after, 2, true)
      && (before != [] ==> !before[|before| - 1].Word?)
      && FieldEnds(after)
      && Blank(gap1) && Blank(gap2) && IsWord(value) && value != ENABLED
  }

  predicate EntryOk(e: Entry) {
    && e.id != 0 && Padding(e.padL) && Padding(e.padR)
    && QuietAll(e.gap, 1, true) && BodyOk(e.body) && QuietAll(e.rest, 1, false)
  }

  predicate TableOk(tab: Table) {
    && QuietAll(tab.head, 0, false) && QuietAll(tab.lead, 1, false) && QuietAll(tab.tail, 0, false)
    && forall e :: e in tab.entries ==> EntryOk(e)
  }

  // ---- meaning ----

  predicate Disabled(b: Body) {
    b.Flagged? && b.value == "false"
  }

  /** The mods of a table that it does not disable, in order. */
  function EnabledMods(es: seq<Entry>): seq<uint64> {
    if es == [] then []
    else (if Disabled(es[0].body) then [] else [es[0].id]) + EnabledMods(es[1..])
  }

  /** How the scanner reads the flag: any value with the first letter of false disables. */
  predicate Struck(b: Body) {
    b.Flagged? && b.value != "" && (b.value[0] == 'f' || b.value[0] == 'F')
  }

  function KeptMods(es: seq<Entry>): seq<uint64> {
    if es == [] then []
    else (if Struck(es[0].body) then [] else [es[0].id]) + KeptMods(es[1..])
  }

  /** The scanner reads every flag as it is meant. */
  predicate FlagsPlain(es: seq<Entry>) {
    forall e :: e in es ==> (Struck(e.body) <==> Disabled(e.body))
  }

  lemma {:induction false} KeptOrFewer(es: seq<Entry>)
    ensures |KeptMods(es)| <= |EnabledMods(es)|
    ensures FlagsPlain(es) ==> KeptMods(es) == EnabledMods(es)
    ensures !FlagsPlain(es) ==> |KeptMods(es)| < |EnabledMods(es)|
  {
    if es != [] {
      KeptOrFewer(es[1..]);
      assert es == [es[0]] + es[1..];
      assert FlagsPlain(es) <==> FlagsPlain(es[1..]) && (Struck(es[0].body) <==> Disabled(es[0].body));
      assert Disabled(es[0].body) ==> Struck(es[0].body);
    }
  }

  lemma OneItem(x: Item)
    ensures PrintItems([x]) == PrintItem(x)
  {
    var xs := [x];
    assert xs[1..] == [] && PrintItems(xs[1..]) == "";
    assert PrintItems(xs) == PrintItem(xs[0]) + PrintItems(xs[1..]);
  }

  /** Names in quotation marks pass as other keys unless they begin with the marker, */
  lemma OtherName(q: char, body: seq<Lit>)
    requires IsQuote(q) && body != [] && body[0].Plain? && !IsPad(body[0].c) && !At(PrintLits(body), 0, WORKSHOP)
    ensures OtherKey([Quoted(q, body)])
  {
    var p, v := PrintLits(body), PrintItems([Quoted(q, body)]);
    OneItem(Quoted(q, body));
    assert v == [q] + (p + [q]);
    assert p[0] == body[0].c;
    hide PrintItems, PrintLits;
    var u := "[" + (v + "]");
    assert u[1] == q && u[2] == p[0] && u[2..] == p + ([q] + "]");
    NotMarked(u, 2, p, [q] + "]");
    assert SkipPad(u, 1) == SkipPad(u, 2) == 2;
  }

  /** and so do numbers and other words. */
  lemma OtherWord(w: string)
    requires IsWord(w)
    ensures OtherKey([Word(w)])
  {
    var u := "[" + (PrintItems([Word(w)]) + "]");
    OneItem(Word(w));
    assert u == "[" + (w + "]") && u[1] == w[0];
    hide PrintItems;
    if At(w, 0, WORKSHOP) {
      AtChar(w, 0, WORKSHOP, 8);
    }
    NotMarked(u, 1, w, "]");
    assert SkipPad(u, 1) == 1;
  }

  lemma NotMarked(u: string, i: nat, p: string, close: string)
    requires i <= |u| && u[i..] == p + close && close != "" && close[0] !in WORKSHOP
    ensures At(u, i, WORKSHOP) ==> At(p, 0, WORKSHOP)
  {
    if At(u, i, WORKSHOP) {
      if |p| < 9 {
        assert u[i + |p|] == u[i..][|p|] == close[0];
        AtChar(u, i, WORKSHOP, |p|);
      } else {
        assert p[0..9] == u[i..][..9] == u[i..i + 9];
      }
    }
  }

  // ---- single moves ----

  lemma ScanMove(t: string, i: nat, s: State)
    requires i < |t|
    ensures Scan(t, i, s) == Scan(t, MoveAt(t, i, s).next, MoveAt(t, i, s).state)
  {
    hide MoveAt;
  }

  lemma ScanPunct(t: string, i: nat, c: char, s: State)
    requires At(t, i, [c]) && Quiet(Punct(c), if s.depth >= 0 then s.depth else 0, s.id != 0) && s.depth >= 0
    ensures i < |t| && Scan(t, i, s) == Scan(t, i + 1, s)
  {
    AtChar(t, i, [c], 0);
    assert MoveAt(t, i, s) == Move(i + 1, s);
    ScanMove(t, i, s);
  }

  /** A bracketed key is scanned by itself: nothing behind its closing bracket is looked at. */
  lemma {:induction false} PadWithin(t: string, i: nat, u: string, k: nat)
    requires At(t, i, u) && k < |u| && u[|u| - 1] == ']'
    ensures SkipPad(u, k) < |u| && SkipPad(t, i + k) == i + SkipPad(u, k)
    decreases |u| - k
  {
    AtChar(t, i, u, k);
    if IsPad(u[k]) {
      PadWithin(t, i, u, k + 1);
    }
  }

  lemma {:induction false} DigitsWithin(t: string, i: nat, u: string, k: nat)
    requires At(t, i, u) && k < |u| && u[|u| - 1] == ']'
    ensures DigitsEnd(u, k) < |u| && DigitsEnd(t, i + k) == i + DigitsEnd(u, k)
    decreases |u| - k
  {
    AtChar(t, i, u, k);
    if IsDigit(u[k]) {
      DigitsWithin(t, i, u, k + 1);
    }
  }

  lemma MarkerWithin(t: string, i: nat, u: string, k: nat)
    requires At(t, i, u) && k < |u| && u[|u| - 1] == ']' && At(t, i + k, WORKSHOP)
    ensures k + 9 < |u| && At(u, k, WORKSHOP)
  {
    if k + 9 >= |u| {
      AtChar(t, i, u, |u| - 1);
      AtChar(t, i + k, WORKSHOP, |u| - 1 - k);
    } else {
      AtSlice(t, i, u);
      forall j | 0 <= j < 9
        ensures u[k..k + 9][j] == WORKSHOP[j]
      {
        AtChar(t, i, u, k + j);
        AtChar(t, i + k, WORKSHOP, j);
      }
      assert u[k..k + 9] == WORKSHOP;
    }
  }

  lemma NoKeyWithin(t: string, i: nat, u: string)
    requires At(t, i, u) && |u| > 1 && u[|u| - 1] == ']' && KeyAt(u, 0) == NoKey
    ensures i < |t| && KeyAt(t, i) == NoKey
  {
    hide At, SkipPad, DigitsEnd, Wrapped;
    AtChar(t, i, u, 0);
    PadWithin(t, i, u, 1);
    var j := SkipPad(u, 1);
    if At(t, i + j, WORKSHOP) {
      MarkerWithin(t, i, u, j);
      DigitsWithin(t, i, u, j + 9);
      var e := DigitsEnd(u, j + 9);
      PadWithin(t, i, u, e);
      AtChar(t, i, u, SkipPad(u, e));
    }
  }

  lemma ScanBracket(t: string, i: nat, s: State)
    ensures At(t, i, "[") && (s.depth == 1 && i < |t| ==> KeyAt(t, i) == NoKey) ==>
              i < |t| && Scan(t, i, s) == Scan(t, i + 1, s)
    ensures At(t, i, "]") ==> i < |t| && Scan(t, i, s) == Scan(t, i + 1, s)
  {
    hide KeyAt, FlagAt;
    if At(t, i, "[") {
      AtChar(t, i, "[", 0);
      ScanMove(t, i, s);
    }
    if At(t, i, "]") {
      AtChar(t, i, "]", 0);
      ScanMove(t, i, s);
    }
  }

  lemma ScanSign(t: string, i: nat, s: State)
    requires At(t, i, "-") && (i + 1 < |t| ==> t[i + 1] != '-')
    ensures i < |t| && Scan(t, i, s) == Scan(t, i + 1, s)
  {
    AtChar(t, i, "-", 0);
    assert MoveAt(t, i, s) == Move(i + 1, s);
    ScanMove(t, i, s);
  }

  lemma ScanBrace(t: string, i: nat, s: State)
    ensures At(t, i, "{") ==> i < |t| && Scan(t, i, s) == Scan(t, i + 1, s.(depth := s.depth + 1))
    ensures At(t, i, "}") ==> i < |t| && Scan(t, i, s) == Scan(t, i + 1, Close(s))
  {
    if At(t, i, "{") {
      AtChar(t, i, "{", 0);
      ScanMove(t, i, s);
    }
    if At(t, i, "}") {
      AtChar(t, i, "}", 0);
      ScanMove(t, i, s);
    }
  }

  lemma ScanRemark(t: string, i: nat, text: string, s: State)
    requires At(t, i, "--" + (text + "\n")) && '\n' !in text
    ensures Scan(t, i, s) == Scan(t, i + |text| + 3, s)
  {
    AtConcat(t, i, "--", text + "\n");
    AtChar(t, i, "--", 0);
    AtChar(t, i, "--", 1);
    RemarkEnd(t, i + 2, text);
    AtChar(t, i + 2, text + "\n", |text|);
    var j := i + 2 + |text|;
    hide At, LineEnd, StringEnd, KeyAt, FlagAt, Scan;
    assert MoveAt(t, i, s) == Move(j, s);
    assert MoveAt(t, j, s) == Move(j + 1, s);
    ScanMove(t, i, s);
    ScanMove(t, j, s);
  }

  lemma ScanQuoted(t: string, i: nat, q: char, body: seq<Lit>, s: State)
    requires At(t, i, [q] + (PrintLits(body) + [q])) && IsQuote(q) && forall l :: l in body ==> LitOk(l, q)
    ensures Scan(t, i, s) == Scan(t, i + |PrintLits(body)| + 2, s)
  {
    AtConcat(t, i, [q], PrintLits(body) + [q]);
    AtChar(t, i, [q], 0);
    QuotedEnd(t, i + 1, q, body);
    hide At, PrintLits, StringEnd, KeyAt, FlagAt, Scan;
    assert MoveAt(t, i, s) == Move(i + |PrintLits(body)| + 2, s);
    ScanMove(t, i, s);
  }

  /** Nothing inside a word is taken for a flag, unless the word is exactly the flag's name. */
  lemma {:induction false} ScanWord(t: string, i: nat, w: string, k: nat, s: State)
    requires At(t, i, w) && IsWord(w) && k <= |w|
    requires i == 0 || !IsVarChar(t[i - 1])
    requires i + |w| < |t| ==> !IsVarChar(t[i + |w|])
    requires s.depth == 2 && s.id != 0 ==> w != ENABLED
    ensures Scan(t, i + k, s) == Scan(t, i + |w|, s)
    decreases |w| - k
  {
    hide At, Scan, MoveAt;
    if k < |w| {
      WordMove(t, i, w, k, s);
      ScanMove(t, i + k, s);
      ScanWord(t, i, w, k + 1, s);
    }
  }

  lemma WordMove(t: string, i: nat, w: string, k: nat, s: State)
    requires At(t, i, w) && IsWord(w) && k < |w|
    requires i + |w| < |t| ==> !IsVarChar(t[i + |w|])
    requires s.depth == 2 && s.id != 0 ==> w != ENABLED
    ensures i + k < |t| && MoveAt(t, i + k, s) == Move(i + k + 1, s)
  {
    hide At, FlagAt, KeyAt;
    AtChar(t, i, w, k);
    if s.depth == 2 && s.id != 0 {
      WordIsNoFlag(t, i, w, k);
    }
  }

  lemma WordIsNoFlag(t: string, i: nat, w: string, k: nat)
    requires At(t, i, w) && IsWord(w) && k < |w|
    requires i + |w| < |t| ==> !IsVarChar(t[i + |w|])
    requires w != ENABLED
    ensures i + k < |t| && FlagAt(t, i + k) == NoFlag
  {
    AtChar(t, i, w, k);
    if k > 0 {
      AtChar(t, i, w, k - 1);
    } else if At(t, i, ENABLED) {
      if |w| < 7 {
        AtChar(t, i, ENABLED, |w|);
      } else if |w| > 7 {
        AtChar(t, i, w, 7);
      }
    }
  }

  // ---- quiet material is skipped ----

  lemma NoItems()
    ensures PrintItems([]) == ""
  {
  }

  /** What surrounds items printed from i to j cannot run together with them. */
  predicate Fenced(t: string, i: nat, j: nat, xs: seq<Item>) {
    xs != [] ==>
      && (xs[0].Word? ==> i == 0 || (i <= |t| && !IsVarChar(t[i - 1])))
      && (j < |t| ==> (xs[|xs| - 1].Word? ==> !IsVarChar(t[j])) && (xs[|xs| - 1].Sign? ==> t[j] != '-'))
  }

  lemma FirstByte(t: string, i: nat, x: Item, depth: nat, busy: bool)
    requires At(t, i, PrintItem(x)) && Quiet(x, depth, busy)
    ensures PrintItem(x) != "" && i < |t|
    ensures !x.Word? ==> !IsVarChar(t[i])
    ensures !x.Sign? && !x.Remark? ==> t[i] != '-'
    ensures !x.Word? ==> !IsVarChar(t[i + |PrintItem(x)| - 1])
  {
    var p := PrintItem(x);
    assert p != "";
    AtChar(t, i, p, 0);
    AtChar(t, i, p, |p| - 1);
  }

  lemma {:induction false} ScanItem(t: string, i: nat, x: Item, s: State)
    requires s.depth >= 0 && Quiet(x, s.depth, s.id != 0)
    requires At(t, i, PrintItem(x)) && Fenced(t, i, i + |PrintItem(x)|, [x])
    ensures Scan(t, i, s) == Scan(t, i + |PrintItem(x)|, s)
    decreases x, 1
  {
    hide At, Scan, PrintItems, QuietAll;
    match x
    case Word(w) => ScanWord(t, i, w, 0, s);
    case Sign => ScanSign(t, i, s);
    case Punct(c) => ScanPunct(t, i, c, s);
    case Remark(text) => ScanRemark(t, i, text, s);
    case Quoted(q, body) => ScanQuoted(t, i, q, body, s);
    case Index(key) =>
      var p := PrintItems(key);
      if s.depth == 1 {
        NoKeyWithin(t, i, "[" + (p + "]"));
      }
      AtConcat(t, i, "[", p + "]");
      AtConcat(t, i + 1, p, "]");
      AtChar(t, i, "[", 0);
      AtChar(t, i + 1 + |p|, "]", 0);
      ScanBracket(t, i, s);
      ScanItems(t, i + 1, key, s);
      ScanBracket(t, i + 1 + |p|, s);
    case Nested(items) =>
      var p := PrintItems(items);
      AtConcat(t, i, "{", p + "}");
      AtConcat(t, i + 1, p, "}");
      AtChar(t, i, "{", 0);
      AtChar(t, i + 1 + |p|, "}", 0);
      ScanBrace(t, i, s);
      ScanItems(t, i + 1, items, s.(depth := s.depth + 1));
      ScanBrace(t, i + 1 + |p|, s.(depth := s.depth + 1));
  }

  lemma {:induction false} ScanItems(t: string, i: nat, xs: seq<Item>, s: State)
    requires s.depth >= 0 && QuietAll(xs, s.depth, s.id != 0)
    requires At(t, i, PrintItems(xs)) && Fenced(t, i, i + |PrintItems(xs)|, xs)
    ensures Scan(t, i, s) == Scan(t, i + |PrintItems(xs)|, s)
    decreases xs, 0
  {
    hide At, Scan, PrintItem, Quiet;
    if xs != [] {
      var x, rest := xs[0], xs[1..];
      var j := i + |PrintItem(x)|;
      AtConcat(t, i, PrintItem(x), PrintItems(rest));
      FirstByte(t, i, x, s.depth, s.id != 0);
      if rest != [] {
        AtConcat(t, j, PrintItem(rest[0]), PrintItems(rest[1..]));
        FirstByte(t, j, rest[0], s.depth, s.id != 0);
      }
      ScanItem(t, i, x, s);
      ScanItems(t, j, rest, s);
    }
  }

  // ---- entries ----

  lemma {:induction false} PadEnd(t: string, i: nat, pad: string)
    requires At(t, i, pad) && Padding(pad)
    requires i + |pad| < |t| ==> !IsPad(t[i + |pad|])
    ensures SkipPad(t, i) == i + |pad|
    decreases |pad|
  {
    if pad != "" {
      AtChar(t, i, pad, 0);
      assert pad == [pad[0]] + pad[1..];
      AtConcat(t, i, [pad[0]], pad[1..]);
      PadEnd(t, i + 1, pad[1..]);
    }
  }

  lemma {:induction false} BlankEnd(t: string, i: nat, gap: string)
    requires At(t, i, gap) && Blank(gap)
    requires i + |gap| < |t| ==> !IsSpace(t[i + |gap|])
    ensures SkipSpace(t, i) == i + |gap|
    decreases |gap|
  {
    if gap != "" {
      AtChar(t, i, gap, 0);
      assert gap == [gap[0]] + gap[1..];
      AtConcat(t, i, [gap[0]], gap[1..]);
      BlankEnd(t, i + 1, gap[1..]);
    }
  }

  lemma KeyNumber(t: string, j: nat, id: uint64, padR: string)
    requires Padding(padR)
    requires var k := j + |Print(id)|; At(t, j, Print(id)) && At(t, k, padR) && At(t, k + |padR|, "]")
    ensures var k := j + |Print(id)|;
            && k + |padR| < |t| && t[k + |padR|] == ']' && t[j..k] == Print(id)
            && DigitsEnd(t, j) == k && SkipPad(t, k) == k + |padR|
  {
    hide At, Print, Value;
    var k := j + |Print(id)|;
    AtChar(t, k + |padR|, "]", 0);
    PadEnd(t, k, padR);
    if padR != "" {
      AtChar(t, k, padR, 0);
    }
    AtSlice(t, j, Print(id));
    DigitsEndUnique(t, j, k);
  }

  /** A printed key, bracket, padding, marker, number, padding and bracket, is read back. */
  lemma KeyRead(t: string, i: nat, padL: string, id: uint64, padR: string)
    requires Padding(padL) && Padding(padR)
    requires var j := i + 1 + |padL|; var k := j + 9 + |Print(id)|;
             && At(t, i, "[") && At(t, i + 1, padL) && At(t, j, WORKSHOP) && At(t, j + 9, Print(id))
             && At(t, k, padR) && At(t, k + |padR|, "]")
    ensures i < |t| && t[i] == '[' && KeyAt(t, i) == Key(id, i + 1 + |padL| + 9 + |Print(id)| + |padR| + 1)
  {
    var j := i + 1 + |padL|;
    WrappedPrint(id);
    hide At, Print, Value, Wrapped, DigitsEnd, SkipPad;
    AtChar(t, i, "[", 0);
    AtChar(t, j, WORKSHOP, 0);
    PadEnd(t, i + 1, padL);
    KeyNumber(t, j + 9, id, padR);
  }

  lemma ScanKey(t: string, i: nat, e: Entry, s: State)
    requires EntryOk(e) && At(t, i, PrintEntry(e)) && s.depth == 1
    ensures var j := i + |e.padL| + 9 + |Print(e.id)| + |e.padR| + 2;
            && At(t, j, PrintItems(e.gap) + ("{" + (PrintBody(e.body) + ("}" + PrintItems(e.rest)))))
            && |PrintEntry(e)| == j - i + |PrintItems(e.gap)| + 1 + |PrintBody(e.body)| + 1 + |PrintItems(e.rest)|
            && 0 < j <= |t| && t[j - 1] == ']'
            && Scan(t, i, s) == Scan(t, j, s.(id := e.id, off := false))
  {
    hide At, Scan, PrintItems, PrintBody, Print, QuietAll, BodyOk, KeyAt, MoveAt;
    var g := PrintItems(e.gap) + ("{" + (PrintBody(e.body) + ("}" + PrintItems(e.rest))));
    var d := Print(e.id);
    AtConcat(t, i, "[", e.padL + (WORKSHOP + (d + (e.padR + ("]" + g)))));
    AtConcat(t, i + 1, e.padL, WORKSHOP + (d + (e.padR + ("]" + g))));
    var j := i + 1 + |e.padL|;
    AtConcat(t, j, WORKSHOP, d + (e.padR + ("]" + g)));
    AtConcat(t, j + 9, d, e.padR + ("]" + g));
    AtConcat(t, j + 9 + |d|, e.padR, "]" + g);
    AtConcat(t, j + 9 + |d| + |e.padR|, "]", g);
    AtChar(t, j + 9 + |d| + |e.padR|, "]", 0);
    KeyRead(t, i, e.padL, e.id, e.padR);
    KeyMove(t, i, s);
    ScanMove(t, i, s);
  }

  lemma KeyMove(t: string, i: nat, s: State)
    requires i < |t| && t[i] == '[' && s.depth == 1 && KeyAt(t, i).Key?
    ensures MoveAt(t, i, s) == Move(KeyAt(t, i).next, s.(id := KeyAt(t, i).id, off := false))
  {
    hide KeyAt;
  }

  /** The flag field itself: the scanner stops at its value, having looked at the value's first byte. */
  lemma FlagRead(t: string, i: nat, gap1: string, gap2: string, value: string)
    requires Blank(gap1) && Blank(gap2) && IsWord(value)
    requires var j := i + 7 + |gap1|;
             && At(t, i, ENABLED) && At(t, i + 7, gap1) && At(t, j, "=") && At(t, j + 1, gap2)
             && At(t, j + 1 + |gap2|, value)
    requires i == 0 || !IsVarChar(t[i - 1])
    ensures i < |t| && t[i] == 'e' && FlagAt(t, i) == Flag(i + 7 + |gap1| + 1 + |gap2|)
  {
    hide At, SkipSpace;
    var j := i + 7 + |gap1|;
    var v := j + 1 + |gap2|;
    AtChar(t, i, ENABLED, 0);
    AtChar(t, j, "=", 0);
    AtChar(t, v, value, 0);
    BlankEnd(t, i + 7, gap1);
    BlankEnd(t, j + 1, gap2);
    if gap1 != "" {
      AtChar(t, i + 7, gap1, 0);
    }
    if gap2 != "" {
      AtChar(t, j + 1, gap2, 0);
    }
  }

  lemma FlagMove(t: string, i: nat, s: State)
    requires i < |t| && t[i] == 'e' && s.depth == 2 && s.id != 0 && FlagAt(t, i).Flag?
    ensures MoveAt(t, i, s) == Move(FlagAt(t, i).value, s.(off := s.off || SaysFalse(t, FlagAt(t, i).value)))
  {
    hide FlagAt;
  }

  lemma FlagParts(t: string, i: nat, b: Body)
    requires b.Flagged?
    requires At(t, i, ENABLED + (b.gap1 + ("=" + (b.gap2 + (b.value + PrintItems(b.after))))))
    ensures var j := i + 7 + |b.gap1|; var v := j + 1 + |b.gap2|;
            && At(t, i, ENABLED) && At(t, i + 7, b.gap1) && At(t, j, "=") && At(t, j + 1, b.gap2) && At(t, v, b.value)
            && At(t, v + |b.value|, PrintItems(b.after)) && j < v + |b.value| <= |t| && t[j] == '='
  {
    hide At, PrintItems;
    var a := PrintItems(b.after);
    AtConcat(t, i, ENABLED, b.gap1 + ("=" + (b.gap2 + (b.value + a))));
    AtConcat(t, i + 7, b.gap1, "=" + (b.gap2 + (b.value + a)));
    var j := i + 7 + |b.gap1|;
    AtConcat(t, j, "=", b.gap2 + (b.value + a));
    AtChar(t, j, "=", 0);
    AtConcat(t, j + 1, b.gap2, b.value + a);
    AtConcat(t, j + 1 + |b.gap2|, b.value, a);
  }

  lemma ScanFlag(t: string, i: nat, b: Body, s: State)
    requires b.Flagged? && BodyOk(b) && s.depth == 2 && s.id != 0
    requires At(t, i, ENABLED + (b.gap1 + ("=" + (b.gap2 + (b.value + PrintItems(b.after))))))
    requires i == 0 || !IsVarChar(t[i - 1])
    requires var k := i + 7 + |b.gap1| + 1 + |b.gap2| + |b.value|; b.after == [] && k < |t| ==> !IsVarChar(t[k])
    ensures var k := i + 7 + |b.gap1| + 1 + |b.gap2| + |b.value|;
            && 0 < k <= |t| && At(t, k, PrintItems(b.after)) && IsVarChar(t[k - 1])
            && Scan(t, i, s) == Scan(t, k, s.(off := s.off || Struck(b)))
  {
    hide At, Scan, PrintItems, QuietAll, MoveAt, FlagAt, Apart;
    FlagParts(t, i, b);
    var j := i + 7 + |b.gap1|;
    var v := j + 1 + |b.gap2|;
    FlagRead(t, i, b.gap1, b.gap2, b.value);
    FlagMove(t, i, s);
    ScanMove(t, i, s);
    AtChar(t, v, b.value, 0);
    AtChar(t, v, b.value, |b.value| - 1);
    var s' := s.(off := s.off || Struck(b));
    if b.gap2 != "" {
      AtChar(t, j + 1, b.gap2, |b.gap2| - 1);
    }
    AfterIsApart(t, v + |b.value|, b);
    ScanWord(t, v, b.value, 0, s');
  }

  lemma AfterIsApart(t: string, k: nat, b: Body)
    requires b.Flagged? && BodyOk(b) && At(t, k, PrintItems(b.after))
    requires b.after == [] && k < |t| ==> !IsVarChar(t[k])
    ensures k < |t| ==> !IsVarChar(t[k])
  {
    if b.after != [] {
      AtConcat(t, k, PrintItem(b.after[0]), PrintItems(b.after[1..]));
      FirstByte(t, k, b.after[0], 2, true);
    }
  }

  lemma {:induction false} LastByte(t: string, i: nat, xs: seq<Item>, depth: nat, busy: bool)
    requires xs != [] && QuietAll(xs, depth, busy) && At(t, i, PrintItems(xs)) && !xs[|xs| - 1].Word?
    ensures |PrintItems(xs)| > 0 && !IsVarChar(t[i + |PrintItems(xs)| - 1])
    decreases |xs|
  {
    hide At, PrintItem, Quiet, Apart;
    NoItems();
    AtConcat(t, i, PrintItem(xs[0]), PrintItems(xs[1..]));
    FirstByte(t, i, xs[0], depth, busy);
    if |xs| > 1 {
      LastByte(t, i + |PrintItem(xs[0])|, xs[1..], depth, busy);
    }
  }

  lemma FlaggedParts(t: string, i: nat, b: Body)
    requires b.Flagged? && At(t, i, PrintBody(b))
    ensures var j := i + |PrintItems(b.before)|;
            && At(t, i, PrintItems(b.before))
            && At(t, j, ENABLED + (b.gap1 + ("=" + (b.gap2 + (b.value + PrintItems(b.after))))))
            && j < |t| && t[j] == 'e'
            && |PrintBody(b)| == j - i + 7 + |b.gap1| + 1 + |b.gap2| + |b.value| + |PrintItems(b.after)|
  {
    hide At, PrintItems;
    var before := PrintItems(b.before);
    var g := b.gap1 + ("=" + (b.gap2 + (b.value + PrintItems(b.after))));
    AtConcat(t, i, before, ENABLED + g);
    AtConcat(t, i + |before|, ENABLED, g);
    AtChar(t, i + |before|, ENABLED, 0);
  }

  lemma ScanFlagged(t: string, i: nat, b: Body, s: State)
    requires b.Flagged? && BodyOk(b) && At(t, i, PrintBody(b)) && s.depth == 2 && s.id != 0
    requires 0 < i <= |t| && t[i - 1] == '{'
    requires var j := i + |PrintBody(b)|; j < |t| && t[j] == '}'
    ensures Scan(t, i, s) == Scan(t, i + |PrintBody(b)|, s.(off := s.off || Struck(b)))
  {
    hide At, Scan, PrintItems, PrintBody, QuietAll, FlagAt, Struck, IsWord, Blank, Apart, Close;
    var j := i + |PrintItems(b.before)|;
    NoItems();
    FlaggedParts(t, i, b);
    if b.before != [] {
      LastByte(t, i, b.before, 2, true);
    }
    ScanItems(t, i, b.before, s);
    ScanFlag(t, j, b, s);
    ScanItems(t, j + 7 + |b.gap1| + 1 + |b.gap2| + |b.value|, b.after, s.(off := s.off || Struck(b)));
  }

  /** A mod's own table, from behind its opening brace to its closing brace. */
  lemma ScanBody(t: string, i: nat, b: Body, s: State)
    requires BodyOk(b) && At(t, i, PrintBody(b)) && s.depth == 2 && s.id != 0
    requires 0 < i <= |t| && t[i - 1] == '{' && At(t, i + |PrintBody(b)|, "}")
    ensures Scan(t, i, s) == Scan(t, i + |PrintBody(b)|, s.(off := s.off || Struck(b)))
  {
    hide At, Scan, PrintItems, QuietAll;
    AtChar(t, i + |PrintBody(b)|, "}", 0);
    if b.Flagged? {
      ScanFlagged(t, i, b, s);
    } else {
      ScanItems(t, i, b.items, s);
    }
  }

  /** Where the parts of an entry stand behind its key. */
  lemma EntryParts(t: string, j: nat, e: Entry)
    requires At(t, j, PrintItems(e.gap) + ("{" + (PrintBody(e.body) + ("}" + PrintItems(e.rest)))))
    ensures var k := j + |PrintItems(e.gap)|;
            var m := k + 1 + |PrintBody(e.body)|;
            && At(t, j, PrintItems(e.gap)) && At(t, k, "{") && At(t, k + 1, PrintBody(e.body))
            && At(t, m, "}") && At(t, m + 1, PrintItems(e.rest))
            && k < m < |t| && t[k] == '{' && t[m] == '}'
  {
    hide At, PrintItems, PrintBody;
    var k := j + |PrintItems(e.gap)|;
    var m := k + 1 + |PrintBody(e.body)|;
    AtConcat(t, j, PrintItems(e.gap), "{" + (PrintBody(e.body) + ("}" + PrintItems(e.rest))));
    AtConcat(t, k, "{", PrintBody(e.body) + ("}" + PrintItems(e.rest)));
    AtChar(t, k, "{", 0);
    AtConcat(t, k + 1, PrintBody(e.body), "}" + PrintItems(e.rest));
    AtConcat(t, m, "}", PrintItems(e.rest));
    AtChar(t, m, "}", 0);
  }

  lemma ScanEntry(t: string, i: nat, e: Entry, s: State)
    requires EntryOk(e) && At(t, i, PrintEntry(e)) && s.depth == 1 && s.id == 0
    requires var j := i + |PrintEntry(e)|; j < |t| ==> !IsVarChar(t[j]) && t[j] != '-'
    ensures Scan(t, i, s) ==
            Scan(t, i + |PrintEntry(e)|, State(1, 0, Struck(e.body), s.out + if Struck(e.body) then [] else [e.id]))
  {
    hide At, Scan, PrintEntry, PrintItems, PrintBody, QuietAll, BodyOk;
    var out := s.out + if Struck(e.body) then [] else [e.id];
    assert Close(State(2, e.id, Struck(e.body), s.out)) == State(1, 0, Struck(e.body), out);
    hide Struck, Close;
    var j := i + |e.padL| + 9 + |Print(e.id)| + |e.padR| + 2;
    var s1 := State(1, e.id, false, s.out);
    ScanKey(t, i, e, s);
    EntryParts(t, j, e);
    var k := j + |PrintItems(e.gap)|;
    ScanItems(t, j, e.gap, s1);
    ScanBrace(t, k, s1);
    var m := k + 1 + |PrintBody(e.body)|;
    ScanBody(t, k + 1, e.body, s1.(depth := 2));
    ScanBrace(t, m, State(2, e.id, Struck(e.body), s.out));
    ScanItems(t, m + 1, e.rest, State(1, 0, Struck(e.body), out));
  }

  lemma {:induction false} ScanEntries(t: string, i: nat, es: seq<Entry>, s: State) returns (off: bool)
    requires (forall e :: e in es ==> EntryOk(e)) && At(t, i, PrintEntries(es)) && s.depth == 1 && s.id == 0
    requires At(t, i + |PrintEntries(es)|, "}")
    ensures Scan(t, i, s) == Scan(t, i + |PrintEntries(es)|, State(1, 0, off, s.out + KeptMods(es)))
    decreases |es|
  {
    hide At, Scan, EntryOk, PrintEntry, Close;
    if es == [] {
      assert s.out + [] == s.out;
      off := s.off;
    } else {
      var e, rest := es[0], es[1..];
      var j := i + |PrintEntry(e)|;
      AtConcat(t, i, PrintEntry(e), PrintEntries(rest));
      EntriesFollow(t, j, rest);
      var out := s.out + if Struck(e.body) then [] else [e.id];
      ScanEntry(t, i, e, s);
      off := ScanEntries(t, j, rest, State(1, 0, Struck(e.body), out));
      KeptModsStep(s.out, es);
    }
  }

  lemma KeptModsStep(out: seq<uint64>, es: seq<Entry>)
    requires es != []
    ensures (out + if Struck(es[0].body) then [] else [es[0].id]) + KeptMods(es[1..]) == out + KeptMods(es)
  {
    var one, rest := if Struck(es[0].body) then [] else [es[0].id], KeptMods(es[1..]);
    assert KeptMods(es) == one + rest;
    hide KeptMods, Struck;
    assert out + one + rest == out + (one + rest);
  }

  /** What follows an entry: the next entry's bracket or the brace that closes the table. */
  lemma EntriesFollow(t: string, i: nat, es: seq<Entry>)
    requires At(t, i, PrintEntries(es)) && At(t, i + |PrintEntries(es)|, "}")
    ensures i < |t| && !IsVarChar(t[i]) && t[i] != '-'
  {
    if es == [] {
      AtChar(t, i, "}", 0);
    } else {
      AtChar(t, i, PrintEntries(es), 0);
    }
  }

  /** Scanning the printed form of any mod table yields exactly the mods whose flag does not start like false,
      in order. */
  lemma TableScanned(tab: Table)
    requires TableOk(tab)
    ensures EnabledIds(PrintTable(tab)) == KeptMods(tab.entries)
  {
    hide At, Scan, PrintItems, PrintEntries, QuietAll, EntryOk, PrintTable, Close;
    var t := PrintTable(tab);
    var i, j, k := TableParts(tab);
    ScanItems(t, 0, tab.head, Start);
    ScanBrace(t, i, Start);
    ScanItems(t, i + 1, tab.lead, State(1, 0, false, []));
    var off := ScanEntries(t, j, tab.entries, State(1, 0, false, []));
    var out := [] + KeptMods(tab.entries);
    assert out == KeptMods(tab.entries);
    ScanBrace(t, k, State(1, 0, off, out));
    CloseTable(off, out);
    ScanItems(t, k + 1, tab.tail, State(0, 0, off, out));
    ScanDone(t, |t|, State(0, 0, off, out));
  }

  lemma CloseTable(off: bool, out: seq<uint64>)
    ensures Close(State(1, 0, off, out)) == State(0, 0, off, out)
  {
  }

  /** Where the parts of a table stand. */
  lemma TableParts(tab: Table) returns (i: nat, j: nat, k: nat)
    ensures i == |PrintItems(tab.head)| && j == i + 1 + |PrintItems(tab.lead)| && k == j + |PrintEntries(tab.entries)|
    ensures var t := PrintTable(tab);
            && At(t, 0, PrintItems(tab.head)) && At(t, i, "{") && At(t, i + 1, PrintItems(tab.lead))
            && At(t, j, PrintEntries(tab.entries)) && At(t, k, "}") && At(t, k + 1, PrintItems(tab.tail))
            && |t| == k + 1 + |PrintItems(tab.tail)| && t[i] == '{' && t[k] == '}'
            && !IsVarChar(t[j]) && t[j] != '-'
  {
    hide At, PrintItems, PrintEntries;
    var t := PrintTable(tab);
    var r2 := "}" + PrintItems(tab.tail);
    var r1 := PrintEntries(tab.entries) + r2;
    AtWhole(t);
    i := |PrintItems(tab.head)|;
    j := i + 1 + |PrintItems(tab.lead)|;
    k := j + |PrintEntries(tab.entries)|;
    AtConcat(t, 0, PrintItems(tab.head), "{" + (PrintItems(tab.lead) + r1));
    AtConcat(t, i, "{", PrintItems(tab.lead) + r1);
    AtConcat(t, i + 1, PrintItems(tab.lead), r1);
    AtConcat(t, j, PrintEntries(tab.entries), r2);
    AtConcat(t, k, "}", PrintItems(tab.tail));
    AtChar(t, i, "{", 0);
    AtChar(t, k, "}", 0);
    EntriesFollow(t, j, tab.entries);
  }

  /** These are the mods the table does not disable precisely when no flag merely starts like false. */
  lemma TableMeaning(tab: Table)
    requires TableOk(tab)
    ensures EnabledIds(PrintTable(tab)) == EnabledMods(tab.entries) <==> FlagsPlain(tab.entries)
  {
    TableScanned(tab);
    KeptOrFewer(tab.entries);
  }

  /** The table of one mod whose flag has this value. */
  function FlagTable(id: uint64, value: string): Table {
    Table([], [], [Entry("", id, "", [Punct('=')], Flagged([], "", "", value, []), [])], [])
  }

  /** A flag that starts like false without being it: the scanner drops a mod that its table does not disable. */
  lemma FlagMisread(id: uint64, value: string)
    requires id != 0 && IsWord(value) && (value[0] == 'f' || value[0] == 'F') && value != "false"
    ensures TableOk(FlagTable(id, value))
    ensures EnabledIds(PrintTable(FlagTable(id, value))) == [] && EnabledMods(FlagTable(id, value).entries) == [id]
  {
    hide OtherKey;
    var tab := FlagTable(id, value);
    var e := tab.entries[0];
    assert Quiet(Punct('='), 1, true) && QuietAll(e.gap, 1, true);
    assert EntryOk(e);
    var none: seq<uint64> := [];
    assert KeptMods([]) == [] && EnabledMods([]) == [] && [id] + none == [id] && none + none == none;
    hide IsWord, PrintTable;
    TableScanned(tab);
  }

  lemma ScanDone(t: string, i: nat, s: State)
    requires i >= |t|
    ensures Scan(t, i, s) == s
  {
  }
}
