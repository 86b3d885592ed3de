/** ReadLines: collect the mods of the setup file and both override files, and append to the setup file
    a declaration for every mod it lacks. */
module ModLedger {
  import opened Decimal
  import opened LineText
  import opened LuaText
  import S = SetupScanner
  import O = OverrideScanner
  import T = ModTable
  import G = SetupGrammar

  // ---- deduplication in first-occurrence order ----

  /** r followed by the IDs of ids that are new, each once, where they first occur. */
  function Extend(r: seq<uint64>, ids: seq<uint64>): seq<uint64>
    decreases |ids|
  {
    if ids == [] then r
    else if ids[0] in r then Extend(r, ids[1..])
    else Extend(r + [ids[0]], ids[1..])
  }

  lemma ExtendNothing(r: seq<uint64>)
    ensures Extend(r, []) == r
  {
  }

  predicate NoDup(r: seq<uint64>) {
    forall i, j :: 0 <= i < j < |r| ==> r[i] != r[j]
  }

  function FirstIndex(ids: seq<uint64>, x: uint64): (k: nat)
    requires x in ids
    ensures k < |ids| && ids[k] == x && x !in ids[..k]
  {
    if ids[0] == x then 0 else 1 + FirstIndex(ids[1..], x)
  }

  lemma {:induction false} ExtendConcat(r: seq<uint64>, a: seq<uint64>, b: seq<uint64>)
    ensures Extend(r, a + b) == Extend(Extend(r, a), b)
    decreases |a|
  {
    if a == [] {
      assert a + b == b;
    } else {
      assert (a + b)[1..] == a[1..] + b;
      ExtendConcat(if a[0] in r then r else r + [a[0]], a[1..], b);
    }
  }

  lemma {:induction false} ExtendElements(r: seq<uint64>, ids: seq<uint64>)
    ensures forall x :: x in Extend(r, ids) <==> x in r || x in ids
    ensures r <= Extend(r, ids)
    ensures NoDup(r) ==> NoDup(Extend(r, ids))
    decreases |ids|
  {
    if ids != [] {
      ExtendElements(if ids[0] in r then r else r + [ids[0]], ids[1..]);
    }
  }

  /** Nothing new: the list stays as it is. */
  lemma {:induction false} ExtendKnown(r: seq<uint64>, ids: seq<uint64>)
    requires forall x :: x in ids ==> x in r
    ensures Extend(r, ids) == r
    decreases |ids|
  {
    if ids != [] {
      assert ids[0] in r;
      ExtendKnown(r, ids[1..]);
    }
  }

  /** All new and distinct: the list is appended whole. */
  lemma {:induction false} ExtendFresh(r: seq<uint64>, ids: seq<uint64>)
    requires NoDup(ids) && forall x :: x in ids ==> x !in r
    ensures Extend(r, ids) == r + ids
    decreases |ids|
  {
    if ids != [] {
      assert ids[0] !in r;
      ExtendFresh(r + [ids[0]], ids[1..]);
      assert r + [ids[0]] + ids[1..] == r + ids;
    }
  }

  /** Collecting from nothing keeps each ID once, in the order of first occurrences. */
  lemma {:induction false} ExtendMeaning(ids: seq<uint64>)
    ensures var r := Extend([], ids);
            && NoDup(r) && (forall x :: x in r <==> x in ids)
            && forall i, j :: 0 <= i < j < |r| ==> FirstIndex(ids, r[i]) < FirstIndex(ids, r[j])
    decreases |ids|
  {
    ExtendElements([], ids);
    if ids != [] {
      var n := |ids| - 1;
      var init, x := ids[..n], ids[n];
      assert ids == init + [x];
      ExtendConcat([], init, [x]);
      ExtendMeaning(init);
      var p, r := Extend([], init), Extend([], ids);
      assert r == Extend(p, [x]) == if x in p then p else p + [x] by {
        assert [x][1..] == [];
      }
      forall i, j | 0 <= i < j < |r|
        ensures FirstIndex(ids, r[i]) < FirstIndex(ids, r[j])
      {
        FirstIndexPrefix(init, x, r[i]);
        if j < |p| {
          FirstIndexPrefix(init, x, r[j]);
        }
      }
    }
  }

  lemma {:induction false} FirstIndexPrefix(init: seq<uint64>, last: uint64, x: uint64)
    requires x in init
    ensures FirstIndex(init + [last], x) == FirstIndex(init, x)
  {
    if init[0] != x {
      assert (init + [last])[1..] == init[1..] + [last];
      FirstIndexPrefix(init[1..], last, x);
    }
  }

  // ---- the specification of ReadLines ----

  const SNAPSHOT_LIMIT := 1024 * 1024

  /** A file above the snapshot limit is refused and skipped, as an unreadable or empty one is. */
  function Visible(file: string): string {
    if |file| > SNAPSHOT_LIMIT then "" else file
  }

  function Declared(setup: string): seq<uint64> {
    S.Scan(Visible(setup), 0)
  }

  function Overridden(master: string, caves: string): seq<uint64> {
    O.EnabledIds(Visible(master)) + O.EnabledIds(Visible(caves))
  }

  /** The list ReadLines returns. */
  function Listed(setup: string, master: string, caves: string): seq<uint64> {
    Extend([], Declared(setup) + Overridden(master, caves))
  }

  function Without(ids: seq<uint64>, own: seq<uint64>): seq<uint64> {
    if ids == [] then []
    else (if ids[0] in own then [] else [ids[0]]) + Without(ids[1..], own)
  }

  /** The listed mods that the setup file does not declare. */
  function Missing(setup: string, master: string, caves: string): seq<uint64> {
    Without(Listed(setup, master, caves), Declared(setup))
  }

  /** The setup file after ReadLines. */
  function Patched(setup: string, master: string, caves: string): string {
    setup + S.Render(Missing(setup, master, caves))
  }

  // ---- the imperative scanners ----

  function Elements(ids: seq<uint64>): set<uint64> {
    set x | x in ids
  }

  method SkipMarker(text: string, i: nat) returns (cursor: nat)
    requires i <= |text|
    ensures cursor == S.AfterMarker(text, i)
  {
    cursor := i;
    if i + 16 <= |text| && (text[i..i + 16] == S.CALL_DQ || text[i..i + 16] == S.CALL_SQ) {
      cursor := i + 16;
    } else if i + 9 <= |text| && text[i..i + 9] == WORKSHOP {
      cursor := i + 9;
    }
  }

  method SkipClosing(text: string, i: nat) returns (cursor: nat)
    requires i <= |text|
    ensures cursor == S.SkipClosers(text, i)
  {
    cursor := i;
    while cursor < |text| && S.IsCloser(text[cursor])
      invariant i <= cursor <= |text| && S.SkipClosers(text, cursor) == S.SkipClosers(text, i)
    {
      cursor := cursor + 1;
    }
  }

  /** What the scanners share by reference: the list, its dedup set, and the IDs of the setup file. */
  class ModScan {
    var result: seq<uint64>
    var seen: set<uint64>
    var own: set<uint64>

    ghost predicate Valid()
      reads this
    {
      seen == Elements(result)
    }

    constructor ()
      ensures Valid() && result == [] && own == {}
    {
      result, seen, own := [], {}, {};
    }

    method Record(id: uint64)
      requires Valid()
      modifies this
      ensures Valid() && result == Extend(old(result), [id]) && own == old(own)
    {
      assert [id][1..] == [];
      if id !in seen {
        seen := seen + {id};
        result := result + [id];
      }
    }

    method ParseSetup(text: string)
      requires Valid()
      modifies this
      ensures Valid()
      ensures result == Extend(old(result), S.Scan(text, 0))
      ensures own == old(own) + Elements(S.Scan(text, 0))
    {
      hide S.TurnAt, Extend;
      ExtendNothing(result);
      var cursor := 0;
      ghost var found: seq<uint64> := [];
      while cursor < |text|
        invariant 0 <= cursor
        invariant Valid()
        invariant found + S.Scan(text, cursor) == S.Scan(text, 0)
        invariant result == Extend(old(result), found)
        invariant own == old(own) + Elements(found)
        decreases |text| - cursor
      {
        ghost var turn := S.TurnAt(text, cursor);
        ghost var turned := found + turn.ids;
        assert found + (turn.ids + S.Scan(text, turn.next)) == turned + S.Scan(text, turn.next);
        ExtendConcat(old(result), found, turn.ids);
        cursor := ParseTurn(text, cursor);
        found := turned;
      }
      assert found + [] == found;
    }

    /** One turn of the outer loop. */
    method ParseTurn(text: string, i: nat) returns (cursor: nat)
      requires Valid() && i < |text|
      modifies this
      ensures Valid() && cursor == S.TurnAt(text, i).next
      ensures result == Extend(old(result), S.TurnAt(text, i).ids)
      ensures own == old(own) + Elements(S.TurnAt(text, i).ids)
    {
      hide StringEnd, LineEnd, DigitsEnd, S.AfterMarker, S.SkipClosers, Extend;
      ExtendNothing(result);
      var c := text[i];
      if c == '-' && i + 1 < |text| && text[i + 1] == '-' {
        cursor := SkipLine(text, i + 2);
      } else if IsQuote(c) {
        cursor := SkipString(text, i + 1, c);
      } else {
        cursor := ParseMarker(text, i);
      }
    }

    /** The part of a turn outside comments and strings. */
    method ParseMarker(text: string, i: nat) returns (cursor: nat)
      requires Valid() && i < |text| && !CommentAt(text, i) && !IsQuote(text[i])
      modifies this
      ensures Valid() && cursor == S.TurnAt(text, i).next
      ensures result == Extend(old(result), S.TurnAt(text, i).ids)
      ensures own == old(own) + Elements(S.TurnAt(text, i).ids)
    {
      hide S.AfterMarker, DigitsEnd, Value, Wrapped, Extend, S.TurnAt;
      ExtendNothing(result);
      S.MarkerTurn(text, i);
      var origin := SkipMarker(text, i);
      if origin == i {
        return i + 1;
      }
      cursor := SkipDigits(text, origin);
      if cursor > origin {
        var id := BytesToUint64(text[origin..cursor]);
        Record(id);
        own := own + {id};
      }
      cursor := SkipClosing(text, cursor);
    }

    method ParseModOverrides(text: string)
      requires Valid()
      modifies this
      ensures Valid() && own == old(own)
      ensures result == Extend(old(result), O.EnabledIds(text))
    {
      hide StringEnd, LineEnd, O.KeyAt, O.FlagAt;
      var cursor, depth, currId, disabled := 0, 0, 0, false;
      ghost var out: seq<uint64> := [];
      while cursor < |text|
        invariant 0 <= cursor
        invariant Valid() && own == old(own)
        invariant O.Scan(text, cursor, O.State(depth, currId, disabled, out)) == O.Scan(text, 0, O.Start)
        invariant result == Extend(old(result), out)
        decreases |text| - cursor
      {
        var c := text[cursor];
        if c == ' ' || c == '\t' || c == '\r' || c == '\n' {
          cursor := cursor + 1;
          continue;
        }
        if c == '-' && cursor + 1 < |text| && text[cursor + 1] == '-' {
          cursor := SkipLine(text, cursor + 2);
          continue;
        }
        if IsQuote(c) {
          cursor := SkipString(text, cursor + 1, c);
          continue;
        }
        if c == '{' {
          depth := depth + 1;
          cursor := cursor + 1;
          continue;
        }
        if c == '}' {
          if depth == 2 && currId != 0 {
            if !disabled {
              ExtendConcat(old(result), out, [currId]);
              Record(currId);
              out := out + [currId];
            }
            currId := 0;
          }
          depth := depth - 1;
          cursor := cursor + 1;
          continue;
        }
        if depth == 1 && c == '[' {
          var key := ReadKey(text, cursor);
          if key.Key? {
            currId, disabled, cursor := key.id, false, key.next;
            continue;
          }
        }
        if depth == 2 && currId != 0 && c == 'e' {
          var flag := ReadFlag(text, cursor);
          if flag.Flag? {
            if flag.value < |text| && (text[flag.value] == 'f' || text[flag.value] == 'F') {
              disabled := true;
            }
            cursor := flag.value;
            continue;
          }
        }
        cursor := cursor + 1;
      }
    }
  }

  method SkipBlanks(text: string, i: nat) returns (cursor: nat)
    requires i <= |text|
    ensures cursor == O.SkipSpace(text, i)
  {
    cursor := i;
    while cursor < |text| && O.IsSpace(text[cursor])
      invariant i <= cursor <= |text| && O.SkipSpace(text, cursor) == O.SkipSpace(text, i)
    {
      cursor := cursor + 1;
    }
  }

  method SkipPadding(text: string, i: nat) returns (cursor: nat)
    requires i <= |text|
    ensures cursor == O.SkipPad(text, i)
  {
    cursor := i;
    while cursor < |text| && O.IsPad(text[cursor])
      invariant i <= cursor <= |text| && O.SkipPad(text, cursor) == O.SkipPad(text, i)
    {
      cursor := cursor + 1;
    }
  }

  method ReadKey(text: string, i: nat) returns (key: O.Key)
    requires i < |text|
    ensures key == O.KeyAt(text, i)
  {
    var temp := SkipPadding(text, i + 1);
    if temp + 9 <= |text| && text[temp..temp + 9] == WORKSHOP {
      temp := temp + 9;
      var origin := temp;
      temp := SkipDigits(text, temp);
      if temp > origin {
        var id := BytesToUint64(text[origin..temp]);
        temp := SkipPadding(text, temp);
        if temp < |text| && text[temp] == ']' {
          return O.Key(id, temp + 1);
        }
      }
    }
    return O.NoKey;
  }

  method ReadFlag(text: string, i: nat) returns (flag: O.Flag)
    requires i < |text|
    ensures flag == O.FlagAt(text, i)
  {
    if i + 7 <= |text| && text[i..i + 7] == O.ENABLED {
      var cleanPrefix := i == 0 || !IsVarChar(text[i - 1]);
      var cleanSuffix := i + 7 == |text| || !IsVarChar(text[i + 7]);
      if cleanPrefix && cleanSuffix {
        var probe := SkipBlanks(text, i + 7);
        if probe < |text| && text[probe] == '=' {
          probe := SkipBlanks(text, probe + 1);
          return O.Flag(probe);
        }
      }
    }
    return O.NoFlag;
  }

  // ---- ReadLines ----

  /** The three files ReadLines works on; the two override files are only read. */
  class ModFiles {
    var setup: string
    var master: string
    var caves: string

    constructor (setup: string, master: string, caves: string)
      ensures this.setup == setup && this.master == master && this.caves == caves
    {
      this.setup, this.master, this.caves := setup, master, caves;
    }

    method ReadLines() returns (ids: seq<uint64>)
      modifies this`setup
      ensures ids == Listed(old(setup), master, caves)
      ensures setup == Patched(old(setup), master, caves)
    {
      hide S.Scan, O.Scan, Visible, Extend;
      var scan := new ModScan();
      scan.ParseSetup(Visible(setup));
      ExtendConcat([], Declared(setup), Overridden(master, caves));
      ExtendConcat(scan.result, O.EnabledIds(Visible(master)), O.EnabledIds(Visible(caves)));
      scan.ParseModOverrides(Visible(master));
      scan.ParseModOverrides(Visible(caves));
      ids := scan.result;
      var missing := RenderMissing(ids, scan.own, Declared(setup));
      setup := setup + missing;
    }
  }

  method RenderMissing(ids: seq<uint64>, own: set<uint64>, ghost declared: seq<uint64>) returns (missing: string)
    requires own == Elements(declared)
    ensures missing == S.Render(Without(ids, declared))
  {
    missing := "";
    for k := 0 to |ids|
      invariant missing + S.Render(Without(ids[k..], declared)) == S.Render(Without(ids, declared))
    {
      ghost var tail := Without(ids[k + 1..], declared);
      assert ids[k..][1..] == ids[k + 1..];
      if ids[k] !in own {
        assert ([ids[k]] + tail)[1..] == tail;
        missing := missing + (S.CALL_DQ + Print(ids[k]) + S.CLOSE);
      } else {
        assert [] + tail == tail;
      }
    }
  }

  /** From printed files, ReadLines lists the declared mods and then the enabled mods of both tables. */
  lemma PrintedFilesListed(setup: seq<G.Piece>, master: T.Table, caves: T.Table)
    requires G.PiecesOk(setup) && T.TableOk(master) && T.TableOk(caves)
    requires |G.PrintPieces(setup)| <= SNAPSHOT_LIMIT
    requires |T.PrintTable(master)| <= SNAPSHOT_LIMIT && |T.PrintTable(caves)| <= SNAPSHOT_LIMIT
    ensures Listed(G.PrintPieces(setup), T.PrintTable(master), T.PrintTable(caves)) ==
            Extend([], G.Declarations(setup) + (T.KeptMods(master.entries) + T.KeptMods(caves.entries)))
    ensures T.FlagsPlain(master.entries) && T.FlagsPlain(caves.entries) ==>
            Listed(G.PrintPieces(setup), T.PrintTable(master), T.PrintTable(caves)) ==
            Extend([], G.Declarations(setup) + (T.EnabledMods(master.entries) + T.EnabledMods(caves.entries)))
  {
    T.TableMeaning(master);
    T.TableMeaning(caves);
    G.SetupScanned(setup);
    T.TableScanned(master);
    T.TableScanned(caves);
  }

  // ---- hot-patching is a fixpoint ----

  lemma {:induction false} WithoutNone(b: seq<uint64>, own: seq<uint64>)
    requires forall k :: 0 <= k < |b| ==> b[k] !in own
    ensures Without(b, own) == b
    decreases |b|
  {
    if b != [] {
      WithoutNone(b[1..], own);
      assert b == [b[0]] + b[1..];
    }
  }

  lemma {:induction false} WithoutPrefix(a: seq<uint64>, b: seq<uint64>, own: seq<uint64>)
    requires forall k :: 0 <= k < |a| ==> a[k] in own
    requires forall k :: 0 <= k < |b| ==> b[k] !in own
    ensures Without(a + b, own) == b
    decreases |a|
  {
    if a != [] {
      assert (a + b)[0] == a[0] && (a + b)[1..] == a[1..] + b;
      WithoutPrefix(a[1..], b, own);
    } else {
      assert a + b == b;
      WithoutNone(b, own);
    }
  }

  lemma {:induction false} WithoutEmpty(ids: seq<uint64>, own: seq<uint64>)
    ensures Without(ids, own) == [] <==> forall x :: x in ids ==> x in own
    decreases |ids|
  {
    if ids != [] {
      WithoutEmpty(ids[1..], own);
    }
  }

  /** The list is the declared mods followed by the missing ones, and those are new and distinct. */
  lemma ListedSplit(setup: string, master: string, caves: string)
    ensures var a := Extend([], Declared(setup));
            var b := Missing(setup, master, caves);
            && Listed(setup, master, caves) == a + b && NoDup(b)
            && (forall x :: x in b ==> x !in a && x in Overridden(master, caves))
            && (forall x :: x in Overridden(master, caves) ==> x in a || x in b)
  {
    hide S.Scan, O.Scan, Visible, Without, Extend;
    var a := Extend([], Declared(setup));
    var l := Listed(setup, master, caves);
    ExtendConcat([], Declared(setup), Overridden(master, caves));
    ExtendElements([], Declared(setup));
    ExtendElements(a, Overridden(master, caves));
    var b := l[|a|..];
    assert l == a + b;
    assert forall k :: 0 <= k < |b| ==> b[k] == l[|a| + k];
    forall x | x in b ensures x !in a && x in Overridden(master, caves) {
      var k :| 0 <= k < |b| && b[k] == x;
      assert x in l && x == l[|a| + k];
      assert x !in a;
    }
    WithoutPrefix(a, b, Declared(setup));
  }

  /** What the second read finds declared, if every declaration was written behind code. */
  lemma PatchedDeclared(setup: string, master: string, caves: string)
    requires S.EndMode(setup, 0) == S.Code && |Patched(setup, master, caves)| <= SNAPSHOT_LIMIT
    ensures Declared(Patched(setup, master, caves)) == Declared(setup) + Missing(setup, master, caves)
  {
    var b := Missing(setup, master, caves);
    S.RenderAt(setup, b);
    S.ScanSeam(setup, S.Render(b), 0);
    S.ScanRendered(setup + S.Render(b), |setup|, b);
  }

  /** Reading again returns the identical list in the same order and appends nothing. */
  lemma SecondReadAgrees(setup: string, master: string, caves: string)
    requires S.EndMode(setup, 0) == S.Code && |Patched(setup, master, caves)| <= SNAPSHOT_LIMIT
    ensures Listed(Patched(setup, master, caves), master, caves) == Listed(setup, master, caves)
    ensures Missing(Patched(setup, master, caves), master, caves) == []
  {
    hide S.Scan, S.Render, O.Scan, Visible;
    var d, o, b := Declared(setup), Overridden(master, caves), Missing(setup, master, caves);
    var a := Extend([], d);
    ListedSplit(setup, master, caves);
    PatchedDeclared(setup, master, caves);
    ExtendConcat([], d + b, o);
    ExtendConcat([], d, b);
    ExtendFresh(a, b);
    ExtendKnown(a + b, o);
    ExtendElements([], d);
    WithoutEmpty(a + b, d + b);
  }

  /** A printed setup file is patched once and for all. */
  lemma PrintedFilePatchedOnce(setup: seq<G.Piece>, master: string, caves: string)
    requires G.PiecesOk(setup) && |Patched(G.PrintPieces(setup), master, caves)| <= SNAPSHOT_LIMIT
    ensures Missing(Patched(G.PrintPieces(setup), master, caves), master, caves) == []
  {
    G.SetupScanned(setup);
    SecondReadAgrees(G.PrintPieces(setup), master, caves);
  }

  /** The condition is exact: the second read appends nothing precisely when the first one had nothing to
      append, or wrote behind code and stayed within the snapshot limit. */
  lemma HotPatchFixpoint(setup: string, master: string, caves: string)
    ensures Missing(Patched(setup, master, caves), master, caves) == [] <==>
            || Missing(setup, master, caves) == []
            || (S.EndMode(setup, 0) == S.Code && |Patched(setup, master, caves)| <= SNAPSHOT_LIMIT)
  {
    var b := Missing(setup, master, caves);
    var p := Patched(setup, master, caves);
    if b == [] {
      assert p == setup;
    } else if |p| <= SNAPSHOT_LIMIT && S.EndMode(setup, 0) == S.Code {
      SecondReadAgrees(setup, master, caves);
    } else {
      ListedSplit(setup, master, caves);
      ExtendElements([], Declared(setup));
      if |p| <= SNAPSHOT_LIMIT {
        S.FirstDeclarationLost(setup, b);
        assert b[0] !in Declared(p);
      }
      assert b[0] in Overridden(master, caves);
      ExtendElements([], Declared(p) + Overridden(master, caves));
      WithoutEmpty(Listed(p, master, caves), Declared(p));
    }
  }

  /** A list that is already a part of what comes out changes nothing when it goes in first. */
  lemma {:induction false} ExtendAhead(r: seq<uint64>, q: seq<uint64>, ids: seq<uint64>)
    requires r <= q <= Extend(r, ids)
    ensures Extend(q, ids) == Extend(r, ids)
    decreases |ids|
  {
    if ids != [] && q != r {
      var x := ids[0];
      if x in r {
        ExtendAhead(r, q, ids[1..]);
      } else {
        ExtendElements(r + [x], ids[1..]);
        assert q[|r|] == x;
        ExtendAhead(r + [x], q, ids[1..]);
      }
    }
  }

  /** What a second read lists after a write behind an unfinished comment: the lost mod comes last. */
  lemma ListedBehindComment(setup: string, master: string, caves: string)
    requires S.EndMode(setup, 0) == S.InComment && |Patched(setup, master, caves)| <= SNAPSHOT_LIMIT
    requires Missing(setup, master, caves) != []
    ensures var b := Missing(setup, master, caves);
            Listed(Patched(setup, master, caves), master, caves) == Extend([], Declared(setup)) + (b[1..] + [b[0]])
  {
    hide S.Scan, S.Render, O.Scan, Visible, Without;
    var d, o, b := Declared(setup), Overridden(master, caves), Missing(setup, master, caves);
    var a := Extend([], d);
    ListedSplit(setup, master, caves);
    LostDeclared(setup, master, caves);
    ExtendConcat([], d + b[1..], o);
    ExtendConcat([], d, b[1..]);
    ExtendFresh(a, b[1..]);
    var c := Extend(a + b[1..], o);
    ExtendElements(a + b[1..], o);
    LastNew(a + b[1..], b[0], o);
    assert c == a + b[1..] + [b[0]] == a + (b[1..] + [b[0]]);
  }

  /** Only one of the IDs is new. */
  lemma {:induction false} LastNew(r: seq<uint64>, x: uint64, ids: seq<uint64>)
    requires x !in r && x in ids && forall y :: y in ids ==> y in r || y == x
    ensures Extend(r, ids) == r + [x]
    decreases |ids|
  {
    if ids[0] == x {
      ExtendKnown(r + [x], ids[1..]);
    } else {
      LastNew(r, x, ids[1..]);
    }
  }

  /** What the second read finds declared when the first write went behind unfinished text. */
  lemma LostDeclared(setup: string, master: string, caves: string)
    requires S.EndMode(setup, 0) != S.Code && |Patched(setup, master, caves)| <= SNAPSHOT_LIMIT
    requires Missing(setup, master, caves) != []
    ensures var b := Missing(setup, master, caves);
            Declared(Patched(setup, master, caves)) ==
            Declared(setup) + if S.EndMode(setup, 0) == S.InComment then b[1..] else []
  {
    hide S.Scan, S.Render, S.EndMode;
    S.FirstDeclarationLost(setup, Missing(setup, master, caves));
  }

  /** When the second read lists the same mods in the same order: always behind code and behind an open string,
      behind a comment if one mod was missing, and once the file is refused if the declared mods are
      the first overridden ones anyway. */
  predicate ListStays(setup: string, master: string, caves: string) {
    var b := Missing(setup, master, caves);
    || b == []
    || if |Patched(setup, master, caves)| <= SNAPSHOT_LIMIT then S.EndMode(setup, 0) == S.InComment ==> |b| == 1
       else Extend([], Declared(setup)) <= Extend([], Overridden(master, caves))
  }

  lemma SecondListRefused(setup: string, master: string, caves: string)
    requires |Patched(setup, master, caves)| > SNAPSHOT_LIMIT
    ensures Listed(Patched(setup, master, caves), master, caves) == Listed(setup, master, caves) <==>
            Extend([], Declared(setup)) <= Extend([], Overridden(master, caves))
  {
    hide S.Render, O.Scan, Missing;
    var d, o := Declared(setup), Overridden(master, caves);
    assert Declared(Patched(setup, master, caves)) == [];
    assert [] + o == o;
    ExtendConcat([], d, o);
    ExtendElements(Extend([], d), o);
    if Extend([], d) <= Extend([], o) {
      ExtendAhead([], Extend([], d), o);
    }
  }

  lemma SecondListExact(setup: string, master: string, caves: string)
    ensures Listed(Patched(setup, master, caves), master, caves) == Listed(setup, master, caves) <==>
            ListStays(setup, master, caves)
  {
    hide S.Scan, O.Scan, S.EndMode, Visible, Without, Extend;
    var b, p := Missing(setup, master, caves), Patched(setup, master, caves);
    ListedSplit(setup, master, caves);
    if b == [] {
      assert p == setup;
    } else if |p| > SNAPSHOT_LIMIT {
      SecondListRefused(setup, master, caves);
    } else if S.EndMode(setup, 0) == S.Code {
      SecondReadAgrees(setup, master, caves);
    } else if S.EndMode(setup, 0) == S.InComment {
      ListedBehindComment(setup, master, caves);
      var a := Extend([], Declared(setup));
      assert |b| == 1 ==> b[1..] + [b[0]] == b;
      assert |b| > 1 ==> (a + (b[1..] + [b[0]]))[|a|] == b[1] && (a + b)[|a|] == b[0];
    } else {
      LostDeclared(setup, master, caves);
      assert Declared(setup) + [] == Declared(setup);
    }
  }

  // ---- a file that is patched again and again ----

  function OneMod(id: uint64): T.Table {
    T.Table([], [], [T.Entry("", id, "", [T.Punct('=')], T.Unflagged([]), [])], [])
  }

  lemma OneModOk(id: uint64)
    requires id != 0
    ensures T.TableOk(OneMod(id)) && T.KeptMods(OneMod(id).entries) == [id]
  {
    hide T.OtherKey;
    var e := OneMod(id).entries[0];
    assert T.Quiet(T.Punct('='), 1, true);
    assert T.QuietAll(e.gap, 1, true);
    assert T.EntryOk(e);
    assert T.KeptMods([]) == [] && [id] + [] == [id];
  }

  lemma OneModSmall(id: uint64)
    ensures |T.PrintTable(OneMod(id))| <= 40 && |S.Render([id])| <= 40
  {
    hide Print;
    IdLength(id);
    var tab := OneMod(id);
    var e := tab.entries[0];
    T.OneItem(T.Punct('='));
    assert T.PrintItems([]) == "" && |T.PrintItems(e.gap)| == 1;
    hide T.PrintItems;
    assert T.PrintBody(e.body) == "";
    hide T.PrintBody;
    assert |T.PrintEntry(e)| <= 38;
    hide T.PrintEntry;
    assert tab.entries[1..] == [] && |T.PrintEntries(tab.entries)| == |T.PrintEntry(e)|;
    hide T.PrintEntries;
    assert S.Render([id]) == S.CALL_DQ + Print(id) + S.CLOSE + S.Render([]);
  }

  /** With nothing declared and one mod enabled, that mod is missing. */
  lemma OneMissing(setup: string, id: uint64)
    requires id != 0 && Declared(setup) == []
    ensures Missing(setup, T.PrintTable(OneMod(id)), "") == [id]
  {
    OneModOk(id);
    OneModSmall(id);
    T.TableScanned(OneMod(id));
    hide T.PrintTable, T.TableOk, T.KeptMods, S.Scan;
    var m := T.PrintTable(OneMod(id));
    assert Overridden(m, "") == [id] + [] == [id];
    hide Overridden, Declared;
    assert [] + [id] == [id] && [id][1..] == [] && [] + [id] == [id];
    assert Extend([], [id]) == Extend([id], []) == [id];
    assert Without([id], []) == [id] + Without([], []) == [id];
  }

  /** A setup file that ends in an unfinished comment: every read finds the enabled mod missing again. */
  lemma UnfinishedCommentRepeats(id: uint64)
    requires id != 0
    ensures var m := T.PrintTable(OneMod(id));
            Missing("--", m, "") == [id] && Missing(Patched("--", m, ""), m, "") == [id]
  {
    var m := T.PrintTable(OneMod(id));
    assert CommentAt("--", 0) && LineEnd("--", 2) == 2;
    assert S.TurnAt("--", 0) == S.Turn(2, [], S.InComment);
    assert S.EndMode("--", 0) == S.InComment && S.Scan("--", 0) == [];
    hide S.TurnAt, S.EndMode, S.Scan, S.Render, T.PrintTable, Missing;
    OneMissing("--", id);
    OneModSmall(id);
    LostDeclared("--", m, "");
    OneMissing(Patched("--", m, ""), id);
  }
}
