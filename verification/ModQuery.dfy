/** The request for the remote update times of mods, assembled in a fixed buffer. */
module ModQuery {
  import opened Bridge
  import opened Decimal
  import opened LuaText

  /** The size of the buffer. */
  const BUFFER := 65536

  datatype Outcome = NoRequest | Sent(payload: string) | Panic

  function Entry(index: nat, id: uint64): string {
    "&publishedfileids[" + Print(index) + "]=" + Print(id)
  }

  /** The request body for a list of mods. */
  function Request(ids: seq<uint64>): string {
    "itemcount=" + Print(|ids|) + Entries(ids)
  }

  function Entries(ids: seq<uint64>): string {
    if ids == [] then "" else Entries(ids[..|ids| - 1]) + Entry(|ids| - 1, ids[|ids| - 1])
  }

  // ---- what the request says ----

  function IdPairs(ids: seq<uint64>): seq<Pair> {
    if ids == [] then []
    else IdPairs(ids[..|ids| - 1]) + [IdPair(|ids| - 1, ids[|ids| - 1])]
  }

  function IdPair(index: nat, id: uint64): Pair {
    Pair("publishedfileids[" + Print(index) + "]", Print(id))
  }

  /** The request as a form: a count, then the IDs under their indices. */
  function RequestPairs(ids: seq<uint64>): seq<Pair> {
    [Pair("itemcount", Print(|ids|))] + IdPairs(ids)
  }

  function Added(p: Pair): string {
    "&" + (p.key + ("=" + p.val))
  }

  lemma Regroup4(a: string, b: string, c: string, d: string)
    ensures a + ("=" + (b + (c + d))) == a + ("=" + (b + c)) + d
  {
  }

  lemma Regroup2(a: string, b: string, c: string)
    ensures a + (b + c) == a + b + c
  {
  }

  lemma TailOne(p: Pair)
    ensures JoinTail([]) == "" && JoinTail([p]) == Added(p)
  {
    Unfold([p]);
    assert [p][1..] == [] && p.val + "" == p.val;
  }

  lemma {:induction false} TailMore(ps: seq<Pair>, p: Pair)
    ensures JoinTail(ps + [p]) == JoinTail(ps) + Added(p)
    ensures ps != [] ==> Join(ps + [p]) == Join(ps) + Added(p)
    decreases |ps|
  {
    hide Join, JoinTail, Added;
    TailOne(p);
    if ps == [] {
      assert ps + [p] == [p];
    } else {
      assert (ps + [p])[1..] == ps[1..] + [p];
      TailMore(ps[1..], p);
      Unfold(ps);
      Unfold(ps + [p]);
      Regroup4(ps[0].key, ps[0].val, JoinTail(ps[1..]), Added(p));
      Regroup2("&", Join(ps), Added(p));
    }
  }

  lemma EntryAsPair(index: nat, id: uint64)
    ensures Entry(index, id) == Added(IdPair(index, id))
  {
    hide Print;
    assert "&publishedfileids[" == "&" + "publishedfileids[" && "]=" == "]" + "=";
  }

  lemma {:induction false} EntriesAsPairs(head: Pair, ids: seq<uint64>)
    ensures Join([head] + IdPairs(ids)) == Join([head]) + Entries(ids)
    decreases |ids|
  {
    hide Join, Print, Entry, IdPair, Added;
    if ids == [] {
      assert [head] + IdPairs(ids) == [head];
    } else {
      var k := |ids| - 1;
      var p := IdPair(k, ids[k]);
      EntriesAsPairs(head, ids[..k]);
      var ps := [head] + IdPairs(ids[..k]);
      TailMore(ps, p);
      EntryAsPair(k, ids[k]);
      Regroup2(Join([head]), Entries(ids[..k]), Added(p));
      assert [head] + IdPairs(ids) == ps + [p];
    }
  }

  lemma KeyIsPlain(index: nat, id: uint64)
    ensures Plain(IdPair(index, id))
  {
    NumeralIsPlain("x", id);
    var key := "publishedfileids[" + Print(index) + "]";
    forall k | 0 <= k < |key|
      ensures key[k] != '='
    {
      if 17 <= k < 17 + |Print(index)| {
        assert key[k] == Print(index)[k - 17] && IsDigit(Print(index)[k - 17]);
      } else if k < 17 {
        assert key[k] == "publishedfileids["[k];
      }
    }
  }

  lemma {:induction false} AllPlain(ids: seq<uint64>)
    ensures forall k :: 0 <= k < |IdPairs(ids)| ==> Plain(IdPairs(ids)[k])
    decreases |ids|
  {
    hide Plain, IdPair;
    if ids != [] {
      AllPlain(ids[..|ids| - 1]);
      KeyIsPlain(|ids| - 1, ids[|ids| - 1]);
    }
  }

  lemma CountText(n: string)
    ensures Join([Pair("itemcount", n)]) == "itemcount=" + n
  {
    var head := Pair("itemcount", n);
    Unfold([head]);
    TailOne(head);
    hide Join, JoinTail;
    assert [head][1..] == [] && n + "" == n;
    Regroup2("itemcount", "=", n);
    assert "itemcount=" == "itemcount" + "=";
  }

  /** Read as a form, the request gives the count and every ID under its index, in order and nothing else. */
  lemma RequestReads(ids: seq<uint64>)
    ensures Pairs(Request(ids), 0) == RequestPairs(ids)
  {
    var head := Pair("itemcount", Print(|ids|));
    NumeralIsPlain("itemcount", |ids|);
    hide Join, Pairs, Plain, Print, Entries, JoinTail, IdPairs, Entry, At;
    EntriesAsPairs(head, ids);
    CountText(Print(|ids|));
    AllPlain(ids);
    AtWhole(Request(ids));
    JoinedPairs(Request(ids), 0, RequestPairs(ids));
  }

  /** Which pairs these are: the count first, and the ID of every mod under its index. */
  lemma {:induction false} PairsAre(ids: seq<uint64>, k: nat)
    requires k < |ids|
    ensures |RequestPairs(ids)| == |ids| + 1 && RequestPairs(ids)[0] == Pair("itemcount", Print(|ids|))
    ensures RequestPairs(ids)[k + 1] == Pair("publishedfileids[" + Print(k) + "]", Print(ids[k]))
    decreases |ids|
  {
    hide Print;
    var n := |ids| - 1;
    if k < n {
      PairsAre(ids[..n], k);
    } else if n > 0 {
      PairsAre(ids[..n], 0);
    }
  }

  // ---- the buffer ----

  class Builder {
    const buffer: array<char>
    var cursor: nat

    constructor ()
      ensures buffer.Length == BUFFER && cursor == 0 && fresh(buffer)
    {
      buffer := new char[BUFFER];
      cursor := 0;
    }

    /** The buffer holds text and the cursor stands behind it. */
    ghost predicate Holds(text: string)
      reads this, buffer
    {
      buffer.Length == BUFFER && cursor == |text| <= BUFFER && buffer[..cursor] == text
    }

    /** The cursor stands behind the end, because the text outgrew the buffer. */
    ghost predicate Overrun(text: string)
      reads this
    {
      buffer.Length == BUFFER && cursor > BUFFER && |text| > BUFFER
    }

    /** The cursor stands at the end, because a copy was cut off there. */
    ghost predicate Cut(text: string)
      reads this
    {
      buffer.Length == BUFFER && cursor == BUFFER && |text| > BUFFER
    }

    /** Copies what fits. */
    method Copy(s: string, ghost text: string)
      requires Holds(text)
      modifies `cursor, buffer
      ensures |text + s| <= BUFFER ==> Holds(text + s)
      ensures |text + s| > BUFFER ==> Cut(text + s)
    {
      var n := if |s| <= BUFFER - cursor then |s| else BUFFER - cursor;
      forall k | 0 <= k < n {
        buffer[cursor + k] := s[k];
      }
      cursor := cursor + n;
    }

    /** Appends behind the cursor: in place when it fits, else in memory of its own, and the cursor moves all
        the same. */
    method AppendNumber(s: string, ghost text: string)
      requires s != "" && (Holds(text) || Cut(text))
      modifies `cursor, buffer
      ensures |text + s| <= BUFFER ==> Holds(text + s)
      ensures |text + s| > BUFFER ==> Overrun(text + s)
    {
      if |s| <= BUFFER - cursor {
        forall k | 0 <= k < |s| {
          buffer[cursor + k] := s[k];
        }
      }
      cursor := cursor + |s|;
    }

    /** Writes the count at the start of the buffer. */
    method AppendCount(n: nat) returns (ghost text: string)
      requires buffer.Length == BUFFER && cursor == 0
      modifies `cursor, buffer
      ensures text == "itemcount=" + Print(n) && (Holds(text) || Overrun(text))
    {
      hide Print;
      Copy("itemcount=", "");
      text := "itemcount=" + Print(n);
      AppendNumber(Print(n), "itemcount=");
    }

    /** Takes the request out of the buffer, if the cursor is still inside. */
    method Finish(ghost text: string) returns (r: Outcome)
      requires Holds(text) || Overrun(text)
      ensures r == if |text| <= BUFFER then Sent(text) else Panic
    {
      if cursor > BUFFER {
        return Panic;
      }
      r := Sent(buffer[..cursor]);
    }

    /** Appends one mod. Writing at or slicing from behind the end of the buffer panics. */
    method AppendEntry(index: nat, id: uint64, ghost text: string) returns (panic: bool)
      requires Holds(text) || Overrun(text)
      modifies `cursor, buffer
      ensures |text + Entry(index, id)| <= BUFFER ==> !panic && Holds(text + Entry(index, id))
      ensures |text + Entry(index, id)| > BUFFER ==> panic || Overrun(text + Entry(index, id))
    {
      hide Print;
      ghost var t0 := text + "&publishedfileids[";
      ghost var t1 := t0 + Print(index);
      ghost var t2 := t1 + "]=";
      ghost var t3 := t2 + Print(id);
      assert t3 == text + Entry(index, id);
      hide Entry;
      if cursor >= BUFFER {
        return true;
      }
      Copy("&publishedfileids[", text);
      AppendNumber(Print(index), t0);
      if cursor > BUFFER {
        return true;
      }
      assert |t1| <= BUFFER;
      Copy("]=", t1);
      AppendNumber(Print(id), t2);
      return false;
    }
  }

  lemma {:induction false} EntriesGrow(ids: seq<uint64>, k: nat)
    requires k <= |ids|
    ensures |Entries(ids[..k])| <= |Entries(ids)|
    decreases |ids|
  {
    hide Entry;
    if k == |ids| {
      assert ids[..k] == ids;
    } else {
      var shorter := ids[..|ids| - 1];
      assert shorter[..k] == ids[..k];
      EntriesGrow(shorter, k);
    }
  }

  lemma {:induction false} EntriesSize(ids: seq<uint64>)
    ensures 22 * |ids| <= |Entries(ids)|
    ensures |ids| <= 10000 ==> |Entries(ids)| <= 44 * |ids|
    decreases |ids|
  {
    if ids != [] {
      var k := |ids| - 1;
      EntriesSize(ids[..k]);
      IdLength(ids[k]);
      if k < 10000 {
        PrintLength(k, 4);
      }
      hide Print;
      assert |Entry(k, ids[k])| == 20 + |Print(k)| + |Print(ids[k])|;
    }
  }

  /** Whatever the IDs are, 1488 mods always fit the buffer and 2979 never do. */
  lemma RequestSize(ids: seq<uint64>)
    ensures |ids| <= 1488 ==> |Request(ids)| <= BUFFER
    ensures |ids| >= 2979 ==> |Request(ids)| > BUFFER
  {
    EntriesSize(ids);
    if |ids| <= 1488 {
      PrintLength(|ids|, 4);
    }
    hide Print;
  }

  /** Assembles the request. It is the right one exactly when it fits the buffer; a longer one never gets out. */
  method FetchRemoteModEpochs(b: Builder, ids: seq<uint64>) returns (r: Outcome)
    requires b.buffer.Length == BUFFER && b.cursor == 0
    modifies b, b.buffer
    ensures r == if ids == [] then NoRequest else if |Request(ids)| <= BUFFER then Sent(Request(ids)) else Panic
  {
    hide Print, Entry, Builder.Holds, Builder.Overrun;
    if |ids| == 0 {
      return NoRequest;
    }
    ghost var start := b.AppendCount(|ids|);
    ghost var text := start;
    assert start + Entries(ids[..0]) == start;
    for k := 0 to |ids|
      invariant text == start + Entries(ids[..k])
      invariant b.Holds(text) || b.Overrun(text)
    {
      assert ids[..k + 1][..k] == ids[..k];
      var panic := b.AppendEntry(k, ids[k], text);
      text := text + Entry(k, ids[k]);
      if panic {
        EntriesGrow(ids, k + 1);
        return Panic;
      }
    }
    assert ids[..|ids|] == ids;
    r := b.Finish(text);
  }
}
