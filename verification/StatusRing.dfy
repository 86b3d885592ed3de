/** The ring of slots the status page is written into in place while readers keep pointers to older ones. */
module StatusRing {
  import opened GameState
  import opened StatusPage

  const DEPTH := 32

  // ---- the ring as a value ----

  /** What each slot holds, the 32-bit refresh counter, and the slot a reader is pointed to; before the first
      refresh that is none. */
  datatype Ring = Ring(slots: seq<string>, cursor: UInt32, current: int)

  predicate ValidRing(r: Ring) {
    |r.slots| == DEPTH && (r.current == -1 || 0 <= r.current < DEPTH)
  }

  function Refreshed(r: Ring, text: string): (r': Ring)
    requires ValidRing(r)
    ensures ValidRing(r')
  {
    var slot := r.cursor % DEPTH;
    Ring(r.slots[slot := text], (r.cursor + 1) % 0x1_0000_0000, slot)
  }

  function RefreshedAll(r: Ring, texts: seq<string>): (r': Ring)
    requires ValidRing(r)
    ensures ValidRing(r')
    decreases |texts|
  {
    if texts == [] then r else RefreshedAll(Refreshed(r, texts[0]), texts[1..])
  }

  /** How many refreshes from now the slot k is written. */
  function Ahead(cursor: UInt32, k: nat): (i: int)
    requires k < DEPTH
    ensures 0 <= i < DEPTH
  {
    var slot := cursor % DEPTH;
    if slot <= k then k - slot else k + DEPTH - slot
  }

  /** The counter wraps at a multiple of the depth, so the slots follow each other across the wrap too. */
  lemma NextSlot(cursor: UInt32)
    ensures (cursor + 1) % 0x1_0000_0000 % DEPTH == if cursor % DEPTH == DEPTH - 1 then 0 else cursor % DEPTH + 1
  {
    if cursor == 0xFFFF_FFFF {
    } else {
      assert (cursor + 1) % 0x1_0000_0000 == cursor + 1;
    }
  }

  /** What the slots hold after up to 32 refreshes, wrap-around of the counter included: the i-th refresh from
      now writes slot (cursor + i) % 32. */
  lemma {:induction false} AfterRefreshes(r: Ring, texts: seq<string>, k: nat)
    requires ValidRing(r) && k < DEPTH && |texts| <= DEPTH
    ensures var i := Ahead(r.cursor, k);
            RefreshedAll(r, texts).slots[k] == if i < |texts| then texts[i] else r.slots[k]
    decreases |texts|
  {
    if texts != [] {
      NextSlot(r.cursor);
      AfterRefreshes(Refreshed(r, texts[0]), texts[1..], k);
    }
  }

  /** A reader that took the pointer right after a refresh sees exactly what that refresh rendered through the
      next 31 refreshes, and the 32nd replaces it. */
  lemma SnapshotIsStable(r: Ring, text: string, texts: seq<string>)
    requires ValidRing(r) && |texts| <= DEPTH
    ensures var taken := Refreshed(r, text); var later := RefreshedAll(taken, texts);
            && taken.slots[taken.current] == text
            && (|texts| < DEPTH ==> later.slots[taken.current] == text)
            && (|texts| == DEPTH ==> later.slots[taken.current] == texts[DEPTH - 1])
  {
    var taken := Refreshed(r, text);
    JustWritten(r, text);
    hide Refreshed, RefreshedAll, Ahead;
    AfterRefreshes(taken, texts, taken.current);
  }

  lemma JustWritten(r: Ring, text: string)
    requires ValidRing(r)
    ensures var taken := Refreshed(r, text);
            && 0 <= taken.current < DEPTH && taken.slots[taken.current] == text
            && Ahead(taken.cursor, taken.current) == DEPTH - 1
  {
    NextSlot(r.cursor);
  }

  /** The new rendering is what a reader is pointed to from then on. */
  lemma {:induction false} NewestIsCurrent(r: Ring, texts: seq<string>)
    requires ValidRing(r) && texts != []
    ensures var later := RefreshedAll(r, texts); later.current >= 0 && later.slots[later.current] == texts[|texts| - 1]
    decreases |texts|
  {
    if |texts| > 1 {
      NewestIsCurrent(Refreshed(r, texts[0]), texts[1..]);
    } else {
      assert texts[1..] == [];
    }
  }

  // ---- the ring in memory ----

  /** One block of memory, cut into slots; a slot's text starts at the slot's first byte. */
  class Slots {
    const block: array<char>
    const lengths: array<nat>
    var cursor: UInt32
    var current: int

    ghost predicate Shape()
      reads lengths
    {
      && block.Length == DEPTH * SLOT && lengths.Length == DEPTH
      && (forall k :: 0 <= k < DEPTH ==> lengths[k] <= SLOT)
    }

    ghost predicate Valid()
      reads this, lengths
    {
      Shape() && (current == -1 || 0 <= current < DEPTH)
    }

    ghost function Text(k: nat): (text: string)
      requires Shape() && k < DEPTH
      reads block, lengths
      ensures |text| == lengths[k]
    {
      block[k * SLOT..k * SLOT + lengths[k]]
    }

    ghost function Texts(): (texts: seq<string>)
      requires Shape()
      reads block, lengths
      ensures |texts| == DEPTH && forall k: nat :: k < DEPTH ==> texts[k] == Text(k)
    {
      seq(DEPTH, k requires 0 <= k < DEPTH && Shape() reads block, lengths => Text(k))
    }

    ghost function Contents(): (r: Ring)
      requires Valid()
      reads this, block, lengths
      ensures ValidRing(r)
    {
      Ring(Texts(), cursor, current)
    }

    /** Where readers are pointed to, every field of this status can be read. */
    ghost predicate ReadersFind(s: Status)
      requires Valid()
      reads this, block, lengths
    {
      current >= 0 && PageShows(Text(current), s)
    }

    constructor ()
      ensures Valid() && fresh(block) && fresh(lengths)
      ensures cursor == 0 && current == -1 && forall k: nat :: k < DEPTH ==> Text(k) == ""
    {
      block := new char[DEPTH * SLOT];
      lengths := new nat[DEPTH](_ => 0);
      cursor := 0;
      current := -1;
    }

    /** Appends to one slot in place: the slot grows by the text and no other slot changes. */
    method Append(k: nat, text: string)
      requires Shape() && k < DEPTH && lengths[k] + |text| <= SLOT
      modifies block, lengths
      ensures Shape()
      ensures Text(k) == old(Text(k)) + text && lengths[k] == old(lengths[k]) + |text|
      ensures forall j: nat :: j < DEPTH && j != k ==> Text(j) == old(Text(j))
    {
      var start := k * SLOT + lengths[k];
      for i := 0 to |text|
        modifies block
        invariant forall p :: 0 <= p < i ==> block[start + p] == text[p]
        invariant forall p :: 0 <= p < block.Length && !(start <= p < start + i) ==> block[p] == old(block[p])
      {
        block[start + i] := text[i];
      }
      lengths[k] := lengths[k] + |text|;
    }

    method AppendLocks(k: nat, s: Status)
      requires Shape() && k < DEPTH && lengths[k] + 260 <= SLOT
      modifies block, lengths
      ensures Shape() && lengths[k] <= old(lengths[k]) + 260
      ensures Text(k) == WithLocks(old(Text(k)), s)
      ensures forall j: nat :: j < DEPTH && j != k ==> Text(j) == old(Text(j))
    {
      hide Text, Bool, Num, Num64, Signed;
      Append(k, "{\"status\":\"success\",\"locks\":{\"game_upd\":");
      Append(k, Bool(s.gameUpd));
      Append(k, ",\"mod_upd\":");
      Append(k, Bool(s.modUpd));
      Append(k, ",\"master_rdy\":");
      Append(k, Bool(s.masterRdy));
      Append(k, ",\"caves_rdy\":");
      Append(k, Bool(s.cavesRdy));
      Append(k, "},\"performance\":{\"baseline_cycles\":");
      Append(k, Num64(s.baselineCycles));
      Append(k, ",\"current_cycles\":");
      Append(k, Num64(s.currentCycles));
    }

    method AppendEnv(k: nat, s: Status)
      requires Shape() && k < DEPTH && lengths[k] + 300 <= SLOT
      modifies block, lengths
      ensures Shape() && lengths[k] <= old(lengths[k]) + 300
      ensures Text(k) == WithEnv(old(Text(k)), s)
      ensures forall j: nat :: j < DEPTH && j != k ==> Text(j) == old(Text(j))
    {
      hide Text, Bool, Num, Num64, Signed;
      var e := s.view.env;
      Append(k, "},\"data\":{\"players\":");
      Append(k, Num(e.players));
      Append(k, ",\"enable_caves\":");
      Append(k, Bool(s.enableCaves));
      Append(k, ",\"enable_master\":");
      Append(k, Bool(s.enableMaster));
      Append(k, ",\"cycles\":");
      Append(k, Num(e.cycles));
      Append(k, ",\"season\":");
      Append(k, Num(e.season));
      Append(k, ",\"phase\":");
      Append(k, Num(e.phase));
      Append(k, ",\"rem_days\":");
      Append(k, Num(e.remDays));
      Append(k, ",\"temp\":");
      Append(k, Signed(e.temp));
    }

    method AppendWeather(k: nat, s: Status)
      requires Shape() && k < DEPTH && lengths[k] + 120 <= SLOT
      modifies block, lengths
      ensures Shape() && lengths[k] <= old(lengths[k]) + 120
      ensures Text(k) == WithWeather(old(Text(k)), s)
      ensures forall j: nat :: j < DEPTH && j != k ==> Text(j) == old(Text(j))
    {
      hide Text, Bool, Num, Num64, Signed;
      var e := s.view.env;
      Append(k, ",\"is_raining\":");
      Append(k, Bool(e.isRaining));
      Append(k, ",\"is_snowing\":");
      Append(k, Bool(e.isSnowing));
      Append(k, ",\"moon_phase\":");
      Append(k, Num(e.moonPhase));
      Append(k, ",\"nightmare\":");
      Append(k, Num(e.nightmare));
      Append(k, ",\"alter_awake\":");
      Append(k, Bool(e.alterAwake));
    }

    method AppendTimers(k: nat, t: Timers)
      requires Shape() && k < DEPTH && lengths[k] + 180 <= SLOT
      modifies block, lengths
      ensures Shape() && lengths[k] <= old(lengths[k]) + 180
      ensures Text(k) == WithTimers(old(Text(k)), t)
      ensures forall j: nat :: j < DEPTH && j != k ==> Text(j) == old(Text(j))
    {
      hide Text, Bool, Num, Num64, Signed;
      Append(k, ",\"boss_timers\":{");
      Append(k, "\"deerclops\":");
      Append(k, Num(t.deerclops));
      Append(k, ",\"bearger\":");
      Append(k, Num(t.bearger));
      Append(k, ",\"moose\":");
      Append(k, Num(t.moose));
      Append(k, ",\"dragonfly\":");
      Append(k, Num(t.dragonfly));
      Append(k, ",\"beequeen\":");
      Append(k, Num(t.beequeen));
      Append(k, ",\"klaus\":");
      Append(k, Num(t.klaus));
    }

    method AppendMoreTimers(k: nat, t: Timers)
      requires Shape() && k < DEPTH && lengths[k] + 150 <= SLOT
      modifies block, lengths
      ensures Shape() && lengths[k] <= old(lengths[k]) + 150
      ensures Text(k) == WithMoreTimers(old(Text(k)), t)
      ensures forall j: nat :: j < DEPTH && j != k ==> Text(j) == old(Text(j))
    {
      hide Text, Bool, Num, Num64, Signed;
      Append(k, ",\"toadstool\":");
      Append(k, Num(t.toadstool));
      Append(k, ",\"fuelweaver\":");
      Append(k, Num(t.fuelweaver));
      Append(k, ",\"malbatross\":");
      Append(k, Num(t.malbatross));
      Append(k, ",\"lordfruitfly\":");
      Append(k, Num(t.lordfruitfly));
      Append(k, ",\"antlion\":");
      Append(k, Num(t.antlion));
      Append(k, "}}}");
    }

    method RenderInto(k: nat, s: Status)
      requires Shape() && k < DEPTH
      modifies block, lengths
      ensures Shape() && Text(k) == Render(s)
      ensures forall j: nat :: j < DEPTH && j != k ==> Text(j) == old(Text(j))
    {
      hide Text, WithLocks, WithEnv, WithWeather, WithTimers, WithMoreTimers;
      Clear(k);
      AppendLocks(k, s);
      AppendEnv(k, s);
      AppendWeather(k, s);
      AppendTimers(k, s.view.timers);
      AppendMoreTimers(k, s.view.timers);
    }

    /** Renders the status into the next slot, in place, and points readers to it. */
    method FlushServerState(s: Status)
      requires Valid()
      modifies this, block, lengths
      ensures Valid() && Contents() == Refreshed(old(Contents()), Render(s))
      ensures ReadersFind(s)
    {
      hide Text, Render, PageShows;
      PageReads(s);
      ghost var before := Texts();
      var slot := NextCursor();
      RenderInto(slot, s);
      current := slot;
      assert Texts() == before[slot := Render(s)];
    }

    /** Counts the refresh and picks its slot. */
    method NextCursor() returns (slot: nat)
      modifies this`cursor
      ensures cursor == (old(cursor) + 1) % 0x1_0000_0000 && slot == old(cursor) % DEPTH
    {
      cursor := (cursor + 1) % 0x1_0000_0000;
      slot := (cursor - 1) % 0x1_0000_0000 % DEPTH;
      if old(cursor) < 0xFFFF_FFFF {
        assert cursor == old(cursor) + 1;
      } else {
        assert cursor == 0;
      }
    }

    method Clear(k: nat)
      requires Shape() && k < DEPTH
      modifies lengths
      ensures Shape() && lengths[k] == 0 && Text(k) == ""
      ensures forall j: nat :: j < DEPTH && j != k ==> Text(j) == old(Text(j))
    {
      lengths[k] := 0;
    }
  }
}
