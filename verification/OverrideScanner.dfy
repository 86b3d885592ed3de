/** The scanner of modoverrides.lua: it tracks brace depth, the mod whose table is open, and whether
    that table disabled it. */
module OverrideScanner {
  import opened Decimal
  import opened LineText
  import opened LuaText

  const ENABLED := "enabled"

  /** depth counts open braces (it goes negative on unbalanced text), id is the open mod or 0, off says
      that it was disabled, and out lists the mods reported so far. */
  datatype State = State(depth: int, id: uint64, off: bool, out: seq<uint64>)

  const Start := State(0, 0, false, [])

  datatype Move = Move(next: nat, state: State)

  predicate IsSpace(c: char) {
    c == ' ' || c == '\t' || c == '\r' || c == '\n'
  }

  /** The bytes allowed between a bracket and the key inside it. */
  predicate IsPad(c: char) {
    c == ' ' || c == '\t' || IsQuote(c)
  }

  /** Both, spelled out. */
  lemma Gaps(c: char)
    ensures IsSpace(c) <==> c in " \t\r\n"
    ensures IsPad(c) <==> c in " \t\"'"
  {
  }

  function SkipSpace(t: string, i: nat): (j: nat)
    requires i <= |t|
    ensures i <= j <= |t|
    decreases |t| - i
  {
    if i < |t| && IsSpace(t[i]) then SkipSpace(t, i + 1) else i
  }

  function SkipPad(t: string, i: nat): (j: nat)
    requires i <= |t|
    ensures i <= j <= |t|
    decreases |t| - i
  {
    if i < |t| && IsPad(t[i]) then SkipPad(t, i + 1) else i
  }

  datatype Key = NoKey | Key(id: uint64, next: nat)

  /** A bracketed mod key at i, where a bracket stands. */
  function KeyAt(t: string, i: nat): (k: Key)
    requires i < |t|
    ensures k.Key? ==> i < k.next <= |t|
  {
    var j := SkipPad(t, i + 1);
    if !At(t, j, WORKSHOP) then NoKey
    else
      var e := DigitsEnd(t, j + 9);
      var k := SkipPad(t, e);
      if e > j + 9 && k < |t| && t[k] == ']' then Key(Wrapped(t[j + 9..e]), k + 1) else NoKey
  }

  datatype Flag = NoFlag | Flag(value: nat)

  /** A bare field named enabled at i with its equals sign; value is where its value starts. */
  function FlagAt(t: string, i: nat): (f: Flag)
    requires i < |t|
    ensures f.Flag? ==> i < f.value <= |t|
  {
    if !At(t, i, ENABLED) then NoFlag
    else if i > 0 && IsVarChar(t[i - 1]) then NoFlag
    else if i + 7 < |t| && IsVarChar(t[i + 7]) then NoFlag
    else
      var j := SkipSpace(t, i + 7);
      if j < |t| && t[j] == '=' then Flag(SkipSpace(t, j + 1)) else NoFlag
  }

  predicate SaysFalse(t: string, i: nat) {
    i < |t| && (t[i] == 'f' || t[i] == 'F')
  }

  function Close(s: State): State {
    if s.depth == 2 && s.id != 0 then
      State(1, 0, s.off, if s.off then s.out else s.out + [s.id])
    else
      s.(depth := s.depth - 1)
  }

  /** One turn of the scanner's outer loop. */
  function MoveAt(t: string, i: nat, s: State): (m: Move)
    requires i < |t|
    ensures i < m.next
  {
    var c := t[i];
    if IsSpace(c) then Move(i + 1, s)
    else if CommentAt(t, i) then Move(LineEnd(t, i + 2), s)
    else if IsQuote(c) then Move(StringEnd(t, i + 1, c).next, s)
    else if c == '{' then Move(i + 1, s.(depth := s.depth + 1))
    else if c == '}' then Move(i + 1, Close(s))
    else if c == '[' && s.depth == 1 && KeyAt(t, i).Key? then
      Move(KeyAt(t, i).next, s.(id := KeyAt(t, i).id, off := false))
    else if c == 'e' && s.depth == 2 && s.id != 0 && FlagAt(t, i).Flag? then
      Move(FlagAt(t, i).value, s.(off := s.off || SaysFalse(t, FlagAt(t, i).value)))
    else Move(i + 1, s)
  }

  function Scan(t: string, i: nat, s: State): State
    decreases |t| - i
  {
    if i >= |t| then s else Scan(t, MoveAt(t, i, s).next, MoveAt(t, i, s).state)
  }

  /** All mods reported for a text, in order, repetitions included. */
  function EnabledIds(t: string): seq<uint64> {
    Scan(t, 0, Start).out
  }

  /** What was reported stays reported, and ID 0 never is. */
  lemma {:induction false} ScanExtends(t: string, i: nat, s: State)
    ensures s.out <= Scan(t, i, s).out
    ensures 0 !in s.out ==> 0 !in Scan(t, i, s).out
    decreases |t| - i
  {
    if i < |t| {
      ScanExtends(t, MoveAt(t, i, s).next, MoveAt(t, i, s).state);
    }
  }
}
