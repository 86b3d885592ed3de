/** The comparison that tells an untouched configuration file from an edited one, whatever its newlines. */
module ConfigCompare {

  predicate IsNewline(c: char) {
    c == '\r' || c == '\n'
  }

  /** The text without its newline characters. */
  function Squeezed(t: string): (r: string)
    ensures forall k :: 0 <= k < |r| ==> !IsNewline(r[k])
  {
    if t == "" then ""
    else if IsNewline(t[0]) then Squeezed(t[1..])
    else [t[0]] + Squeezed(t[1..])
  }

  lemma SqueezedStep(t: string, i: nat)
    requires i < |t|
    ensures Squeezed(t[i..]) == if IsNewline(t[i]) then Squeezed(t[i + 1..]) else [t[i]] + Squeezed(t[i + 1..])
  {
    assert t[i..][0] == t[i] && t[i..][1..] == t[i + 1..];
  }

  method SkipNewlines(t: string, i: nat) returns (cursor: nat)
    requires i <= |t|
    ensures i <= cursor <= |t| && (cursor < |t| ==> !IsNewline(t[cursor]))
    ensures Squeezed(t[cursor..]) == Squeezed(t[i..])
  {
    cursor := i;
    while cursor < |t| && (t[cursor] == '\r' || t[cursor] == '\n')
      invariant i <= cursor <= |t| && Squeezed(t[cursor..]) == Squeezed(t[i..])
    {
      SqueezedStep(t, cursor);
      cursor := cursor + 1;
    }
  }

  /** Two cursors, each stepping over newlines: the answer is that of comparing the squeezed texts. */
  method IsFactoryDefault(file: string, template: string) returns (same: bool)
    ensures same <==> Squeezed(file) == Squeezed(template)
  {
    var i, j := 0, 0;
    assert file[0..] == file && template[0..] == template;
    while i < |file| || j < |template|
      invariant i <= |file| && j <= |template|
      invariant Squeezed(file) == Squeezed(template) <==> Squeezed(file[i..]) == Squeezed(template[j..])
      decreases |file| - i + (|template| - j)
    {
      i := SkipNewlines(file, i);
      j := SkipNewlines(template, j);
      if i == |file| && j == |template| {
        return true;
      }
      if i < |file| {
        SqueezedStep(file, i);
      }
      if j < |template| {
        SqueezedStep(template, j);
      }
      if i == |file| || j == |template| {
        return false;
      }
      if file[i] != template[j] {
        assert Squeezed(file[i..])[0] != Squeezed(template[j..])[0];
        return false;
      }
      assert Squeezed(file[i..])[1..] == Squeezed(file[i + 1..]);
      assert Squeezed(template[j..])[1..] == Squeezed(template[j + 1..]);
      i := i + 1;
      j := j + 1;
    }
    return true;
  }

  lemma {:induction false} SqueezedConcat(a: string, b: string)
    ensures Squeezed(a + b) == Squeezed(a) + Squeezed(b)
    decreases |a|
  {
    if a == "" {
      assert a + b == b;
    } else {
      assert (a + b)[1..] == a[1..] + b;
      SqueezedConcat(a[1..], b);
    }
  }

  /** Text whose line ends were rewritten, here from LF to CRLF, still counts as the same. */
  function WithCarriageReturns(t: string): string {
    if t == "" then "" else (if t[0] == '\n' then "\r\n" else [t[0]]) + WithCarriageReturns(t[1..])
  }

  lemma {:induction false} LineEndsDoNotMatter(t: string)
    ensures Squeezed(WithCarriageReturns(t)) == Squeezed(t)
  {
    if t != "" {
      var head := if t[0] == '\n' then "\r\n" else [t[0]];
      LineEndsDoNotMatter(t[1..]);
      SqueezedConcat(head, WithCarriageReturns(t[1..]));
      assert Squeezed(head) == Squeezed([t[0]]) by {
        assert head[1..] == if t[0] == '\n' then "\n" else "";
        assert [t[0]][1..] == "";
      }
      SqueezedConcat([t[0]], t[1..]);
      assert [t[0]] + t[1..] == t;
    }
  }

  /** Text laid out with line ends of any kind, even several or none, between its parts. */
  function Laid(parts: seq<string>, ends: seq<string>): string
    requires |parts| == |ends|
  {
    if parts == [] then "" else parts[0] + (ends[0] + Laid(parts[1..], ends[1..]))
  }

  function Joined(parts: seq<string>): string {
    if parts == [] then "" else parts[0] + Joined(parts[1..])
  }

  predicate Parted(parts: seq<string>, ends: seq<string>) {
    && |parts| == |ends|
    && (forall k, c :: 0 <= k < |parts| && c in parts[k] ==> c !in "\r\n")
    && (forall k, c :: 0 <= k < |ends| && c in ends[k] ==> c in "\r\n")
  }

  lemma {:induction false} SqueezedPart(t: string)
    ensures (forall c :: c in t ==> c !in "\r\n") ==> Squeezed(t) == t
    ensures (forall c :: c in t ==> c in "\r\n") ==> Squeezed(t) == ""
    decreases |t|
  {
    if t != "" {
      SqueezedPart(t[1..]);
      assert t[0] in t && forall c :: c in t[1..] ==> c in t;
      assert [t[0]] + t[1..] == t;
    }
  }

  /** Squeezing takes out the line ends and nothing else. */
  lemma {:induction false} SqueezedIsJoined(parts: seq<string>, ends: seq<string>)
    requires Parted(parts, ends)
    ensures Squeezed(Laid(parts, ends)) == Joined(parts)
    decreases |parts|
  {
    if parts != [] {
      var rest := Laid(parts[1..], ends[1..]);
      SqueezedPart(parts[0]);
      SqueezedPart(ends[0]);
      SqueezedConcat(parts[0], ends[0] + rest);
      SqueezedConcat(ends[0], rest);
      SqueezedIsJoined(parts[1..], ends[1..]);
      assert "" + Squeezed(rest) == Squeezed(rest);
    }
  }

  /** Two files count as the same precisely when they are without their line ends, however each is laid out. */
  method SameWhateverTheLineEnds(parts: seq<string>, ends: seq<string>, parts': seq<string>, ends': seq<string>)
    returns (same: bool)
    requires Parted(parts, ends) && Parted(parts', ends')
    ensures same <==> Joined(parts) == Joined(parts')
  {
    SqueezedIsJoined(parts, ends);
    SqueezedIsJoined(parts', ends');
    same := IsFactoryDefault(Laid(parts, ends), Laid(parts', ends'));
  }
}
