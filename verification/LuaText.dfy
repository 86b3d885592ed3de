/** What the two Lua scanners of update.go share: comments, quoted strings, variable characters. */
module LuaText {
  import opened LineText

  const WORKSHOP := "workshop-"

  /** The text t holds p at position i. */
  predicate At(t: string, i: nat, p: string) {
    i + |p| <= |t| && t[i..i + |p|] == p
  }

  lemma AtChar(t: string, i: nat, p: string, k: nat)
    requires At(t, i, p) && k < |p|
    ensures i + k < |t| && t[i + k] == p[k]
  {
    assert t[i..i + |p|][k] == t[i + k];
  }

  lemma AtConcat(t: string, i: nat, a: string, b: string)
    ensures At(t, i, a + b) <==> At(t, i, a) && At(t, i + |a|, b)
    ensures At(t, i, a + b) ==> i + |a| + |b| <= |t|
  {
    if i + |a + b| <= |t| {
      var u := t[i..i + |a + b|];
      assert u[..|a|] == t[i..i + |a|] && u[|a|..] == t[i + |a|..i + |a| + |b|];
      assert u == u[..|a|] + u[|a|..];
      assert (a + b)[..|a|] == a && (a + b)[|a|..] == b;
    }
  }

  lemma AtSlice(t: string, i: nat, p: string)
    requires At(t, i, p)
    ensures i + |p| <= |t| && t[i..i + |p|] == p
  {
  }

  lemma AtWhole(t: string)
    ensures At(t, 0, t)
  {
    assert t[0..0 + |t|] == t;
  }

  lemma AtPrefix(s: string, p: string, i: nat, m: string)
    requires i + |m| <= |s|
    ensures At(s + p, i, m) <==> At(s, i, m)
  {
    assert (s + p)[i..i + |m|] == s[i..i + |m|];
  }

  predicate IsQuote(c: char) {
    c == '"' || c == '\''
  }

  /** The characters the lookup table marks as able to be part of a Lua name. */
  predicate IsVarChar(c: char) {
    '0' <= c <= '9' || 'A' <= c <= 'Z' || 'a' <= c <= 'z' || c == '_'
  }

  predicate CommentAt(t: string, i: nat) {
    i + 1 < |t| && t[i] == '-' && t[i + 1] == '-'
  }

  datatype StringTail = StringTail(next: nat, closed: bool)

  /** Where a quoted string whose body starts at i leaves the cursor. A backslash skips the byte after
      it even when the text ends there, so an unterminated string can leave the cursor at |t| + 1. */
  function StringEnd(t: string, i: nat, quote: char): (r: StringTail)
    ensures r.next >= i
    ensures r.closed ==> i < r.next <= |t| && t[r.next - 1] == quote
    ensures !r.closed ==> r.next >= |t|
    ensures !r.closed && i <= |t| ==> r.next <= |t| + 1
    decreases |t| - i
  {
    if i >= |t| then StringTail(i, false)
    else if t[i] == '\\' then StringEnd(t, i + 2, quote)
    else if t[i] == quote then StringTail(i + 1, true)
    else StringEnd(t, i + 1, quote)
  }

  /** Appending text does not move the end of a line that had already ended. */
  lemma {:induction false} LineEndPrefix(s: string, p: string, i: nat)
    requires i <= |s|
    ensures LineEnd(s + p, i) == if LineEnd(s, i) < |s| then LineEnd(s, i) else LineEnd(s + p, |s|)
    decreases |s| - i
  {
    if i < |s| {
      assert (s + p)[i] == s[i];
      if s[i] != '\n' {
        LineEndPrefix(s, p, i + 1);
      }
    }
  }

  /** Appending text does not move the end of a closed string; an open one goes on where it was. */
  lemma {:induction false} StringEndPrefix(s: string, p: string, i: nat, quote: char)
    ensures StringEnd(s + p, i, quote) ==
            if StringEnd(s, i, quote).closed then StringEnd(s, i, quote)
            else StringEnd(s + p, StringEnd(s, i, quote).next, quote)
    decreases |s| - i
  {
    if i < |s| {
      assert (s + p)[i] == s[i];
      if s[i] == '\\' {
        StringEndPrefix(s, p, i + 2, quote);
      } else if s[i] != quote {
        StringEndPrefix(s, p, i + 1, quote);
      }
    }
  }

  // ---- the loops both scanners run ----

  method SkipLine(text: string, i: nat) returns (cursor: nat)
    requires i <= |text|
    ensures cursor == LineEnd(text, i)
  {
    cursor := i;
    while cursor < |text| && text[cursor] != '\n'
      invariant i <= cursor <= |text| && LineEnd(text, cursor) == LineEnd(text, i)
    {
      cursor := cursor + 1;
    }
  }

  method SkipString(text: string, i: nat, quote: char) returns (cursor: nat)
    ensures cursor == StringEnd(text, i, quote).next
  {
    cursor := i;
    while cursor < |text|
      invariant i <= cursor && StringEnd(text, cursor, quote) == StringEnd(text, i, quote)
      decreases |text| - cursor
    {
      if text[cursor] == '\\' {
        cursor := cursor + 2;
      } else if text[cursor] == quote {
        return cursor + 1;
      } else {
        cursor := cursor + 1;
      }
    }
  }
}
