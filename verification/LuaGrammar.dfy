/** What the printed forms of both Lua files are made of. */
module LuaGrammar {
  import opened LineText
  import opened LuaText

  /** One character of a quoted string, or one behind a backslash. */
  datatype Lit = Plain(c: char) | Escaped(c: char)

  function PrintLits(ls: seq<Lit>): string {
    if ls == [] then ""
    else (if ls[0].Plain? then [ls[0].c] else ['\\', ls[0].c]) + PrintLits(ls[1..])
  }

  predicate IsWord(w: string) {
    w != "" && forall k :: 0 <= k < |w| ==> IsVarChar(w[k])
  }

  predicate LitOk(l: Lit, quote: char) {
    l.Plain? ==> l.c != quote && l.c != '\\'
  }

  /** Behind two minus signs this would open a block comment. */
  predicate OpensLong(text: string) {
    exists k: nat :: 0 < k < |text| && text[0] == '[' == text[k] && forall j :: 0 < j < k ==> text[j] == '='
  }

  /** The characters of names and the quotation marks, by their ASCII codes. */
  lemma Alphabet(c: char)
    ensures var n := c as int; IsVarChar(c) <==> 48 <= n <= 57 || 65 <= n <= 90 || n == 95 || 97 <= n <= 122
    ensures IsQuote(c) <==> c as int == 34 || c as int == 39
  {
  }

  lemma {:induction false} RemarkEnd(t: string, i: nat, text: string)
    requires At(t, i, text + "\n") && '\n' !in text
    ensures i <= |t| && LineEnd(t, i) == i + |text|
    decreases |text|
  {
    AtChar(t, i, text + "\n", 0);
    if text != "" {
      assert text + "\n" == [text[0]] + (text[1..] + "\n");
      AtConcat(t, i, [text[0]], text[1..] + "\n");
      RemarkEnd(t, i + 1, text[1..]);
    }
  }

  lemma {:induction false} QuotedEnd(t: string, i: nat, q: char, body: seq<Lit>)
    requires At(t, i, PrintLits(body) + [q]) && IsQuote(q) && forall l :: l in body ==> LitOk(l, q)
    ensures StringEnd(t, i, q) == StringTail(i + |PrintLits(body)| + 1, true)
    decreases |body|
  {
    if body == [] {
      assert PrintLits(body) + [q] == [q];
      AtChar(t, i, [q], 0);
    } else {
      var first := if body[0].Plain? then [body[0].c] else ['\\', body[0].c];
      assert PrintLits(body) + [q] == first + (PrintLits(body[1..]) + [q]);
      AtConcat(t, i, first, PrintLits(body[1..]) + [q]);
      AtChar(t, i, first, 0);
      assert LitOk(body[0], q);
      QuotedEnd(t, i + |first|, q, body[1..]);
    }
  }
}
