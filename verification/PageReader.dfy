/** A reader of the status page that knows nothing of how the page is written: the characters behind a name in
    quotation marks and a colon, up to the next comma or closing brace. */
module PageReader {
  import opened LuaText

  function QuoteFrom(t: string, i: nat): (j: nat)
    requires i <= |t|
    ensures i <= j <= |t| && (j < |t| ==> t[j] == '"')
    ensures forall k :: i <= k < j ==> t[k] != '"'
    decreases |t| - i
  {
    if i < |t| && t[i] != '"' then QuoteFrom(t, i + 1) else i
  }

  function StopFrom(t: string, i: nat): (j: nat)
    requires i <= |t|
    ensures i <= j <= |t| && (j < |t| ==> t[j] == ',' || t[j] == '}')
    ensures forall k :: i <= k < j ==> t[k] != ',' && t[k] != '}'
    decreases |t| - i
  {
    if i < |t| && t[i] != ',' && t[i] != '}' then StopFrom(t, i + 1) else i
  }

  /** What stands behind the first such name from i on, or "". */
  function ReadField(t: string, i: nat, name: string): string
    requires i <= |t|
    decreases |t| - i
  {
    var j := QuoteFrom(t, i);
    if j == |t| then ""
    else
      var k := QuoteFrom(t, j + 1);
      if k == |t| then ""
      else if t[j + 1..k] == name && k + 1 < |t| && t[k + 1] == ':' then t[k + 2..StopFrom(t, k + 2)]
      else ReadField(t, k + 1, name)
  }

  // ---- the reader on parts of a text ----

  lemma {:induction false} QuoteIs(t: string, i: nat, j: nat)
    requires i <= j <= |t| && (j < |t| ==> t[j] == '"') && forall k :: i <= k < j ==> t[k] != '"'
    ensures QuoteFrom(t, i) == j
    decreases j - i
  {
    if i < j {
      QuoteIs(t, i + 1, j);
    }
  }

  lemma {:induction false} StopIs(t: string, i: nat, j: nat)
    requires i <= j < |t| && (t[j] == ',' || t[j] == '}') && forall k :: i <= k < j ==> t[k] != ',' && t[k] != '}'
    ensures StopFrom(t, i) == j
    decreases j - i
  {
    if i < j {
      StopIs(t, i + 1, j);
    }
  }

  lemma NoneIn(t: string, i: nat, p: string, c: char)
    requires At(t, i, p) && c !in p
    ensures i + |p| <= |t| && forall k :: i <= k < i + |p| ==> t[k] != c
  {
    forall k | i <= k < i + |p|
      ensures t[k] != c
    {
      AtChar(t, i, p, k - i);
    }
  }

  /** Text without quotation marks is passed over. */
  lemma PlainPassed(t: string, i: nat, j: nat, name: string)
    requires i <= j <= |t| && forall k :: i <= k < j ==> t[k] != '"'
    ensures ReadField(t, i, name) == ReadField(t, j, name)
  {
    hide StopFrom, QuoteFrom;
    QuoteIs(t, i, QuoteFrom(t, j));
  }

  /** A name in quotation marks. */
  lemma TokenRead(t: string, i: nat, token: string, name: string)
    requires At(t, i, "\"" + (token + "\"")) && '"' !in token
    ensures var k := i + |token| + 1;
            && k < |t| && t[k] == '"'
            && ReadField(t, i, name) ==
               if token == name && k + 1 < |t| && t[k + 1] == ':' then t[k + 2..StopFrom(t, k + 2)]
               else ReadField(t, k + 1, name)
  {
    AtConcat(t, i, "\"", token + "\"");
    AtConcat(t, i + 1, token, "\"");
    AtChar(t, i, "\"", 0);
    AtChar(t, i + 1 + |token|, "\"", 0);
    AtSlice(t, i + 1, token);
    NoneIn(t, i + 1, token, '"');
    QuoteIs(t, i, i);
    QuoteIs(t, i + 1, i + 1 + |token|);
  }

  /** The text up to a field's value. */
  function Field(lead: string, key: string): string {
    lead + ("\"" + (key + "\":"))
  }

  /** Text with a name in quotation marks that is no field's. */
  function Head(before: string, token: string, after: string): string {
    before + ("\"" + (token + ("\"" + after)))
  }

  /** The names of the page's objects, and the one value that is in quotation marks. */
  predicate IsHead(name: string) {
    name in ["status", "success", "locks", "performance", "data", "boss_timers"]
  }

  /** Nobody who looks for a field stops in this text. */
  ghost predicate Transparent(lead: string) {
    forall t: string, i: nat, name: string :: At(t, i, lead) && !IsHead(name) ==> Skipped(t, i, lead, name)
  }

  predicate Skipped(t: string, i: nat, lead: string, name: string) {
    i + |lead| <= |t| && ReadField(t, i, name) == ReadField(t, i + |lead|, name)
  }

  ghost predicate Sound(lead: string, key: string, value: string) {
    Transparent(lead) && '"' !in key && '"' !in value && ',' !in value && '}' !in value
  }

  lemma FieldRead(t: string, i: nat, lead: string, key: string, value: string, name: string)
    requires Sound(lead, key, value) && At(t, i, Field(lead, key) + value) && !IsHead(name)
    requires var e := i + |Field(lead, key) + value|; e < |t| && (t[e] == ',' || t[e] == '}')
    ensures var e := i + |Field(lead, key) + value|;
            ReadField(t, i, name) == if name == key then value else ReadField(t, e, name)
  {
    hide At, ReadField, IsHead;
    var j := i + |lead|;
    var k := j + |key| + 1;
    AtConcat(t, i, Field(lead, key), value);
    AtConcat(t, i, lead, "\"" + (key + "\":"));
    assert "\":" == "\"" + ":";
    assert "\"" + (key + ("\"" + ":")) == ("\"" + (key + "\"")) + ":";
    AtConcat(t, j, "\"" + (key + "\""), ":");
    AtChar(t, k + 1, ":", 0);
    assert Skipped(t, i, lead, name);
    NoneIn(t, k + 2, value, '"');
    NoneIn(t, k + 2, value, ',');
    NoneIn(t, k + 2, value, '}');
    TokenRead(t, j, key, name);
    PlainPassed(t, k + 1, k + 2 + |value|, name);
    StopIs(t, k + 2, k + 2 + |value|);
    AtSlice(t, k + 2, value);
  }

  lemma PlainLead(lead: string)
    requires '"' !in lead
    ensures Transparent(lead)
  {
    hide At, ReadField, IsHead;
    forall t: string, i: nat, name: string | At(t, i, lead)
      ensures Skipped(t, i, lead, name)
    {
      NoneIn(t, i, lead, '"');
      PlainPassed(t, i, i + |lead|, name);
    }
  }

  /** A head, and more text that is passed over. */
  lemma HeadLead(before: string, token: string, after: string)
    requires '"' !in before && IsHead(token) && '"' !in token && Transparent(after)
    ensures Transparent(Head(before, token, after))
  {
    hide Head, At, IsHead;
    forall t: string, i: nat, name: string | At(t, i, Head(before, token, after)) && !IsHead(name)
      ensures Skipped(t, i, Head(before, token, after), name)
    {
      HeadSkipped(t, i, before, token, after, name);
    }
  }

  lemma HeadSkipped(t: string, i: nat, before: string, token: string, after: string, name: string)
    requires '"' !in before && IsHead(token) && '"' !in token && Transparent(after) && !IsHead(name)
    requires At(t, i, Head(before, token, after))
    ensures Skipped(t, i, Head(before, token, after), name)
  {
    hide At, ReadField, IsHead;
    var head := "\"" + (token + "\"");
    assert "\"" + (token + ("\"" + after)) == head + after;
    AtConcat(t, i, before, head + after);
    AtConcat(t, i + |before|, head, after);
    NoneIn(t, i, before, '"');
    PlainPassed(t, i, i + |before|, name);
    TokenRead(t, i + |before|, token, name);
    assert Skipped(t, i + |before| + |head|, after, name);
  }

  // ---- a page while it is written ----

  /** A name and the text behind it. */
  datatype Entry = Entry(name: string, text: string)

  function Find(entries: seq<Entry>, name: string): (k: nat)
    ensures k <= |entries| && (k < |entries| ==> entries[k].name == name)
    ensures forall j :: 0 <= j < k ==> entries[j].name != name
  {
    if entries == [] || entries[0].name == name then 0 else 1 + Find(entries[1..], name)
  }

  predicate Separated(rest: string) {
    rest != "" && (rest[0] == ',' || rest[0] == '}')
  }

  /** p holds these entries: whatever is written behind it, reading finds them, and other names only behind p. */
  ghost predicate Holds(p: string, entries: seq<Entry>) {
    forall rest: string, name: string :: Separated(rest) && !IsHead(name) ==>
      HoldsFor(p, entries, rest, name)
  }

  predicate HoldsFor(p: string, entries: seq<Entry>, rest: string, name: string) {
    var k := Find(entries, name);
    ReadField(p + rest, 0, name) == if k < |entries| then entries[k].text else ReadField(p + rest, |p|, name)
  }

  lemma FindMore(entries: seq<Entry>, e: Entry, name: string)
    ensures var k := Find(entries, name);
            Find(entries + [e], name) ==
            if k < |entries| then k else if e.name == name then |entries| else |entries| + 1
  {
    var k, k' := Find(entries, name), Find(entries + [e], name);
    assert k < |entries| ==> (entries + [e])[k] == entries[k];
    assert k' < |entries| ==> (entries + [e])[k'] == entries[k'];
    if k < |entries| {
      assert k' <= k;
    }
    assert (entries + [e])[|entries|] == e;
  }

  /** One field more. */
  lemma FieldHeld(p: string, entries: seq<Entry>, lead: string, key: string, value: string)
    requires Holds(p, entries) && Sound(lead, key, value) && Separated(lead)
    ensures Holds(p + Field(lead, key) + value, entries + [Entry(key, value)])
  {
    var q := p + Field(lead, key) + value;
    forall rest: string, name: string | Separated(rest) && !IsHead(name)
      ensures HoldsFor(q, entries + [Entry(key, value)], rest, name)
    {
      FieldHeldFor(p, entries, lead, key, value, rest, name);
    }
  }

  lemma FieldHeldFor(p: string, entries: seq<Entry>, lead: string, key: string, value: string, rest: string,
                     name: string)
    requires Holds(p, entries) && Sound(lead, key, value) && Separated(lead) && Separated(rest) && !IsHead(name)
    ensures HoldsFor(p + Field(lead, key) + value, entries + [Entry(key, value)], rest, name)
  {
    hide Field, Find, ReadField, Separated, Sound, IsHead;
    var f := Field(lead, key) + value;
    StartsSeparated(lead, key, value, rest);
    assert HoldsFor(p, entries, f + rest, name);
    hide Holds;
    FindMore(entries, Entry(key, value), name);
    Regroup(p, Field(lead, key), value, rest);
    ReadBehind(p, lead, key, value, rest, name);
  }

  lemma StartsSeparated(lead: string, key: string, value: string, rest: string)
    requires Separated(lead)
    ensures Separated(Field(lead, key) + value + rest)
  {
  }

  /** What reading finds from the end of p on. */
  lemma ReadBehind(p: string, lead: string, key: string, value: string, rest: string, name: string)
    requires Sound(lead, key, value) && Separated(rest) && !IsHead(name)
    ensures var f := Field(lead, key) + value;
            var t := p + (f + rest);
            |p| + |f| <= |t|
            && ReadField(t, |p|, name) == if name == key then value else ReadField(t, |p| + |f|, name)
  {
    hide At, Field, ReadField, Sound, IsHead;
    Behind(p, Field(lead, key) + value, rest);
    FieldRead(p + (Field(lead, key) + value + rest), |p|, lead, key, value, name);
  }

  lemma Regroup(p: string, a: string, b: string, c: string)
    ensures p + a + b + c == p + ((a + b) + c)
  {
  }

  lemma Behind(p: string, f: string, rest: string)
    ensures var t := p + (f + rest);
            At(t, |p|, f) && |t| == |p| + |f| + |rest| && (rest != "" ==> t[|p| + |f|] == rest[0])
  {
    var t := p + (f + rest);
    assert t[|p|..|p| + |f|] == f;
  }

  /** The first field of a page. */
  lemma FirstHeld(lead: string, key: string, value: string)
    requires Sound(lead, key, value)
    ensures Holds(Field(lead, key) + value, [Entry(key, value)])
  {
    var q := Field(lead, key) + value;
    hide Field, ReadField, Separated, Sound, IsHead;
    forall rest: string, name: string | Separated(rest) && !IsHead(name)
      ensures HoldsFor(q, [Entry(key, value)], rest, name)
    {
      ReadBehind("", lead, key, value, rest, name);
      assert "" + (q + rest) == q + rest;
    }
  }

  /** A page that ends behind its last field can be read. */
  lemma PageHeld(p: string, entries: seq<Entry>, close: string, k: nat)
    requires Holds(p, entries) && Separated(close) && k < |entries| && !IsHead(entries[k].name)
    requires forall j :: 0 <= j < k ==> entries[j].name != entries[k].name
    ensures ReadField(p + close, 0, entries[k].name) == entries[k].text
  {
    hide ReadField, IsHead, Separated;
    assert HoldsFor(p, entries, close, entries[k].name);
  }
}
