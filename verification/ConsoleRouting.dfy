/** Where the lines typed at the console end up, in the plain terms of what is typed. */
module ConsoleRouting {
  import opened Console
  import opened LineText

  /** A line as it is typed, with or without a carriage return. */
  datatype Typed = FreeMemory(cr: bool) | ForCaves(rest: string, cr: bool) | Plain(text: string, cr: bool)

  predicate Clean(text: string) {
    '\n' !in text && (text != "" ==> text[|text| - 1] != '\r')
  }

  predicate TypedOk(x: Typed) {
    match x
    case FreeMemory(_) => true
    case ForCaves(rest, _) => Clean(rest)
    case Plain(text, _) =>
      Clean(text) && text != "igegjfmwdhb" && !(|text| >= 6 && text[..6] == "caves:")
  }

  function LineOf(x: Typed): string {
    match x
    case FreeMemory(_) => "igegjfmwdhb"
    case ForCaves(rest, _) => "caves:" + rest
    case Plain(text, _) => text
  }

  function Keyed(xs: seq<Typed>): string {
    if xs == [] then "" else LineOf(xs[0]) + ((if xs[0].cr then "\r\n" else "\n") + Keyed(xs[1..]))
  }

  /** What a shard gets: the text and a newline, or nothing for no text. */
  function Sent(text: string): string {
    if text == "" then "" else text + "\n"
  }

  /** The texts for the Master, in order: plain lines, if there is a Master. */
  function MasterTexts(xs: seq<Typed>, master: bool): seq<string> {
    if xs == [] then []
    else (if xs[0].Plain? && master then [Sent(xs[0].text)] else []) + MasterTexts(xs[1..], master)
  }

  /** The texts for the caves, in order: with a Master, what stands behind the prefix; without, every line. */
  function CavesTexts(xs: seq<Typed>, master: bool): seq<string> {
    if xs == [] then []
    else
      (if xs[0].FreeMemory? then []
       else if xs[0].Plain? then (if master then [] else [Sent(xs[0].text)])
       else [Sent(if master then xs[0].rest else "caves:" + xs[0].rest)])
      + CavesTexts(xs[1..], master)
  }

  /** As many of them as a queue holds. */
  function FirstHundred(texts: seq<string>): seq<string> {
    if |texts| <= 100 then texts else texts[..100]
  }

  // ---- one line ----

  lemma StrippedLine(x: Typed)
    requires TypedOk(x)
    ensures Stripped(LineOf(x) + if x.cr then "\r" else "") == LineOf(x)
  {
    var line := LineOf(x);
    var t := line + if x.cr then "\r" else "";
    if x.cr {
      assert t[..|t| - 1] == line;
    } else {
      assert t == line;
      assert line != "" && (x.ForCaves? ==> x.rest != "") ==> line[|line| - 1] != '\r';
      assert x.ForCaves? && x.rest == "" ==> line[|line| - 1] == ':';
    }
  }

  lemma RoutedLine(x: Typed, master: bool)
    requires TypedOk(x)
    ensures Routed(LineOf(x) + if x.cr then "\r" else "", master) ==
            if x.FreeMemory? then []
            else if !master then [Command(ToCaves, Sent(LineOf(x)))]
            else if x.ForCaves? then [Command(ToCaves, Sent(x.rest))]
            else [Command(ToMaster, Sent(x.text))]
  {
    StrippedLine(x);
    hide Stripped;
    var line := LineOf(x);
    if x.ForCaves? {
      assert line[0] == 'c' && line[..6] == "caves:" && line[6..] == x.rest;
    }
    NoNewlineInside(x);
  }

  lemma NoNewlineInside(x: Typed)
    requires TypedOk(x)
    ensures Terminated(LineOf(x)) == Sent(LineOf(x)) && (x.ForCaves? ==> Terminated(x.rest) == Sent(x.rest))
    ensures '\n' !in LineOf(x)
  {
  }

  lemma LineAhead(line: string, rest: string)
    requires '\n' !in line
    ensures Lines(line + ("\n" + rest)) == [line] + Lines(rest)
  {
    hide Lines, LineEnd;
    var t := line + ("\n" + rest);
    assert t[..|line|] == line && t[|line| + 1..] == rest;
    LineEndIs(t, 0, |line|);
    LineStep(t);
  }

  lemma LineEnded(line: string, cr: bool, rest: string)
    ensures line + ((if cr then "\r\n" else "\n") + rest) == (line + if cr then "\r" else "") + ("\n" + rest)
  {
    assert "\r\n" + rest == "\r" + ("\n" + rest);
    assert line + "" == line;
    assert line + ("\r" + ("\n" + rest)) == (line + "\r") + ("\n" + rest);
  }

  lemma OneMoreLine(x: Typed, rest: string)
    requires TypedOk(x)
    ensures var line := LineOf(x) + if x.cr then "\r" else "";
            Lines(LineOf(x) + ((if x.cr then "\r\n" else "\n") + rest)) == [line] + Lines(rest)
  {
    NoNewlineInside(x);
    hide LineOf, Lines, Terminated, Sent;
    LineEnded(LineOf(x), x.cr, rest);
    LineAhead(LineOf(x) + if x.cr then "\r" else "", rest);
  }

  // ---- all lines ----

  /** The texts of the commands for one target. */
  function TextsFor(cmds: seq<Command>, target: Target): seq<string> {
    if cmds == [] then []
    else (if cmds[0].target == target then [cmds[0].text] else []) + TextsFor(cmds[1..], target)
  }

  lemma {:induction false} QueuedTexts(q: seq<string>, cmds: seq<Command>, target: Target)
    requires |q| <= 100
    ensures Queued(q, cmds, target) == FirstHundred(q + TextsFor(cmds, target))
    decreases |cmds|
  {
    if cmds == [] {
      assert q + [] == q;
    } else {
      var texts := TextsFor(cmds[1..], target);
      if cmds[0].target == target {
        assert q + ([cmds[0].text] + texts) == q + [cmds[0].text] + texts;
        if |q| < 100 {
          QueuedTexts(q + [cmds[0].text], cmds[1..], target);
        } else {
          QueuedTexts(q, cmds[1..], target);
          assert (q + ([cmds[0].text] + texts))[..100] == q == (q + texts)[..100];
        }
      } else {
        assert [] + texts == texts;
        QueuedTexts(q, cmds[1..], target);
      }
    }
  }

  lemma {:induction false} TextsConcat(a: seq<Command>, b: seq<Command>, target: Target)
    ensures TextsFor(a + b, target) == TextsFor(a, target) + TextsFor(b, target)
    decreases |a|
  {
    if a == [] {
      assert a + b == b;
    } else {
      assert (a + b)[1..] == a[1..] + b;
      TextsConcat(a[1..], b, target);
    }
  }

  lemma TextsOfOne(cmd: Command, target: Target)
    ensures TextsFor([], target) == []
    ensures TextsFor([cmd], target) == if cmd.target == target then [cmd.text] else []
  {
    assert [cmd][1..] == [] && [cmd.text] + [] == [cmd.text];
  }

  lemma {:induction false} AllRouted(xs: seq<Typed>, master: bool)
    requires forall x :: x in xs ==> TypedOk(x)
    ensures TextsFor(RoutedAll(Lines(Keyed(xs)), master), ToMaster) == MasterTexts(xs, master)
    ensures TextsFor(RoutedAll(Lines(Keyed(xs)), master), ToCaves) == CavesTexts(xs, master)
    decreases |xs|
  {
    hide LineOf, Routed, Lines, TypedOk, TextsFor, Sent;
    if xs == [] {
      NothingFramed(master);
      TextsOfOne(Command(ToMaster, ""), ToMaster);
      TextsOfOne(Command(ToMaster, ""), ToCaves);
    } else {
      var x, rest := xs[0], Lines(Keyed(xs[1..]));
      var line := LineOf(x) + if x.cr then "\r" else "";
      OneMoreLine(x, Keyed(xs[1..]));
      assert ([line] + rest)[1..] == rest;
      AllRouted(xs[1..], master);
      RoutedLine(x, master);
      TextsConcat(Routed(line, master), RoutedAll(rest, master), ToMaster);
      TextsConcat(Routed(line, master), RoutedAll(rest, master), ToCaves);
      LineTexts(x, master);
    }
  }

  /** What one line adds to each queue. */
  lemma LineTexts(x: Typed, master: bool)
    requires TypedOk(x)
    ensures var cmds := Routed(LineOf(x) + if x.cr then "\r" else "", master);
            && TextsFor(cmds, ToMaster) == (if x.Plain? && master then [Sent(x.text)] else [])
            && TextsFor(cmds, ToCaves) ==
               if x.FreeMemory? then []
               else if x.Plain? then (if master then [] else [Sent(x.text)])
               else [Sent(if master then x.rest else "caves:" + x.rest)]
  {
    RoutedLine(x, master);
    var cmds := Routed(LineOf(x) + if x.cr then "\r" else "", master);
    hide Routed, TextsFor, Sent;
    if cmds == [] {
      TextsOfOne(Command(ToMaster, ""), ToMaster);
      TextsOfOne(Command(ToMaster, ""), ToCaves);
    } else {
      TextsOfOne(cmds[0], ToMaster);
      TextsOfOne(cmds[0], ToCaves);
    }
  }

  /** The console on typed lines. However they arrive, the Master's queue gets the plain lines and the caves' queue
      the lines for the caves, each in order, ended by one newline, up to a hundred of each. */
  method ListenToLines(c: Console, stdin: Stdin, ghost xs: seq<Typed>)
    requires c.Valid() && c.QueuesHold() && c.tail == 0 && c.sent == []
    requires (forall x :: x in xs ==> TypedOk(x)) && stdin.pending == Keyed(xs) && Fits(stdin.pending)
    modifies c, c.buffer, stdin
    ensures c.Valid()
    ensures AllBytes(c.masterQueue) == FirstHundred(MasterTexts(xs, c.master))
    ensures AllBytes(c.cavesQueue) == FirstHundred(CavesTexts(xs, c.master))
  {
    hide Fits, Keyed, TypedOk, Lines, RoutedAll, MasterTexts, CavesTexts, FirstHundred, AllBytes, Queued;
    ListenConsole(c, stdin);
    QueuedTexts([], c.sent, ToMaster);
    QueuedTexts([], c.sent, ToCaves);
    AllRouted(xs, c.master);
    NothingAhead(TextsFor(c.sent, ToMaster));
    NothingAhead(TextsFor(c.sent, ToCaves));
  }

  lemma NothingAhead(texts: seq<string>)
    ensures [] + texts == texts
  {
  }
}
