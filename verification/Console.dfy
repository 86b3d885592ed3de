/** The console: a fixed buffer that frames lines, however the input is chopped, and routes them to the two
    command queues. */
module Console {
  import opened LineText

  /** The size of the buffer. */
  const BUFFER := 4096
  /** The capacity of each command channel. */
  const QUEUE := 100

  const CAVES_PREFIX: string := "caves:"
  const FREE_MEMORY: string := "igegjfmwdhb"

  datatype Target = ToMaster | ToCaves

  datatype Command = Command(target: Target, text: string)

  // ---- what a text means ----

  /** The complete lines of a text, without their newlines. */
  function Lines(t: string): (ls: seq<string>)
    decreases |t|
  {
    var j := LineEnd(t, 0);
    if j == |t| then [] else [t[..j]] + Lines(t[j + 1..])
  }

  /** What is left behind the last newline. */
  function Tail(t: string): (r: string)
    ensures |r| <= |t|
    decreases |t|
  {
    var j := LineEnd(t, 0);
    if j == |t| then t else Tail(t[j + 1..])
  }

  function Stripped(line: string): string {
    if line != "" && line[|line| - 1] == '\r' then line[..|line| - 1] else line
  }

  /** The command of a queue entry: a newline is added unless the text is empty or ends with one. */
  function Terminated(text: string): string {
    if text != "" && text[|text| - 1] != '\n' then text + "\n" else text
  }

  predicate HasPrefix(line: string, p: string) {
    |line| >= |p| && line[..|p|] == p
  }

  /** What one line is sent as; the special line is sent nowhere. */
  function Routed(line: string, master: bool): seq<Command> {
    var cmd := Stripped(line);
    if cmd == FREE_MEMORY then []
    else if !master then [Command(ToCaves, Terminated(cmd))]
    else if HasPrefix(cmd, CAVES_PREFIX) then [Command(ToCaves, Terminated(cmd[|CAVES_PREFIX|..]))]
    else [Command(ToMaster, Terminated(cmd))]
  }

  function RoutedAll(ls: seq<string>, master: bool): seq<Command> {
    if ls == [] then [] else Routed(ls[0], master) + RoutedAll(ls[1..], master)
  }

  // ---- chopping the input does not matter ----

  lemma LineStep(t: string)
    ensures var j := LineEnd(t, 0);
            && (j == |t| ==> Lines(t) == [] && Tail(t) == t)
            && (j < |t| ==> Lines(t) == [t[..j]] + Lines(t[j + 1..]) && Tail(t) == Tail(t[j + 1..]))
  {
    hide LineEnd;
  }

  /** The lines of a text are those of any prefix, then those of what the prefix left behind and the rest. */
  lemma {:induction false} LinesConcat(a: string, b: string)
    ensures Lines(a + b) == Lines(a) + Lines(Tail(a) + b) && Tail(a + b) == Tail(Tail(a) + b)
    decreases |a|
  {
    hide Lines, Tail;
    LineStep(a);
    var j := LineEnd(a, 0);
    if j < |a| {
      LineEndIs(a + b, 0, j);
      hide LineEnd;
      LineStep(a + b);
      var rest := a[j + 1..];
      assert (a + b)[..j] == a[..j];
      assert (a + b)[j + 1..] == rest + b;
      LinesConcat(rest, b);
      LinesAssoc([a[..j]], Lines(rest), Lines(Tail(rest) + b));
    }
  }

  lemma LinesAssoc(a: seq<string>, b: seq<string>, c: seq<string>)
    ensures a + (b + c) == a + b + c
  {
  }

  lemma {:induction false} RoutedConcat(a: seq<string>, b: seq<string>, master: bool)
    ensures RoutedAll(a + b, master) == RoutedAll(a, master) + RoutedAll(b, master)
    decreases |a|
  {
    hide Routed;
    if a == [] {
      assert a + b == b;
    } else {
      assert (a + b)[1..] == a[1..] + b;
      RoutedConcat(a[1..], b, master);
    }
  }

  /** Every complete line fits the buffer together with its newline. */
  predicate Fits(t: string) {
    forall k :: 0 <= k < |Lines(t)| ==> |Lines(t)[k]| < BUFFER
  }

  lemma {:induction false} ShortTextFits(t: string)
    requires |t| <= BUFFER
    ensures Fits(t)
    decreases |t|
  {
    var j := LineEnd(t, 0);
    if j < |t| {
      ShortTextFits(t[j + 1..]);
      hide LineEnd;
      assert Lines(t) == [t[..j]] + Lines(t[j + 1..]);
    }
  }

  lemma LongTailBlocks(done: string, rest: string, master: bool)
    requires Fits(done) && |Tail(done)| == BUFFER
    ensures RoutedAll(Lines(done + rest), master) == RoutedAll(Lines(done), master) <==> Fits(done + rest)
  {
    LinesConcat(done, rest);
    var more := Lines(Tail(done) + rest);
    RoutedConcat(Lines(done), more, master);
    if more == [] {
      assert Lines(done + rest) == Lines(done);
    } else {
      TailHasNoNewline(done);
      var t := Tail(done) + rest;
      assert LineEnd(t, 0) >= BUFFER;
      assert more[0] == t[..LineEnd(t, 0)];
      assert |Routed(more[0], master)| == 1;
      assert Lines(done + rest)[|Lines(done)|] == more[0];
    }
  }

  /** A line of 4096 bytes and its newline are one byte too many, and one byte less fits: the limit is on the
      line with its newline. */
  lemma LongestLine(n: nat)
    ensures var line := seq(n, _ => 'x'); Fits(line + "\n") <==> n < BUFFER
  {
    hide LineEnd, Lines, Tail;
    var line := seq(n, _ => 'x');
    OneLine(line + "\n", line);
    assert Lines(line + "\n")[0] == line;
  }

  lemma {:induction false} TailHasNoNewline(t: string)
    ensures '\n' !in Tail(t)
    decreases |t|
  {
    var j := LineEnd(t, 0);
    if j < |t| {
      TailHasNoNewline(t[j + 1..]);
    }
  }

  // ---- the queues ----

  /** What a queue holds after commands are offered to it in order: a full queue drops. */
  function Queued(q: seq<string>, cmds: seq<Command>, target: Target): seq<string>
    decreases |cmds|
  {
    if cmds == [] then q
    else if cmds[0].target == target && |q| < QUEUE then Queued(q + [cmds[0].text], cmds[1..], target)
    else Queued(q, cmds[1..], target)
  }

  lemma {:induction false} QueuedConcat(q: seq<string>, a: seq<Command>, b: seq<Command>, target: Target)
    ensures Queued(q, a + b, target) == Queued(Queued(q, a, target), b, target)
    decreases |a|
  {
    if a == [] {
      assert a + b == b;
    } else {
      assert (a + b)[1..] == a[1..] + b;
      var q1 := if a[0].target == target && |q| < QUEUE then q + [a[0].text] else q;
      QueuedConcat(q1, a[1..], b, target);
    }
  }

  lemma QueuedOneMore(cmds: seq<Command>, c: Command, target: Target)
    ensures var q := Queued([], cmds, target);
            Queued([], cmds + [c], target) == q + if c.target == target && |q| < QUEUE then [c.text] else []
  {
    QueuedConcat([], cmds, [c], target);
    assert [c][1..] == [];
  }

  /** Queued commands are never touched again, however many follow. */
  lemma {:induction false} QueueKeepsEarlier(q: seq<string>, cmds: seq<Command>, target: Target)
    ensures q <= Queued(q, cmds, target)
    decreases |cmds|
  {
    if cmds != [] {
      var q1 := if cmds[0].target == target && |q| < QUEUE then q + [cmds[0].text] else q;
      QueueKeepsEarlier(q1, cmds[1..], target);
    }
  }

  // ---- slices and strings ----

  /** A byte slice: a stretch of some array, and how far an append may go on in place. */
  datatype Slice = Slice(base: array?<char>, start: nat, len: nat, cap: nat)

  /** A string: a stretch of some array that nobody writes, and nothing about what lies behind it. */
  datatype Text = Text(base: array?<char>, start: nat, len: nat)

  predicate InBounds(s: Slice) {
    s.len <= s.cap && if s.base == null then s.cap == 0 else s.start + s.cap <= s.base.Length
  }

  function Bytes(s: Slice): string
    requires InBounds(s)
    reads s.base
  {
    if s.base == null then "" else s.base[s.start..s.start + s.len]
  }

  /** The string conversions copy nothing; on the way back the capacity is the length. */
  function B2S(s: Slice): Text {
    if s.len == 0 then Text(null, 0, 0) else Text(s.base, s.start, s.len)
  }

  function S2B(t: Text): Slice {
    if t.len == 0 then Slice(null, 0, 0, 0) else Slice(t.base, t.start, t.len, t.len)
  }

  /** A slice that went through the conversions holds the same bytes and has no room left. */
  lemma ConvertedIsFull(s: Slice)
    requires InBounds(s)
    ensures var r := S2B(B2S(s));
            && InBounds(r) && Bytes(r) == Bytes(s) && r.cap == r.len == s.len
            && (r.base == s.base || r.base == null)
  {
  }

  predicate EndsWithNewline(s: Slice)
    requires InBounds(s)
    reads s.base
  {
    s.len > 0 && s.base[s.start + s.len - 1] == '\n'
  }

  /** Appending a byte: where the capacity has room it is written in place, over the byte behind the slice;
      otherwise everything goes to a new array, with as much room as it likes. */
  method Append(s: Slice, c: char) returns (r: Slice)
    requires InBounds(s)
    modifies if s.len < s.cap then {s.base} else {}
    ensures InBounds(r) && Bytes(r) == old(Bytes(s)) + [c]
    ensures s.len < s.cap ==>
              && r == s.(len := s.len + 1) && s.base[s.start + s.len] == c
              && forall k :: 0 <= k < s.base.Length && k != s.start + s.len ==> s.base[k] == old(s.base[k])
    ensures s.len == s.cap ==> r.base != null && fresh(r.base)
  {
    if s.len < s.cap {
      s.base[s.start + s.len] := c;
      r := s.(len := s.len + 1);
    } else {
      var room: nat :| room >= 0;
      var copy := new char[s.len + 1 + room];
      for i := 0 to s.len
        invariant forall k :: 0 <= k < i ==> copy[k] == s.base[s.start + k]
      {
        copy[i] := s.base[s.start + i];
      }
      copy[s.len] := c;
      r := Slice(copy, 0, s.len + 1, copy.Length);
    }
  }

  // ---- the loop ----

  function AllBytes(q: seq<Slice>): (texts: seq<string>)
    requires forall k :: 0 <= k < |q| ==> InBounds(q[k])
    reads set k | 0 <= k < |q| :: q[k].base
    ensures |texts| == |q| && forall k :: 0 <= k < |q| ==> texts[k] == Bytes(q[k])
  {
    if q == [] then [] else AllBytes(q[..|q| - 1]) + [Bytes(q[|q| - 1])]
  }

  /** copy, from bytes that may be part of the same array. */
  method Overwrite(a: array<char>, at: nat, bytes: string)
    requires at + |bytes| <= a.Length
    modifies a
    ensures a[..at] == old(a[..at]) && a[at..at + |bytes|] == bytes
  {
    forall k | 0 <= k < |bytes| {
      a[at + k] := bytes[k];
    }
  }

  class Console {
    const buffer: array<char>
    const master: bool
    var tail: nat
    var masterQueue: seq<Slice>
    var cavesQueue: seq<Slice>
    /** Every command sent so far, dropped or not. */
    ghost var sent: seq<Command>

    /** The queued slices are well formed and share nothing with the buffer. */
    ghost predicate Valid()
      reads this
    {
      && buffer.Length == BUFFER && tail <= BUFFER
      && (forall k :: 0 <= k < |masterQueue| ==> InBounds(masterQueue[k]) && masterQueue[k].base != buffer)
      && (forall k :: 0 <= k < |cavesQueue| ==> InBounds(cavesQueue[k]) && cavesQueue[k].base != buffer)
    }

    constructor (master: bool)
      ensures Valid() && this.master == master && tail == 0 && masterQueue == [] && cavesQueue == []
      ensures fresh(buffer) && sent == [] && QueuesHold()
    {
      sent := [];
      this.master := master;
      buffer := new char[BUFFER];
      tail := 0;
      masterQueue := [];
      cavesQueue := [];
    }

    /** The channel send with a default branch. */
    method Deliver(s: Slice, target: Target)
      requires Valid() && InBounds(s) && s.base != buffer
      modifies `masterQueue, `cavesQueue
      ensures Valid()
      ensures masterQueue == old(masterQueue) + if target.ToMaster? && |old(masterQueue)| < QUEUE then [s] else []
      ensures cavesQueue == old(cavesQueue) + if target.ToCaves? && |old(cavesQueue)| < QUEUE then [s] else []
    {
      if target.ToMaster? {
        if |masterQueue| < QUEUE {
          masterQueue := masterQueue + [s];
        }
      } else {
        if |cavesQueue| < QUEUE {
          cavesQueue := cavesQueue + [s];
        }
      }
    }

    /** The incomplete line the buffer holds between reads. */
    ghost function Held(): (text: string)
      requires Valid()
      reads this, buffer
      ensures |text| == tail
    {
      buffer[..tail]
    }

    /** The queues hold what was sent, but for what a full queue dropped. */
    ghost predicate QueuesHold()
      requires Valid()
      reads this, set k | 0 <= k < |masterQueue| :: masterQueue[k].base,
                  set k | 0 <= k < |cavesQueue| :: cavesQueue[k].base
    {
      AllBytes(masterQueue) == Queued([], sent, ToMaster) && AllBytes(cavesQueue) == Queued([], sent, ToCaves)
    }

    /** Sends one command, given as a string. One that was cut out of the buffer has no newline yet, so what
        is queued is a copy. */
    method EmitRawCmd(cmd: Text, target: Target)
      requires Valid() && QueuesHold()
      requires InBounds(S2B(cmd)) && (cmd.base == buffer ==> cmd.len > 0 && !EndsWithNewline(S2B(cmd)))
      modifies `masterQueue, `cavesQueue, `sent
      ensures Valid() && QueuesHold()
      ensures sent == old(sent) + [Command(target, Terminated(Bytes(S2B(cmd))))]
    {
      hide Queued, Terminated, Bytes, AllBytes;
      var final := CommandBytes(cmd);
      Deliver(final, target);
      AllBytesAppend(old(masterQueue), final);
      AllBytesAppend(old(cavesQueue), final);
      assert AllBytes(old(masterQueue)) == old(AllBytes(masterQueue));
      assert AllBytes(old(cavesQueue)) == old(AllBytes(cavesQueue));
      hide InBounds;
      var last := Command(target, Bytes(final));
      QueuedOneMore(sent, last, ToMaster);
      QueuedOneMore(sent, last, ToCaves);
      sent := sent + [last];
    }

    /** A stretch of the buffer without a newline, as a string. */
    lemma CutOut(start: nat, end: nat)
      requires Valid() && start <= end <= tail && forall k :: start <= k < end ==> buffer[k] != '\n'
      ensures var t := B2S(Slice(buffer, start, end - start, BUFFER - start));
              && InBounds(S2B(t)) && Bytes(S2B(t)) == buffer[start..end]
              && (t.base == buffer ==> t.len > 0 && !EndsWithNewline(S2B(t)))
    {
    }

    /** Sends a stretch of the buffer as one command. */
    method Send(start: nat, end: nat, target: Target)
      requires Valid() && QueuesHold()
      requires start <= end <= tail && forall k :: start <= k < end ==> buffer[k] != '\n'
      modifies `masterQueue, `cavesQueue, `sent
      ensures Valid() && QueuesHold()
      ensures sent == old(sent) + [Command(target, Terminated(buffer[start..end]))]
    {
      hide QueuesHold, Terminated, B2S, S2B, Bytes, EndsWithNewline, InBounds;
      CutOut(start, end);
      EmitRawCmd(B2S(Slice(buffer, start, end - start, BUFFER - start)), target);
      CutOut(start, end);
    }

    /** Sends the line in buffer[start..end], routed. */
    method Dispatch(start: nat, end: nat)
      requires Valid() && QueuesHold()
      requires start <= end <= tail && forall k :: start <= k < end ==> buffer[k] != '\n'
      modifies `masterQueue, `cavesQueue, `sent
      ensures Valid() && QueuesHold()
      ensures sent == old(sent) + Routed(buffer[start..end], master)
    {
      hide QueuesHold, Terminated, InBounds;
      ghost var line := buffer[start..end];
      var stop := end;
      if start < end && buffer[end - 1] == '\r' {
        stop := end - 1;
      }
      var cmd := buffer[start..stop];
      assert cmd == Stripped(line);
      if cmd == FREE_MEMORY {
        assert sent + [] == sent;
        return;
      }
      if !master {
        Send(start, stop, ToCaves);
      } else if |cmd| >= |CAVES_PREFIX| && cmd[..|CAVES_PREFIX|] == CAVES_PREFIX {
        assert buffer[start + |CAVES_PREFIX|..stop] == cmd[|CAVES_PREFIX|..];
        Send(start + |CAVES_PREFIX|, stop, ToCaves);
      } else {
        Send(start, stop, ToMaster);
      }
    }

    /** What a read leaves behind the bytes already there. */
    method Receive(chunk: string)
      requires Valid() && QueuesHold() && tail + |chunk| <= BUFFER
      modifies `tail, buffer
      ensures Valid() && QueuesHold() && buffer[..tail] == old(buffer[..tail]) + chunk
    {
      hide Queued, AllBytes, InBounds;
      Overwrite(buffer, tail, chunk);
      assert buffer[..tail + |chunk|] == buffer[..tail] + buffer[tail..tail + |chunk|];
      tail := tail + |chunk|;
    }

    /** Sends every complete line of the buffer and moves what is left to its start. */
    method Frame()
      requires Valid() && QueuesHold()
      modifies this, buffer
      ensures Valid() && QueuesHold()
      ensures sent == old(sent) + RoutedAll(Lines(old(buffer[..tail])), master)
      ensures buffer[..tail] == Tail(old(buffer[..tail]))
    {
      hide QueuesHold, Lines, Tail, Routed, RoutedAll, Bytes;
      ghost var text := buffer[..tail];
      var cursor := 0;
      NothingFramed(master);
      assert text[..0] == "";
      for i := 0 to tail
        invariant Valid() && QueuesHold() && tail == |text| && buffer[..tail] == text
        invariant 0 <= cursor <= i && forall k :: cursor <= k < i ==> text[k] != '\n'
        invariant Tail(text[..cursor]) == ""
        invariant sent == old(sent) + RoutedAll(Lines(text[..cursor]), master)
      {
        if buffer[i] == '\n' {
          assert forall k :: 0 <= k < tail ==> buffer[k] == buffer[..tail][k] == text[k];
          assert buffer[cursor..i] == text[cursor..i];
          Dispatch(cursor, i);
          LineFramed(text, cursor, i, master);
          cursor := i + 1;
        }
      }
      RestFramed(text, cursor);
      Compact(cursor);
    }

    /** One round of the loop. */
    method Take(chunk: string)
      requires Valid() && QueuesHold() && tail + |chunk| <= BUFFER
      modifies this, buffer
      ensures Valid() && QueuesHold()
      ensures var text := old(Held()) + chunk;
              sent == old(sent) + RoutedAll(Lines(text), master) && Held() == Tail(text)
    {
      hide QueuesHold, Lines, Tail, RoutedAll;
      Receive(chunk);
      Frame();
    }

    /** Moves buffer[cursor..tail] to the start; an empty rest only resets the tail. */
    method Compact(cursor: nat)
      requires Valid() && QueuesHold() && cursor <= tail
      modifies `tail, buffer
      ensures Valid() && QueuesHold() && buffer[..tail] == old(buffer[cursor..tail])
    {
      hide Queued, AllBytes, InBounds;
      if cursor < tail {
        Overwrite(buffer, 0, buffer[cursor..tail]);
        tail := tail - cursor;
      } else {
        tail := 0;
      }
    }
  }

  lemma NothingFramed(master: bool)
    ensures Lines("") == [] && Tail("") == "" && RoutedAll([], master) == []
  {
  }

  /** Everything up to a newline that ends a line: one line more, nothing left over. */
  lemma LineFramed(t: string, cursor: nat, i: nat, master: bool)
    requires cursor <= i < |t| && t[i] == '\n' && (forall k :: cursor <= k < i ==> t[k] != '\n')
    requires Tail(t[..cursor]) == ""
    ensures Tail(t[..i + 1]) == ""
    ensures RoutedAll(Lines(t[..i + 1]), master) == RoutedAll(Lines(t[..cursor]), master) + Routed(t[cursor..i], master)
  {
    hide Lines, Tail, RoutedAll, Routed, LineEnd;
    var before, line := t[..cursor], t[cursor..i + 1];
    assert t[..i + 1] == before + line;
    LinesConcat(before, line);
    assert "" + line == line;
    OneLine(line, t[cursor..i]);
    RoutedConcat(Lines(before), [t[cursor..i]], master);
    RoutedOne(t[cursor..i], master);
  }

  lemma OneLine(line: string, content: string)
    requires line == content + "\n" && forall k :: 0 <= k < |content| ==> content[k] != '\n'
    ensures Lines(line) == [content] && Tail(line) == ""
  {
    hide LineEnd;
    LineEndIs(line, 0, |content|);
    assert line[..|content|] == content && line[|content| + 1..] == "";
    LineStep(line);
    NothingFramed(true);
  }

  lemma RoutedOne(line: string, master: bool)
    ensures RoutedAll([line], master) == Routed(line, master)
  {
    assert [line][1..] == [];
  }

  lemma RestFramed(t: string, cursor: nat)
    requires cursor <= |t| && (forall k :: cursor <= k < |t| ==> t[k] != '\n') && Tail(t[..cursor]) == ""
    ensures Lines(t) == Lines(t[..cursor]) && Tail(t) == t[cursor..]
  {
    hide Lines, Tail;
    var rest := t[cursor..];
    assert t == t[..cursor] + rest && "" + rest == rest;
    LinesConcat(t[..cursor], rest);
    hide LineEnd;
    LineEndIs(rest, 0, |rest|);
    LineStep(rest);
  }

  lemma AllBytesAppend(q: seq<Slice>, s: Slice)
    requires (forall k :: 0 <= k < |q| ==> InBounds(q[k])) && InBounds(s)
    ensures AllBytes(q + [s]) == AllBytes(q) + [Bytes(s)]
  {
    assert (q + [s])[..|q|] == q;
  }

  /** The append that adds a missing newline finds no room behind a string, so it copies; a text that has its
      newline, or is empty, is passed on as it is. */
  method CommandBytes(cmd: Text) returns (final: Slice)
    requires InBounds(S2B(cmd))
    ensures InBounds(final) && Bytes(final) == Terminated(Bytes(S2B(cmd)))
    ensures (final.base != null && fresh(final.base)) || (final == S2B(cmd) && (cmd.len == 0 || EndsWithNewline(final)))
  {
    final := S2B(cmd);
    if cmd.len > 0 && !EndsWithNewline(final) {
      final := Append(final, '\n');
    }
  }

  /** What the conversions are for: a newline appended straight to a line of the buffer is written into the
      buffer, over the byte behind the line, and the queued command changes when the buffer is used again. */
  method StraightAppend(c: Console, end: nat, next: char) returns (queued: Slice)
    requires c.Valid() && 0 < end < BUFFER
    modifies c.buffer
    ensures c.buffer[end] == '\n' && queued == Slice(c.buffer, 0, end + 1, BUFFER)
    ensures Bytes(queued) == [next] + old(c.buffer[1..end]) + "\n"
  {
    queued := Append(Slice(c.buffer, 0, end, BUFFER), '\n');
    c.buffer[0] := next;
  }

  /** Standard input: what is still to come. */
  class Stdin {
    var pending: string

    /** Delivers some of it, at most max bytes; nothing at the end, or when there is no room. */
    method Read(max: nat) returns (chunk: string)
      modifies this
      ensures old(pending) == chunk + pending && |chunk| <= max
      ensures chunk == "" <==> max == 0 || old(pending) == ""
    {
      chunk := "";
      if max > 0 && pending != "" {
        var n: nat :| 0 < n <= max && n <= |pending|;
        chunk := pending[..n];
        pending := pending[n..];
      }
    }
  }

  /** One read more: what the buffer holds gives exactly the new lines and the new rest. */
  lemma ChunkFramed(done: string, chunk: string, master: bool)
    requires Fits(done) && |Tail(done) + chunk| <= BUFFER
    ensures var text := Tail(done) + chunk;
            && RoutedAll(Lines(done + chunk), master) == RoutedAll(Lines(done), master) + RoutedAll(Lines(text), master)
            && Tail(done + chunk) == Tail(text) && Fits(done + chunk)
  {
    var text := Tail(done) + chunk;
    LinesConcat(done, chunk);
    RoutedConcat(Lines(done), Lines(text), master);
    ShortTextFits(text);
    hide Lines, Tail, RoutedAll;
  }

  /** The loop. However the input is chopped, the commands sent are those of its complete lines exactly when
      each of them fits the buffer with its newline. */
  method ListenConsole(c: Console, stdin: Stdin)
    requires c.Valid() && c.QueuesHold() && c.tail == 0 && c.sent == []
    modifies c, c.buffer, stdin
    ensures c.Valid() && c.QueuesHold()
    ensures c.sent == RoutedAll(Lines(old(stdin.pending)), c.master) <==> Fits(old(stdin.pending))
  {
    hide Lines, Tail, RoutedAll, Fits, Console.Held, Console.QueuesHold;
    ghost var done, input := "", stdin.pending;
    NothingFramed(c.master);
    ShortTextFits("");
    var reading := true;
    while reading
      invariant c.Valid() && c.QueuesHold() && input == done + stdin.pending
      invariant c.sent == RoutedAll(Lines(done), c.master) && c.Held() == Tail(done) && Fits(done)
      invariant !reading ==> stdin.pending == "" || c.tail == BUFFER
      decreases |stdin.pending|, reading
    {
      var chunk := stdin.Read(BUFFER - c.tail);
      if chunk == "" {
        reading := false;
      } else {
        ChunkFramed(done, chunk, c.master);
        c.Take(chunk);
        done := done + chunk;
      }
    }
    if stdin.pending == "" {
      assert done == input;
    } else {
      LongTailBlocks(done, stdin.pending, c.master);
    }
  }
}
