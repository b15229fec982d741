/** NDJSON framing: cutting a character stream into lines, and putting lines on it. */
module Framing {
  import opened Sequences

  // ---- Splitting ----

  /** The position of the first newline, or the length of a text without one. */
  function FirstNewline(text: string): (i: nat)
    ensures i <= |text|
    ensures forall j :: 0 <= j < i ==> text[j] != '\n'
    ensures i < |text| ==> text[i] == '\n'
  {
    if text == "" || text[0] == '\n' then 0 else 1 + FirstNewline(text[1..])
  }

  predicate OneLine(text: string) {
    '\n' !in text
  }

  /** The complete lines of a text, without their newlines. */
  function Lines(text: string): seq<string>
    decreases |text|
  {
    var i := FirstNewline(text);
    if i == |text| then [] else [text[..i]] + Lines(text[i + 1..])
  }

  /** What follows the last newline. */
  function Rest(text: string): (rest: string)
    ensures OneLine(rest)
    decreases |text|
  {
    var i := FirstNewline(text);
    if i == |text| then text else Rest(text[i + 1..])
  }

  function Terminated(lines: seq<string>): string {
    if lines == [] then "" else lines[0] + "\n" + Terminated(lines[1..])
  }

  lemma HeadLine(line: string, more: string)
    requires OneLine(line)
    ensures var text := line + "\n" + more;
            && FirstNewline(text) == |line|
            && Lines(text) == [line] + Lines(more) && Rest(text) == Rest(more)
  {
    var text := line + "\n" + more;
    var i := FirstNewline(text);
    assert text[|line|] == '\n';
    assert forall j :: 0 <= j < |line| ==> text[j] == line[j] && line[j] in line;
    assert i == |line|;
    assert text[..i] == line && text[i + 1..] == more;
  }

  /** `Lines` and `Rest` are the only way to write a text as newline-free lines, each with
      its newline, followed by a newline-free rest. */
  lemma {:induction false} SplitUnique(lines: seq<string>, rest: string)
    requires (forall line :: line in lines ==> OneLine(line)) && OneLine(rest)
    ensures var text := Terminated(lines) + rest; Lines(text) == lines && Rest(text) == rest
    decreases |lines|
  {
    if lines == [] {
      assert Terminated(lines) + rest == rest;
      BareRest(rest);
    } else {
      assert lines[0] in lines && forall line :: line in lines[1..] ==> line in lines;
      SplitUnique(lines[1..], rest);
      Assoc(lines[0] + "\n", Terminated(lines[1..]), rest);
      HeadLine(lines[0], Terminated(lines[1..]) + rest);
      assert lines == [lines[0]] + lines[1..];
    }
  }

  lemma BareRest(rest: string)
    requires OneLine(rest)
    ensures Lines(rest) == [] && Rest(rest) == rest
  {
    assert forall j :: 0 <= j < |rest| ==> rest[j] in rest;
  }

  lemma {:induction false} SplitCovers(text: string)
    ensures Terminated(Lines(text)) + Rest(text) == text
    ensures forall line :: line in Lines(text) ==> OneLine(line)
    decreases |text|
  {
    var i := FirstNewline(text);
    if i < |text| {
      SplitCovers(text[i + 1..]);
      CoversStep(text, i);
    } else {
      assert Terminated([]) + text == text;
    }
  }

  lemma CoversStep(text: string, i: nat)
    requires i == FirstNewline(text) < |text|
    requires Terminated(Lines(text[i + 1..])) + Rest(text[i + 1..]) == text[i + 1..]
    ensures Terminated(Lines(text)) + Rest(text) == text
  {
    var line, tail := text[..i], text[i + 1..];
    FirstLine(text, i);
    PutTogether(line, Lines(tail), Rest(tail));
    calc {
      Terminated(Lines(text)) + Rest(text);
      Terminated([line] + Lines(tail)) + Rest(tail);
      line + "\n" + (Terminated(Lines(tail)) + Rest(tail));
      line + "\n" + tail;
    }
  }

  lemma FirstLine(text: string, i: nat)
    requires i == FirstNewline(text) < |text|
    ensures Lines(text) == [text[..i]] + Lines(text[i + 1..]) && Rest(text) == Rest(text[i + 1..])
    ensures text == text[..i] + "\n" + text[i + 1..]
  {
    SplitAt(text, i);
  }

  lemma PutTogether(line: string, lines: seq<string>, rest: string)
    ensures Terminated([line] + lines) + rest == line + "\n" + (Terminated(lines) + rest)
  {
    TerminatedCons(line, lines);
    Assoc(line + "\n", Terminated(lines), rest);
  }

  lemma TerminatedCons(line: string, lines: seq<string>)
    ensures Terminated([line] + lines) == line + "\n" + Terminated(lines)
  {
    HeadTail(line, lines);
  }

  lemma {:induction false} TerminatedConcat(a: seq<string>, b: seq<string>)
    ensures Terminated(a + b) == Terminated(a) + Terminated(b)
    decreases |a|
  {
    if a == [] {
      assert a + b == b;
    } else {
      assert (a + b)[1..] == a[1..] + b;
      TerminatedConcat(a[1..], b);
    }
  }

  /** Splitting what has arrived and then the rest with what comes next is splitting the
      whole: the heart of incremental reassembly. */
  lemma SplitIncrement(text: string, more: string)
    ensures Lines(text + more) == Lines(text) + Lines(Rest(text) + more)
    ensures Rest(text + more) == Rest(Rest(text) + more)
  {
    var tail := Rest(text) + more;
    SplitCovers(text);
    SplitCovers(tail);
    TerminatedConcat(Lines(text), Lines(tail));
    Assoc(Terminated(Lines(text)), Terminated(Lines(tail)), Rest(tail));
    Assoc(Terminated(Lines(text)), Rest(text), more);
    assert Terminated(Lines(text) + Lines(tail)) + Rest(tail) == text + more;
    SplitUnique(Lines(text) + Lines(tail), Rest(tail));
  }

  // ---- Dispatching ----

  /** The characters that `str.strip()` removes. */
  predicate IsSpace(c: char) {
    var n := c as int;
    || 0x09 <= n <= 0x0D || 0x1C <= n <= 0x20 || n == 0x85 || n == 0xA0 || n == 0x1680
    || 0x2000 <= n <= 0x200A || n == 0x2028 || n == 0x2029 || n == 0x202F || n == 0x205F || n == 0x3000
  }

  predicate Blank(line: string) {
    forall c :: c in line ==> IsSpace(c)
  }

  /** They are all of Unicode's white space. */
  lemma SpacesAreAll(c: char)
    ensures IsSpace(c) <==>
              c in "\t\n\U{0B}\U{0C}\r\U{1C}\U{1D}\U{1E}\U{1F} \U{85}\U{A0}\U{1680}"
                + "\U{2000}\U{2001}\U{2002}\U{2003}\U{2004}\U{2005}\U{2006}\U{2007}\U{2008}\U{2009}\U{200A}"
                + "\U{2028}\U{2029}\U{202F}\U{205F}\U{3000}"
  {
  }

  /** A line as it is dispatched: not at all if it is blank. */
  function Kept(line: string): seq<string> {
    if Blank(line) then [] else [line]
  }

  function NonBlank(lines: seq<string>): seq<string> {
    if lines == [] then [] else Kept(lines[0]) + NonBlank(lines[1..])
  }

  lemma {:induction false} NonBlankConcat(a: seq<string>, b: seq<string>)
    ensures NonBlank(a + b) == NonBlank(a) + NonBlank(b)
    decreases |a|
  {
    if a == [] {
      assert a + b == b;
    } else {
      assert (a + b)[1..] == a[1..] + b;
      NonBlankConcat(a[1..], b);
    }
  }

  /** The messages of a whole stream. */
  function Messages(stream: string): seq<string> {
    NonBlank(Lines(stream))
  }

  /** The messages of a stream do not depend on where it was cut. */
  lemma MoreMessages(before: string, more: string)
    ensures Messages(before + more) == Messages(before) + Messages(Rest(before) + more)
    ensures Rest(before + more) == Rest(Rest(before) + more)
  {
    SplitIncrement(before, more);
    NonBlankConcat(Lines(before), Lines(Rest(before) + more));
  }

  // ---- Sending ----

  predicate EndsWithNewline(message: string) {
    message != "" && message[|message| - 1] == '\n'
  }

  function Frame(message: string): string {
    if EndsWithNewline(message) then message else message + "\n"
  }

  function Chomp(message: string): string {
    if EndsWithNewline(message) then message[..|message| - 1] else message
  }

  function Frames(messages: seq<string>): string {
    if messages == [] then "" else Frame(messages[0]) + Frames(messages[1..])
  }

  function Chomped(messages: seq<string>): (chomped: seq<string>)
    ensures |chomped| == |messages|
  {
    seq(|messages|, i requires 0 <= i < |messages| => Chomp(messages[i]))
  }

  /** A message that arrives as itself: not blank, and no newline but one at its end. */
  predicate Sendable(message: string) {
    !Blank(message) && OneLine(Chomp(message))
  }

  lemma BlankChomp(message: string)
    ensures Blank(Chomp(message)) <==> Blank(message)
  {
    if EndsWithNewline(message) {
      var n := |message| - 1;
      assert message == message[..n] + ['\n'];
      assert forall c :: c in message <==> c in message[..n] || c == '\n';
      assert IsSpace('\n');
    }
  }

  /** A frame ends in exactly one newline more than the message without its last one. */
  lemma FrameIsChompedLine(message: string)
    ensures Frame(message) == Chomp(message) + "\n"
  {
    if EndsWithNewline(message) {
      assert message == message[..|message| - 1] + "\n";
    }
  }

  lemma FramesCons(messages: seq<string>)
    requires messages != []
    ensures Frames(messages) == Chomp(messages[0]) + "\n" + Frames(messages[1..])
  {
    FrameIsChompedLine(messages[0]);
  }

  lemma NonBlankCons(line: string, lines: seq<string>)
    ensures NonBlank([line] + lines) == Kept(line) + NonBlank(lines)
  {
    HeadTail(line, lines);
  }

  lemma FirstMessage(messages: seq<string>)
    requires messages != [] && Sendable(messages[0])
    ensures Messages(Frames(messages)) == [Chomp(messages[0])] + Messages(Frames(messages[1..]))
  {
    var line, rest := Chomp(messages[0]), Frames(messages[1..]);
    FramesCons(messages);
    HeadLine(line, rest);
    BlankChomp(messages[0]);
    NonBlankCons(line, Lines(rest));
  }

  lemma ChompedCons(messages: seq<string>)
    requires messages != []
    ensures Chomped(messages) == [Chomp(messages[0])] + Chomped(messages[1..])
  {
  }

  lemma {:induction false} FramesMessages(messages: seq<string>)
    requires forall message :: message in messages ==> Sendable(message)
    ensures Messages(Frames(messages)) == Chomped(messages)
    decreases |messages|
  {
    if messages != [] {
      assert messages[0] in messages && forall message :: message in messages[1..] ==> message in messages;
      FirstMessage(messages);
      FramesMessages(messages[1..]);
      ChompedCons(messages);
    } else {
      assert Lines("") == [];
    }
  }

  lemma {:induction false} FramesComplete(messages: seq<string>)
    ensures Rest(Frames(messages)) == ""
    decreases |messages|
  {
    if messages != [] {
      var line, tail := Chomp(messages[0]), Frames(messages[1..]);
      FramesCons(messages);
      SplitIncrement(line + "\n", tail);
      SplitCovers(line);
      SplitIncrement(line, "\n");
      HeadLine(Rest(line), "");
      assert Rest(line) + "\n" + "" == Rest(line) + "\n";
      assert Rest(line + "\n") == "";
      assert "" + tail == tail;
      FramesComplete(messages[1..]);
    }
  }

  lemma {:induction false} DispatchedAreLines(lines: seq<string>)
    ensures forall line :: line in NonBlank(lines) ==> line in lines && !Blank(line)
  {
    if lines != [] {
      DispatchedAreLines(lines[1..]);
    }
  }

  /** The messages of the frames are the messages framed, less one trailing newline each,
      if and only if each of them is sendable; and the last line is always complete. */
  lemma FramesRoundTrip(messages: seq<string>)
    ensures Messages(Frames(messages)) == Chomped(messages) <==>
              forall message :: message in messages ==> Sendable(message)
    ensures Rest(Frames(messages)) == ""
  {
    var stream := Frames(messages);
    FramesComplete(messages);
    if forall message :: message in messages ==> Sendable(message) {
      FramesMessages(messages);
    } else {
      var message :| message in messages && !Sendable(message);
      var i :| 0 <= i < |messages| && messages[i] == message;
      BlankChomp(message);
      DispatchedAreLines(Lines(stream));
      SplitCovers(stream);
      assert Chomped(messages)[i] == Chomp(message);
    }
  }
}
