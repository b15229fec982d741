/** The subprocess backend: its lifecycle, its read loop and the delivery of its config. */
module Subprocess {
  import opened Framing
  import opened Lifecycle
  import opened Sequences

  // ---- Config delivery ----

  /** What one `os.write` does: take at most `limit` bytes, or find the pipe broken. */
  datatype Write = Wrote(limit: nat) | BrokenPipe

  function Min(a: nat, b: nat): nat {
    if a < b then a else b
  }

  lemma SliceJoin<T>(data: seq<T>, offset: nat, n: nat)
    requires offset + n <= |data|
    ensures data[..offset] + data[offset..][..n] == data[..offset + n]
  {
  }

  /** How much the first `k` writes would take of endless data. */
  function Capacity(kernel: nat -> Write, k: nat): nat {
    if k == 0 then 0
    else Capacity(kernel, k - 1) + match kernel(k - 1) case Wrote(limit) => limit case BrokenPipe => 0
  }

  /** The write loop of `_spawn_process`. The kernel answers write `k` with `kernel(k)` and
      takes at least one byte. The loop ends; the pipe gets as much of the data as the
      writes have room for, which is all of it unless a write finds the pipe broken. */
  method WriteConfig(data: seq<bv8>, kernel: nat -> Write) returns (pipe: seq<bv8>, writes: nat, broken: bool)
    requires forall k: nat :: kernel(k).Wrote? ==> kernel(k).limit > 0
    ensures writes <= |data| && forall k :: 0 <= k < writes ==> kernel(k).Wrote?
    ensures pipe == data[..Min(Capacity(kernel, writes), |data|)]
    ensures pipe == data <==> !broken
    ensures broken ==> kernel(writes).BrokenPipe? && pipe < data
  {
    pipe, writes, broken := [], 0, false;
    var offset := 0;
    while offset < |data|
      invariant offset <= |data| && pipe == data[..offset] && writes <= offset
      invariant offset == Min(Capacity(kernel, writes), |data|)
      invariant forall k :: 0 <= k < writes ==> kernel(k).Wrote?
      decreases |data| - offset
    {
      match kernel(writes) {
        case BrokenPipe =>
          return pipe, writes, true;
        case Wrote(limit) =>
          var written := Min(limit, |data[offset..]|);
          pipe := pipe + data[offset..][..written];
          SliceJoin(data, offset, written);
          offset := offset + written;
          writes := writes + 1;
      }
    }
  }

  // ---- The read loop ----

  /** `rstrip('\n\r')`: the line without the newline characters at its end. */
  function RStrip(raw: string): (line: string)
    ensures line <= raw && forall i :: |line| <= i < |raw| ==> raw[i] == '\n' || raw[i] == '\r'
    ensures line == "" || (line[|line| - 1] != '\n' && line[|line| - 1] != '\r')
  {
    if raw != "" && (raw[|raw| - 1] == '\n' || raw[|raw| - 1] == '\r')
    then RStrip(raw[..|raw| - 1]) else raw
  }

  /** One read: the calls that come while the loop waits for it, in order, and what then
      arrives on standard output - a decoded line that is JSON or not once stripped, or the
      end of it (end of file or a read error). */
  datatype Read = Read(meanwhile: seq<Interruption>, input: Input)
  datatype Interruption = Stops | Destroys
  datatype Input = TextLine(raw: string, json: bool) | End

  /** A line counts if it is not empty and is JSON. */
  function Accepted(read: Read): seq<string> {
    if read.input.TextLine? && RStrip(read.input.raw) != "" && read.input.json
    then [RStrip(read.input.raw)] else []
  }

  /** It is handed on unless `destroy()` has removed the handlers. */
  function Handed(read: Read): seq<string> {
    if Destroys in read.meanwhile then [] else Accepted(read)
  }

  predicate GoesOn(read: Read) {
    read.meanwhile == [] && read.input.TextLine?
  }

  /** The lines that a run of the loop hands on: those of its reads up to the first that
      ends the stream or follows a `stop()` or `destroy()`, that one included. */
  function Served(inputs: seq<Read>): seq<string> {
    if inputs == [] then []
    else Handed(inputs[0]) + if GoesOn(inputs[0]) then Served(inputs[1..]) else []
  }

  /** The number of lines that it counts. */
  function Counted(inputs: seq<Read>): nat {
    if inputs == [] then 0
    else |Accepted(inputs[0])| + if GoesOn(inputs[0]) then Counted(inputs[1..]) else 0
  }

  /** The stream ends with no call before. */
  predicate EndsUnstopped(inputs: seq<Read>) {
    inputs != [] && if GoesOn(inputs[0]) then EndsUnstopped(inputs[1..]) else inputs[0].meanwhile == []
  }

  // ---- Which lines ----

  predicate Newlines(text: string) {
    forall c :: c in text ==> c == '\n' || c == '\r'
  }

  predicate EndsInNewline(text: string) {
    text != "" && (text[|text| - 1] == '\n' || text[|text| - 1] == '\r')
  }

  lemma {:induction false} RStripOf(line: string, tail: string)
    requires !EndsInNewline(line) && Newlines(tail)
    ensures RStrip(line + tail) == line
    decreases |tail|
  {
    if tail == [] {
      assert line + tail == line;
    } else {
      var n := |tail| - 1;
      assert tail[n] in tail && tail == tail[..n] + [tail[n]] && forall c :: c in tail[..n] ==> c in tail;
      assert (line + tail)[..|line + tail| - 1] == line + tail[..n];
      RStripOf(line, tail[..n]);
    }
  }

  /** A line that is JSON is handed on without the newline characters at its end, whatever
      they are, unless `destroy()` has come; it is counted in any case. */
  lemma JsonLineServed(meanwhile: seq<Interruption>, line: string, tail: string)
    requires line != "" && !EndsInNewline(line) && Newlines(tail)
    ensures var inputs := [Read(meanwhile, TextLine(line + tail, true))];
            Served(inputs) == (if Destroys in meanwhile then [] else [line]) && Counted(inputs) == 1
  {
    RStripOf(line, tail);
    var read := Read(meanwhile, TextLine(line + tail, true));
    assert Accepted(read) == [line];
    assert [read][1..] == [] && Handed(read) + [] == Handed(read);
  }

  /** A line that is not JSON, or of newline characters only, is neither handed on nor
      counted. */
  lemma OtherLineSkipped(meanwhile: seq<Interruption>, raw: string, json: bool)
    requires !json || Newlines(raw)
    ensures var inputs := [Read(meanwhile, TextLine(raw, json))]; Served(inputs) == [] && Counted(inputs) == 0
  {
    if Newlines(raw) {
      RStripOf("", raw);
      assert "" + raw == raw;
    }
    var read := Read(meanwhile, TextLine(raw, json));
    assert [read][1..] == [] && Handed(read) == [] && Accepted(read) == [];
  }

  /** Reads that bring lines, with no `stop()` or `destroy()` meanwhile. */
  predicate PlainLines(inputs: seq<Read>) {
    forall read :: read in inputs ==> read.meanwhile == [] && read.input.TextLine?
  }

  /** After plain lines the loop goes on. */
  lemma {:induction false} ServedConcat(a: seq<Read>, b: seq<Read>)
    requires PlainLines(a)
    ensures Served(a + b) == Served(a) + Served(b) && Counted(a + b) == Counted(a) + Counted(b)
    ensures EndsUnstopped(a + b) == EndsUnstopped(b)
    decreases |a|
  {
    if a == [] {
      assert a + b == b && [] + Served(b) == Served(b);
    } else {
      assert a[0] in a && forall read :: read in a[1..] ==> read in a;
      ConcatTail(a, b);
      ServedConcat(a[1..], b);
      Assoc(Handed(a[0]), Served(a[1..]), Served(b));
    }
  }

  /** The first read that is no plain line is the last: the loop serves it and nothing after,
      and reports a crash exactly if it is the end of the stream with no call before it. */
  lemma LoopEndsAt(before: seq<Read>, read: Read, after: seq<Read>)
    requires PlainLines(before) && (read.meanwhile != [] || read.input.End?)
    ensures var all := before + [read] + after;
            && Served(all) == Served(before) + Served([read]) && Counted(all) == Counted(before) + Counted([read])
            && (EndsUnstopped(all) <==> read.meanwhile == [])
            && (read.input.End? ==> Served([read]) == [] && Counted([read]) == 0)
  {
    assert before + [read] + after == before + ([read] + after);
    ServedConcat(before, [read] + after);
    assert ([read] + after)[0] == read == [read][0];
  }

  /** After a `stop()` at most one line is handed on, the one that was being read, and after
      a `destroy()` none; all that comes later is ignored. */
  lemma {:induction false} AtMostOneAfterStop(before: seq<Read>, read: Read, after: seq<Read>)
    requires read.meanwhile != [] && forall r :: r in before ==> GoesOn(r)
    ensures Served(before + [read] + after) == Served(before) + Handed(read)
    ensures |Handed(read)| <= (if Destroys in read.meanwhile then 0 else 1)
    decreases |before|
  {
    var all := before + [read] + after;
    if before == [] {
      assert all[0] == read;
      assert Handed(read) + [] == Handed(read) && [] + Handed(read) == Handed(read);
    } else {
      assert all[0] == before[0] && all[1..] == before[1..] + [read] + after;
      assert before[0] in before && forall r :: r in before[1..] ==> r in before;
      AtMostOneAfterStop(before[1..], read, after);
      Assoc(Handed(before[0]), Served(before[1..]), Handed(read));
    }
  }

  function Interrupted(b: Backend, calls: seq<Interruption>): Backend
    decreases |calls|
  {
    if calls == [] then b
    else Interrupted(match calls[0] case Stops => Lifecycle.BeginStop(b) case Destroys => Lifecycle.Destroy(b),
                     calls[1..])
  }

  /** A call takes a running backend out of RUNNING, and later ones leave it there. */
  lemma {:induction false} InterruptedEnds(b: Backend, calls: seq<Interruption>)
    requires BackendInv(b) && b.reader == Looping
    ensures var b' := Interrupted(b, calls);
            && BackendInv(b') && b'.reader == Looping && b'.crashes == b.crashes
            && (b'.phase == Running <==> b.phase == Running && calls == [])
            && b'.handlers == (b.handlers && Destroys !in calls)
    decreases |calls|
  {
    if calls != [] {
      InterruptedEnds(match calls[0] case Stops => Lifecycle.BeginStop(b) case Destroys => Lifecycle.Destroy(b),
                      calls[1..]);
      assert calls == [calls[0]] + calls[1..];
    }
  }

  /** One read in terms of the lifecycle: the calls that come meanwhile, then the line and
      the test of the loop condition, or the end of the stream. */
  function AfterRead(b: Backend, read: Read): Backend {
    var b' := Interrupted(b, read.meanwhile);
    if read.input.End? then EndOfFile(b') else AfterLine(b')
  }

  function AfterReads(b: Backend, inputs: seq<Read>): Backend
    decreases |inputs|
  {
    if inputs == [] then b
    else
      var b' := AfterRead(b, inputs[0]);
      if GoesOn(inputs[0]) then AfterReads(b', inputs[1..]) else b'
  }

  /** One read of the loop, in terms of what it still has to do. */
  lemma NextRead(b: Backend, inputs: seq<Read>, n: nat)
    requires n < |inputs|
    ensures inputs[n..][1..] == inputs[n + 1..]
    ensures Served(inputs[n..]) == Handed(inputs[n]) + if GoesOn(inputs[n]) then Served(inputs[n + 1..]) else []
    ensures Counted(inputs[n..])
            == |Accepted(inputs[n])| + if GoesOn(inputs[n]) then Counted(inputs[n + 1..]) else 0
    ensures EndsUnstopped(inputs[n..])
            == if GoesOn(inputs[n]) then EndsUnstopped(inputs[n + 1..]) else inputs[n].meanwhile == []
    ensures AfterReads(b, inputs[n..])
            == if GoesOn(inputs[n]) then AfterReads(AfterRead(b, inputs[n]), inputs[n + 1..])
               else AfterRead(b, inputs[n])
  {
  }

  // ---- The backend ----

  /** `listed` says that the backend is in the registry of live processes; `reader` is the
      state of its read task, `stdin` says that the standard input is open. */
  class SubprocessBackend {
    var phase: Phase
    var process: bool
    var stdin: bool
    var handlers: bool
    var listed: bool
    var reader: Reader
    var messagesIn: nat
    var messagesOut: nat
    ghost var starting: bool
    ghost var stopping: bool
    ghost var crashes: nat
    /** What `send` has written. */
    ghost var written: string
    /** What the handlers have been called with. */
    ghost var handed: seq<string>

    ghost function View(): Backend
      reads this
    {
      Backend(phase, starting, stopping, process, stdin, reader, handlers, crashes)
    }

    /** Every method keeps the invariant of the lifecycle. */
    ghost predicate Valid()
      reads this
    {
      BackendInv(View())
    }

    constructor ()
      ensures Valid() && View() == NEW && !listed
      ensures handed == [] && written == "" && messagesIn == messagesOut == 0
    {
      phase, process, stdin, handlers, listed, reader := Created, false, false, true, false, NoReader;
      messagesIn, messagesOut := 0, 0;
      starting, stopping, crashes, handed, written := false, false, 0, [], "";
    }

    /** `start()` up to its first await; refused unless the backend is new. */
    method BeginStart(spawned: bool) returns (refused: bool)
      requires Valid()
      modifies this`phase, this`process, this`stdin, this`listed, this`starting
      ensures Valid() && refused == (old(phase) != Created)
      ensures View() == Lifecycle.BeginStart(old(View()), spawned)
      ensures listed == if refused then old(listed) else spawned
    {
      if phase != Created {
        return true;
      }
      phase := Starting;
      listed := true;
      if spawned {
        process := true;
        stdin := true;
        starting := true;
      } else {
        phase := Stopped;
        listed := false;
      }
      refused := false;
    }

    /** The rest of `start()`. */
    method EndStart(alive: bool)
      requires Valid() && starting
      modifies this`phase, this`reader, this`listed, this`starting
      ensures Valid() && View() == Lifecycle.EndStart(old(View()), alive)
      ensures listed == if phase == Running then old(listed) else false
    {
      starting := false;
      if process && alive {
        phase := Running;
        reader := Scheduled;
      } else {
        phase := Stopped;
        listed := false;
      }
    }

    /** `stop()` up to its first await. */
    method BeginStop()
      requires Valid()
      modifies this`phase, this`stdin, this`stopping
      ensures Valid() && View() == Lifecycle.BeginStop(old(View()))
    {
      if phase != Running && phase != Starting {
        return;
      }
      phase := Stopping;
      if !process {
        phase := Stopped;
        return;
      }
      stdin := false;
      stopping := true;
    }

    /** The `finally` block of the read loop: fail-fast if nobody has stopped the backend. */
    method ReaderEnds()
      requires Valid()
      modifies this`phase, this`reader, this`crashes
      ensures Valid() && View() == Lifecycle.ReaderEnds(old(View()))
    {
      if phase == Running {
        phase := Stopped;
        crashes := crashes + 1;
      }
      reader := NoReader;
    }

    /** `stop()` cancels the read task; the task ends before `stop()` runs on. */
    method CancelReader()
      requires Valid() && stopping
      modifies this`phase, this`reader, this`crashes
      ensures Valid() && View() == Lifecycle.CancelReader(old(View()))
    {
      if reader == Looping {
        ReaderEnds();
      }
      reader := NoReader;
    }

    /** The end of `stop()`. */
    method EndStop()
      requires Valid() && stopping
      modifies this`phase, this`listed, this`stopping
      ensures Valid() && View() == Lifecycle.EndStop(old(View())) && !listed
    {
      phase := Stopped;
      listed := false;
      stopping := false;
    }

    method Destroy()
      requires Valid()
      modifies this`phase, this`process, this`stdin, this`handlers, this`listed
      ensures Valid() && View() == Lifecycle.Destroy(old(View())) && !listed
    {
      listed := false;
      stdin := false;
      process := false;
      handlers := false;
      phase := Stopped;
    }

    /** `send`; `broken` says that the pipe is. */
    method Send(message: string, broken: bool) returns (sending: Sending)
      requires Valid()
      modifies this`messagesIn, this`written
      ensures sending == Lifecycle.Send(View(), broken)
      ensures written == old(written) + if sending.Sent? then Frame(message) else ""
      ensures messagesIn == old(messagesIn) + if sending.Sent? then 1 else 0
    {
      assert written + "" == written;
      if phase != Running {
        return NotSent;
      }
      var data := if EndsWithNewline(message) then message else message + "\n";
      if !stdin {
        return Raises;
      }
      if broken {
        return NotSent;
      }
      written := written + data;
      messagesIn := messagesIn + 1;
      sending := Sent;
    }

    /** The calls that come while the loop waits. */
    method Meanwhile(calls: seq<Interruption>)
      requires Valid()
      modifies this`phase, this`process, this`stdin, this`handlers, this`listed, this`stopping
      ensures Valid() && View() == Interrupted(old(View()), calls)
      decreases |calls|
    {
      if calls == [] {
        return;
      }
      match calls[0] {
        case Stops => BeginStop();
        case Destroys => Destroy();
      }
      Meanwhile(calls[1..]);
    }

    /** One turn of the read loop, from the end of its await to the next one or to the end
        of the task. */
    method Turn(read: Read) returns (goesOn: bool)
      requires Valid() && phase == Running && reader == Looping
      modifies this
      ensures Valid() && handed == old(handed) + Handed(read)
      ensures messagesOut == old(messagesOut) + |Accepted(read)|
      ensures goesOn == GoesOn(read) && View() == AfterRead(old(View()), read)
      ensures goesOn ==> phase == Running && reader == Looping
      ensures crashes == old(crashes) + if !goesOn && read.meanwhile == [] then 1 else 0
    {
      InterruptedEnds(View(), read.meanwhile);
      Meanwhile(read.meanwhile);
      if read.input.TextLine? {
        var line := RStrip(read.input.raw);
        if line != "" && read.input.json {
          messagesOut := messagesOut + 1;
          if handlers {
            handed := handed + [line];
          }
        }
        if phase == Running {
          return true;
        }
      }
      ReaderEnds();
      goesOn := false;
    }

    /** `_read_loop`, run on the reads that happen. Lines are handed on up to the end of the
        stream, and after a stop at most the one line that was being read; the loop reports
        a crash exactly if the stream ended while the backend was RUNNING. */
    method ReadLoop(inputs: seq<Read>) returns (waiting: bool)
      requires Valid() && phase == Running && reader == Looping
      modifies this
      ensures Valid() && handed == old(handed) + Served(inputs)
      ensures messagesOut == old(messagesOut) + Counted(inputs)
      ensures View() == AfterReads(old(View()), inputs)
      ensures waiting ==> phase == Running && forall read :: read in inputs ==> GoesOn(read)
      ensures crashes == old(crashes) + if EndsUnstopped(inputs) then 1 else 0
    {
      var n := 0;
      ghost var start := View();
      assert inputs[0..] == inputs;
      while n < |inputs|
        invariant n <= |inputs| && crashes == start.crashes
        invariant Valid() && reader == Looping && phase == Running
        invariant handed + Served(inputs[n..]) == old(handed) + Served(inputs)
        invariant messagesOut + Counted(inputs[n..]) == old(messagesOut) + Counted(inputs)
        invariant AfterReads(View(), inputs[n..]) == AfterReads(start, inputs)
        invariant EndsUnstopped(inputs[n..]) == EndsUnstopped(inputs)
        invariant forall i :: 0 <= i < n ==> GoesOn(inputs[i])
      {
        NextRead(View(), inputs, n);
        Assoc(handed, Handed(inputs[n]), Served(inputs[n + 1..]));
        assert Handed(inputs[n]) + [] == Handed(inputs[n]);
        var goesOn := Turn(inputs[n]);
        if !goesOn {
          return false;
        }
        n := n + 1;
      }
      assert handed + [] == handed;
      waiting := true;
    }
  }
}
