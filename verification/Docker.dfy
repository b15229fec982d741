/** The Docker backend's read loop and `send`. */
module Docker {
  import opened Framing
  import opened Sequences
  import opened Lifecycle

  /** How one `read` ends: data, data that does not decode, a time-out, end of file, or
      the read task cancelled by `stop()`. Sizes are in bytes. */
  datatype Ending =
    | Arrived(text: string, size: nat)
    | Undecodable(size: nat)
    | Idle
    | EndOfStream
    | StopRequested

  /** One `read`; `destroyed` says that `destroy()` was called while the loop waited. */
  datatype Read = Read(destroyed: bool, ending: Ending)

  /** The loop goes on after data and after a time-out, unless the backend was destroyed. */
  predicate Continues(read: Read) {
    !read.destroyed && (read.ending.Arrived? || read.ending.Idle?)
  }

  function TextOf(read: Read): string {
    if read.ending.Arrived? then read.ending.text else ""
  }

  /** What arrives is counted even if it does not decode. */
  function SizeOf(read: Read): nat {
    if read.ending.Arrived? || read.ending.Undecodable? then read.ending.size else 0
  }

  /** The stream that the loop sees: the data of its reads, up to the first read that
      ends it, that one included. */
  function Stream(inputs: seq<Read>): string {
    if inputs == [] then ""
    else TextOf(inputs[0]) + if Continues(inputs[0]) then Stream(inputs[1..]) else ""
  }

  function Size(inputs: seq<Read>): nat {
    if inputs == [] then 0
    else SizeOf(inputs[0]) + if Continues(inputs[0]) then Size(inputs[1..]) else 0
  }

  /** The phase in which the read that ends the loop leaves a running backend. */
  function PhaseAfter(inputs: seq<Read>): Phase {
    if inputs == [] then Running
    else if Continues(inputs[0]) then PhaseAfter(inputs[1..])
    else if inputs[0].destroyed then Stopped
    else if inputs[0].ending.StopRequested? then Stopping
    else Running
  }

  // ---- When the loop goes on ----

  /** All data of some reads, whatever else happens in them. */
  function Data(inputs: seq<Read>): string {
    if inputs == [] then ""
    else (match inputs[0].ending case Arrived(text, _) => text case _ => "") + Data(inputs[1..])
  }

  function DataSize(inputs: seq<Read>): nat {
    if inputs == [] then 0
    else
      (match inputs[0].ending case Arrived(_, size) => size case Undecodable(size) => size case _ => 0)
      + DataSize(inputs[1..])
  }

  /** Through data and time-outs the loop goes on. */
  lemma {:induction false} StreamConcat(a: seq<Read>, b: seq<Read>)
    requires forall r :: r in a ==> !r.destroyed && (r.ending.Arrived? || r.ending.Idle?)
    ensures Stream(a + b) == Data(a) + Stream(b) && Size(a + b) == DataSize(a) + Size(b)
    ensures PhaseAfter(a + b) == PhaseAfter(b)
    decreases |a|
  {
    if a == [] {
      assert a + b == b && "" + Stream(b) == Stream(b);
    } else {
      assert a[0] in a && forall r :: r in a[1..] ==> r in a;
      ConcatTail(a, b);
      StreamConcat(a[1..], b);
      Assoc(TextOf(a[0]), Data(a[1..]), Stream(b));
    }
  }

  /** A backend that is left alone is RUNNING and sees all the data of its reads. */
  lemma StreamIsData(inputs: seq<Read>)
    requires forall r :: r in inputs ==> !r.destroyed && (r.ending.Arrived? || r.ending.Idle?)
    ensures Stream(inputs) == Data(inputs) && Size(inputs) == DataSize(inputs) && PhaseAfter(inputs) == Running
  {
    StreamConcat(inputs, []);
    assert inputs + [] == inputs && Data(inputs) + "" == Data(inputs);
  }

  /** Time-outs change nothing, wherever they come. */
  lemma {:induction false} IdleIsIgnored(a: seq<Read>, b: seq<Read>)
    ensures var idle := a + [Read(false, Idle)] + b;
            Stream(idle) == Stream(a + b) && Size(idle) == Size(a + b) && PhaseAfter(idle) == PhaseAfter(a + b)
    decreases |a|
  {
    var idle := a + [Read(false, Idle)] + b;
    if a == [] {
      assert idle == [Read(false, Idle)] + b && a + b == b;
      assert idle[1..] == b && "" + Stream(b) == Stream(b);
    } else {
      assert idle[1..] == a[1..] + [Read(false, Idle)] + b && (a + b)[1..] == a[1..] + b;
      IdleIsIgnored(a[1..], b);
    }
  }

  /** The loop ends at the first read in which the backend is destroyed or stopped, the
      stream ends, or data does not decode; what that read brings is still seen, and nothing
      after it. The end of the stream leaves the backend RUNNING. */
  lemma LoopEndsAt(before: seq<Read>, read: Read, after: seq<Read>)
    requires forall r :: r in before ==> !r.destroyed && (r.ending.Arrived? || r.ending.Idle?)
    requires read.destroyed || read.ending.Undecodable? || read.ending.EndOfStream? || read.ending.StopRequested?
    ensures var all := before + [read] + after;
            && Stream(all) == Data(before + [read]) && Size(all) == DataSize(before + [read])
            && PhaseAfter(all) == if read.destroyed then Stopped
                                  else if read.ending.StopRequested? then Stopping else Running
  {
    assert before + [read] + after == before + ([read] + after);
    StreamConcat(before, [read] + after);
    DataConcat(before, [read]);
    assert ([read] + after)[0] == read && Data([read]) == TextOf(read) + "" == TextOf(read);
  }

  lemma {:induction false} DataConcat(a: seq<Read>, b: seq<Read>)
    ensures Data(a + b) == Data(a) + Data(b) && DataSize(a + b) == DataSize(a) + DataSize(b)
    decreases |a|
  {
    if a == [] {
      assert a + b == b && "" + Data(b) == Data(b);
    } else {
      ConcatTail(a, b);
      DataConcat(a[1..], b);
      Assoc(match a[0].ending case Arrived(text, _) => text case _ => "", Data(a[1..]), Data(b));
    }
  }

  // ---- The inner loop ----

  lemma CutAt(buffer: string, i: nat)
    requires i <= |buffer| && (forall j :: 0 <= j < i ==> buffer[j] != '\n')
    requires i < |buffer| ==> buffer[i] == '\n'
    requires '\n' in buffer
    ensures i < |buffer| && OneLine(buffer[..i]) && buffer == buffer[..i] + "\n" + buffer[i + 1..]
  {
    if i < |buffer| { SplitAt(buffer, i); }
  }

  /** One pass of the inner loop. */
  lemma SplitOff(buffer: string)
    requires '\n' in buffer
    ensures var i := FirstNewline(buffer);
            && i < |buffer|
            && Rest(buffer) == Rest(buffer[i + 1..])
            && Messages(buffer) == Kept(buffer[..i]) + Messages(buffer[i + 1..])
  {
    var i := FirstNewline(buffer);
    CutAt(buffer, i);
    HeadLine(buffer[..i], buffer[i + 1..]);
    NonBlankCons(buffer[..i], Lines(buffer[i + 1..]));
  }

  lemma NoneLeft(buffer: string)
    requires '\n' !in buffer
    ensures Rest(buffer) == buffer && Messages(buffer) == []
  {
  }

  /** One read of the loop, in terms of what it still has to see. */
  lemma NextRead(inputs: seq<Read>, n: nat)
    requires n < |inputs|
    ensures inputs[n..][1..] == inputs[n + 1..]
    ensures Stream(inputs[n..]) == TextOf(inputs[n]) + if Continues(inputs[n]) then Stream(inputs[n + 1..]) else ""
    ensures Size(inputs[n..]) == SizeOf(inputs[n]) + if Continues(inputs[n]) then Size(inputs[n + 1..]) else 0
    ensures Continues(inputs[n]) ==> PhaseAfter(inputs[n..]) == PhaseAfter(inputs[n + 1..])
    ensures !Continues(inputs[n]) ==> PhaseAfter(inputs[n..]) == PhaseAfter([inputs[n]])
  {
  }

  class DockerBackend {
    var phase: Phase
    var connected: bool
    var messagesIn: nat
    var bytesIn: nat
    var messagesOut: nat
    var bytesOut: nat
    /** What has been written to the connection. */
    ghost var written: string
    /** What the handlers have been called with. */
    ghost var dispatched: seq<string>

    constructor ()
      ensures phase == Created && !connected && written == "" && dispatched == []
      ensures messagesIn == bytesIn == messagesOut == bytesOut == 0
    {
      phase, connected := Created, false;
      messagesIn, bytesIn, messagesOut, bytesOut := 0, 0, 0, 0;
      written, dispatched := "", [];
    }

    /** `buffer.split("\n", 1)` until no newline is left, dispatching what is not blank. */
    method DispatchLines(buffer0: string) returns (buffer: string)
      modifies this`messagesOut, this`dispatched
      ensures buffer == Rest(buffer0)
      ensures dispatched == old(dispatched) + Messages(buffer0)
      ensures messagesOut == old(messagesOut) + |Messages(buffer0)|
    {
      buffer := buffer0;
      while '\n' in buffer
        invariant Rest(buffer) == Rest(buffer0)
        invariant dispatched + Messages(buffer) == old(dispatched) + Messages(buffer0)
        invariant messagesOut + |Messages(buffer)| == old(messagesOut) + |Messages(buffer0)|
        decreases |buffer|
      {
        var i := FirstNewline(buffer);
        var line, rest := buffer[..i], buffer[i + 1..];
        SplitOff(buffer);
        Assoc(dispatched, [line], Messages(rest));
        buffer := rest;
        if !Blank(line) {
          messagesOut := messagesOut + 1;
          dispatched := dispatched + [line];
        }
      }
      NoneLeft(buffer);
      assert dispatched + [] == dispatched;
    }

    /** Data has arrived after `stream`, of which `buffer0` is not yet dispatched. */
    method Receive(buffer0: string, text: string, size: nat, ghost stream: string, ghost before: seq<string>)
      returns (buffer: string)
      requires buffer0 == Rest(stream) && dispatched == before + Messages(stream)
      modifies this`messagesOut, this`bytesOut, this`dispatched
      ensures buffer == Rest(stream + text) && dispatched == before + Messages(stream + text)
      ensures messagesOut + |Messages(stream)| == old(messagesOut) + |Messages(stream + text)|
      ensures bytesOut == old(bytesOut) + size
    {
      bytesOut := bytesOut + size;
      MoreMessages(stream, text);
      Assoc(before, Messages(stream), Messages(buffer0 + text));
      buffer := DispatchLines(buffer0 + text);
    }

    /** `destroy()`; the handlers stay. */
    method Destroy()
      modifies this`phase, this`connected
      ensures phase == Stopped && !connected
    {
      connected := false;
      phase := Stopped;
    }

    /** What one read does: the end of the loop, or data. */
    method Turn(buffer0: string, read: Read, ghost stream: string, ghost before: seq<string>)
      returns (buffer: string, goesOn: bool)
      requires phase == Running && buffer0 == Rest(stream) && dispatched == before + Messages(stream)
      modifies this`phase, this`connected, this`messagesOut, this`bytesOut, this`dispatched
      ensures buffer == Rest(stream + TextOf(read)) && dispatched == before + Messages(stream + TextOf(read))
      ensures messagesOut + |Messages(stream)| == old(messagesOut) + |Messages(stream + TextOf(read))|
      ensures bytesOut == old(bytesOut) + SizeOf(read)
      ensures goesOn == Continues(read)
      ensures phase == PhaseAfter([read]) && connected == (old(connected) && !read.destroyed)
    {
      assert stream + "" == stream;
      buffer := buffer0;
      if read.destroyed {
        Destroy();
      }
      match read.ending {
        case Idle =>
          return buffer, phase == Running;
        case EndOfStream =>
          return buffer, false;
        case Undecodable(size) =>
          bytesOut := bytesOut + size;
          return buffer, false;
        case StopRequested =>
          if phase == Running {
            phase := Stopping;
          }
          return buffer, false;
        case Arrived(text, size) =>
          buffer := Receive(buffer, text, size, stream, before);
          goesOn := phase == Running;
      }
    }

    /** `_read_loop`, run on the reads that happen; it is still waiting if none ends it. */
    method ReadLoop(inputs: seq<Read>) returns (buffer: string)
      requires phase == Running
      modifies this`phase, this`connected, this`messagesOut, this`bytesOut, this`dispatched
      ensures dispatched == old(dispatched) + Messages(Stream(inputs))
      ensures buffer == Rest(Stream(inputs))
      ensures messagesOut == old(messagesOut) + |Messages(Stream(inputs))|
      ensures bytesOut == old(bytesOut) + Size(inputs)
      ensures phase == PhaseAfter(inputs)
    {
      buffer := "";
      var n := 0;
      ghost var stream := "";
      assert inputs[0..] == inputs && dispatched + [] == dispatched;
      NoneLeft("");
      while n < |inputs|
        invariant n <= |inputs| && phase == Running
        invariant stream + Stream(inputs[n..]) == Stream(inputs)
        invariant PhaseAfter(inputs[n..]) == PhaseAfter(inputs)
        invariant buffer == Rest(stream)
        invariant dispatched == old(dispatched) + Messages(stream)
        invariant messagesOut == old(messagesOut) + |Messages(stream)|
        invariant bytesOut + Size(inputs[n..]) == old(bytesOut) + Size(inputs)
      {
        NextRead(inputs, n);
        var read := inputs[n];
        var goesOn: bool;
        buffer, goesOn := Turn(buffer, read, stream, old(dispatched));
        Assoc(stream, TextOf(read), if Continues(read) then Stream(inputs[n + 1..]) else "");
        stream := stream + TextOf(read);
        if !goesOn {
          assert stream + "" == stream;
          return;
        }
        n := n + 1;
      }
      assert stream + "" == stream;
    }

    /** `send`: one frame, or nothing; `broken` says that the write raises. */
    method Send(message: string, broken: bool) returns (ok: bool)
      modifies this`written, this`messagesIn, this`bytesIn
      ensures ok == (phase == Running && connected && !broken)
      ensures written == if ok then old(written) + Frame(message) else old(written)
      ensures messagesIn == old(messagesIn) + if ok then 1 else 0
      ensures bytesIn == old(bytesIn) + if ok then |Frame(message)| else 0
    {
      if phase != Running || !connected {
        return false;
      }
      var data := if EndsWithNewline(message) then message else message + "\n";
      if broken {
        return false;
      }
      written := written + data;
      messagesIn := messagesIn + 1;
      bytesIn := bytesIn + |data|;
      ok := true;
    }
  }
}
