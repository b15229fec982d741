/** The lifecycle of the subprocess backend as a value. Each function is one atomic
    region of `start`, `stop`, `_read_loop` or `destroy`. */
module Lifecycle {

  datatype Phase = Created | Starting | Running | Stopping | Stopped

  /** The read task: none or finished, created but not yet run, or in its loop. */
  datatype Reader = NoReader | Scheduled | Looping

  /** `starting` and `stopping` say that a `start()` or `stop()` call is suspended, `stdin`
      that the standard input of the process is open; `crashes` counts the calls of the
      close callback. */
  datatype Backend = Backend(
    phase: Phase, starting: bool, stopping: bool, process: bool, stdin: bool,
    reader: Reader, handlers: bool, crashes: nat)

  const NEW := Backend(Created, false, false, false, false, NoReader, true, 0)

  /** `start` up to its first await; `spawned` says whether the process could be spawned. */
  function BeginStart(b: Backend, spawned: bool): Backend {
    if b.phase != Created then b
    else if spawned then b.(phase := Starting, starting := true, process := true, stdin := true)
    else b.(phase := Stopped)
  }

  /** The rest of `start`; `alive` says that the process has not exited. A backend destroyed
      meanwhile has no process to ask. */
  function EndStart(b: Backend, alive: bool): Backend {
    if !b.starting then b
    else if b.process && alive then b.(phase := Running, starting := false, reader := Scheduled)
    else b.(phase := Stopped, starting := false)
  }

  /** Cancelling a suspended `start` is no `Exception`: the phase stays. */
  function CancelStart(b: Backend): Backend {
    b.(starting := false)
  }

  /** `stop` up to its first await; it closes the standard input on the way. */
  function BeginStop(b: Backend): Backend {
    if b.phase != Running && b.phase != Starting then b
    else if b.process then b.(phase := Stopping, stopping := true, stdin := false)
    else b.(phase := Stopped)
  }

  /** The `finally` block of the read loop. */
  function ReaderEnds(b: Backend): Backend {
    if b.phase == Running then b.(reader := NoReader, phase := Stopped, crashes := b.crashes + 1)
    else b.(reader := NoReader)
  }

  /** A suspended `stop` cancels the read task and awaits it. A task that has not run yet
      is cancelled before it enters its `try` block. */
  function CancelReader(b: Backend): Backend {
    if !b.stopping then b
    else if b.reader == Looping then ReaderEnds(b)
    else b.(reader := NoReader)
  }

  /** The end of `stop`, after its last await. */
  function EndStop(b: Backend): Backend {
    if b.stopping then b.(phase := Stopped, stopping := false) else b
  }

  /** The loop condition is tested: by a task that starts, or after a line. */
  function TestLoop(b: Backend): Backend {
    if b.phase == Running then b.(reader := Looping) else ReaderEnds(b)
  }

  function RunReader(b: Backend): Backend {
    if b.reader == Scheduled then TestLoop(b) else b
  }

  /** After a line has been handed to the handlers. */
  function AfterLine(b: Backend): Backend {
    if b.reader == Looping then TestLoop(b) else b
  }

  /** End of file or a read error. */
  function EndOfFile(b: Backend): Backend {
    if b.reader == Looping then ReaderEnds(b) else b
  }

  function Destroy(b: Backend): Backend {
    b.(process := false, stdin := false, handlers := false, phase := Stopped)
  }

  /** How a `send` ends: a value, or an exception other than those it catches. */
  datatype Sending = Sent | NotSent | Raises

  /** `send`; `broken` says that the pipe is. Writing to a closed file raises ValueError. */
  function Send(b: Backend, broken: bool): Sending {
    if b.phase != Running then NotSent
    else if !b.stdin then Raises
    else if broken then NotSent
    else Sent
  }

  // ---- The invariant ----

  /** The backend has left RUNNING, or will never reach it. */
  predicate Over(b: Backend) {
    !b.starting && b.phase != Created && b.phase != Running
  }

  predicate BackendInv(b: Backend) {
    && (b.phase == Running ==> !b.starting && b.process)
    && (b.phase == Created ==> !b.starting && !b.stopping)
    && (b.reader != NoReader ==> Over(b) || b.phase == Running)
    && (b.stopping ==> !b.stdin)
    && (b.stdin ==> b.process)
    && (b.phase == Created || b.process ==> b.handlers)
    && b.crashes <= 1
    && (b.crashes == 1 ==> Over(b))
  }
}
