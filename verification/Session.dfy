/** The client joined to its subprocess backend: a state machine whose steps are the
    atomic regions between awaits. `Open` says by `sent` whether the pipe would take the
    request if it is open. Any sequence of events is a run; an event that the
    code refuses or that cannot happen changes nothing. */
module Session {
  import opened Protocol
  import opened Table
  import opened Lifecycle

  /** How a call of `request()` or an iteration of `stream_request()` ends. `Left` is a
      cancelled request or a stream abandoned by its consumer. */
  datatype Outcome = Returned(value: Json) | Raised(exc: Failure) | TimedOut | Left

  datatype Call = Call(mode: Mode, deadline: int, outcome: Option<Outcome>)

  /** `attached` is false once the client has dropped its backend. */
  datatype World = World(
    state: State, calls: map<Id, Call>, backend: Backend, attached: bool, now: int)

  datatype Event =
    | BeginStart(spawned: bool)
    | EndStart(alive: bool)
    | CancelStart
    | BeginStop
    | CancelReader
    | EndStop
    | RunReader
    | Line(msg: Message)
    | EndOfFile
    | Destroy
    | Tick(elapsed: nat)
    | Open(id: Id, mode: Mode, timeout: int, sent: bool)
    | Wake(id: Id)
    | Leave(id: Id)

  const START := World(EMPTY, map[], NEW, true, 0)

  const SHUTDOWN := Transport("Bus is shutting down")
  const CRASHED := Transport("stdio_bus process exited unexpectedly")
  const UNSENT := Transport("Failed to send message")
  const CLOSED := ValueError("write to closed file")

  predicate StreamPending(s: State)
    requires s.table <= s.store.Keys
  {
    exists id :: id in s.table && s.store[id].queue.Some?
  }

  /** Whether `request()` or `stream_request()` gets as far as registering. Ids are
      fresh uuids, so an event that reuses one cannot happen. */
  predicate Opens(w: World, id: Id, mode: Mode)
    requires w.state.table <= w.state.store.Keys
  {
    && w.attached && w.backend.phase == Running
    && id !in w.state.store && id !in w.calls
    && (mode.StreamMode? ==> !StreamPending(w.state))
  }

  /** What a waiting call finds when it runs: the item that is ready for it, a deadline
      that has passed with nothing ready, or neither. */
  datatype Finding = Ready(item: Item) | TooLate | Nothing

  function Look(e: Entry, late: bool): Finding {
    if e.queue.Some? && e.queue.value != [] then Ready(e.queue.value[0])
    else if e.future.Some? && e.future.value.Resolved? then Ready(Result(e.future.value.value))
    else if e.future.Some? && e.future.value.Rejected? then Ready(Error(e.future.value.exc))
    else if late then TooLate
    else Nothing
  }

  /** What the call then does to the table. */
  function WakeOps(id: Id, mode: Mode, finding: Finding): seq<Op> {
    match finding
    case Ready(item) =>
      (if mode.StreamMode? then [Take(id)] else [])
      + (if item.Chunk? || (item.Result? && mode.FutureMode?) then [] else [Drop(id)])
    case TooLate => (if mode.FutureMode? then [Cancel(id)] else []) + [Drop(id)]
    case Nothing => []
  }

  function LeaveOps(id: Id, mode: Mode): seq<Op> {
    if mode.FutureMode? then [Cancel(id)] else [Drop(id)]
  }

  /** A request that is not sent, whatever the reason, is dropped at once. */
  function OpenOps(id: Id, mode: Mode, sending: Sending): seq<Op> {
    if sending.Sent? then [Add(id, mode)] else [Add(id, mode), Drop(id)]
  }

  function SendOutcome(sending: Sending): Option<Outcome> {
    match sending
    case Sent => None
    case NotSent => Some(Raised(UNSENT))
    case Raises => Some(Raised(CLOSED))
  }

  function Find(w: World, id: Id): Finding
    requires id in w.calls && id in w.state.store
  {
    Look(w.state.store[id], w.now >= w.calls[id].deadline)
  }

  predicate Active(w: World, id: Id) {
    id in w.calls && id in w.state.store && w.calls[id].outcome.None?
  }

  function OutcomeOf(item: Item): Option<Outcome> {
    match item
    case Chunk(_) => None
    case Result(value) => Some(Returned(value))
    case Error(exc) => Some(Raised(exc))
  }

  // ---- One step ----

  function NextBackend(w: World, ev: Event): Backend {
    match ev
    case BeginStart(spawned) =>
      if w.attached then Lifecycle.BeginStart(w.backend, spawned) else w.backend
    case EndStart(alive) => Lifecycle.EndStart(w.backend, alive)
    case CancelStart => Lifecycle.CancelStart(w.backend)
    case BeginStop => if w.attached then Lifecycle.BeginStop(w.backend) else w.backend
    case CancelReader => Lifecycle.CancelReader(w.backend)
    case EndStop => Lifecycle.EndStop(w.backend)
    case RunReader => Lifecycle.RunReader(w.backend)
    case Line(_) => AfterLine(w.backend)
    case EndOfFile => Lifecycle.EndOfFile(w.backend)
    case Destroy => if w.attached then Lifecycle.Destroy(w.backend) else w.backend
    case _ => w.backend
  }

  /** The table operations that an event performs. The close callback fails every request. */
  function Ops(w: World, ev: Event): seq<Op>
    requires w.state.table <= w.state.store.Keys
  {
    match ev
    case BeginStop => [FailAll(SHUTDOWN)]
    case CancelReader =>
      if NextBackend(w, ev).crashes > w.backend.crashes then [FailAll(CRASHED)] else []
    case EndOfFile =>
      if NextBackend(w, ev).crashes > w.backend.crashes then [FailAll(CRASHED)] else []
    case Line(msg) =>
      if w.backend.reader == Looping && w.backend.handlers then [Deliver(msg)] else []
    case Open(id, mode, _, sent) =>
      if Opens(w, id, mode) then OpenOps(id, mode, Send(w.backend, !sent)) else []
    case Wake(id) =>
      if Active(w, id) then WakeOps(id, w.calls[id].mode, Find(w, id)) else []
    case Leave(id) =>
      if Active(w, id) then LeaveOps(id, w.calls[id].mode) else []
    case _ => []
  }

  function NextCalls(w: World, ev: Event): map<Id, Call>
    requires w.state.table <= w.state.store.Keys
  {
    match ev
    case Open(id, mode, timeout, sent) =>
      if Opens(w, id, mode)
      then w.calls[id := Call(mode, w.now + timeout, SendOutcome(Send(w.backend, !sent)))]
      else w.calls
    case Wake(id) =>
      if !Active(w, id) then w.calls
      else (
        match Find(w, id)
        case Ready(item) => w.calls[id := w.calls[id].(outcome := OutcomeOf(item))]
        case TooLate => w.calls[id := w.calls[id].(outcome := Some(TimedOut))]
        case Nothing => w.calls
      )
    case Leave(id) =>
      if Active(w, id) then w.calls[id := w.calls[id].(outcome := Some(Left))] else w.calls
    case _ => w.calls
  }

  function Step(w: World, ev: Event): (w': World)
    requires w.state.table <= w.state.store.Keys
    ensures w'.state.table <= w'.state.store.Keys
  {
    World(
      ApplyAll(w.state, Ops(w, ev)),
      NextCalls(w, ev),
      NextBackend(w, ev),
      w.attached && !ev.Destroy?,
      if ev.Tick? then w.now + ev.elapsed else w.now)
  }

  function Run(w: World, evs: seq<Event>): (w': World)
    requires w.state.table <= w.state.store.Keys
    ensures w'.state.table <= w'.state.store.Keys
    decreases |evs|
  {
    if evs == [] then w else Run(Step(w, evs[0]), evs[1..])
  }

  /** All table operations of a run. */
  function Trace(w: World, evs: seq<Event>): seq<Op>
    requires w.state.table <= w.state.store.Keys
    decreases |evs|
  {
    if evs == [] then [] else Ops(w, evs[0]) + Trace(Step(w, evs[0]), evs[1..])
  }

  /** The table of a session is the table of its trace, so every theorem about runs of
      the table holds of every session. */
  lemma {:induction false} RunIsTrace(w: World, evs: seq<Event>)
    requires w.state.table <= w.state.store.Keys
    ensures Run(w, evs).state == ApplyAll(w.state, Trace(w, evs))
    decreases |evs|
  {
    if evs != [] {
      RunIsTrace(Step(w, evs[0]), evs[1..]);
      ApplyAllConcat(w.state, Ops(w, evs[0]), Trace(Step(w, evs[0]), evs[1..]));
    }
  }

  lemma {:induction false} RunConcat(w: World, a: seq<Event>, b: seq<Event>)
    requires w.state.table <= w.state.store.Keys
    ensures Run(w, a + b) == Run(Run(w, a), b)
    decreases |a|
  {
    if a == [] {
      assert a + b == b;
    } else {
      assert (a + b)[1..] == a[1..] + b;
      RunConcat(Step(w, a[0]), a[1..], b);
    }
  }
}
