/** The pending table as a value: what each request has received, which requests are
    still in the table, and the log of every chunk ever broadcast. */
module Table {
  import opened Protocol

  /** An item of a stream queue. */
  datatype Item = Chunk(text: string) | Result(value: Json) | Error(exc: Failure)

  /** An asyncio future: a write-once cell that may also be cancelled. */
  datatype Cell = Waiting | Resolved(value: Json) | Rejected(exc: Failure) | Cancelled

  datatype Mode = FutureMode | StreamMode

  /** A pending request. `taken` (items the consumer has read) and `since` (length of
      the log at registration) are history. */
  datatype Entry = Entry(
    future: Option<Cell>, chunks: seq<string>, queue: Option<seq<Item>>,
    taken: seq<Item>, since: nat)

  /** `store` has every request ever registered, `table` the keys of `_pending_requests`. */
  datatype State = State(store: map<Id, Entry>, table: set<Id>, log: seq<string>)

  /** The atomic operations on the table. */
  datatype Op =
    | Add(id: Id, mode: Mode)
    | Deliver(msg: Message)
    | FailAll(exc: Failure)
    | Drop(id: Id)
    | Take(id: Id)
    | Cancel(id: Id)

  const EMPTY := State(map[], {}, [])

  function Join(parts: seq<string>): string {
    if parts == [] then "" else parts[0] + Join(parts[1..])
  }

  function Fresh(mode: Mode, since: nat): Entry {
    match mode
    case FutureMode => Entry(Some(Waiting), [], None, [], since)
    case StreamMode => Entry(None, [], Some([]), [], since)
  }

  // ---- Delivery to one entry ----

  function Put(e: Entry, item: Item): Entry
    requires e.queue.Some?
  {
    e.(queue := Some(e.queue.value + [item]))
  }

  function DeliverChunk(e: Entry, text: string): Entry {
    var e' := e.(chunks := e.chunks + [text]);
    if e.queue.Some? then Put(e', Chunk(text)) else e'
  }

  /** Completing a future that is done changes nothing. */
  function Complete(e: Entry, cell: Cell): Entry {
    if e.future == Some(Waiting) then e.(future := Some(cell)) else e
  }

  function DeliverResult(e: Entry, value: Json): Entry {
    if e.queue.Some? then Put(e, Result(value)) else Complete(e, Resolved(value))
  }

  function DeliverError(e: Entry, exc: Failure): Entry {
    if e.queue.Some? then Put(e, Error(exc)) else Complete(e, Rejected(exc))
  }

  /** The result value with the aggregated text attached. */
  function WithText(value: Json, chunks: seq<string>): Json {
    var text := Join(chunks);
    if text != "" && value.Object? then Object(value.fields["text" := Text(text)]) else value
  }

  function DeliverReply(e: Entry, reply: Reply): Entry {
    match reply
    case Succeeds(value) => DeliverResult(e, WithText(value, e.chunks))
    case Fails(exc) => DeliverError(e, exc)
    case Broken => e
  }

  // ---- Operations on the table ----

  function Broadcast(s: State, text: string): State
    requires s.table <= s.store.Keys
  {
    s.(store := map id | id in s.store ::
                  if id in s.table then DeliverChunk(s.store[id], text) else s.store[id],
       log := s.log + [text])
  }

  function RejectAll(s: State, exc: Failure): State
    requires s.table <= s.store.Keys
  {
    s.(store := map id | id in s.store ::
                  if id in s.table then DeliverError(s.store[id], exc) else s.store[id],
       table := {})
  }

  function Settle(s: State, id: Id, reply: Reply): State
    requires s.table <= s.store.Keys
  {
    if id in s.table
    then s.(store := s.store[id := DeliverReply(s.store[id], reply)], table := s.table - {id})
    else s
  }

  function Act(s: State, action: Action): State
    requires s.table <= s.store.Keys
  {
    match action
    case Notify(Some(text)) => Broadcast(s, text)
    case Respond(Some(id), reply) => Settle(s, id, reply)
    case _ => s
  }

  /** The oldest item leaves the queue. */
  function TakeItem(e: Entry): Entry {
    if e.queue.Some? && e.queue.value != []
    then e.(queue := Some(e.queue.value[1..]), taken := e.taken + [e.queue.value[0]])
    else e
  }

  function Apply(s: State, op: Op): (s': State)
    requires s.table <= s.store.Keys
    ensures s'.table <= s'.store.Keys
    ensures s.store.Keys <= s'.store.Keys
  {
    match op
    case Add(id, mode) =>
      if id in s.store then s
      else s.(store := s.store[id := Fresh(mode, |s.log|)], table := s.table + {id})
    case Deliver(msg) => Act(s, Classify(msg))
    case FailAll(exc) => RejectAll(s, exc)
    case Drop(id) => s.(table := s.table - {id})
    case Take(id) =>
      if id in s.store then s.(store := s.store[id := TakeItem(s.store[id])]) else s
    case Cancel(id) =>
      if id in s.store then s.(store := s.store[id := Complete(s.store[id], Cancelled)]) else s
  }

  function ApplyAll(s: State, ops: seq<Op>): (s': State)
    requires s.table <= s.store.Keys
    ensures s'.table <= s'.store.Keys
    ensures s.store.Keys <= s'.store.Keys
    decreases |ops|
  {
    if ops == [] then s else ApplyAll(Apply(s, ops[0]), ops[1..])
  }

  lemma {:induction false} ApplyAllConcat(s: State, a: seq<Op>, b: seq<Op>)
    requires s.table <= s.store.Keys
    ensures ApplyAll(s, a + b) == ApplyAll(ApplyAll(s, a), b)
    decreases |a|
  {
    if a == [] {
      assert a + b == b;
    } else {
      assert (a + b)[1..] == a[1..] + b;
      ApplyAllConcat(Apply(s, a[0]), a[1..], b);
    }
  }

  // ---- The invariant of the table ----

  /** Everything ever put on the stream queue, in order. */
  function History(e: Entry): seq<Item> {
    e.taken + if e.queue.Some? then e.queue.value else []
  }

  function Chunks(texts: seq<string>): (items: seq<Item>)
    ensures |items| == |texts|
  {
    seq(|texts|, i requires 0 <= i < |texts| => Chunk(texts[i]))
  }

  /** A final item has been delivered. */
  predicate Settled(e: Entry) {
    if e.queue.Some? then |History(e)| > |e.chunks|
    else e.future.Some? && (e.future.value.Resolved? || e.future.value.Rejected?)
  }

  /** One delivery mode; a stream history is the chunks and then at most one final item. */
  ghost predicate WellShaped(e: Entry) {
    && (e.future.Some? <==> e.queue.None?)
    && (e.future.Some? ==> e.taken == [])
    && (e.queue.Some? ==>
          || History(e) == Chunks(e.chunks)
          || (&& |History(e)| == |e.chunks| + 1
              && History(e)[..|e.chunks|] == Chunks(e.chunks)
              && !History(e)[|e.chunks|].Chunk?))
  }

  /** The chunks of an entry are a stretch of the broadcast log that starts where the
      entry was registered. */
  ghost predicate Logged(e: Entry, log: seq<string>) {
    e.since + |e.chunks| <= |log| && e.chunks == log[e.since..e.since + |e.chunks|]
  }

  ghost predicate EntryInv(s: State, id: Id)
    requires id in s.store
  {
    var e := s.store[id];
    && WellShaped(e)
    && Logged(e, s.log)
    && (id in s.table ==> !Settled(e) && e.since + |e.chunks| == |s.log|)
  }

  ghost predicate Inv(s: State) {
    && s.table <= s.store.Keys
    && (forall id :: id in s.store ==> EntryInv(s, id))
    && (forall text :: text in s.log ==> text != "")
  }
}
