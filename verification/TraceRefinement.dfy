/** The incremental dispatcher refines a declarative reading of the operation trace. */
module TraceRefinement {
  import opened Protocol
  import opened Table
  import opened TableInvariant

  // ---- The declarative side ----

  /** The operations that take the request out of the table. */
  predicate Ends(op: Op, id: Id) {
    match op
    case FailAll(_) => true
    case Drop(other) => other == id
    case Deliver(msg) =>
      var action := Classify(msg);
      action.Respond? && action.key == Some(id)
    case _ => false
  }

  /** The position of the first operation that ends the request. */
  function FirstEnd(ops: seq<Op>, id: Id): (k: nat)
    ensures k <= |ops|
    ensures forall i :: 0 <= i < k ==> !Ends(ops[i], id)
    ensures k < |ops| ==> Ends(ops[k], id)
  {
    if ops == [] || Ends(ops[0], id) then 0 else 1 + FirstEnd(ops[1..], id)
  }

  function OpText(op: Op): seq<string> {
    if op.Deliver? then
      match Classify(op.msg) {
        case Notify(Some(text)) => [text]
        case _ => []
      }
    else []
  }

  /** The chunk texts that a stretch of the trace carries, in order. */
  function TraceTexts(ops: seq<Op>): seq<string> {
    if ops == [] then [] else OpText(ops[0]) + TraceTexts(ops[1..])
  }

  /** What the ending operation delivers to a request that collected `texts`. A response
      whose error member is no object delivers nothing, and neither does leaving. */
  function Ending(op: Op, texts: seq<string>): seq<Item> {
    match op
    case FailAll(exc) => [Error(exc)]
    case Deliver(msg) =>
      var action := Classify(msg);
      if action.Respond? then
        match action.reply {
          case Succeeds(value) => [Result(WithText(value, texts))]
          case Fails(exc) => [Error(exc)]
          case Broken => []
        }
      else []
    case _ => []
  }

  /** What the trace, from registration on, delivers to a request. */
  function Delivered(ops: seq<Op>, id: Id): seq<Item> {
    var k := FirstEnd(ops, id);
    var texts := TraceTexts(ops[..k]);
    Chunks(texts) + if k < |ops| then Ending(ops[k], texts) else []
  }

  function CellOf(item: Item): Cell
    requires Final(item)
  {
    match item
    case Result(value) => Resolved(value)
    case Error(exc) => Rejected(exc)
  }

  /** How the trace completes the future of a request: the final item, unless the future
      was cancelled before. */
  function CellFate(ops: seq<Op>, id: Id, texts: seq<string>): (cell: Cell) {
    var k := FirstEnd(ops, id);
    if Cancel(id) in ops[..k] then Cancelled
    else if k < |ops| && Ending(ops[k], texts) != [] && Final(Ending(ops[k], texts)[0])
      then CellOf(Ending(ops[k], texts)[0])
    else if Cancel(id) in ops then Cancelled
    else Waiting
  }

  // ---- A request that has left the table ----

  lemma OffTableStep(s: State, op: Op, id: Id)
    requires s.table <= s.store.Keys && id in s.store && id !in s.table
    ensures var s' := Apply(s, op);
            && id !in s'.table
            && s'.store[id] == (if op == Take(id) then TakeItem(s.store[id])
                                else if op == Cancel(id) then Complete(s.store[id], Cancelled)
                                else s.store[id])
  {
  }

  /** Once off the table a request receives nothing: its chunks and stream history never
      change, and its future changes at most from waiting to cancelled. */
  lemma {:induction false} OffTable(s: State, ops: seq<Op>, id: Id)
    requires s.table <= s.store.Keys && id in s.store && id !in s.table
    ensures var s' := ApplyAll(s, ops);
            var e, e' := s.store[id], s'.store[id];
            && id !in s'.table
            && e'.chunks == e.chunks && e'.since == e.since && e.queue.Some? == e'.queue.Some?
            && History(e') == History(e) && e.taken <= e'.taken
            && e'.future == (if e.future == Some(Waiting) && Cancel(id) in ops
                             then Some(Cancelled) else e.future)
    decreases |ops|
  {
    if ops != [] {
      OffTableStep(s, ops[0], id);
      OffTable(Apply(s, ops[0]), ops[1..], id);
      assert ops == [ops[0]] + ops[1..];
    }
  }

  /** The outcome of a request is set at most once: a settled request that is off the
      table keeps its outcome through every further run, whatever is cancelled or failed. */
  lemma OutcomeIsFinal(s: State, ops: seq<Op>, id: Id)
    requires Inv(s) && id in s.store && id !in s.table && Settled(s.store[id])
    ensures var e, e' := s.store[id], ApplyAll(s, ops).store[id];
            Settled(e') && e'.future == e.future && History(e') == History(e)
  {
    assert EntryInv(s, id);
    OffTable(s, ops, id);
  }

  // ---- A request in the table ----

  lemma EndStep(s: State, op: Op, id: Id)
    requires Inv(s) && id in s.table && Ends(op, id)
    ensures var e, e' := s.store[id], Apply(s, op).store[id];
            && id !in Apply(s, op).table
            && e'.chunks == e.chunks && e'.taken == e.taken && e'.since == e.since
            && e.queue.Some? == e'.queue.Some?
            && (e.queue.Some? ==> History(e') == History(e) + Ending(op, e.chunks))
            && (e.future.Some? ==>
                  e'.future == if e.future.value.Waiting? && Ending(op, e.chunks) != []
                               then Some(CellOf(Ending(op, e.chunks)[0])) else e.future)
  {
    var e := s.store[id];
    assert EntryInv(s, id);
    if e.queue.Some? {
      forall item
        ensures History(Put(e, item)) == History(e) + [item]
      {
        assert e.taken + (e.queue.value + [item]) == (e.taken + e.queue.value) + [item];
      }
    }
  }

  lemma ContinueDelivery(s: State, msg: Message, id: Id)
    requires Inv(s) && id in s.table && !Ends(Deliver(msg), id)
    ensures var e, e' := s.store[id], Apply(s, Deliver(msg)).store[id];
            && id in Apply(s, Deliver(msg)).table
            && e'.chunks == e.chunks + OpText(Deliver(msg)) && e'.since == e.since
            && e.queue.Some? == e'.queue.Some? && e'.future == e.future
            && (e.queue.Some? ==> History(e') == History(e) + Chunks(OpText(Deliver(msg))))
  {
    assert EntryInv(s, id);
    match Classify(msg)
    case Notify(Some(text)) =>
      ChunkKeeps(s.store[id], s.log, text);
      assert Chunks([text]) == [Chunk(text)];
    case _ =>
  }

  lemma ContinueStep(s: State, op: Op, id: Id)
    requires Inv(s) && id in s.table && !Ends(op, id)
    ensures var e, e' := s.store[id], Apply(s, op).store[id];
            && id in Apply(s, op).table
            && e'.chunks == e.chunks + OpText(op) && e'.since == e.since
            && e.queue.Some? == e'.queue.Some?
            && (e.queue.Some? ==> History(e') == History(e) + Chunks(OpText(op)))
            && (e.future.Some? ==>
                  e'.future == if e.future.value.Waiting? && op == Cancel(id)
                               then Some(Cancelled) else e.future)
  {
    var e := s.store[id];
    if op.Deliver? {
      ContinueDelivery(s, op.msg, id);
    } else {
      assert e.chunks + [] == e.chunks && Chunks([]) == [];
      assert History(TakeItem(e)) == History(e);
    }
  }

  lemma FirstEndStep(ops: seq<Op>, id: Id)
    requires ops != [] && !Ends(ops[0], id)
    ensures FirstEnd(ops, id) == 1 + FirstEnd(ops[1..], id)
    ensures var k := FirstEnd(ops, id);
            && ops[..k] == [ops[0]] + ops[1..][..k - 1]
            && TraceTexts(ops[..k]) == OpText(ops[0]) + TraceTexts(ops[1..][..k - 1])
            && (Cancel(id) in ops[..k] <==> ops[0] == Cancel(id) || Cancel(id) in ops[1..][..k - 1])
  {
    var k := FirstEnd(ops, id);
    assert ops[..k][1..] == ops[1..][..k - 1];
    assert ops[..k] == [ops[0]] + ops[1..][..k - 1];
  }

  /** The state of one request after a run, from its state before and the trace alone:
      its chunks, whether it is still in the table, its stream history and its future. */
  ghost predicate Explained(e: Entry, ops: seq<Op>, id: Id, s': State)
    requires id in s'.store
  {
    var k, e' := FirstEnd(ops, id), s'.store[id];
    var texts := e.chunks + TraceTexts(ops[..k]);
    && (id in s'.table <==> k == |ops|)
    && e'.chunks == texts
    && e'.queue.Some? == e.queue.Some?
    && (e.queue.Some? ==>
          History(e') == History(e) + Chunks(TraceTexts(ops[..k]))
                         + if k < |ops| then Ending(ops[k], texts) else [])
    && (e.future.Some? ==>
          e'.future == if e.future.value.Waiting? then Some(CellFate(ops, id, texts)) else e.future)
  }

  lemma {:induction false} Refines(s: State, ops: seq<Op>, id: Id)
    requires Inv(s) && id in s.table
    ensures Explained(s.store[id], ops, id, ApplyAll(s, ops))
    decreases |ops|
  {
    assert EntryInv(s, id);
    if ops == [] {
      assert ops[..0] == [];
    } else if Ends(ops[0], id) {
      RefinesEnd(s, ops, id);
    } else {
      RefinesStep(s, ops, id);
    }
  }

  lemma RefinesEnd(s: State, ops: seq<Op>, id: Id)
    requires Inv(s) && id in s.table && ops != [] && Ends(ops[0], id)
    ensures Explained(s.store[id], ops, id, ApplyAll(s, ops))
  {
    EndStep(s, ops[0], id);
    OffTable(Apply(s, ops[0]), ops[1..], id);
    assert ops[..0] == [] && ops == [ops[0]] + ops[1..];
    var e := s.store[id];
    assert e.chunks + TraceTexts([]) == e.chunks;
  }

  lemma CellFateStep(ops: seq<Op>, id: Id, texts: seq<string>)
    requires ops != [] && !Ends(ops[0], id)
    ensures CellFate(ops, id, texts)
            == if ops[0] == Cancel(id) then Cancelled else CellFate(ops[1..], id, texts)
  {
    FirstEndStep(ops, id);
    assert ops == [ops[0]] + ops[1..];
  }

  lemma HistoryStep(h: seq<Item>, head: seq<string>, rest: seq<string>, end: seq<Item>)
    ensures h + Chunks(head) + Chunks(rest) + end == h + Chunks(head + rest) + end
  {
    assert Chunks(head + rest) == Chunks(head) + Chunks(rest);
  }

  lemma RefinesStep(s: State, ops: seq<Op>, id: Id)
    requires Inv(s) && id in s.table && ops != [] && !Ends(ops[0], id)
    ensures Explained(s.store[id], ops, id, ApplyAll(s, ops))
    decreases |ops|, 0
  {
    StepKeeps(s, ops[0]);
    ContinueStep(s, ops[0], id);
    Refines(Apply(s, ops[0]), ops[1..], id);
    assert EntryInv(s, id);
    ExplainedStep(s.store[id], Apply(s, ops[0]).store[id], ops, id, ApplyAll(s, ops));
  }

  /** Reading one more operation at the front of the trace. */
  lemma ExplainedStep(e: Entry, e1: Entry, ops: seq<Op>, id: Id, s': State)
    requires ops != [] && !Ends(ops[0], id) && id in s'.store
    requires WellShaped(e) && e1.chunks == e.chunks + OpText(ops[0])
    requires e.queue.Some? == e1.queue.Some?
    requires e.queue.Some? ==> History(e1) == History(e) + Chunks(OpText(ops[0]))
    requires e.future.Some? ==>
               e1.future == if e.future.value.Waiting? && ops[0] == Cancel(id)
                            then Some(Cancelled) else e.future
    requires Explained(e1, ops[1..], id, s')
    ensures Explained(e, ops, id, s')
  {
    FirstEndStep(ops, id);
    var k := FirstEnd(ops, id);
    var head, rest := OpText(ops[0]), TraceTexts(ops[1..][..k - 1]);
    var texts := e.chunks + TraceTexts(ops[..k]);
    assert e1.chunks + rest == texts;
    assert k < |ops| ==> ops[1..][k - 1] == ops[k];
    CellFateStep(ops, id, texts);
    HistoryStep(History(e), head, rest, if k < |ops| then Ending(ops[k], texts) else []);
  }
}
