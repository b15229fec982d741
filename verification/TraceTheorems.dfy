/** Theorems about whole runs of the table: refinement, mode parity, non-interference. */
module TraceTheorems {
  import opened Protocol
  import opened Table
  import opened TableInvariant
  import opened TraceRefinement

  // ---- Trace refinement ----

  lemma {:induction false} TraceTextsNonEmpty(ops: seq<Op>)
    ensures forall text :: text in TraceTexts(ops) ==> text != ""
  {
    if ops != [] { TraceTextsNonEmpty(ops[1..]); }
  }

  lemma {:induction false} JoinNonEmpty(texts: seq<string>)
    requires forall text :: text in texts ==> text != ""
    ensures Join(texts) != "" <==> texts != []
  {
    if texts != [] {
      assert texts[0] in texts;
      assert Join(texts) == texts[0] + Join(texts[1..]);
    }
  }

  /** The aggregated text is the concatenation of the chunk texts, in order: one text is
      itself, and of two stretches the first comes first. */
  lemma {:induction false} JoinInOrder(a: seq<string>, b: seq<string>, text: string)
    ensures Join([text]) == text && Join(a + b) == Join(a) + Join(b)
    decreases |a|
  {
    assert Join([text]) == text + Join([]);
    if a == [] {
      assert a + b == b;
    } else {
      assert (a + b)[0] == a[0] && (a + b)[1..] == a[1..] + b;
      JoinInOrder(a[1..], b, text);
      assert a[0] + (Join(a[1..]) + Join(b)) == a[0] + Join(a[1..]) + Join(b);
    }
  }

  /** A result carries the joined chunk texts exactly if there was a chunk and the result is
      an object; every other result is left as it is. */
  lemma TextAttached(value: Json, texts: seq<string>)
    requires forall text :: text in texts ==> text != ""
    ensures WithText(value, texts)
            == if texts != [] && value.Object? then Object(value.fields["text" := Text(Join(texts))]) else value
  {
    JoinNonEmpty(texts);
  }

  /** A request registered after any run `before` and followed by any run `after` ends at
      the first operation that ends it, with the outcome that the trace alone determines;
      and a result carries the joined chunk texts exactly if there was a chunk and the
      result is an object. */
  lemma RequestFate(before: seq<Op>, id: Id, mode: Mode, after: seq<Op>)
    requires id !in ApplyAll(EMPTY, before).store
    ensures var s := ApplyAll(EMPTY, before + [Add(id, mode)] + after);
            var k := FirstEnd(after, id);
            var texts := TraceTexts(after[..k]);
            && id in s.store
            && (id in s.table <==> k == |after|)
            && s.store[id].chunks == texts
            && (mode.StreamMode? ==> History(s.store[id]) == Delivered(after, id))
            && (mode.FutureMode? ==> s.store[id].future == Some(CellFate(after, id, texts)))
            && (forall value :: WithText(value, texts)
                  == if texts != [] && value.Object?
                     then Object(value.fields["text" := Text(Join(texts))]) else value)
  {
    ApplyAllConcat(EMPTY, before + [Add(id, mode)], after);
    ApplyAllConcat(EMPTY, before, [Add(id, mode)]);
    var s0 := ApplyAll(EMPTY, before);
    var s1 := Apply(s0, Add(id, mode));
    assert ApplyAll(s0, [Add(id, mode)]) == ApplyAll(s1, []);
    RunKeeps(EMPTY, before);
    AddKeeps(s0, id, mode);
    Refines(s1, after, id);
    var k := FirstEnd(after, id);
    var texts := TraceTexts(after[..k]);
    assert [] + texts == texts;
    assert History(s1.store[id]) == [];
    assert [] + Chunks(texts) == Chunks(texts);
    TraceTextsNonEmpty(after[..k]);
    EveryTextAttached(texts);
  }

  lemma EveryTextAttached(texts: seq<string>)
    requires forall text :: text in texts ==> text != ""
    ensures forall value :: WithText(value, texts)
              == if texts != [] && value.Object?
                 then Object(value.fields["text" := Text(Join(texts))]) else value
  {
    forall value
      ensures WithText(value, texts)
              == if texts != [] && value.Object?
                 then Object(value.fields["text" := Text(Join(texts))]) else value
    {
      TextAttached(value, texts);
    }
  }

  /** A response whose id is in no entry of the table changes nothing. */
  lemma UnknownResponseIgnored(s: State, msg: Message)
    requires Inv(s)
    requires Classify(msg).Respond? && forall id :: id in s.table ==> Classify(msg).key != Some(id)
    ensures Apply(s, Deliver(msg)) == s
  {
    match Classify(msg).key
    case Some(id) => assert id !in s.table;
    case None =>
  }

  // ---- Non-interference ----

  /** The operations that concern one request only. */
  predicate Private(op: Op, id: Id) {
    match op
    case Add(other, _) => other == id
    case Drop(other) => other == id
    case Take(other) => other == id
    case Cancel(other) => other == id
    case Deliver(msg) =>
      var action := Classify(msg);
      action.Respond? && action.key == Some(id)
    case FailAll(_) => false
  }

  function Without(ops: seq<Op>, id: Id): seq<Op> {
    if ops == [] then []
    else (if Private(ops[0], id) then [] else [ops[0]]) + Without(ops[1..], id)
  }

  /** The two tables differ at most in one request. */
  ghost predicate AgreeExcept(s: State, t: State, id: Id) {
    && s.log == t.log
    && s.table - {id} == t.table - {id}
    && s.store - {id} == t.store - {id}
  }

  lemma AgreeAt(s: State, t: State, id: Id, other: Id)
    requires AgreeExcept(s, t, id) && other != id
    ensures other in s.table <==> other in t.table
    ensures other in s.store <==> other in t.store
    ensures other in s.store ==> s.store[other] == t.store[other]
  {
    assert other in s.table - {id} <==> other in t.table - {id};
    assert other in s.store - {id} <==> other in t.store - {id};
    if other in s.store {
      assert (s.store - {id})[other] == (t.store - {id})[other];
    }
  }

  lemma AgreeFrom(s: State, t: State, id: Id)
    requires s.log == t.log
    requires forall other :: other != id ==> (other in s.table <==> other in t.table)
    requires forall other :: other != id ==> (other in s.store <==> other in t.store)
    requires forall other :: other != id && other in s.store && other in t.store ==>
               s.store[other] == t.store[other]
    ensures AgreeExcept(s, t, id)
  {
  }

  lemma PrivateStep(s: State, op: Op, id: Id)
    requires s.table <= s.store.Keys && Private(op, id)
    ensures AgreeExcept(Apply(s, op), s, id)
  {
    AgreeFrom(Apply(s, op), s, id);
  }

  lemma SharedAt(s: State, t: State, op: Op, id: Id, other: Id)
    requires s.table <= s.store.Keys && t.table <= t.store.Keys
    requires AgreeExcept(s, t, id) && other != id
    ensures var s', t' := Apply(s, op), Apply(t, op);
            && s'.log == t'.log
            && (other in s'.table <==> other in t'.table)
            && (other in s'.store <==> other in t'.store)
            && (other in s'.store ==> s'.store[other] == t'.store[other])
  {
    AgreeAt(s, t, id, other);
  }

  lemma SharedStep(s: State, t: State, op: Op, id: Id)
    requires s.table <= s.store.Keys && t.table <= t.store.Keys
    requires AgreeExcept(s, t, id)
    ensures AgreeExcept(Apply(s, op), Apply(t, op), id)
  {
    var s', t' := Apply(s, op), Apply(t, op);
    forall other | other != id
      ensures other in s'.table <==> other in t'.table
      ensures other in s'.store <==> other in t'.store
      ensures other in s'.store ==> s'.store[other] == t'.store[other]
    {
      SharedAt(s, t, op, id, other);
    }
    AgreeFrom(s', t', id);
  }

  lemma {:induction false} AgreeRun(s: State, t: State, ops: seq<Op>, id: Id)
    requires s.table <= s.store.Keys && t.table <= t.store.Keys
    requires AgreeExcept(s, t, id)
    ensures AgreeExcept(ApplyAll(s, ops), ApplyAll(t, Without(ops, id)), id)
    decreases |ops|
  {
    if ops != [] {
      var s1 := Apply(s, ops[0]);
      if Private(ops[0], id) {
        PrivateStep(s, ops[0], id);
        assert Without(ops, id) == Without(ops[1..], id);
        AgreeRun(s1, t, ops[1..], id);
      } else {
        SharedStep(s, t, ops[0], id);
        assert Without(ops, id)[1..] == Without(ops[1..], id);
        AgreeRun(s1, Apply(t, ops[0]), ops[1..], id);
      }
    }
  }

  /** Registering, reading, answering, cancelling or dropping one request, any number of
      times in any run, leaves every other request as if none of it had happened. */
  lemma NonInterference(ops: seq<Op>, id: Id, other: Id)
    requires other != id
    ensures var s, t := ApplyAll(EMPTY, ops), ApplyAll(EMPTY, Without(ops, id));
            && (other in s.table <==> other in t.table)
            && (other in s.store <==> other in t.store)
            && (other in s.store ==> s.store[other] == t.store[other])
  {
    AgreeRun(EMPTY, EMPTY, ops, id);
    AgreeAt(ApplyAll(EMPTY, ops), ApplyAll(EMPTY, Without(ops, id)), id, other);
  }

  // ---- Two-mode parity ----

  /** The future and the stream of the same request say the same. */
  ghost predicate SameOutcome(f: Entry, s: Entry) {
    && f.future.Some? && s.queue.Some?
    && f.chunks == s.chunks == Texts(History(s))
    && (forall value ::
          f.future.value == Resolved(value) <==> History(s) == Chunks(s.chunks) + [Result(value)])
    && (forall exc ::
          f.future.value == Rejected(exc) <==> History(s) == Chunks(s.chunks) + [Error(exc)])
    && (f.future.value == Waiting <==> History(s) == Chunks(s.chunks))
  }

  /** Registered as a future or as a stream, in the same run, a request that is not
      cancelled collects the same chunks and gets the same result or error, which the
      stream gives after exactly those chunks; and both runs leave the same table and the
      same other requests. */
  lemma ModeParity(before: seq<Op>, id: Id, after: seq<Op>)
    requires id !in ApplyAll(EMPTY, before).store
    requires Cancel(id) !in after
    ensures var f := ApplyAll(EMPTY, before + [Add(id, FutureMode)] + after);
            var s := ApplyAll(EMPTY, before + [Add(id, StreamMode)] + after);
            && f.table == s.table
            && f.store - {id} == s.store - {id}
            && id in f.store && id in s.store && SameOutcome(f.store[id], s.store[id])
  {
    ParityElsewhere(before, id, after);
    ParityOutcome(before, id, after);
  }

  lemma SameTable(f: State, s: State, id: Id)
    requires AgreeExcept(f, s, id) && (id in f.table <==> id in s.table)
    ensures f.table == s.table
  {
    forall other | other != id
      ensures other in f.table <==> other in s.table
    {
      AgreeAt(f, s, id, other);
    }
  }

  lemma ParityElsewhere(before: seq<Op>, id: Id, after: seq<Op>)
    requires id !in ApplyAll(EMPTY, before).store
    ensures var f := ApplyAll(EMPTY, before + [Add(id, FutureMode)] + after);
            var s := ApplyAll(EMPTY, before + [Add(id, StreamMode)] + after);
            f.table == s.table && f.store - {id} == s.store - {id}
  {
    var opsF, opsS := before + [Add(id, FutureMode)] + after, before + [Add(id, StreamMode)] + after;
    WithoutSame(before, id, after);
    AgreeRun(EMPTY, EMPTY, opsF, id);
    AgreeRun(EMPTY, EMPTY, opsS, id);
    RequestFate(before, id, FutureMode, after);
    RequestFate(before, id, StreamMode, after);
    SameTable(ApplyAll(EMPTY, opsF), ApplyAll(EMPTY, opsS), id);
  }

  lemma ParityOutcome(before: seq<Op>, id: Id, after: seq<Op>)
    requires id !in ApplyAll(EMPTY, before).store
    requires Cancel(id) !in after
    ensures var f := ApplyAll(EMPTY, before + [Add(id, FutureMode)] + after);
            var s := ApplyAll(EMPTY, before + [Add(id, StreamMode)] + after);
            id in f.store && id in s.store && SameOutcome(f.store[id], s.store[id])
  {
    RequestFate(before, id, FutureMode, after);
    RequestFate(before, id, StreamMode, after);
    ShapeKept(before, id, after);
    var f := ApplyAll(EMPTY, before + [Add(id, FutureMode)] + after);
    var s := ApplyAll(EMPTY, before + [Add(id, StreamMode)] + after);
    RunKeeps(EMPTY, before + [Add(id, StreamMode)] + after);
    assert EntryInv(s, id);
    StreamShape(s.store[id]);
    SameDelivery(after, id, f.store[id], s.store[id]);
  }

  lemma {:induction false} WithoutConcat(a: seq<Op>, b: seq<Op>, id: Id)
    ensures Without(a + b, id) == Without(a, id) + Without(b, id)
    decreases |a|
  {
    if a == [] {
      assert a + b == b;
    } else {
      assert (a + b)[1..] == a[1..] + b;
      WithoutConcat(a[1..], b, id);
    }
  }

  lemma WithoutSame(before: seq<Op>, id: Id, after: seq<Op>)
    ensures Without(before + [Add(id, FutureMode)] + after, id)
            == Without(before + [Add(id, StreamMode)] + after, id)
  {
    forall mode
      ensures Without(before + [Add(id, mode)] + after, id)
              == Without(before, id) + Without(after, id)
    {
      WithoutConcat(before + [Add(id, mode)], after, id);
      WithoutConcat(before, [Add(id, mode)], id);
      assert Without([Add(id, mode)], id) == [];
    }
  }

  lemma ShapeKept(before: seq<Op>, id: Id, after: seq<Op>)
    requires id !in ApplyAll(EMPTY, before).store
    ensures forall mode :: var s := ApplyAll(EMPTY, before + [Add(id, mode)] + after);
              id in s.store && (s.store[id].queue.Some? <==> mode.StreamMode?)
  {
    forall mode
      ensures var s := ApplyAll(EMPTY, before + [Add(id, mode)] + after);
              id in s.store && (s.store[id].queue.Some? <==> mode.StreamMode?)
    {
      ApplyAllConcat(EMPTY, before + [Add(id, mode)], after);
      ApplyAllConcat(EMPTY, before, [Add(id, mode)]);
      var s0 := ApplyAll(EMPTY, before);
      var s1 := Apply(s0, Add(id, mode));
      assert ApplyAll(s0, [Add(id, mode)]) == ApplyAll(s1, []);
      RunKeeps(EMPTY, before);
      AddKeeps(s0, id, mode);
      Refines(s1, after, id);
    }
  }

  lemma SameDelivery(after: seq<Op>, id: Id, f: Entry, s: Entry)
    requires Cancel(id) !in after
    requires f.queue.None? && s.queue.Some? && f.chunks == s.chunks == Texts(History(s))
    requires s.chunks == TraceTexts(after[..FirstEnd(after, id)])
    requires History(s) == Delivered(after, id)
    requires f.future == Some(CellFate(after, id, s.chunks))
    ensures SameOutcome(f, s)
  {
    var k := FirstEnd(after, id);
    var items := if k < |after| then Ending(after[k], s.chunks) else [];
    var c := Chunks(s.chunks);
    assert History(s) == c + items;
    assert |items| <= 1;
    if items != [] {
      forall item
        ensures c + items == c + [item] <==> items[0] == item
      {
        assert (c + items)[|c|] == items[0];
        assert (c + [item])[|c|] == item;
      }
      assert c + items != c;
    } else {
      assert c + items == c;
    }
  }
}
