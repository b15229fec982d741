/** Every operation keeps the table invariant, and what the invariant says about
    any reachable table. */
module TableInvariant {
  import opened Protocol
  import opened Table

  // ---- One entry ----

  lemma ChunksAppend(texts: seq<string>, text: string)
    ensures Chunks(texts + [text]) == Chunks(texts) + [Chunk(text)]
  {
  }

  lemma ChunkKeeps(e: Entry, log: seq<string>, text: string)
    requires WellShaped(e) && Logged(e, log) && !Settled(e) && e.since + |e.chunks| == |log|
    ensures var e' := DeliverChunk(e, text);
            && WellShaped(e') && Logged(e', log + [text]) && !Settled(e')
            && e'.since + |e'.chunks| == |log| + 1
            && (e.queue.Some? ==> History(e') == History(e) + [Chunk(text)])
  {
    ChunksAppend(e.chunks, text);
    var e' := DeliverChunk(e, text);
    if e.queue.Some? {
      assert History(e') == History(e) + [Chunk(text)];
    }
    assert log == log[..e.since] + e.chunks;
    assert (log + [text])[e.since..] == e'.chunks;
  }

  /** A final item put on an unsettled stream entry settles it and keeps the shape. */
  lemma PutFinal(e: Entry, item: Item)
    requires WellShaped(e) && !Settled(e) && e.queue.Some? && !item.Chunk?
    ensures WellShaped(Put(e, item)) && Settled(Put(e, item))
    ensures History(Put(e, item)) == History(e) + [item]
  {
    assert History(Put(e, item)) == History(e) + [item];
  }

  lemma ResultKeeps(e: Entry, value: Json)
    requires WellShaped(e) && !Settled(e)
    ensures WellShaped(DeliverResult(e, value))
  {
    if e.queue.Some? { PutFinal(e, Result(value)); }
  }

  lemma ErrorKeeps(e: Entry, exc: Failure)
    requires WellShaped(e) && !Settled(e)
    ensures WellShaped(DeliverError(e, exc))
  {
    if e.queue.Some? { PutFinal(e, Error(exc)); }
  }

  /** Reading an item changes neither the history nor the chunks. */
  lemma TakeKeeps(e: Entry)
    requires WellShaped(e)
    ensures History(TakeItem(e)) == History(e)
    ensures WellShaped(TakeItem(e)) && Settled(TakeItem(e)) == Settled(e)
  {
  }

  // ---- The whole table ----

  lemma BroadcastKeeps(s: State, text: string)
    requires Inv(s) && text != ""
    ensures Inv(Broadcast(s, text))
  {
    var s' := Broadcast(s, text);
    forall id | id in s'.store
      ensures EntryInv(s', id)
    {
      assert EntryInv(s, id);
      if id in s.table { ChunkKeeps(s.store[id], s.log, text); }
    }
  }

  lemma RejectAllKeeps(s: State, exc: Failure)
    requires Inv(s)
    ensures Inv(RejectAll(s, exc))
  {
    var s' := RejectAll(s, exc);
    forall id | id in s'.store
      ensures EntryInv(s', id)
    {
      assert EntryInv(s, id);
      if id in s.table { ErrorKeeps(s.store[id], exc); }
    }
  }

  lemma SettleKeeps(s: State, id: Id, reply: Reply)
    requires Inv(s)
    ensures Inv(Settle(s, id, reply))
  {
    var s' := Settle(s, id, reply);
    if id in s.table {
      var e := s.store[id];
      assert EntryInv(s, id);
      match reply
      case Succeeds(value) => ResultKeeps(e, WithText(value, e.chunks));
      case Fails(exc) => ErrorKeeps(e, exc);
      case Broken =>
    }
    forall other | other in s'.store
      ensures EntryInv(s', other)
    {
      assert EntryInv(s, other);
    }
  }

  /** Replacing one entry that is not in the table by another well-formed one, or one
      in the table by an unsettled one with the same chunks. */
  lemma ReplaceKeeps(s: State, id: Id, e: Entry)
    requires Inv(s) && id in s.store
    requires WellShaped(e) && Settled(e) == Settled(s.store[id])
    requires e.chunks == s.store[id].chunks && e.since == s.store[id].since
    ensures Inv(s.(store := s.store[id := e]))
  {
    var s' := s.(store := s.store[id := e]);
    assert EntryInv(s, id);
    forall other | other in s'.store
      ensures EntryInv(s', other)
    {
      assert EntryInv(s, other);
    }
  }

  lemma AddKeeps(s: State, id: Id, mode: Mode)
    requires Inv(s)
    ensures Inv(Apply(s, Add(id, mode)))
  {
    var s' := Apply(s, Add(id, mode));
    forall other | other in s'.store
      ensures EntryInv(s', other)
    {
      assert other in s.store ==> EntryInv(s, other);
    }
  }

  lemma DropKeeps(s: State, id: Id)
    requires Inv(s)
    ensures Inv(Apply(s, Drop(id)))
  {
    var s' := Apply(s, Drop(id));
    forall other | other in s'.store
      ensures EntryInv(s', other)
    {
      assert EntryInv(s, other);
    }
  }

  lemma StepKeeps(s: State, op: Op)
    requires Inv(s)
    ensures Inv(Apply(s, op))
  {
    match op
    case Add(id, mode) => AddKeeps(s, id, mode);
    case Drop(id) => DropKeeps(s, id);
    case Deliver(msg) =>
      match Classify(msg) {
        case Notify(Some(text)) => BroadcastKeeps(s, text);
        case Respond(Some(id), reply) => SettleKeeps(s, id, reply);
        case _ =>
      }
    case FailAll(exc) => RejectAllKeeps(s, exc);
    case Take(id) =>
      if id in s.store {
        assert EntryInv(s, id);
        TakeKeeps(s.store[id]);
        ReplaceKeeps(s, id, TakeItem(s.store[id]));
      }
    case Cancel(id) =>
      if id in s.store {
        assert EntryInv(s, id);
        ReplaceKeeps(s, id, Complete(s.store[id], Cancelled));
      }
  }

  /** Every reachable table satisfies the invariant. */
  lemma {:induction false} RunKeeps(s: State, ops: seq<Op>)
    requires Inv(s)
    ensures Inv(ApplyAll(s, ops))
    decreases |ops|
  {
    if ops != [] {
      StepKeeps(s, ops[0]);
      RunKeeps(Apply(s, ops[0]), ops[1..]);
    }
  }

  // ---- What holds in every reachable table ----

  /** There is one log of broadcast texts, and a pending request holds exactly what was
      broadcast since it was registered. Of two pending requests, the later one's chunks
      are a suffix of the earlier one's. */
  lemma BroadcastLogAgreement(ops: seq<Op>, early: Id, late: Id)
    ensures var s := ApplyAll(EMPTY, ops);
            && (early in s.table ==> s.store[early].since <= |s.log|
                                     && s.store[early].chunks == s.log[s.store[early].since..])
            && (early in s.table && late in s.table && s.store[early].since <= s.store[late].since ==>
                  var a, b := s.store[early].chunks, s.store[late].chunks;
                  |b| <= |a| && b == a[|a| - |b|..])
  {
    RunKeeps(EMPTY, ops);
    var s := ApplyAll(EMPTY, ops);
    assert early in s.table ==> EntryInv(s, early);
    assert late in s.table ==> EntryInv(s, late);
  }

  function Texts(items: seq<Item>): seq<string> {
    if items == [] then []
    else (if items[0].Chunk? then [items[0].text] else []) + Texts(items[1..])
  }

  lemma {:induction false} TextsConcat(a: seq<Item>, b: seq<Item>)
    ensures Texts(a + b) == Texts(a) + Texts(b)
    decreases |a|
  {
    if a == [] {
      assert a + b == b;
    } else {
      assert (a + b)[1..] == a[1..] + b;
      TextsConcat(a[1..], b);
    }
  }

  lemma {:induction false} TextsOfChunks(texts: seq<string>)
    ensures Texts(Chunks(texts)) == texts
  {
    if texts != [] {
      assert Chunks(texts)[1..] == Chunks(texts[1..]);
      TextsOfChunks(texts[1..]);
    }
  }

  predicate Final(item: Item) {
    !item.Chunk?
  }

  /** Where the final item of a well-shaped stream entry can be, and how the chunks are
      divided between the consumer and the queue. */
  lemma StreamShape(e: Entry)
    requires WellShaped(e) && e.queue.Some?
    ensures forall i :: 0 <= i < |History(e)| && Final(History(e)[i]) ==>
              i == |History(e)| - 1 && Settled(e)
    ensures Texts(History(e)) == e.chunks
  {
    var h, n := History(e), |e.chunks|;
    TextsOfChunks(e.chunks);
    assert h[..n] == Chunks(e.chunks);
    assert forall i :: 0 <= i < n ==> h[i] == h[..n][i] == Chunks(e.chunks)[i];
    if |h| == n + 1 {
      assert h == h[..n] + [h[n]];
      TextsConcat(h[..n], [h[n]]);
    } else {
      assert h == h[..n];
    }
  }

  /** In every reachable table a stream history is chunks and then at most one final item;
      a final item means that the entry has left the table; and what the consumer has read
      and what is still queued are together exactly the collected chunks. */
  lemma ExactlyOneTerminal(ops: seq<Op>, id: Id)
    ensures var s := ApplyAll(EMPTY, ops);
            id in s.store && s.store[id].queue.Some? ==>
              var e := s.store[id];
              && (forall i :: 0 <= i < |History(e)| && Final(History(e)[i]) ==>
                    i == |History(e)| - 1 && id !in s.table)
              && e.taken <= History(e)
              && Texts(e.taken) + Texts(e.queue.value) == e.chunks
  {
    RunKeeps(EMPTY, ops);
    var s := ApplyAll(EMPTY, ops);
    if id in s.store && s.store[id].queue.Some? {
      var e := s.store[id];
      assert EntryInv(s, id);
      StreamShape(e);
      TextsConcat(e.taken, e.queue.value);
    }
  }
}
