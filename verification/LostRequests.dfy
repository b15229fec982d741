/** When a response may lose its request, and that nothing else does. */
module LostRequests {
  import opened Protocol
  import opened Table
  import opened TableInvariant
  import opened TraceRefinement
  import opened Lifecycle
  import opened Session
  import opened SessionInvariant

  /** A message that answers no request with an `error` member that is not an object. */
  predicate Sound(ev: Event) {
    ev.Line? ==>
      var action := Classify(ev.msg);
      action.Respond? ==> !action.reply.Broken?
  }

  /** Every call that is still waiting is in the table or has its final item. */
  predicate NoneLost(w: World) {
    forall id :: id in w.calls && Active(w, id) ==>
      id in w.state.table || Settled(w.state.store[id])
  }

  lemma NoneLostStep(w: World, ev: Event)
    requires SessionInv(w) && NoneLost(w) && Sound(ev)
    ensures NoneLost(Step(w, ev))
  {
    var w' := Step(w, ev);
    SessionStep(w, ev);
    forall id | id in w'.calls && Active(w', id)
      ensures id in w'.state.table || Settled(w'.state.store[id])
    {
      if Owner(ev) == Some(id) { OwnNotLost(w, ev, id); } else { OtherNotLost(w, ev, id); }
    }
  }

  lemma OwnNotLost(w: World, ev: Event, id: Id)
    requires SessionInv(w) && NoneLost(w) && Owner(ev) == Some(id)
    requires id in Step(w, ev).calls && Active(Step(w, ev), id)
    ensures var s' := Step(w, ev).state; id in s'.table || Settled(s'.store[id])
  {
    if ev.Open? && Opens(w, id, ev.mode) {
      OpenKeepsCall(w, id, ev.mode, ev.timeout, ev.sent);
    } else if ev == Wake(id) && Active(w, id) {
      WokenNotLost(w, id);
    }
  }

  lemma WokenNotLost(w: World, id: Id)
    requires SessionInv(w) && Active(w, id) && Active(Step(w, Wake(id)), id)
    requires id in w.state.table || Settled(w.state.store[id])
    ensures var s' := Step(w, Wake(id)).state; id in s'.table || Settled(s'.store[id])
  {
    assert CallInv(w, id) && EntryInv(w.state, id);
    if Find(w, id).Ready? {
      assert Ops(w, Wake(id)) == [Take(id)];
      OneOp(w.state, Take(id));
      TakeKeeps(w.state.store[id]);
    }
  }

  lemma OtherNotLost(w: World, ev: Event, id: Id)
    requires SessionInv(w) && NoneLost(w) && Sound(ev) && Owner(ev) != Some(id)
    requires id in Step(w, ev).calls && Active(Step(w, ev), id)
    ensures var s' := Step(w, ev).state; id in s'.table || Settled(s'.store[id])
  {
    assert CallInv(w, id) && EntryInv(w.state, id);
    OpsOfUnowned(w, ev, id);
    NotLostThrough(w.state, Ops(w, ev), id);
  }

  lemma OpsOfUnowned(w: World, ev: Event, id: Id)
    requires w.state.table <= w.state.store.Keys && Sound(ev) && Owner(ev) != Some(id)
    ensures forall op :: op in Ops(w, ev) ==>
              (op.Deliver? && Sound(Line(op.msg))) || op.FailAll? || (!op.Deliver? && op.id != id)
  {
  }

  lemma {:induction false} NotLostThrough(s: State, ops: seq<Op>, id: Id)
    requires Inv(s) && id in s.store && (id in s.table || Settled(s.store[id]))
    requires s.store[id].future != Some(Cancelled)
    requires forall op :: op in ops ==>
               (op.Deliver? && Sound(Line(op.msg))) || op.FailAll? || (!op.Deliver? && op.id != id)
    ensures var s' := ApplyAll(s, ops); id in s'.table || Settled(s'.store[id])
    decreases |ops|
  {
    if ops != [] {
      assert ops[0] in ops && forall op :: op in ops[1..] ==> op in ops;
      StepKeeps(s, ops[0]);
      NotLostOne(s, ops[0], id);
      NotLostThrough(Apply(s, ops[0]), ops[1..], id);
    }
  }

  lemma NotLostOne(s: State, op: Op, id: Id)
    requires Inv(s) && id in s.store && (id in s.table || Settled(s.store[id]))
    requires s.store[id].future != Some(Cancelled)
    requires (op.Deliver? && Sound(Line(op.msg))) || op.FailAll? || (!op.Deliver? && op.id != id)
    ensures var s' := Apply(s, op);
            && (id in s'.table || Settled(s'.store[id]))
            && s'.store[id].future != Some(Cancelled)
  {
    assert EntryInv(s, id);
    if id !in s.table { OffTableStep(s, op, id); }
    else if Ends(op, id) { EndStep(s, op, id); }
    else { ContinueStep(s, op, id); }
  }

  /** If every response is well formed, no request is ever lost: a call that is still
      waiting is in the table, or its result or error is ready for it. */
  lemma {:induction false} NoRequestLost(w: World, evs: seq<Event>)
    requires SessionInv(w) && NoneLost(w)
    requires forall ev :: ev in evs ==> Sound(ev)
    ensures NoneLost(Run(w, evs))
    decreases |evs|
  {
    if evs != [] {
      assert evs[0] in evs && forall ev :: ev in evs[1..] ==> ev in evs;
      NoneLostStep(w, evs[0]);
      SessionStep(w, evs[0]);
      NoRequestLost(Step(w, evs[0]), evs[1..]);
    }
  }

  /** A request that has left the table with nothing delivered and no one having left. */
  ghost predicate Lost(w: World, id: Id) {
    && id in w.calls && id in w.state.store && id !in w.state.table && !Settled(w.state.store[id])
    && match w.calls[id].outcome
       case None => true
       case Some(outcome) => outcome.TimedOut? || outcome.Left?
  }

  lemma LostOutcome(w: World, ev: Event, id: Id)
    requires SessionInv(w) && Lost(w, id)
    ensures id in NextCalls(w, ev)
    ensures match NextCalls(w, ev)[id].outcome
            case None => true
            case Some(outcome) => outcome.TimedOut? || outcome.Left?
  {
    var e := w.state.store[id];
    assert CallInv(w, id) && EntryInv(w.state, id);
    if ev == Wake(id) && Active(w, id) && Find(w, id).Ready? && e.queue.Some? {
      StreamShape(e);
      assert History(e)[|e.taken|] == Find(w, id).item;
    }
  }

  lemma LostStep(w: World, ev: Event, id: Id)
    requires SessionInv(w) && Lost(w, id)
    ensures Lost(Step(w, ev), id)
  {
    LostOutcome(w, ev, id);
    OffTable(w.state, Ops(w, ev), id);
    assert EntryInv(w.state, id);
  }

  lemma {:induction false} LostForGood(w: World, evs: seq<Event>, id: Id)
    requires SessionInv(w) && Lost(w, id)
    ensures Lost(Run(w, evs), id)
    decreases |evs|
  {
    if evs != [] {
      LostStep(w, evs[0], id);
      SessionStep(w, evs[0]);
      LostForGood(Step(w, evs[0]), evs[1..], id);
    }
  }

  /** A response settles the waiting request that it names if and only if it is well formed;
      a broken one takes the request out of the table with nothing, and whatever happens
      then, its call can only time out or be left. */
  lemma BrokenResponseLosesRequest(w: World, msg: Message, id: Id, rest: seq<Event>)
    requires SessionInv(w) && Active(w, id) && id in w.state.table
    requires w.backend.reader == Looping && w.backend.handlers
    requires Classify(msg).Respond? && Classify(msg).key == Some(id)
    ensures var w' := Step(w, Line(msg));
            && id !in w'.state.table
            && (Settled(w'.state.store[id]) <==> !Classify(msg).reply.Broken?)
            && (Classify(msg).reply.Broken? ==> Lost(Run(w', rest), id))
  {
    var w' := Step(w, Line(msg));
    ResponseSettles(w, msg, id);
    if Classify(msg).reply.Broken? {
      SessionStep(w, Line(msg));
      LostForGood(w', rest, id);
    }
  }

  lemma ResponseSettles(w: World, msg: Message, id: Id)
    requires SessionInv(w) && Active(w, id) && id in w.state.table
    requires w.backend.reader == Looping && w.backend.handlers
    requires Classify(msg).Respond? && Classify(msg).key == Some(id)
    ensures var w' := Step(w, Line(msg));
            && id in w'.state.store && id !in w'.state.table && id in w'.calls
            && w'.calls[id] == w.calls[id]
            && (Settled(w'.state.store[id]) <==> !Classify(msg).reply.Broken?)
  {
    assert CallInv(w, id);
    OneOp(w.state, Deliver(msg));
    ReplySettles(w.state, msg, id, w.calls[id], w.now);
  }

  lemma ReplySettles(s: State, msg: Message, id: Id, c: Call, now: int)
    requires Inv(s) && id in s.table && CallOk(s.store[id], true, c, now) && c.outcome.None?
    requires Classify(msg).Respond? && Classify(msg).key == Some(id)
    ensures var s' := Apply(s, Deliver(msg));
            id !in s'.table && (Settled(s'.store[id]) <==> !Classify(msg).reply.Broken?)
  {
    assert EntryInv(s, id);
    EndStep(s, Deliver(msg), id);
  }
}
