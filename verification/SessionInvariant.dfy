/** The invariant of a session: what every event keeps. */
module SessionInvariant {
  import opened Protocol
  import opened Table
  import opened TableInvariant
  import opened TraceRefinement
  import opened Lifecycle
  import opened Session

  // ---- The backend ----

  lemma BackendStep(w: World, ev: Event)
    requires BackendInv(w.backend)
    ensures BackendInv(NextBackend(w, ev))
    ensures Over(w.backend) ==> Over(NextBackend(w, ev)) && NextBackend(w, ev).crashes == w.backend.crashes
    ensures NextBackend(w, ev).crashes > w.backend.crashes ==> w.backend.phase == Running
    ensures w.backend.phase == Running && NextBackend(w, ev).phase != Running ==> Over(NextBackend(w, ev))
  {
  }

  /** The client and its backend. A client that has its backend has requests pending only
      while the backend is RUNNING with its standard input open; one that has dropped it has
      destroyed the process. */
  predicate Joined(w: World) {
    if w.attached then
      && (w.state.table != {} ==> w.backend.phase == Running && w.backend.stdin)
      && (w.backend.starting || w.backend.phase == Starting ==> w.backend.process)
    else !w.backend.process
  }

  lemma FailAllClears(w: World, ev: Event)
    requires w.state.table <= w.state.store.Keys
    requires ev.BeginStop? || NextBackend(w, ev).crashes > w.backend.crashes
    ensures Step(w, ev).state.table == {}
  {
    OneOp(w.state, FailAll(if ev.BeginStop? then SHUTDOWN else CRASHED));
  }

  /** Requests are added only by a call that is opened and sent. */
  lemma OpenOnlyGrows(w: World, ev: Event)
    requires w.state.table <= w.state.store.Keys
    requires !(ev.Open? && Opens(w, ev.id, ev.mode) && w.backend.stdin)
    ensures Step(w, ev).state.table <= w.state.table
  {
    if ev.Open? && Opens(w, ev.id, ev.mode) {
      TwoOps(w.state, Add(ev.id, ev.mode), Drop(ev.id));
    } else {
      NoAdds(w, ev);
      Shrinks(w.state, Ops(w, ev));
    }
  }

  lemma JoinedStep(w: World, ev: Event)
    requires w.state.table <= w.state.store.Keys && BackendInv(w.backend) && Joined(w)
    ensures Joined(Step(w, ev))
  {
    if ev.BeginStop? || NextBackend(w, ev).crashes > w.backend.crashes {
      FailAllClears(w, ev);
    } else if !(ev.Open? && Opens(w, ev.id, ev.mode) && w.backend.stdin) {
      OpenOnlyGrows(w, ev);
    }
  }

  // ---- One call ----

  predicate LastTaken(e: Entry, item: Item) {
    e.queue == Some([]) && e.taken != [] && e.taken[|e.taken| - 1] == item
  }

  /** What a call raises that could not be sent. */
  predicate Unsendable(exc: Failure) {
    exc == UNSENT || exc == CLOSED
  }

  /** How the outcome of a call agrees with what its entry received. */
  ghost predicate CallOk(e: Entry, pending: bool, c: Call, now: int) {
    && (c.mode.StreamMode? <==> e.queue.Some?)
    && match c.outcome
       case None =>
         if e.queue.Some? then forall i :: 0 <= i < |e.taken| ==> e.taken[i].Chunk?
         else e.future != Some(Cancelled)
       case Some(Returned(value)) =>
         && !pending
         && (if e.queue.Some? then LastTaken(e, Result(value)) else e.future == Some(Resolved(value)))
       case Some(Raised(exc)) =>
         && !pending
         && (|| (if e.queue.Some? then LastTaken(e, Error(exc)) else e.future == Some(Rejected(exc)))
             || (Unsendable(exc) && !Settled(e) && e.chunks == []))
       case Some(TimedOut) =>
         && !pending && now >= c.deadline && !Settled(e)
         && (if e.queue.Some? then e.queue == Some([]) else e.future == Some(Cancelled))
       case Some(Left) =>
         if e.queue.Some? then !pending else e.future != Some(Waiting)
  }

  ghost predicate CallInv(w: World, id: Id)
    requires id in w.calls && id in w.state.store
  {
    CallOk(w.state.store[id], id in w.state.table, w.calls[id], w.now)
  }

  predicate OneStream(s: State)
    requires s.table <= s.store.Keys
  {
    forall a, b :: a in s.table && b in s.table && s.store[a].queue.Some? && s.store[b].queue.Some?
      ==> a == b
  }

  ghost predicate SessionInv(w: World) {
    && Inv(w.state)
    && w.calls.Keys == w.state.store.Keys
    && (forall id :: id in w.calls ==> CallInv(w, id))
    && OneStream(w.state)
    && BackendInv(w.backend)
    && Joined(w)
  }

  /** Operations that are not the caller's own keep every call in order. */
  lemma SharedOpKeepsCall(s: State, op: Op, id: Id, c: Call, now: int)
    requires Inv(s) && id in s.store && CallOk(s.store[id], id in s.table, c, now)
    requires op.Deliver? || op.FailAll? || op.id != id
    ensures CallOk(Apply(s, op).store[id], id in Apply(s, op).table, c, now)
  {
    assert EntryInv(s, id);
    if id !in s.table {
      OffTableStep(s, op, id);
    } else if op.Deliver? || op.FailAll? {
      if Ends(op, id) { EndStep(s, op, id); } else { ContinueStep(s, op, id); }
    }
  }

  lemma {:induction false} SharedOpsKeepCall(s: State, ops: seq<Op>, id: Id, c: Call, now: int)
    requires Inv(s) && id in s.store && CallOk(s.store[id], id in s.table, c, now)
    requires forall op :: op in ops ==> op.Deliver? || op.FailAll? || op.id != id
    ensures CallOk(ApplyAll(s, ops).store[id], id in ApplyAll(s, ops).table, c, now)
    decreases |ops|
  {
    if ops != [] {
      assert ops[0] in ops;
      SharedOpKeepsCall(s, ops[0], id, c, now);
      StepKeeps(s, ops[0]);
      SharedOpsKeepCall(Apply(s, ops[0]), ops[1..], id, c, now);
    }
  }

  lemma OneOp(s: State, op: Op)
    requires s.table <= s.store.Keys
    ensures ApplyAll(s, [op]) == Apply(s, op)
  {
    assert ApplyAll(Apply(s, op), []) == Apply(s, op);
  }

  lemma TwoOps(s: State, first: Op, second: Op)
    requires s.table <= s.store.Keys
    ensures ApplyAll(s, [first, second]) == Apply(Apply(s, first), second)
  {
    assert [first, second] == [first] + [second];
    ApplyAllConcat(s, [first], [second]);
    OneOp(s, first);
    OneOp(Apply(s, first), second);
  }

  /** Reading the item that is ready. */
  lemma TakeReady(w: World, id: Id)
    requires SessionInv(w) && Active(w, id) && Find(w, id).Ready? && w.calls[id].mode.StreamMode?
    ensures var item, e := Find(w, id).item, w.state.store[id];
            && TakeItem(e).taken == e.taken + [item]
            && (Final(item) ==> TakeItem(e).queue == Some([]) && id !in w.state.table)
  {
    var e := w.state.store[id];
    assert CallInv(w, id) && EntryInv(w.state, id);
    StreamShape(e);
    assert History(e)[|e.taken|] == e.queue.value[0];
    if Final(e.queue.value[0]) {
      assert e.queue.value[1..] == [];
    }
  }

  lemma ReadItem(w: World, id: Id)
    requires SessionInv(w) && Active(w, id) && w.calls[id].mode.StreamMode? && Find(w, id).Ready?
    ensures var w' := Step(w, Wake(id));
            id in w'.calls && id in w'.state.store && CallInv(w', id)
  {
    var item := Find(w, id).item;
    assert CallInv(w, id) && EntryInv(w.state, id);
    TakeReady(w, id);
    TakeKeeps(w.state.store[id]);
    OneOp(w.state, Take(id));
    TwoOps(w.state, Take(id), Drop(id));
    assert Ops(w, Wake(id)) == if item.Chunk? then [Take(id)] else [Take(id), Drop(id)];
  }

  lemma FutureDone(w: World, id: Id)
    requires SessionInv(w) && Active(w, id) && w.calls[id].mode.FutureMode? && Find(w, id).Ready?
    ensures var w' := Step(w, Wake(id));
            id in w'.calls && id in w'.state.store && CallInv(w', id)
  {
    assert CallInv(w, id) && EntryInv(w.state, id);
    OneOp(w.state, Drop(id));
    assert Ops(w, Wake(id)) == if Find(w, id).item.Result? then [] else [Drop(id)];
  }

  lemma StreamTooLate(w: World, id: Id)
    requires SessionInv(w) && Active(w, id) && Find(w, id).TooLate? && w.calls[id].mode.StreamMode?
    ensures var w' := Step(w, Wake(id));
            id in w'.calls && id in w'.state.store && CallInv(w', id)
  {
    assert CallInv(w, id) && EntryInv(w.state, id);
    OneOp(w.state, Drop(id));
    assert Ops(w, Wake(id)) == [Drop(id)];
  }

  lemma RequestTooLate(w: World, id: Id)
    requires SessionInv(w) && Active(w, id) && Find(w, id).TooLate? && w.calls[id].mode.FutureMode?
    ensures var w' := Step(w, Wake(id));
            id in w'.calls && id in w'.state.store && CallInv(w', id)
  {
    assert CallInv(w, id) && EntryInv(w.state, id);
    TwoOps(w.state, Cancel(id), Drop(id));
    assert Ops(w, Wake(id)) == [Cancel(id), Drop(id)];
  }

  lemma WakeKeepsCall(w: World, id: Id)
    requires SessionInv(w) && Active(w, id)
    ensures var w' := Step(w, Wake(id));
            id in w'.calls && id in w'.state.store && CallInv(w', id)
  {
    match Find(w, id)
    case Ready(_) =>
      if w.calls[id].mode.StreamMode? { ReadItem(w, id); } else { FutureDone(w, id); }
    case TooLate =>
      if w.calls[id].mode.StreamMode? { StreamTooLate(w, id); } else { RequestTooLate(w, id); }
    case Nothing =>
      assert CallInv(w, id);
      assert Ops(w, Wake(id)) == [] && NextCalls(w, Wake(id)) == w.calls;
  }

  lemma LeaveKeepsCall(w: World, id: Id)
    requires SessionInv(w) && Active(w, id)
    ensures var w' := Step(w, Leave(id));
            id in w'.calls && id in w'.state.store && CallInv(w', id)
  {
    assert CallInv(w, id) && EntryInv(w.state, id);
    OneOp(w.state, Drop(id));
    OneOp(w.state, Cancel(id));
  }

  lemma OpenKeepsCall(w: World, id: Id, mode: Mode, timeout: int, sent: bool)
    requires SessionInv(w) && Opens(w, id, mode)
    ensures var w' := Step(w, Open(id, mode, timeout, sent));
            id in w'.calls && id in w'.state.store && CallInv(w', id)
            && w'.calls.Keys == w'.state.store.Keys
            && w'.state.table == (if sent && w.backend.stdin then w.state.table + {id} else w.state.table)
  {
    OneOp(w.state, Add(id, mode));
    TwoOps(w.state, Add(id, mode), Drop(id));
  }

  /** The request whose own operations an event performs, if any. */
  function Owner(ev: Event): Option<Id> {
    match ev
    case Open(id, _, _, _) => Some(id)
    case Wake(id) => Some(id)
    case Leave(id) => Some(id)
    case _ => None
  }

  lemma OtherCallsKept(w: World, ev: Event, id: Id)
    requires SessionInv(w) && id in w.calls && Owner(ev) != Some(id)
    ensures var w' := Step(w, ev);
            id in w'.calls && w'.calls[id] == w.calls[id] && CallInv(w', id)
  {
    assert CallInv(w, id);
    SharedOpsKeepCall(w.state, Ops(w, ev), id, w.calls[id], w.now);
  }

  lemma OwnCallKept(w: World, ev: Event, id: Id)
    requires SessionInv(w) && Owner(ev) == Some(id)
    ensures var w' := Step(w, ev);
            id in w'.calls ==> id in w'.state.store && CallInv(w', id)
  {
    match ev
    case Open(_, mode, timeout, sent) =>
      if Opens(w, id, mode) { OpenKeepsCall(w, id, mode, timeout, sent); }
      else if id in w.calls { assert CallInv(w, id); }
    case Wake(_) =>
      if Active(w, id) { WakeKeepsCall(w, id); }
      else if id in w.calls { assert CallInv(w, id); }
    case Leave(_) =>
      if Active(w, id) { LeaveKeepsCall(w, id); }
      else if id in w.calls { assert CallInv(w, id); }
    case _ =>
  }

  // ---- The table ----

  /** Apart from `Add`, operations shrink the table, register nobody and keep modes. */
  lemma ShrinkStep(s: State, op: Op)
    requires s.table <= s.store.Keys && !op.Add?
    ensures Apply(s, op).table <= s.table && Apply(s, op).store.Keys == s.store.Keys
    ensures forall id :: id in s.store ==>
              Apply(s, op).store[id].queue.Some? == s.store[id].queue.Some?
  {
  }

  lemma {:induction false} Shrinks(s: State, ops: seq<Op>)
    requires s.table <= s.store.Keys && forall op :: op in ops ==> !op.Add?
    ensures ApplyAll(s, ops).table <= s.table && ApplyAll(s, ops).store.Keys == s.store.Keys
    ensures forall id :: id in s.store ==>
              ApplyAll(s, ops).store[id].queue.Some? == s.store[id].queue.Some?
    decreases |ops|
  {
    if ops != [] {
      assert ops[0] in ops;
      ShrinkStep(s, ops[0]);
      Shrinks(Apply(s, ops[0]), ops[1..]);
    }
  }

  lemma OpenKeepsOneStream(w: World, id: Id, mode: Mode, timeout: int, sent: bool)
    requires SessionInv(w) && Opens(w, id, mode)
    ensures OneStream(Step(w, Open(id, mode, timeout, sent)).state)
  {
    OneOp(w.state, Add(id, mode));
    TwoOps(w.state, Add(id, mode), Drop(id));
    AddKeepsOneStream(w.state, id, mode);
  }

  lemma AddKeepsOneStream(s: State, id: Id, mode: Mode)
    requires s.table <= s.store.Keys && id !in s.store && OneStream(s)
    requires mode.StreamMode? ==> !StreamPending(s)
    ensures OneStream(Apply(s, Add(id, mode))) && OneStream(Apply(Apply(s, Add(id, mode)), Drop(id)))
  {
    assert forall other :: other in s.table ==> Apply(s, Add(id, mode)).store[other] == s.store[other];
  }

  lemma OneStreamKept(w: World, ev: Event)
    requires SessionInv(w)
    ensures OneStream(Step(w, ev).state)
    ensures Step(w, ev).calls.Keys == Step(w, ev).state.store.Keys
  {
    if ev.Open? && Opens(w, ev.id, ev.mode) {
      OpenKeepsCall(w, ev.id, ev.mode, ev.timeout, ev.sent);
      OpenKeepsOneStream(w, ev.id, ev.mode, ev.timeout, ev.sent);
    } else {
      NoAdds(w, ev);
      Shrinks(w.state, Ops(w, ev));
    }
  }

  lemma NoAdds(w: World, ev: Event)
    requires w.state.table <= w.state.store.Keys
    requires !(ev.Open? && Opens(w, ev.id, ev.mode))
    ensures forall op :: op in Ops(w, ev) ==> !op.Add?
  {
  }

  lemma CallsKept(w: World, ev: Event, id: Id)
    requires SessionInv(w) && id in Step(w, ev).calls
    ensures id in Step(w, ev).state.store && CallInv(Step(w, ev), id)
  {
    if Owner(ev) == Some(id) {
      OwnCallKept(w, ev, id);
    } else {
      CalledBefore(w, ev, id);
      OtherCallsKept(w, ev, id);
    }
  }

  lemma CalledBefore(w: World, ev: Event, id: Id)
    requires w.state.table <= w.state.store.Keys
    requires id in Step(w, ev).calls && Owner(ev) != Some(id)
    ensures id in w.calls
  {
  }

  lemma AllCallsKept(w: World, ev: Event)
    requires SessionInv(w)
    ensures Step(w, ev).calls.Keys == Step(w, ev).state.store.Keys
    ensures forall id :: id in Step(w, ev).calls ==> CallInv(Step(w, ev), id)
  {
    OneStreamKept(w, ev);
    forall id | id in Step(w, ev).calls
      ensures CallInv(Step(w, ev), id)
    {
      CallsKept(w, ev, id);
    }
  }

  lemma SessionStep(w: World, ev: Event)
    requires SessionInv(w)
    ensures SessionInv(Step(w, ev))
  {
    RunKeeps(w.state, Ops(w, ev));
    OneStreamKept(w, ev);
    BackendStep(w, ev);
    JoinedStep(w, ev);
    AllCallsKept(w, ev);
  }

  /** Every reachable session satisfies the invariant. */
  lemma {:induction false} SessionRun(w: World, evs: seq<Event>)
    requires SessionInv(w)
    ensures SessionInv(Run(w, evs))
    decreases |evs|
  {
    if evs != [] {
      SessionStep(w, evs[0]);
      SessionRun(Step(w, evs[0]), evs[1..]);
    }
  }
}
