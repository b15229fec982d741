/** Theorems about every run of a session: outcomes, clean-up, deadlines, shutdown. */
module SessionTheorems {
  import opened Protocol
  import opened Table
  import opened TableInvariant
  import opened TraceRefinement
  import opened Lifecycle
  import opened Session
  import opened SessionInvariant

  lemma StartInv()
    ensures SessionInv(START)
  {
  }

  // ---- Outcomes ----

  lemma OutcomeStep(w: World, ev: Event, id: Id)
    requires SessionInv(w) && id in w.calls && w.calls[id].outcome.Some?
    ensures id in Step(w, ev).calls && Step(w, ev).calls[id] == w.calls[id]
  {
  }

  /** A call ends at most once: its outcome never changes. */
  lemma {:induction false} OutcomeStable(w: World, evs: seq<Event>, id: Id)
    requires SessionInv(w) && id in w.calls && w.calls[id].outcome.Some?
    ensures id in Run(w, evs).calls && Run(w, evs).calls[id] == w.calls[id]
    decreases |evs|
  {
    if evs != [] {
      OutcomeStep(w, evs[0], id);
      SessionStep(w, evs[0]);
      OutcomeStable(Step(w, evs[0]), evs[1..], id);
    }
  }

  /** A call is refused, changing nothing, if and only if the client has no backend, the
      backend is not RUNNING or, for a stream, some stream is pending. Otherwise its entry is
      registered with nothing in it and its deadline is fixed; it stays in the table exactly
      if it could be sent, and raises at once if it could not. */
  lemma OpenedExactlyIf(w: World, id: Id, mode: Mode, timeout: int, sent: bool)
    requires SessionInv(w) && id !in w.calls
    ensures var w' := Step(w, Open(id, mode, timeout, sent));
            if !w.attached || w.backend.phase != Running
               || (mode.StreamMode? && exists other :: other in w.state.table && w.state.store[other].queue.Some?)
            then w' == w
            else
              && w'.calls.Keys == w.calls.Keys + {id} && w'.state.store.Keys == w.state.store.Keys + {id}
              && w'.calls[id] == Call(mode, w.now + timeout,
                                      if !w.backend.stdin then Some(Raised(ValueError("write to closed file")))
                                      else if sent then None else Some(Raised(Transport("Failed to send message"))))
              && w'.state.store[id] == Fresh(mode, |w.state.log|)
              && w'.state.table == (if sent && w.backend.stdin then w.state.table + {id} else w.state.table)
  {
    OneOp(w.state, Add(id, mode));
    TwoOps(w.state, Add(id, mode), Drop(id));
  }

  /** What the outcome of a call says about what its request received. A timeout means
      that no result or error was ever delivered, nothing was left unread, and the
      deadline had passed. */
  lemma OutcomeMeaning(evs: seq<Event>, id: Id)
    requires id in Run(START, evs).calls
    ensures var w := Run(START, evs);
            && id in w.state.store
            && var e, c := w.state.store[id], w.calls[id];
               && (c.mode.StreamMode? <==> e.queue.Some?)
               && (c.outcome == Some(TimedOut) ==>
                     && w.now >= c.deadline && !Settled(e)
                     && (e.queue.Some? ==> e.taken == Chunks(e.chunks)))
               && (c.outcome.Some? && c.outcome.value.Returned? ==>
                     if e.queue.Some? then e.taken == Chunks(e.chunks) + [Result(c.outcome.value.value)]
                     else e.future == Some(Resolved(c.outcome.value.value)))
               && (c.outcome.Some? && c.outcome.value.Raised? && !Unsendable(c.outcome.value.exc) ==>
                     if e.queue.Some? then e.taken == Chunks(e.chunks) + [Error(c.outcome.value.exc)]
                     else e.future == Some(Rejected(c.outcome.value.exc)))
  {
    StartInv();
    SessionRun(START, evs);
    var w := Run(START, evs);
    assert CallInv(w, id) && EntryInv(w.state, id);
    TakenAll(w.state.store[id]);
  }

  /** A consumer that has emptied the queue has read the whole history. */
  lemma TakenAll(e: Entry)
    requires WellShaped(e)
    ensures e.queue == Some([]) && !Settled(e) ==> e.taken == Chunks(e.chunks)
    ensures forall item :: Final(item) && LastTaken(e, item) ==> e.taken == Chunks(e.chunks) + [item]
  {
    if e.queue == Some([]) {
      StreamShape(e);
      assert History(e) == e.taken;
      forall item | Final(item) && LastTaken(e, item)
        ensures e.taken == Chunks(e.chunks) + [item]
      {
        assert Final(History(e)[|e.taken| - 1]);
        assert e.taken == e.taken[..|e.chunks|] + [item];
      }
    }
  }

  // ---- Clean-up ----

  /** At most one stream is pending in any reachable state. */
  lemma OneActiveStream(evs: seq<Event>, a: Id, b: Id)
    ensures var s := Run(START, evs).state;
            a in s.table && b in s.table && s.store[a].queue.Some? && s.store[b].queue.Some? ==> a == b
  {
    StartInv();
    SessionRun(START, evs);
  }

  /** The only entries in the table whose call has ended are those of cancelled
      `request()` calls. */
  lemma CleanupIsTotalButForCancel(evs: seq<Event>, id: Id)
    requires id in Run(START, evs).state.table && id in Run(START, evs).calls
    ensures var c := Run(START, evs).calls[id];
            c.outcome.Some? ==> c.outcome == Some(Left) && c.mode.FutureMode?
  {
    StartInv();
    SessionRun(START, evs);
    assert CallInv(Run(START, evs), id);
  }

  /** Leaving takes the entry out of the table exactly if the call is a stream. */
  lemma LeavingCleansUp(w: World, id: Id)
    requires SessionInv(w) && Active(w, id) && id in w.state.table
    ensures var w' := Step(w, Leave(id));
            && w'.calls[id].outcome == Some(Left)
            && (id !in w'.state.table <==> w.calls[id].mode.StreamMode?)
  {
    OneOp(w.state, Drop(id));
    OneOp(w.state, Cancel(id));
  }

  /** However it ends on its own - result, error, send failure or timeout - a call leaves
      no entry behind. */
  lemma EndingCleansUp(w: World, ev: Event, id: Id)
    requires SessionInv(w) && id in Step(w, ev).calls && Step(w, ev).calls[id].outcome.Some?
    requires Step(w, ev).calls[id].outcome.value != Left
    ensures id !in Step(w, ev).state.table
  {
    SessionStep(w, ev);
    assert CallInv(Step(w, ev), id);
  }

  // ---- Deadlines ----

  /** The items that wait for the caller: the unread queue, or the completed future. */
  function Owed(e: Entry): seq<Item> {
    if e.queue.Some? then e.queue.value
    else if e.future.Some? && e.future.value.Resolved? then [Result(e.future.value.value)]
    else if e.future.Some? && e.future.value.Rejected? then [Error(e.future.value.exc)]
    else []
  }

  function Wakes(evs: seq<Event>, id: Id): nat {
    if evs == [] then 0 else (if evs[0] == Wake(id) then 1 else 0) + Wakes(evs[1..], id)
  }

  lemma TimeoutStep(w: World, ev: Event, id: Id)
    requires w.state.table <= w.state.store.Keys && Active(w, id)
    ensures id in NextCalls(w, ev) && NextCalls(w, ev)[id].deadline == w.calls[id].deadline
    ensures NextCalls(w, ev)[id].outcome == Some(TimedOut) ==> TimesOut(w, ev, id)
  {
  }

  /** The moment of a time-out: the call ran, its deadline had passed, and nothing was
      ready for it. */
  ghost predicate TimesOut(w: World, ev: Event, id: Id)
    requires w.state.table <= w.state.store.Keys
  {
    && ev == Wake(id) && Active(w, id)
    && Owed(w.state.store[id]) == [] && w.now >= w.calls[id].deadline
  }

  /** One of the events of the run is such a moment. */
  ghost predicate SomewhereTimesOut(w: World, evs: seq<Event>, id: Id)
    requires w.state.table <= w.state.store.Keys
    decreases |evs|
  {
    evs != [] && (TimesOut(w, evs[0], id) || SomewhereTimesOut(Step(w, evs[0]), evs[1..], id))
  }

  /** A call that timed out somewhere in a run did so at such a moment: a deadline never
      beats an item that is ready. */
  lemma {:induction false} TimeoutOnlyWhenEmpty(w: World, evs: seq<Event>, id: Id)
    requires SessionInv(w) && Active(w, id)
    requires id in Run(w, evs).calls && Run(w, evs).calls[id].outcome == Some(TimedOut)
    ensures SomewhereTimesOut(w, evs, id)
    decreases |evs|
  {
    var w1, rest := Step(w, evs[0]), evs[1..];
    SessionStep(w, evs[0]);
    TimeoutStep(w, evs[0], id);
    assert Run(w, evs) == Run(w1, rest);
    if w1.calls[id].outcome.Some? {
      OutcomeStable(w1, rest, id);
    } else {
      TimeoutOnlyWhenEmpty(w1, rest, id);
    }
  }

  /** A call whose final item has been delivered but not yet read. */
  ghost predicate Due(w: World, id: Id, item: Item) {
    && Active(w, id) && Final(item) && id !in w.state.table
    && var owed := Owed(w.state.store[id]);
       owed != [] && owed[|owed| - 1] == item
  }

  lemma DueElsewhere(w: World, ev: Event, id: Id, item: Item)
    requires w.state.table <= w.state.store.Keys
    requires Due(w, id, item) && ev != Wake(id) && ev != Leave(id)
    ensures Due(Step(w, ev), id, item)
    ensures Owed(Step(w, ev).state.store[id]) == Owed(w.state.store[id])
  {
    StillActive(w, ev, id);
    OpsNotOwn(w, ev, id);
    KeptOffTable(w.state, Ops(w, ev), id);
  }

  lemma StillActive(w: World, ev: Event, id: Id)
    requires w.state.table <= w.state.store.Keys
    requires Active(w, id) && ev != Wake(id) && ev != Leave(id)
    ensures Active(Step(w, ev), id) && Step(w, ev).calls[id] == w.calls[id]
  {
  }

  lemma OpsNotOwn(w: World, ev: Event, id: Id)
    requires w.state.table <= w.state.store.Keys && id in w.state.store
    requires ev != Wake(id) && ev != Leave(id)
    ensures forall op :: op in Ops(w, ev) ==> op != Take(id) && op != Cancel(id) && op != Drop(id)
  {
  }

  lemma {:induction false} KeptOffTable(s: State, ops: seq<Op>, id: Id)
    requires s.table <= s.store.Keys && id in s.store && id !in s.table
    requires forall op :: op in ops ==> op != Take(id) && op != Cancel(id)
    ensures id !in ApplyAll(s, ops).table && ApplyAll(s, ops).store[id] == s.store[id]
    decreases |ops|
  {
    if ops != [] {
      assert ops[0] in ops && forall op :: op in ops[1..] ==> op in ops;
      OffTableStep(s, ops[0], id);
      KeptOffTable(Apply(s, ops[0]), ops[1..], id);
    }
  }

  lemma DueWake(w: World, id: Id, item: Item)
    requires SessionInv(w) && Due(w, id, item)
    ensures var w', owed := Step(w, Wake(id)), Owed(w.state.store[id]);
            if |owed| == 1 then id in w'.calls && w'.calls[id].outcome == OutcomeOf(item)
            else Due(w', id, item) && |Owed(w'.state.store[id])| == |owed| - 1
  {
    var e := w.state.store[id];
    assert Find(w, id) == Ready(Owed(e)[0]);
    if |Owed(e)| > 1 { DueRead(w, id, item); }
  }

  lemma DueRead(w: World, id: Id, item: Item)
    requires SessionInv(w) && Due(w, id, item) && |Owed(w.state.store[id])| > 1
    ensures var w', owed := Step(w, Wake(id)), Owed(w.state.store[id]);
            Due(w', id, item) && |Owed(w'.state.store[id])| == |owed| - 1
  {
    assert CallInv(w, id) && EntryInv(w.state, id);
    TakeReady(w, id);
    assert Ops(w, Wake(id)) == [Take(id)];
    OneOp(w.state, Take(id));
  }

  /** A delivered result or error always becomes the outcome of its call, however late the
      caller runs and whatever else happens - a deadline that passes, a stop, a crash -
      once it has run as often as items were waiting, unless the caller leaves. */
  lemma {:induction false} ReadyBeatsDeadline(w: World, evs: seq<Event>, id: Id, item: Item)
    requires SessionInv(w) && Due(w, id, item)
    requires Leave(id) !in evs && Wakes(evs, id) >= |Owed(w.state.store[id])|
    ensures id in Run(w, evs).calls && Run(w, evs).calls[id].outcome == OutcomeOf(item)
    decreases |evs|
  {
    var w1, rest := Step(w, evs[0]), evs[1..];
    assert evs[0] in evs;
    SessionStep(w, evs[0]);
    if evs[0] == Wake(id) {
      DueWake(w, id, item);
      if |Owed(w.state.store[id])| == 1 {
        OutcomeStable(w1, rest, id);
      } else {
        ReadyBeatsDeadline(w1, rest, id, item);
      }
    } else {
      DueElsewhere(w, evs[0], id, item);
      ReadyBeatsDeadline(w1, rest, id, item);
    }
  }

  /** The events that may put an item on a queue. */
  predicate Arrives(ev: Event) {
    ev.Line? || ev.BeginStop? || ev.CancelReader? || ev.EndOfFile?
  }

  function Arrivals(evs: seq<Event>): nat {
    if evs == [] then 0 else (if Arrives(evs[0]) then 1 else 0) + Arrivals(evs[1..])
  }

  lemma OpsOfArrival(w: World, ev: Event)
    requires w.state.table <= w.state.store.Keys && Arrives(ev)
    ensures Ops(w, ev) == [] || exists op :: Ops(w, ev) == [op] && (op.Deliver? || op.FailAll?)
  {
    if Ops(w, ev) != [] {
      assert Ops(w, ev) == [Ops(w, ev)[0]];
    }
  }

  lemma OpsOfOther(w: World, ev: Event, id: Id)
    requires w.state.table <= w.state.store.Keys && id in w.state.store
    requires !Arrives(ev) && ev != Wake(id) && ev != Leave(id)
    ensures forall op :: op in Ops(w, ev) ==> !op.Deliver? && !op.FailAll? && op.id != id
  {
  }

  lemma OwedStep(s: State, op: Op, id: Id)
    requires Inv(s) && id in s.store && (op.Deliver? || op.FailAll?)
    ensures |Owed(Apply(s, op).store[id])| <= |Owed(s.store[id])| + 1
  {
    assert EntryInv(s, id);
  }

  lemma OwedGrows(w: World, ev: Event, id: Id)
    requires SessionInv(w) && Active(w, id) && ev != Wake(id) && ev != Leave(id)
    ensures |Owed(Step(w, ev).state.store[id])|
            <= |Owed(w.state.store[id])| + if Arrives(ev) then 1 else 0
  {
    if Arrives(ev) {
      OpsOfArrival(w, ev);
      if op :| Ops(w, ev) == [op] {
        OneOp(w.state, op);
        OwedStep(w.state, op, id);
      }
    } else {
      OpsOfOther(w, ev, id);
      Untouched(w.state, Ops(w, ev), id);
    }
  }

  lemma {:induction false} Untouched(s: State, ops: seq<Op>, id: Id)
    requires s.table <= s.store.Keys && id in s.store
    requires forall op :: op in ops ==> !op.Deliver? && !op.FailAll? && op.id != id
    ensures ApplyAll(s, ops).store[id] == s.store[id]
    decreases |ops|
  {
    if ops != [] {
      assert ops[0] in ops;
      Untouched(Apply(s, ops[0]), ops[1..], id);
    }
  }

  lemma LateWake(w: World, id: Id)
    requires SessionInv(w) && Active(w, id) && w.now >= w.calls[id].deadline
    ensures var w' := Step(w, Wake(id));
            && id in w'.calls && w'.calls[id].deadline == w.calls[id].deadline
            && (w'.calls[id].outcome.Some?
                || (Active(w', id) && |Owed(w'.state.store[id])| + 1 == |Owed(w.state.store[id])|))
  {
    assert CallInv(w, id) && EntryInv(w.state, id);
    if Find(w, id).Ready? && Find(w, id).item.Chunk? {
      assert Ops(w, Wake(id)) == [Take(id)];
      OneOp(w.state, Take(id));
    }
  }

  /** After its deadline a call ends as soon as it has run more often than items were
      waiting or still arrive: with finitely many arrivals the consuming loop terminates. */
  lemma {:induction false} LateCallsEnd(w: World, evs: seq<Event>, id: Id)
    requires SessionInv(w) && Active(w, id) && w.now >= w.calls[id].deadline
    requires Wakes(evs, id) > |Owed(w.state.store[id])| + Arrivals(evs)
    ensures id in Run(w, evs).calls && Run(w, evs).calls[id].outcome.Some?
    decreases |evs|
  {
    SessionStep(w, evs[0]);
    LateStep(w, evs[0], id);
    var w1, rest := Step(w, evs[0]), evs[1..];
    if w1.calls[id].outcome.Some? { OutcomeStable(w1, rest, id); }
    else { LateCallsEnd(w1, rest, id); }
  }

  lemma LateStep(w: World, ev: Event, id: Id)
    requires SessionInv(w) && Active(w, id) && w.now >= w.calls[id].deadline
    ensures var w' := Step(w, ev);
            && id in w'.calls
            && (w'.calls[id].outcome.Some?
                || (Active(w', id) && w'.now >= w'.calls[id].deadline
                    && |Owed(w'.state.store[id])| + (if ev == Wake(id) then 1 else 0)
                       <= |Owed(w.state.store[id])| + if Arrives(ev) then 1 else 0))
  {
    if ev == Wake(id) { LateWake(w, id); }
    else if ev != Leave(id) {
      StillActive(w, ev, id);
      OwedGrows(w, ev, id);
    }
  }

  lemma TickOnly(w: World, elapsed: nat)
    requires w.state.table <= w.state.store.Keys
    ensures Step(w, Tick(elapsed)) == w.(now := w.now + elapsed)
  {
  }

  /** Every call ends: when time has passed up to its deadline, it ends as soon as it has run
      more often than items were waiting or still arrive. */
  lemma DeadlineComes(w: World, elapsed: nat, evs: seq<Event>, id: Id)
    requires SessionInv(w) && Active(w, id) && w.now + elapsed >= w.calls[id].deadline
    requires Wakes(evs, id) > |Owed(w.state.store[id])| + Arrivals(evs)
    ensures var z := Run(w, [Tick(elapsed)] + evs); id in z.calls && z.calls[id].outcome.Some?
  {
    assert ([Tick(elapsed)] + evs)[1..] == evs;
    TickOnly(w, elapsed);
    SessionStep(w, Tick(elapsed));
    LateCallsEnd(Step(w, Tick(elapsed)), evs, id);
  }

  /** If nothing is ready for it and nothing arrives, it times out. */
  lemma SilenceTimesOut(w: World, elapsed: nat, evs: seq<Event>, id: Id)
    requires SessionInv(w) && Active(w, id) && w.now + elapsed >= w.calls[id].deadline
    requires Owed(w.state.store[id]) == [] && Arrivals(evs) == 0 && Leave(id) !in evs && Wakes(evs, id) > 0
    ensures var z := Run(w, [Tick(elapsed)] + evs); id in z.calls && z.calls[id].outcome == Some(TimedOut)
  {
    assert ([Tick(elapsed)] + evs)[1..] == evs;
    TickOnly(w, elapsed);
    SessionStep(w, Tick(elapsed));
    LateSilence(Step(w, Tick(elapsed)), evs, id);
  }

  lemma {:induction false} LateSilence(w: World, evs: seq<Event>, id: Id)
    requires SessionInv(w) && Active(w, id) && w.now >= w.calls[id].deadline
    requires Owed(w.state.store[id]) == [] && Arrivals(evs) == 0 && Leave(id) !in evs && Wakes(evs, id) > 0
    ensures id in Run(w, evs).calls && Run(w, evs).calls[id].outcome == Some(TimedOut)
    decreases |evs|
  {
    var w1, rest := Step(w, evs[0]), evs[1..];
    assert evs[0] in evs && forall ev :: ev in rest ==> ev in evs;
    SessionStep(w, evs[0]);
    SilentStep(w, evs[0], id);
    if evs[0] == Wake(id) {
      OutcomeStable(w1, rest, id);
    } else {
      LateSilence(w1, rest, id);
    }
  }

  lemma SilentStep(w: World, ev: Event, id: Id)
    requires SessionInv(w) && Active(w, id) && w.now >= w.calls[id].deadline
    requires Owed(w.state.store[id]) == [] && !Arrives(ev) && ev != Leave(id)
    ensures var w' := Step(w, ev);
            && id in w'.calls
            && if ev == Wake(id) then w'.calls[id].outcome == Some(TimedOut)
               else Active(w', id) && Owed(w'.state.store[id]) == [] && w'.now >= w'.calls[id].deadline
  {
    if ev == Wake(id) {
      assert Find(w, id) == TooLate;
    } else {
      StillActive(w, ev, id);
      OwedGrows(w, ev, id);
    }
  }

  // ---- Fate ----

  /** The fate of a request in a session: opened after any events and followed by any
      others, it gets exactly what the declarative reading of the trace says. */
  lemma SessionFate(before: seq<Event>, id: Id, mode: Mode, timeout: int, after: seq<Event>)
    requires Opens(Run(START, before), id, mode) && Run(START, before).backend.stdin
    ensures var w := Step(Run(START, before), Open(id, mode, timeout, true));
            var ops, s := Trace(w, after), Run(w, after).state;
            && id in s.store
            && (id in s.table <==> FirstEnd(ops, id) == |ops|)
            && s.store[id].chunks == TraceTexts(ops[..FirstEnd(ops, id)])
            && (mode.StreamMode? ==> History(s.store[id]) == Delivered(ops, id))
            && (mode.FutureMode? ==>
                  s.store[id].future == Some(CellFate(ops, id, s.store[id].chunks)))
  {
    StartInv();
    SessionRun(START, before);
    var w0 := Run(START, before);
    var w := Step(w0, Open(id, mode, timeout, true));
    OneOp(w0.state, Add(id, mode));
    StepKeeps(w0.state, Add(id, mode));
    RunIsTrace(w, after);
    Refines(w.state, Trace(w, after), id);
    var texts := TraceTexts(Trace(w, after)[..FirstEnd(Trace(w, after), id)]);
    assert [] + texts == texts && [] + Chunks(texts) == Chunks(texts);
  }
}
