/** Stop, crash and destroy: the pending table against the lifecycle of the backend. */
module Shutdown {
  import opened Protocol
  import opened Table
  import opened TableInvariant
  import opened TraceRefinement
  import opened Lifecycle
  import opened Session
  import opened SessionInvariant
  import opened SessionTheorems

  // ---- The gate ----

  /** Requests are pending only while the backend is RUNNING. */
  predicate Gate(w: World) {
    w.state.table != {} ==> w.backend.phase == Running
  }

  /** `destroy()` while requests are pending. */
  predicate Abandons(w: World, ev: Event) {
    ev.Destroy? && w.attached && w.state.table != {}
  }

  /** From any reachable state in which the gate holds, exactly one event breaks it:
      `destroy()` with requests pending. */
  lemma GateBrokenExactlyBy(w: World, ev: Event)
    requires SessionInv(w) && Gate(w)
    ensures Gate(Step(w, ev)) <==> !Abandons(w, ev)
  {
    JoinedStep(w, ev);
    if ev.Destroy? {
      assert Step(w, ev).state == w.state;
    } else if !w.attached {
      OpenOnlyGrows(w, ev);
    }
  }

  predicate NeverAbandons(w: World, evs: seq<Event>)
    requires w.state.table <= w.state.store.Keys
    decreases |evs|
  {
    evs == [] || (!Abandons(w, evs[0]) && NeverAbandons(Step(w, evs[0]), evs[1..]))
  }

  lemma {:induction false} GateRun(w: World, evs: seq<Event>)
    requires SessionInv(w) && Gate(w) && NeverAbandons(w, evs)
    ensures Gate(Run(w, evs))
    decreases |evs|
  {
    if evs != [] {
      SessionStep(w, evs[0]);
      GateBrokenExactlyBy(w, evs[0]);
      GateRun(Step(w, evs[0]), evs[1..]);
    }
  }

  /** In every run, however `start()` and `stop()` overlap, a client that has not been
      destroyed has requests pending only while its backend is RUNNING; and so has a client
      that was destroyed with no request pending. */
  lemma PendingImpliesRunning(evs: seq<Event>)
    ensures var w := Run(START, evs);
            && (w.attached ==> Gate(w))
            && (NeverAbandons(START, evs) ==> Gate(w))
  {
    StartInv();
    SessionRun(START, evs);
    if NeverAbandons(START, evs) { GateRun(START, evs); }
  }

  // ---- After stop, crash or destroy ----

  /** The backend will never be RUNNING again, or the client has dropped it. */
  predicate Done(w: World) {
    Over(w.backend) || !w.attached
  }

  lemma DoneStep(w: World, ev: Event)
    requires SessionInv(w) && Done(w)
    ensures Done(Step(w, ev)) && Step(w, ev).backend.crashes == w.backend.crashes
    ensures Step(w, ev).state.table <= w.state.table
  {
    BackendStep(w, ev);
    OpenOnlyGrows(w, ev);
  }

  /** A client that is done never runs again and never hears the close callback, whatever
      happens, and its table only shrinks. */
  lemma {:induction false} DoneForGood(w: World, evs: seq<Event>)
    requires SessionInv(w) && Done(w)
    ensures var z := Run(w, evs);
            && Done(z) && z.backend.phase != Running && z.backend.crashes == w.backend.crashes
            && z.state.table <= w.state.table
    decreases |evs|
  {
    if evs != [] {
      SessionStep(w, evs[0]);
      DoneStep(w, evs[0]);
      DoneForGood(Step(w, evs[0]), evs[1..]);
    }
  }

  /** The events that fail every pending request: `stop()` and a crash. */
  predicate EndsService(w: World, ev: Event) {
    ev.BeginStop? || NextBackend(w, ev).crashes > w.backend.crashes
  }

  function Reason(ev: Event): Failure {
    Transport(if ev.BeginStop? then "Bus is shutting down" else "stdio_bus process exited unexpectedly")
  }

  /** What a pending request gets when the service ends, for good. */
  ghost predicate FailedOnce(e: Entry, z: Entry, exc: Failure) {
    && z.chunks == e.chunks
    && (e.queue.Some? ==> z.queue.Some? && History(z) == History(e) + [Error(exc)])
    && (e.future.Some? ==>
          z.future == if e.future.value.Waiting? then Some(Rejected(exc)) else Some(Cancelled))
  }

  lemma FailAllOnce(s: State, exc: Failure, id: Id)
    requires Inv(s) && id in s.table
    ensures FailedOnce(s.store[id], Apply(s, FailAll(exc)).store[id], exc)
  {
    assert EntryInv(s, id);
    EndStep(s, FailAll(exc), id);
  }

  lemma EndingState(w: World, ev: Event)
    requires w.state.table <= w.state.store.Keys && EndsService(w, ev)
    ensures Step(w, ev).state == Apply(w.state, FailAll(Reason(ev))) && Step(w, ev).calls == w.calls
  {
    OneOp(w.state, FailAll(Reason(ev)));
  }

  lemma FailsOnce(w: World, ev: Event, rest: seq<Event>, id: Id)
    requires SessionInv(w) && EndsService(w, ev) && id in w.state.table
    ensures var z := Run(Step(w, ev), rest);
            id in z.state.store && FailedOnce(w.state.store[id], z.state.store[id], Reason(ev))
  {
    var w' := Step(w, ev);
    EndingState(w, ev);
    FailAllOnce(w.state, Reason(ev), id);
    RunIsTrace(w', rest);
    OffTable(w'.state, Trace(w', rest), id);
    assert EntryInv(w.state, id);
  }

  lemma DoneAfter(w: World, ev: Event)
    requires SessionInv(w) && EndsService(w, ev)
    requires w.backend.phase == Running || w.state.table != {}
    ensures Done(Step(w, ev))
  {
    BackendStep(w, ev);
  }

  /** Whatever the state in which `stop()` is called or the process crashes - also when the
      client has been destroyed before - every request pending at that moment receives
      exactly one TransportError, the only final item it ever gets, unless it was already
      cancelled. And if there was such a request or the backend was RUNNING, the backend
      never runs again, the close callback is not called again, and the table stays empty. */
  lemma EveryRequestFailsOnce(w: World, ev: Event, rest: seq<Event>)
    requires SessionInv(w) && EndsService(w, ev)
    ensures var w', z := Step(w, ev), Run(Step(w, ev), rest);
            && w'.state.table == {}
            && w'.backend.crashes == w.backend.crashes + (if ev.BeginStop? then 0 else 1)
            && (forall id :: id in w.state.table ==>
                  id in z.state.store && FailedOnce(w.state.store[id], z.state.store[id], Reason(ev)))
            && (w.backend.phase == Running || w.state.table != {} ==>
                  z.state.table == {} && z.backend.phase != Running
                  && z.backend.crashes == w'.backend.crashes)
  {
    FailAllClears(w, ev);
    if w.backend.phase == Running || w.state.table != {} {
      SessionStep(w, ev);
      DoneAfter(w, ev);
      DoneForGood(Step(w, ev), rest);
    }
    forall id | id in w.state.table
      ensures var z := Run(Step(w, ev), rest);
              id in z.state.store && FailedOnce(w.state.store[id], z.state.store[id], Reason(ev))
    {
      FailsOnce(w, ev, rest, id);
    }
  }

  lemma DueAfter(w: World, ev: Event, id: Id)
    requires SessionInv(w) && EndsService(w, ev) && Active(w, id) && id in w.state.table
    ensures var w' := Step(w, ev);
            && Due(w', id, Error(Reason(ev)))
            && |Owed(w'.state.store[id])| == |Owed(w.state.store[id])| + 1
  {
    assert CallInv(w, id) && EntryInv(w.state, id);
    EndingState(w, ev);
  }

  /** So every call that waits when the service ends raises that TransportError: once it
      has run as often as items were waiting for it, and once more, a call that is not left
      has raised, and a stream has first given its consumer every chunk. */
  lemma EveryCallRaises(w: World, ev: Event, rest: seq<Event>, id: Id)
    requires SessionInv(w) && EndsService(w, ev) && Active(w, id) && id in w.state.table
    requires Leave(id) !in rest && Wakes(rest, id) > |Owed(w.state.store[id])|
    ensures var e, z := w.state.store[id], Run(Step(w, ev), rest);
            && id in z.calls && id in z.state.store
            && z.calls[id].outcome == Some(Raised(Reason(ev)))
            && (e.queue.Some? ==> z.state.store[id].taken == Chunks(e.chunks) + [Error(Reason(ev))])
  {
    var w', z := Step(w, ev), Run(Step(w, ev), rest);
    SessionStep(w, ev);
    DueAfter(w, ev, id);
    ReadyBeatsDeadline(w', rest, id, Error(Reason(ev)));
    SessionRun(w', rest);
    FailsOnce(w, ev, rest, id);
    assert CallInv(z, id) && EntryInv(z.state, id) && CallInv(w, id);
    TakenAll(z.state.store[id]);
  }

  /** The close callback fires at most once in any run; each time the backend was RUNNING;
      and a backend that has left RUNNING never returns to it. */
  lemma CrashDiscipline(before: seq<Event>, ev: Event, after: seq<Event>)
    ensures var w := Run(START, before);
            var w', z := Step(w, ev), Run(Step(w, ev), after);
            && z.backend.crashes <= 1
            && (w'.backend.crashes > w.backend.crashes ==>
                  w.backend.phase == Running && w'.backend.phase == Stopped)
            && (w.backend.phase == Running && w'.backend.phase != Running ==>
                  z.backend.phase != Running && z.backend.crashes == w'.backend.crashes)
  {
    var w := Run(START, before);
    StartInv();
    SessionRun(START, before);
    SessionStep(w, ev);
    BackendStep(w, ev);
    SessionRun(Step(w, ev), after);
    if w.backend.phase == Running && Step(w, ev).backend.phase != Running {
      DoneForGood(Step(w, ev), after);
    }
  }

  // ---- The close callback after a teardown ----

  /** `stop()` finds a backend that a `start()` may still bring up. */
  predicate StopsTooEarly(w: World, ev: Event) {
    ev.BeginStop? && (w.backend.starting || w.backend.phase == Created)
  }

  /** The close callback fires in some run after `stop()` or `destroy()` of a client that
      has its backend. */
  ghost predicate CallbackCanFollow(w: World, ev: Event)
    requires w.state.table <= w.state.store.Keys
  {
    exists rest :: Run(Step(w, ev), rest).backend.crashes > w.backend.crashes
  }

  lemma RunCons(w: World, ev: Event, evs: seq<Event>)
    requires w.state.table <= w.state.store.Keys
    ensures Run(w, [ev] + evs) == Run(Step(w, ev), evs)
  {
    assert ([ev] + evs)[1..] == evs;
  }

  /** A suspended `start()` whose process is alive brings the backend up, and it can crash. */
  lemma StartedCrashes(w: World)
    requires w.state.table <= w.state.store.Keys && w.backend.starting && w.backend.process
    ensures Run(w, [EndStart(true)] + ([RunReader] + ([EndOfFile] + []))).backend.crashes
            == w.backend.crashes + 1
  {
    var up := Step(w, EndStart(true));
    var looping := Step(up, RunReader);
    RunCons(w, EndStart(true), [RunReader] + ([EndOfFile] + []));
    RunCons(up, RunReader, [EndOfFile] + []);
    RunCons(looping, EndOfFile, []);
    assert looping.backend.reader == Looping && looping.backend.phase == Running;
  }

  lemma EarlyStopIsFollowed(w: World, ev: Event)
    requires SessionInv(w) && w.attached && StopsTooEarly(w, ev)
    ensures CallbackCanFollow(w, ev)
  {
    var w' := Step(w, ev);
    var rest := [EndStart(true)] + ([RunReader] + ([EndOfFile] + []));
    if w.backend.starting {
      StartedCrashes(w');
      assert Run(w', rest).backend.crashes > w.backend.crashes;
    } else {
      StartedCrashes(Step(w', BeginStart(true)));
      RunCons(w', BeginStart(true), rest);
      assert Run(w', [BeginStart(true)] + rest).backend.crashes > w.backend.crashes;
    }
  }

  /** The close callback can follow a `stop()` or `destroy()` if and only if it was a
      `stop()` that came before `start()` had ended. */
  lemma CallbackFollowsExactlyEarlyStop(w: World, ev: Event)
    requires SessionInv(w) && w.attached && (ev.BeginStop? || ev.Destroy?)
    ensures CallbackCanFollow(w, ev) <==> StopsTooEarly(w, ev)
  {
    if StopsTooEarly(w, ev) {
      EarlyStopIsFollowed(w, ev);
    } else {
      SessionStep(w, ev);
      forall rest
        ensures Run(Step(w, ev), rest).backend.crashes == w.backend.crashes
      {
        DoneForGood(Step(w, ev), rest);
      }
    }
  }
}
