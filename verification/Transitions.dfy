/** Which events change the state of the subprocess backend, and how, for every reachable
    session. The lifecycle's functions are not mentioned: only events and fields. */
module Transitions {
  import opened Lifecycle
  import opened Session
  import opened SessionInvariant
  import opened SessionTheorems
  import opened Shutdown

  /** The read task runs into its end with the backend RUNNING. */
  predicate Crashes(w: World, ev: Event) {
    && w.backend.phase == Running && w.backend.reader == Looping
    && (ev.EndOfFile? || (ev.CancelReader? && w.backend.stopping))
  }

  /** Each phase is entered exactly so; CREATED never is. */
  lemma PhaseEntered(w: World, ev: Event)
    requires SessionInv(w)
    ensures var b, b' := w.backend, Step(w, ev).backend;
            && (b'.phase == Created ==> b.phase == Created)
            && (b.phase != Starting ==>
                  (b'.phase == Starting <==> ev == BeginStart(true) && w.attached && b.phase == Created))
            && (b.phase != Running ==>
                  (b'.phase == Running <==> ev == EndStart(true) && b.starting && b.process))
            && (b.phase != Stopping ==>
                  (b'.phase == Stopping <==>
                     ev == BeginStop && w.attached && (b.phase == Running || b.phase == Starting)))
            && (b.phase != Stopped ==>
                  (b'.phase == Stopped <==>
                     || (ev == BeginStart(false) && w.attached && b.phase == Created)
                     || (ev.EndStart? && b.starting && !(ev.alive && b.process))
                     || (ev == EndStop && b.stopping)
                     || (ev == Event.Destroy && w.attached)
                     || Crashes(w, ev)))
  {
  }

  /** The read task starts, loops and ends exactly so. */
  lemma ReaderChanges(w: World, ev: Event)
    requires SessionInv(w)
    ensures var b, b' := w.backend, Step(w, ev).backend;
            && b'.crashes == b.crashes + (if Crashes(w, ev) then 1 else 0)
            && (b.reader != Scheduled ==>
                  (b'.reader == Scheduled <==> ev == EndStart(true) && b.starting && b.process))
            && (b.reader != Looping ==>
                  (b'.reader == Looping <==> ev == RunReader && b.reader == Scheduled && b.phase == Running))
            && (b.reader == Looping ==>
                  (b'.reader == Looping <==>
                     !(|| ev.EndOfFile? || (ev.CancelReader? && b.stopping)
                       || (ev.Line? && b.phase != Running))))
            && (b.reader == Scheduled ==>
                  (b'.reader == Scheduled <==> !(ev == RunReader || (ev == CancelReader && b.stopping))))
  {
  }

  /** The process, its standard input and the handlers come and go exactly so. */
  lemma ResourcesChange(w: World, ev: Event)
    requires SessionInv(w)
    ensures var b, b' := w.backend, Step(w, ev).backend;
            var begins := ev == BeginStart(true) && w.attached && b.phase == Created;
            var destroys := ev == Event.Destroy && w.attached;
            var stops := ev == BeginStop && w.attached && (b.phase == Running || b.phase == Starting);
            && (b'.process <==> (b.process || begins) && !destroys)
            && (b'.stdin <==> (b.stdin || begins) && !destroys && !stops)
            && (b'.handlers <==> b.handlers && !destroys)
            && (b'.starting <==> (b.starting || begins) && !(ev.EndStart? || ev.CancelStart?))
            && (b'.stopping <==> (b.stopping || stops) && !ev.EndStop?)
  {
  }

  /** A start that fails, because nothing could be spawned or because the process exited
      while it waited, ends in STOPPED, and the backend is over: no event ever brings it up. */
  lemma FailedStartIsForGood(w: World, ev: Event, rest: seq<Event>)
    requires SessionInv(w)
    requires || (ev == BeginStart(false) && w.attached && w.backend.phase == Created)
             || (ev == EndStart(false) && w.backend.starting)
    ensures Step(w, ev).backend.phase == Stopped
    ensures var z := Run(Step(w, ev), rest);
            z.backend.phase != Running && z.backend.crashes == w.backend.crashes
  {
    SessionStep(w, ev);
    DoneForGood(Step(w, ev), rest);
  }

  /** A `stop()` that runs to its end leaves a stopped backend with no read task, no pending
      request, and no crash reported. */
  lemma StopStops(w: World)
    requires SessionInv(w) && w.attached && w.backend.phase == Running
    ensures var z := Step(Step(Step(w, BeginStop), CancelReader), EndStop);
            && z.backend.phase == Stopped && z.backend.reader == NoReader
            && !z.backend.stdin && !z.backend.stopping
            && z.backend.crashes == w.backend.crashes && z.state.table == {}
  {
    var w1 := Step(w, BeginStop);
    var w2 := Step(w1, CancelReader);
    FailAllClears(w, BeginStop);
    SessionStep(w, BeginStop);
    SessionStep(w1, CancelReader);
    DoneForGood(w1, [CancelReader] + [EndStop]);
    RunCons(w1, CancelReader, [EndStop]);
    RunCons(w2, EndStop, []);
    assert [EndStop] + [] == [EndStop];
  }
}
