/** The native backend's event-loop driver as a value: the flags of the backend, the
    callbacks that the event loop holds for it, and a count of the steps of the C library. */
module NativeDriver {
  import opened Protocol

  /** `_bus`: None, a NULL pointer left by a failed create, or a live instance. */
  datatype Handle = NoBus | NullBus | Live

  /** `readers`, `timers` and `deferred` are what the event loop holds. `depth` counts the
      library steps in progress and `deepest` its maximum; `driven` counts the steps made
      by callbacks, `drained` those made by `stop()`. */
  datatype Driver = Driver(
    handle: Handle, loop: bool, pollFd: Option<nat>, pollTimer: Option<nat>,
    stopping: bool, stepping: bool,
    readers: set<nat>, timers: set<nat>, nextTimer: nat, deferred: nat,
    depth: int, deepest: int, driven: nat, drained: nat)

  /** What message handlers do inside a library step: send a message, or even run the
      step callback again. */
  datatype Act = DoSend(accepted: bool) | Reenter(script: seq<Act>)

  const NEW := Driver(NoBus, false, None, None, false, false, {}, {}, 0, 0, 0, 0, 0, 0)

  function Max(a: int, b: int): int {
    if a < b then b else a
  }

  /** `send`: a message that is accepted defers a step. */
  function Send(d: Driver, accepted: bool): Driver {
    if d.handle == Live && accepted && d.loop && !d.stopping then d.(deferred := d.deferred + 1) else d
  }

  function StepNonblocking(d: Driver, script: seq<Act>): Driver
    decreases script, 1
  {
    if d.stepping || d.stopping || d.handle != Live then d
    else
      var d1 := d.(stepping := true, depth := d.depth + 1,
                   deepest := Max(d.deepest, d.depth + 1), driven := d.driven + 1);
      var d2 := Perform(d1, script);
      d2.(stepping := false, depth := d2.depth - 1)
  }

  /** The handlers that run inside a step. */
  function Perform(d: Driver, script: seq<Act>): Driver
    decreases script, 0
  {
    if script == [] then d
    else
      var d' := match script[0]
                case DoSend(accepted) => Send(d, accepted)
                case Reenter(inner) => StepNonblocking(d, inner);
      Perform(d', script[1..])
  }

  function SchedulePollTimer(d: Driver): Driver {
    if d.stopping || !d.loop then d
    else d.(timers := d.timers + {d.nextTimer}, pollTimer := Some(d.nextTimer), nextTimer := d.nextTimer + 1)
  }

  function OnPollTimer(d: Driver, script: seq<Act>): Driver {
    var d' := d.(pollTimer := None);
    if d.stopping then d' else SchedulePollTimer(StepNonblocking(d', script))
  }

  function OnPollReady(d: Driver, script: seq<Act>): Driver {
    if d.stopping then d else StepNonblocking(d, script)
  }

  /** `start`: refused while there is a bus pointer, be it NULL. `fd` is the poll descriptor
      if there is one that the loop can watch. */
  function Start(d: Driver, created: bool, started: bool, fd: Option<nat>): Driver {
    if d.handle != NoBus then d
    else if !created then d.(handle := NullBus)
    else if !started then d
    else
      var d' := d.(handle := Live, loop := true, stopping := false);
      match fd
      case Some(n) => d'.(pollFd := Some(n), readers := d.readers + {n}, pollTimer := None)
      case None => SchedulePollTimer(d'.(pollFd := None))
  }

  function RemoveReader(d: Driver): Driver {
    if d.loop && d.pollFd.Some? then d.(readers := d.readers - {d.pollFd.value}, pollFd := None) else d
  }

  function CancelTimer(d: Driver): Driver {
    if d.pollTimer.Some? then d.(timers := d.timers - {d.pollTimer.value}, pollTimer := None) else d
  }

  /** `stop` with a drain loop of `steps` steps. */
  function Stop(d: Driver, steps: nat): Driver {
    if d.handle != Live then d
    else
      var d' := CancelTimer(RemoveReader(d.(stopping := true)));
      d'.(drained := d.drained + steps)
  }

  function Destroy(d: Driver): Driver {
    var d' := CancelTimer(RemoveReader(d));
    d'.(handle := if d.handle == Live then NoBus else d.handle,
        pollFd := None, loop := false, stopping := false, stepping := false)
  }

  // ---- Runs of the event loop ----

  datatype Event =
    | Starting(created: bool, started: bool, fd: Option<nat>)
    | Stopping(steps: nat)
    | Destroying
    | Sending(accepted: bool)
    | TimerFires(timer: nat, script: seq<Act>)
    | ReaderFires(readyFd: nat, script: seq<Act>)
    | DeferredRuns(script: seq<Act>)

  /** One callback or call, run to its end. */
  function Turn(d: Driver, ev: Event): Driver {
    match ev
    case Starting(created, started, fd) => Start(d, created, started, fd)
    case Stopping(steps) => Stop(d, steps)
    case Destroying => Destroy(d)
    case Sending(accepted) => Send(d, accepted)
    case TimerFires(timer, script) =>
      if timer in d.timers then OnPollTimer(d.(timers := d.timers - {timer}), script) else d
    case ReaderFires(fd, script) =>
      if fd in d.readers then OnPollReady(d, script) else d
    case DeferredRuns(script) =>
      if d.deferred > 0 then StepNonblocking(d.(deferred := d.deferred - 1), script) else d
  }

  function Run(d: Driver, evs: seq<Event>): Driver
    decreases |evs|
  {
    if evs == [] then d else Run(Turn(d, evs[0]), evs[1..])
  }

  // ---- The invariant ----

  predicate Driving(d: Driver) {
    d.handle == Live && !d.stopping
  }

  /** Between callbacks. */
  predicate AtRest(d: Driver) {
    && !d.stepping && d.depth == 0 && d.deepest <= 1
    && (d.loop <==> d.handle == Live) && (d.stopping ==> d.handle == Live)
    && d.readers == (if d.pollFd.Some? then {d.pollFd.value} else {})
    && d.timers == (if d.pollTimer.Some? then {d.pollTimer.value} else {})
    && (if Driving(d) then d.pollFd.Some? != d.pollTimer.Some? else d.pollFd.None? && d.pollTimer.None?)
  }

  /** Inside a step nothing that handlers do starts another one: they can only defer. */
  lemma {:induction false} HandlersOnlyDefer(d: Driver, script: seq<Act>)
    requires d.stepping
    ensures Perform(d, script) == d.(deferred := Perform(d, script).deferred)
    decreases |script|
  {
    if script != [] {
      match script[0]
      case DoSend(accepted) => HandlersOnlyDefer(Send(d, accepted), script[1..]);
      case Reenter(inner) => HandlersOnlyDefer(d, script[1..]);
    }
  }

  /** A callback step is one library step and leaves everything but the counts as it was. */
  lemma OneStep(d: Driver, script: seq<Act>)
    requires !d.stepping
    ensures var d' := StepNonblocking(d, script);
            d' == if d.stopping || d.handle != Live then d
                  else d.(deferred := d'.deferred, deepest := Max(d.deepest, d.depth + 1), driven := d.driven + 1)
  {
    if !d.stopping && d.handle == Live {
      HandlersOnlyDefer(d.(stepping := true, depth := d.depth + 1,
                           deepest := Max(d.deepest, d.depth + 1), driven := d.driven + 1), script);
    }
  }

  lemma TurnKeeps(d: Driver, ev: Event)
    requires AtRest(d)
    ensures AtRest(Turn(d, ev))
  {
    match ev
    case TimerFires(timer, script) =>
      if timer in d.timers {
        assert d.timers - {timer} == {};
        OneStep(d.(timers := d.timers - {timer}, pollTimer := None), script);
      }
    case ReaderFires(fd, script) => OneStep(d, script);
    case DeferredRuns(script) =>
      if d.deferred > 0 { OneStep(d.(deferred := d.deferred - 1), script); }
    case _ =>
  }

  lemma {:induction false} RunKeeps(d: Driver, evs: seq<Event>)
    requires AtRest(d)
    ensures AtRest(Run(d, evs))
    decreases |evs|
  {
    if evs != [] {
      TurnKeeps(d, evs[0]);
      RunKeeps(Turn(d, evs[0]), evs[1..]);
    }
  }

  // ---- Theorems ----

  /** Whenever no callback runs: from a successful start until stop or destroy exactly one
      driver is live, a registered reader or one outstanding timer, and the backend holds its
      handle; at all other times there is none. */
  lemma ExactlyOneDriver(evs: seq<Event>)
    ensures var d := Run(NEW, evs);
            && |d.readers| + |d.timers| == (if Driving(d) then 1 else 0)
            && (forall fd :: fd in d.readers ==> d.pollFd == Some(fd))
            && (forall timer :: timer in d.timers ==> d.pollTimer == Some(timer))
  {
    RunKeeps(NEW, evs);
  }

  /** A start that succeeds is driven by the poll descriptor if there is one, and by a new
      timer otherwise; one that the library refuses leaves a new backend as it was. */
  lemma StartChoosesDriver(before: seq<Event>, started: bool, fd: Option<nat>)
    requires Run(NEW, before).handle == NoBus
    ensures var d := Run(NEW, before);
            var d' := Turn(d, Starting(true, started, fd));
            if !started then d' == d
            else
              && Driving(d') && d'.loop && d'.driven == d.driven
              && (fd.Some? ==> d'.readers == {fd.value} && d'.timers == {})
              && (fd.None? ==> d'.readers == {} && d'.timers == {d.nextTimer})
  {
    RunKeeps(NEW, before);
  }

  /** Library steps driven by callbacks never nest, whatever handlers do inside them. */
  lemma StepsNeverNest(evs: seq<Event>)
    ensures Run(NEW, evs).deepest <= 1 && Run(NEW, evs).depth == 0
  {
    RunKeeps(NEW, evs);
  }

  /** The live driver keeps the library going: when it fires it makes exactly one step,
      whatever the handlers do, and the backend is driven again afterwards. */
  lemma DriverMakesProgress(before: seq<Event>, firing: Event)
    requires var d := Run(NEW, before);
             || (firing.TimerFires? && firing.timer in d.timers)
             || (firing.ReaderFires? && firing.readyFd in d.readers)
    ensures var d, d' := Run(NEW, before), Turn(Run(NEW, before), firing);
            && d'.driven == d.driven + 1 && Driving(d')
            && (firing.TimerFires? <==> d'.pollTimer.Some?)
  {
    RunKeeps(NEW, before);
    var d := Run(NEW, before);
    TurnKeeps(d, firing);
    OneStep(if firing.TimerFires? then d.(timers := d.timers - {firing.timer}, pollTimer := None) else d,
            firing.script);
  }

  /** A message accepted while a driver is live defers exactly one step, which the loop then
      makes without waiting for the driver; a message refused, or sent at any other time,
      defers none. */
  lemma SendMakesProgress(before: seq<Event>, accepted: bool, script: seq<Act>)
    ensures var d := Run(NEW, before);
            var d' := Turn(d, Sending(accepted));
            && d'.deferred == d.deferred + (if accepted && Driving(d) then 1 else 0)
            && d' == d.(deferred := d'.deferred)
            && (accepted && Driving(d) ==> Turn(d', DeferredRuns(script)).driven == d.driven + 1)
  {
    RunKeeps(NEW, before);
    var d' := Turn(Run(NEW, before), Sending(accepted));
    if d'.deferred > 0 { OneStep(d'.(deferred := d'.deferred - 1), script); }
  }

  /** After `stop()` or `destroy()` no callback, deferred, timer or reader, makes a step any
      more, in any run until the backend is started again. */
  lemma {:induction false} QuietAfterTeardown(d: Driver, evs: seq<Event>)
    requires AtRest(d) && !Driving(d)
    requires forall ev :: ev in evs ==> !ev.Starting?
    ensures !Driving(Run(d, evs)) && Run(d, evs).driven == d.driven
    decreases |evs|
  {
    if evs != [] {
      assert evs[0] in evs && forall ev :: ev in evs[1..] ==> ev in evs;
      TurnKeeps(d, evs[0]);
      QuietAfterTeardown(Turn(d, evs[0]), evs[1..]);
    }
  }

  /** In particular after a stop or a destroy at any point of any run. */
  lemma NoStepAfterStopOrDestroy(before: seq<Event>, teardown: Event, after: seq<Event>)
    requires teardown.Stopping? || teardown.Destroying?
    requires forall ev :: ev in after ==> !ev.Starting?
    ensures var d := Run(NEW, before); Run(Turn(d, teardown), after).driven == d.driven
  {
    RunKeeps(NEW, before);
    TurnKeeps(Run(NEW, before), teardown);
    QuietAfterTeardown(Turn(Run(NEW, before), teardown), after);
  }

  /** A start is refused exactly while `_bus` is not None. After a failed create that is for
      good: the NULL pointer survives even `destroy()`, and the backend never runs. */
  lemma {:induction false} FailedCreateIsForGood(d: Driver, evs: seq<Event>)
    requires AtRest(d) && d.handle == NullBus
    ensures Run(d, evs).handle == NullBus && Run(d, evs).driven == d.driven
    decreases |evs|
  {
    if evs != [] {
      TurnKeeps(d, evs[0]);
      FailedCreateIsForGood(Turn(d, evs[0]), evs[1..]);
    }
  }

  /** The backend is created, started and not destroyed since. */
  predicate Owns(owned: bool, ev: Event) {
    match ev
    case Starting(created, started, _) => owned || (created && started)
    case Destroying => false
    case _ => owned
  }

  /** In the events, read one by one, a create fails that is tried. `owned` says that the
      backend has a live instance at the beginning, when nothing is created. */
  predicate CreateFails(owned: bool, evs: seq<Event>)
    decreases |evs|
  {
    evs != []
    && ((!owned && evs[0].Starting? && !evs[0].created) || CreateFails(Owns(owned, evs[0]), evs[1..]))
  }

  lemma {:induction false} NullExactlyIfCreateFails(d: Driver, evs: seq<Event>)
    requires AtRest(d) && d.handle != NullBus
    ensures Run(d, evs).handle == NullBus <==> CreateFails(d.handle == Live, evs)
    decreases |evs|
  {
    if evs != [] {
      var d1 := Turn(d, evs[0]);
      TurnKeeps(d, evs[0]);
      HandleTurn(d, evs[0]);
      if d1.handle == NullBus {
        FailedCreateIsForGood(d1, evs[1..]);
      } else {
        NullExactlyIfCreateFails(d1, evs[1..]);
      }
    }
  }

  lemma HandleTurn(d: Driver, ev: Event)
    requires AtRest(d) && d.handle != NullBus
    ensures var d1 := Turn(d, ev);
            if d.handle == NoBus && ev.Starting? && !ev.created then d1.handle == NullBus
            else d1.handle == if Owns(d.handle == Live, ev) then Live else NoBus
  {
    match ev
    case TimerFires(timer, script) => OneStep(d.(timers := d.timers - {timer}, pollTimer := None), script);
    case ReaderFires(_, script) => OneStep(d, script);
    case DeferredRuns(script) =>
      if d.deferred > 0 { OneStep(d.(deferred := d.deferred - 1), script); }
    case _ =>
  }

  /** A destroyed backend can be started again if and only if no create had failed. */
  lemma RestartAfterDestroy(before: seq<Event>, fd: Option<nat>)
    ensures Driving(Start(Destroy(Run(NEW, before)), true, true, fd)) <==> !CreateFails(false, before)
  {
    RunKeeps(NEW, before);
    TurnKeeps(Run(NEW, before), Destroying);
    NullExactlyIfCreateFails(NEW, before);
  }

  /** A run in which one had. */
  lemma FailedCreateBlocksRestart(fd: Option<nat>)
    ensures !Driving(Run(NEW, [Starting(false, true, fd), Destroying, Starting(true, true, fd)]))
  {
    var evs := [Starting(false, true, fd), Destroying, Starting(true, true, fd)];
    RunKeeps(NEW, evs);
    NullExactlyIfCreateFails(NEW, evs);
    assert CreateFails(false, evs);
  }
}
