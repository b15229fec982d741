/** The native backend's object, each method proved against the driver value. */
module Native {
  import opened Protocol
  import opened NativeDriver

  /** Python's `int()` on a float. */
  function Truncate(x: real): int {
    if x >= 0.0 then x.Floor else -((-x).Floor)
  }

  /** It cuts off towards zero. */
  lemma TruncateMeaning(x: real, n: int)
    ensures Truncate(x) == n <==>
              if x >= 0.0 then n >= 0 && n as real <= x < n as real + 1.0
              else n <= 0 && n as real - 1.0 < x <= n as real
  {
  }

  /** `readers`, `timers`, `nextTimer` and `deferred` belong to the event loop. Each method
      that is called between callbacks, and each firing of a callback, is a turn of the
      driver value and keeps the object at rest; so all that is proved about runs of the
      driver holds of the object. */
  class NativeBackend {
    var bus: Handle
    var loop: bool
    var pollFd: Option<nat>
    var pollTimer: Option<nat>
    var stopping: bool
    var stepping: bool
    var readers: set<nat>
    var timers: set<nat>
    var nextTimer: nat
    var deferred: nat
    ghost var depth: int
    ghost var deepest: int
    ghost var driven: nat
    ghost var drained: nat

    ghost function View(): Driver
      reads this
    {
      Driver(bus, loop, pollFd, pollTimer, stopping, stepping, readers, timers, nextTimer, deferred,
             depth, deepest, driven, drained)
    }

    ghost predicate Valid()
      reads this
    {
      AtRest(View())
    }

    constructor ()
      ensures Valid() && View() == NEW
    {
      bus, loop, pollFd, pollTimer, stopping, stepping := NoBus, false, None, None, false, false;
      readers, timers, nextTimer, deferred := {}, {}, 0, 0;
      depth, deepest, driven, drained := 0, 0, 0, 0;
    }

    /** `send`, which handlers may call inside a step as well. */
    method Send(accepted: bool) returns (ok: bool)
      modifies this`deferred
      ensures old(Valid()) ==> Valid()
      ensures View() == NativeDriver.Send(old(View()), accepted)
      ensures ok == (bus == Live && accepted)
    {
      if bus != Live {
        return false;
      }
      if accepted {
        if loop && !stopping {
          deferred := deferred + 1;
        }
        return true;
      }
      ok := false;
    }

    /** `_step_nonblocking`; the library step runs the handlers of `script`. */
    method StepNonblocking(script: seq<Act>)
      modifies this
      ensures View() == NativeDriver.StepNonblocking(old(View()), script)
      decreases script, 1
    {
      if stepping || stopping {
        return;
      }
      if bus != Live {
        return;
      }
      stepping := true;
      depth, deepest, driven := depth + 1, Max(deepest, depth + 1), driven + 1;
      Perform(script);
      depth := depth - 1;
      stepping := false;
    }

    method Perform(script: seq<Act>)
      modifies this
      ensures View() == NativeDriver.Perform(old(View()), script)
      decreases script, 0
    {
      if script == [] {
        return;
      }
      match script[0] {
        case DoSend(accepted) => var _ := Send(accepted);
        case Reenter(inner) => StepNonblocking(inner);
      }
      Perform(script[1..]);
    }

    method SchedulePollTimer()
      modifies this`timers, this`pollTimer, this`nextTimer
      ensures View() == NativeDriver.SchedulePollTimer(old(View()))
    {
      if stopping || !loop {
        return;
      }
      timers := timers + {nextTimer};
      pollTimer := Some(nextTimer);
      nextTimer := nextTimer + 1;
    }

    method OnPollTimer(script: seq<Act>)
      modifies this
      ensures View() == NativeDriver.OnPollTimer(old(View()), script)
    {
      pollTimer := None;
      if stopping {
        return;
      }
      StepNonblocking(script);
      SchedulePollTimer();
    }

    method OnPollReady(script: seq<Act>)
      modifies this
      ensures View() == NativeDriver.OnPollReady(old(View()), script)
    {
      if stopping {
        return;
      }
      StepNonblocking(script);
    }

    // ---- The event loop runs a callback ----

    method FireTimer(timer: nat, script: seq<Act>)
      requires Valid() && timer in timers
      modifies this
      ensures Valid() && View() == Turn(old(View()), TimerFires(timer, script))
    {
      TurnKeeps(View(), TimerFires(timer, script));
      timers := timers - {timer};
      OnPollTimer(script);
    }

    method FireReader(fd: nat, script: seq<Act>)
      requires Valid() && fd in readers
      modifies this
      ensures Valid() && View() == Turn(old(View()), ReaderFires(fd, script))
    {
      TurnKeeps(View(), ReaderFires(fd, script));
      OnPollReady(script);
    }

    method RunDeferred(script: seq<Act>)
      requires Valid() && deferred > 0
      modifies this
      ensures Valid() && View() == Turn(old(View()), DeferredRuns(script))
    {
      TurnKeeps(View(), DeferredRuns(script));
      deferred := deferred - 1;
      StepNonblocking(script);
    }

    // ---- Calls ----

    /** `start`; `created` and `started` are the answers of the library, `fd` its poll
        descriptor if the loop can watch it. */
    method Start(created: bool, started: bool, fd: Option<nat>) returns (ok: bool)
      requires Valid()
      modifies this
      ensures Valid() && View() == Turn(old(View()), Starting(created, started, fd))
      ensures ok == (old(bus) == NoBus && created && started)
    {
      TurnKeeps(View(), Starting(created, started, fd));
      if bus != NoBus {
        return false;
      }
      bus := if created then Live else NullBus;
      if bus == NullBus {
        return false;
      }
      if !started {
        bus := NoBus;
        return false;
      }
      loop := true;
      stopping := false;
      if fd.Some? {
        pollFd := fd;
        readers := readers + {fd.value};
        pollTimer := None;
      } else {
        pollFd := None;
        SchedulePollTimer();
      }
      ok := true;
    }

    /** The loop that drains pending I/O after a stop: it looks at the state before every
        step, makes no step once it has seen STOPPED, and never more than `maxSteps`. */
    method Drain(maxSteps: int, stopped: nat -> bool) returns (steps: nat, exhausted: bool)
      modifies this`drained
      ensures drained == old(drained) + steps
      ensures steps <= Max(0, maxSteps) && forall k :: 0 <= k < steps ==> !stopped(k)
      ensures exhausted <==> steps == Max(0, maxSteps)
      ensures !exhausted ==> stopped(steps)
    {
      steps := 0;
      while steps < maxSteps
        invariant steps <= Max(0, maxSteps)
        invariant drained == old(drained) + steps
        invariant forall k :: 0 <= k < steps ==> !stopped(k)
      {
        if stopped(steps) {
          return steps, false;
        }
        drained := drained + 1;
        steps := steps + 1;
      }
      exhausted := true;
    }

    method RemoveReader()
      modifies this`readers, this`pollFd
      ensures View() == NativeDriver.RemoveReader(old(View()))
    {
      if loop && pollFd.Some? {
        readers := readers - {pollFd.value};
        pollFd := None;
      }
    }

    method CancelTimer()
      modifies this`timers, this`pollTimer
      ensures View() == NativeDriver.CancelTimer(old(View()))
    {
      if pollTimer.Some? {
        timers := timers - {pollTimer.value};
        pollTimer := None;
      }
    }

    /** `stop`; the library reports STOPPED before its k-th further step if `stopped(k)`. */
    method Stop(timeoutSec: real, stopped: nat -> bool) returns (ghost steps: nat)
      requires Valid()
      modifies this
      ensures Valid() && View() == Turn(old(View()), Stopping(steps))
      ensures steps <= Max(0, Truncate(timeoutSec * 1000.0))
      ensures old(bus) == Live ==> steps == Max(0, Truncate(timeoutSec * 1000.0)) || stopped(steps)
      ensures forall k :: 0 <= k < steps ==> !stopped(k)
    {
      steps := 0;
      if bus != Live {
        return;
      }
      stopping := true;
      RemoveReader();
      CancelTimer();
      var made, _ := Drain(Truncate(timeoutSec * 1000.0), stopped);
      steps := made;
      TurnKeeps(old(View()), Stopping(steps));
    }

    method Destroy()
      requires Valid()
      modifies this
      ensures Valid() && View() == Turn(old(View()), Destroying)
    {
      TurnKeeps(View(), Destroying);
      RemoveReader();
      CancelTimer();
      if bus == Live {
        bus := NoBus;
      }
      pollFd := None;
      loop := false;
      stopping := false;
      stepping := false;
    }
  }
}
