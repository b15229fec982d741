/** Concrete runs, each from the initial state, in which a promise that a reader might
    expect is not kept. */
module Witnesses {
  import opened Protocol
  import opened Table
  import opened TableInvariant
  import opened Lifecycle
  import opened Session
  import opened SessionInvariant
  import opened Shutdown
  import opened LostRequests

  lemma Extend(evs: seq<Event>, ev: Event, w: World, w': World)
    requires w.state.table <= w.state.store.Keys
    requires Run(START, evs) == w && Step(w, ev) == w'
    ensures Run(START, evs + [ev]) == w'
  {
    RunConcat(START, evs, [ev]);
    assert Run(w', []) == w';
  }

  const UP := Backend(Running, false, false, true, true, Scheduled, true, 0)
  const OVERTAKEN := UP.(stopping := true, stdin := false)
  const BUSY := State(map["r" := Fresh(FutureMode, 0)], {"r"}, [])
  const ASK := Open("r", FutureMode, 1000, true)

  function Asked(outcome: Option<Outcome>): map<Id, Call> {
    map["r" := Call(FutureMode, 1000, outcome)]
  }

  // ---- Runs that bring the backend up ----

  /** `start()`, and then a first request. */
  lemma StartRaises()
    ensures Run(START, [BeginStart(true), EndStart(true)]) == START.(backend := UP)
  {
    var w1 := START.(backend := Backend(Starting, true, false, true, true, NoReader, true, 0));
    Extend([], BeginStart(true), START, w1);
    assert [] + [BeginStart(true)] == [BeginStart(true)];
    Extend([BeginStart(true)], EndStart(true), w1, START.(backend := UP));
    assert [BeginStart(true)] + [EndStart(true)] == [BeginStart(true), EndStart(true)];
  }

  lemma AskStep(b: Backend)
    requires b.phase == Running && b.stdin
    ensures Step(START.(backend := b), ASK) == World(BUSY, Asked(None), b, true, 0)
  {
    OneOp(EMPTY, Add("r", FutureMode));
  }

  lemma AskedOnce()
    ensures Run(START, [BeginStart(true), EndStart(true), ASK]) == World(BUSY, Asked(None), UP, true, 0)
  {
    StartRaises();
    AskStep(UP);
    Extend([BeginStart(true), EndStart(true)], ASK, START.(backend := UP), World(BUSY, Asked(None), UP, true, 0));
    assert [BeginStart(true), EndStart(true)] + [ASK] == [BeginStart(true), EndStart(true), ASK];
  }

  /** Overtaken by a `stop()` that is still waiting, `start()` brings the backend up too. */
  lemma OverlapRaises()
    ensures Run(START, [BeginStart(true), BeginStop, EndStart(true)]) == START.(backend := OVERTAKEN)
  {
    var b1 := Backend(Starting, true, false, true, true, NoReader, true, 0);
    var w1 := START.(backend := b1);
    var w2 := START.(backend := b1.(phase := Stopping, stopping := true, stdin := false));
    OneOp(EMPTY, FailAll(SHUTDOWN));
    assert Apply(EMPTY, FailAll(SHUTDOWN)) == EMPTY;
    Extend([], BeginStart(true), START, w1);
    assert [] + [BeginStart(true)] == [BeginStart(true)];
    Extend([BeginStart(true)], BeginStop, w1, w2);
    Extend([BeginStart(true)] + [BeginStop], EndStart(true), w2, START.(backend := OVERTAKEN));
    assert [BeginStart(true)] + [BeginStop] + [EndStart(true)]
           == [BeginStart(true), BeginStop, EndStart(true)];
  }

  // ---- Requests ----

  /** `destroy()` of a running bus leaves its requests in the table of a dead client. */
  lemma DestroyBreaksGate()
    ensures var w := Run(START, [BeginStart(true), EndStart(true), ASK, Event.Destroy]);
            !Gate(w) && !w.attached && "r" in w.state.table
  {
    var evs, w3 := [BeginStart(true), EndStart(true), ASK], World(BUSY, Asked(None), UP, true, 0);
    AskedOnce();
    var w4 := World(BUSY, Asked(None), Lifecycle.Destroy(UP), false, 0);
    Extend(evs, Event.Destroy, w3, w4);
    assert evs + [Event.Destroy] == [BeginStart(true), EndStart(true), ASK, Event.Destroy];
  }

  /** A backend that came up behind a `stop()` says that it is RUNNING, but a request made
      then raises the exception of a closed file and leaves no entry. */
  lemma OverlapRefusesRequests()
    ensures var w := Run(START, [BeginStart(true), BeginStop, EndStart(true), ASK]);
            && w.backend.phase == Running && w.state.table == {}
            && w.calls == Asked(Some(Raised(CLOSED)))
  {
    var evs, w3 := [BeginStart(true), BeginStop, EndStart(true)], START.(backend := OVERTAKEN);
    OverlapRaises();
    TwoOps(EMPTY, Add("r", FutureMode), Drop("r"));
    Extend(evs, ASK, w3, Step(w3, ASK));
    assert evs + [ASK] == [BeginStart(true), BeginStop, EndStart(true), ASK];
  }

  /** A cancelled `request()` keeps its entry in the table. */
  lemma CancelledKeepsEntry()
    ensures var w := Run(START, [BeginStart(true), EndStart(true), ASK, Leave("r")]);
            w.calls == Asked(Some(Left)) && "r" in w.state.table
  {
    var evs, w3 := [BeginStart(true), EndStart(true), ASK], World(BUSY, Asked(None), UP, true, 0);
    AskedOnce();
    OneOp(BUSY, Cancel("r"));
    Extend(evs, Leave("r"), w3, Step(w3, Leave("r")));
    assert evs + [Leave("r")] == [BeginStart(true), EndStart(true), ASK, Leave("r")];
  }

  /** The response whose `error` member is a string. */
  const BROKEN := Data(map["id" := Text("r"), "error" := Text("x")])

  lemma BrokenStep(b: Backend)
    requires b.reader == Looping && b.handlers && b.phase == Running
    ensures Step(World(BUSY, Asked(None), b, true, 0), Line(BROKEN))
            == World(BUSY.(table := {}), Asked(None), b, true, 0)
  {
    OneOp(BUSY, Deliver(BROKEN));
    assert Classify(BROKEN) == Respond(Some("r"), Broken);
    assert BUSY.store["r" := BUSY.store["r"]] == BUSY.store;
  }

  /** A response with an `error` member that is not an object loses its request. */
  lemma BrokenResponseLoses()
    ensures Lost(Run(START, [BeginStart(true), EndStart(true), ASK, RunReader, Line(BROKEN)]), "r")
  {
    var evs := [BeginStart(true), EndStart(true), ASK];
    var w3 := World(BUSY, Asked(None), UP, true, 0);
    var w4 := w3.(backend := UP.(reader := Looping));
    AskedOnce();
    Extend(evs, RunReader, w3, w4);
    BrokenStep(w4.backend);
    Extend(evs + [RunReader], Line(BROKEN), w4, w4.(state := BUSY.(table := {})));
    assert evs + [RunReader] + [Line(BROKEN)]
           == [BeginStart(true), EndStart(true), ASK, RunReader, Line(BROKEN)];
  }

  // ---- The close callback ----

  /** A backend that came up behind a `stop()` reports a crash. */
  lemma OverlapFiresCallback()
    ensures Run(START, [BeginStart(true), BeginStop, EndStart(true), RunReader, EndOfFile]).backend.crashes == 1
  {
    var evs := [BeginStart(true), BeginStop, EndStart(true)];
    var w4 := START.(backend := OVERTAKEN.(reader := Looping));
    OverlapRaises();
    Extend(evs, RunReader, START.(backend := OVERTAKEN), w4);
    Extend(evs + [RunReader], EndOfFile, w4, Step(w4, EndOfFile));
    assert evs + [RunReader] + [EndOfFile]
           == [BeginStart(true), BeginStop, EndStart(true), RunReader, EndOfFile];
  }

  /** A `stop()` of a bus that has not been started does nothing to its backend, which can
      be started afterwards and reports its crash then. */
  lemma StopBeforeStartFiresCallback()
    ensures Run(START, [BeginStop, BeginStart(true), EndStart(true), RunReader, EndOfFile]).backend.crashes == 1
  {
    var rest := [BeginStart(true)] + ([EndStart(true)] + ([RunReader] + ([EndOfFile] + [])));
    OneOp(EMPTY, FailAll(SHUTDOWN));
    assert Apply(EMPTY, FailAll(SHUTDOWN)) == EMPTY;
    assert Step(START, BeginStop) == START;
    RunCons(START, BeginStop, rest);
    RunCons(START, BeginStart(true), [EndStart(true)] + ([RunReader] + ([EndOfFile] + [])));
    StartedCrashes(Step(START, BeginStart(true)));
    assert [BeginStop] + rest == [BeginStop, BeginStart(true), EndStart(true), RunReader, EndOfFile];
  }
}
