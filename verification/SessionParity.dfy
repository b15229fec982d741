/** What a call returns and what a stream yields is determined by what arrives for all
    requests: the same in both modes, whatever the callers do and whenever they run. */
module SessionParity {
  import opened Protocol
  import opened Table
  import opened TableInvariant
  import opened TraceRefinement
  import opened TraceTheorems
  import opened Session
  import opened SessionInvariant
  import opened SessionTheorems

  /** Messages, and failures of every request: the operations that are no caller's own. */
  predicate IsArrival(op: Op) {
    op.Deliver? || op.FailAll?
  }

  function Arrived(ops: seq<Op>): seq<Op> {
    if ops == [] then [] else (if IsArrival(ops[0]) then [ops[0]] else []) + Arrived(ops[1..])
  }

  /** Until a request is dropped by its caller, what it receives depends on the arrivals. */
  lemma {:induction false} DeliveredByArrivals(ops: seq<Op>, id: Id)
    requires FirstEnd(ops, id) < |ops| ==> !ops[FirstEnd(ops, id)].Drop?
    ensures var a, k := Arrived(ops), FirstEnd(ops, id);
            var j := FirstEnd(a, id);
            && (j < |a| <==> k < |ops|) && (k < |ops| ==> a[j] == ops[k])
            && TraceTexts(a[..j]) == TraceTexts(ops[..k])
    decreases |ops|
  {
    var a := Arrived(ops);
    if ops == [] || Ends(ops[0], id) {
      assert ops != [] ==> a[0] == ops[0];
    } else {
      FirstEndStep(ops, id);
      DeliveredByArrivals(ops[1..], id);
      if IsArrival(ops[0]) {
        assert a[1..] == Arrived(ops[1..]);
        FirstEndStep(a, id);
      } else {
        assert a == Arrived(ops[1..]);
      }
    }
  }

  /** The outcome that a last item stands for, if it is a final one. */
  function LastOutcome(items: seq<Item>): Option<Outcome> {
    if items == [] then None else OutcomeOf(items[|items| - 1])
  }

  lemma DeliveredShape(ops: seq<Op>, id: Id)
    ensures var d, texts := Delivered(ops, id), TraceTexts(ops[..FirstEnd(ops, id)]);
            && Texts(d) == texts
            && (LastOutcome(d).None? ==> d == Chunks(texts))
            && (LastOutcome(d).Some? ==>
                  d != [] && d == Chunks(texts) + [d[|d| - 1]] && Final(d[|d| - 1]))
            && (FirstEnd(ops, id) < |ops| && ops[FirstEnd(ops, id)].Drop? ==> LastOutcome(d).None?)
  {
    var k := FirstEnd(ops, id);
    var texts := TraceTexts(ops[..k]);
    var end := if k < |ops| then Ending(ops[k], texts) else [];
    TextsOfChunks(texts);
    TextsConcat(Chunks(texts), end);
    assert Delivered(ops, id) == Chunks(texts) + end && |end| <= 1;
    assert texts + [] == texts && Chunks(texts) + [] == Chunks(texts);
    assert end != [] ==> end == [end[0]] && Final(end[0]) && Texts(end) == [];
  }

  // ---- Calls that are not disturbed ----

  /** The call still waits, or what it received has ended it: it has not timed out, was not
      left, and was sent. */
  predicate Undisturbed(c: Call) {
    match c.outcome
    case None => true
    case Some(Returned(_)) => true
    case Some(Raised(exc)) => !Unsendable(exc)
    case _ => false
  }

  /** A call that still waits has not been dropped by its caller. */
  lemma {:induction false} NotDroppedWhileActive(w: World, evs: seq<Event>, id: Id)
    requires SessionInv(w) && Active(w, id)
    requires id in Run(w, evs).calls && Run(w, evs).calls[id].outcome.None?
    ensures Drop(id) !in Trace(w, evs)
    decreases |evs|
  {
    if evs != [] {
      var w1 := Step(w, evs[0]);
      SessionStep(w, evs[0]);
      StaysActive(w, evs[0], id);
      if w1.calls[id].outcome.Some? {
        OutcomeStable(w1, evs[1..], id);
      } else {
        NotDroppedWhileActive(w1, evs[1..], id);
      }
    }
  }

  lemma StaysActive(w: World, ev: Event, id: Id)
    requires SessionInv(w) && Active(w, id)
    ensures id in NextCalls(w, ev)
    ensures NextCalls(w, ev)[id].outcome.None? ==> Drop(id) !in Ops(w, ev)
  {
    if ev != Wake(id) && ev != Leave(id) {
      OpsNotOwn(w, ev, id);
    }
  }

  /** The session in which the request is opened and sent. */
  function Asked(before: seq<Event>, id: Id, mode: Mode, timeout: int): (w: World)
    ensures w.state.table <= w.state.store.Keys
  {
    Step(Run(START, before), Open(id, mode, timeout, true))
  }

  predicate CanAsk(before: seq<Event>, id: Id, mode: Mode) {
    Opens(Run(START, before), id, mode) && Run(START, before).backend.stdin
  }

  /** What arrives for the request after that. */
  function ArrivedFor(before: seq<Event>, id: Id, mode: Mode, timeout: int, after: seq<Event>): seq<Op> {
    Arrived(Trace(Asked(before, id, mode, timeout), after))
  }

  lemma AskedActive(before: seq<Event>, id: Id, mode: Mode, timeout: int)
    requires CanAsk(before, id, mode)
    ensures var w := Asked(before, id, mode, timeout);
            SessionInv(w) && Active(w, id) && w.calls[id].mode == mode
  {
    StartInv();
    SessionRun(START, before);
    SessionStep(Run(START, before), Open(id, mode, timeout, true));
  }

  lemma {:induction false} ModeKept(w: World, evs: seq<Event>, id: Id)
    requires w.state.table <= w.state.store.Keys && id in w.calls
    ensures id in Run(w, evs).calls && Run(w, evs).calls[id].mode == w.calls[id].mode
    decreases |evs|
  {
    if evs != [] {
      ModeKept(Step(w, evs[0]), evs[1..], id);
    }
  }

  /** What the request has received, and how its call has ended, is what `items` say. */
  ghost predicate Received(e: Entry, outcome: Option<Outcome>, items: seq<Item>) {
    && e.chunks == Texts(items)
    && (e.queue.Some? ==> History(e) == items && (outcome.Some? ==> e.taken == items))
    && (e.future.Some? ==>
          e.future.value == if LastOutcome(items).None? then Waiting else CellOf(items[|items| - 1]))
    && (outcome.Some? ==> outcome == LastOutcome(items))
  }

  predicate DroppedFirst(ops: seq<Op>, id: Id) {
    FirstEnd(ops, id) < |ops| && ops[FirstEnd(ops, id)].Drop?
  }

  lemma StreamAnswer(e: Entry, c: Call, now: int, pending: bool, ops: seq<Op>, id: Id)
    requires CallOk(e, pending, c, now) && WellShaped(e) && Undisturbed(c) && e.queue.Some?
    requires e.chunks == TraceTexts(ops[..FirstEnd(ops, id)]) && History(e) == Delivered(ops, id)
    requires c.outcome.None? ==> !DroppedFirst(ops, id)
    ensures !DroppedFirst(ops, id) && Received(e, c.outcome, Delivered(ops, id))
  {
    DeliveredShape(ops, id);
    if c.outcome.Some? {
      TakenAll(e);
      assert History(e) == e.taken;
    }
  }

  lemma FutureAnswer(e: Entry, c: Call, now: int, pending: bool, ops: seq<Op>, id: Id)
    requires CallOk(e, pending, c, now) && WellShaped(e) && Undisturbed(c) && e.future.Some?
    requires e.chunks == TraceTexts(ops[..FirstEnd(ops, id)])
    requires e.future == Some(CellFate(ops, id, e.chunks))
    requires c.outcome.None? ==> !DroppedFirst(ops, id)
    ensures !DroppedFirst(ops, id) && Received(e, c.outcome, Delivered(ops, id))
  {
    DeliveredShape(ops, id);
    var k := FirstEnd(ops, id);
    if k < |ops| && Ending(ops[k], e.chunks) != [] {
      assert Delivered(ops, id)[|Delivered(ops, id)| - 1] == Ending(ops[k], e.chunks)[0];
    } else {
      assert Delivered(ops, id) == Chunks(e.chunks);
    }
  }

  /** What is known of the call in any case. */
  lemma Reached(before: seq<Event>, id: Id, mode: Mode, timeout: int, after: seq<Event>)
    requires CanAsk(before, id, mode)
    ensures var z := Run(Asked(before, id, mode, timeout), after);
            && id in z.calls && id in z.state.store && WellShaped(z.state.store[id])
            && (mode.StreamMode? <==> z.state.store[id].queue.Some?)
            && CallOk(z.state.store[id], id in z.state.table, z.calls[id], z.now)
  {
    var w := Asked(before, id, mode, timeout);
    AskedActive(before, id, mode, timeout);
    SessionRun(w, after);
    ModeKept(w, after, id);
    assert CallInv(Run(w, after), id) && EntryInv(Run(w, after).state, id);
  }

  /** The fate of the call, if it is not disturbed. */
  lemma Answer(before: seq<Event>, id: Id, mode: Mode, timeout: int, after: seq<Event>)
    requires CanAsk(before, id, mode)
    ensures var z, ops := Run(Asked(before, id, mode, timeout), after), Trace(Asked(before, id, mode, timeout), after);
            && id in z.calls && id in z.state.store && (mode.StreamMode? <==> z.state.store[id].queue.Some?)
            && (Undisturbed(z.calls[id]) ==>
                  !DroppedFirst(ops, id) && Received(z.state.store[id], z.calls[id].outcome, Delivered(ops, id)))
  {
    var w := Asked(before, id, mode, timeout);
    var ops, z := Trace(w, after), Run(w, after);
    Reached(before, id, mode, timeout, after);
    if Undisturbed(z.calls[id]) {
      SessionFate(before, id, mode, timeout, after);
      if z.calls[id].outcome.None? {
        AskedActive(before, id, mode, timeout);
        NotDroppedWhileActive(w, after, id);
      }
      if mode.StreamMode? { StreamAnswer(z.state.store[id], z.calls[id], z.now, id in z.state.table, ops, id); }
      else { FutureAnswer(z.state.store[id], z.calls[id], z.now, id in z.state.table, ops, id); }
    }
  }

  /** In any session, what an undisturbed call receives, and how it ends, is a function of
      the arrivals alone. */
  lemma AnswerOfArrivals(before: seq<Event>, id: Id, mode: Mode, timeout: int, after: seq<Event>)
    requires CanAsk(before, id, mode)
    ensures var z := Run(Asked(before, id, mode, timeout), after);
            && id in z.calls && id in z.state.store
            && (mode.StreamMode? <==> z.state.store[id].queue.Some?)
            && (Undisturbed(z.calls[id]) ==>
                  Received(z.state.store[id], z.calls[id].outcome,
                           Delivered(ArrivedFor(before, id, mode, timeout, after), id)))
  {
    Answer(before, id, mode, timeout, after);
    if Undisturbed(Run(Asked(before, id, mode, timeout), after).calls[id]) {
      DeliveredByArrivals(Trace(Asked(before, id, mode, timeout), after), id);
    }
  }

  // ---- Parity ----

  /** A result that ends a request with chunks has their text, if it is an object. */
  ghost predicate HasText(outcome: Option<Outcome>, texts: seq<string>) {
    outcome.Some? && outcome.value.Returned? && outcome.value.value.Object? && texts != [] ==>
      var fields := outcome.value.value.fields;
      "text" in fields && fields["text"] == Text(Join(texts))
  }

  lemma DeliveredText(ops: seq<Op>, id: Id)
    ensures HasText(LastOutcome(Delivered(ops, id)), Texts(Delivered(ops, id)))
  {
    var k := FirstEnd(ops, id);
    var texts := TraceTexts(ops[..k]);
    DeliveredShape(ops, id);
    TraceTextsNonEmpty(ops[..k]);
    JoinNonEmpty(texts);
    if k < |ops| && Ending(ops[k], texts) != [] {
      assert Delivered(ops, id)[|Delivered(ops, id)| - 1] == Ending(ops[k], texts)[0];
    }
  }

  /** In particular, in any session, the chunks that a stream has yielded when it ends joined
      together are the text of its result. */
  lemma AnswerHasText(before: seq<Event>, id: Id, mode: Mode, timeout: int, after: seq<Event>)
    requires CanAsk(before, id, mode)
    ensures var z := Run(Asked(before, id, mode, timeout), after);
            && id in z.calls && id in z.state.store
            && (Undisturbed(z.calls[id]) ==>
                  && HasText(z.calls[id].outcome, z.state.store[id].chunks)
                  && (mode.StreamMode? && z.calls[id].outcome.Some? ==>
                        Texts(z.state.store[id].taken) == z.state.store[id].chunks))
  {
    Answer(before, id, mode, timeout, after);
    DeliveredText(Trace(Asked(before, id, mode, timeout), after), id);
  }

  /** The future `f` of a call that has `returned` and the stream `s` of one that has `ended`
      say the same: the same chunks, and the same outcome if both have one. If only one has,
      the same waits for the other. The stream has given exactly the chunks before, and a
      result has their text. */
  ghost predicate Agree(f: Entry, returned: Option<Outcome>, s: Entry, ended: Option<Outcome>) {
    && s.chunks == f.chunks
    && (returned.Some? && ended.Some? ==> returned == ended)
    && (returned.Some? ==> LastOutcome(History(s)) == returned && HasText(returned, f.chunks))
    && (ended.Some? ==>
          && Texts(s.taken) == s.chunks && LastOutcome(s.taken) == ended && HasText(ended, s.chunks)
          && LastOutcome(Owed(f)) == ended)
  }

  lemma BothReceived(f: Entry, returned: Option<Outcome>, s: Entry, ended: Option<Outcome>, ops: seq<Op>, id: Id)
    requires f.queue.None? && f.future.Some? && s.queue.Some?
    requires Received(f, returned, Delivered(ops, id)) && Received(s, ended, Delivered(ops, id))
    ensures Agree(f, returned, s, ended)
  {
    DeliveredShape(ops, id);
    DeliveredText(ops, id);
  }

  /** One `request()` and one `stream_request()`, in any two sessions in which the same
      arrives after they are sent, agree, however differently they are timed and whatever
      other calls there are - unless one of them times out or is left. */
  lemma RequestAndStreamAgree(
      beforeF: seq<Event>, timeoutF: int, afterF: seq<Event>,
      beforeS: seq<Event>, timeoutS: int, afterS: seq<Event>, id: Id)
    requires CanAsk(beforeF, id, FutureMode) && CanAsk(beforeS, id, StreamMode)
    ensures var f := Run(Asked(beforeF, id, FutureMode, timeoutF), afterF);
            var s := Run(Asked(beforeS, id, StreamMode, timeoutS), afterS);
            && id in f.calls && id in s.calls && id in f.state.store && id in s.state.store
            && (Undisturbed(f.calls[id]) && Undisturbed(s.calls[id])
                && ArrivedFor(beforeF, id, FutureMode, timeoutF, afterF)
                   == ArrivedFor(beforeS, id, StreamMode, timeoutS, afterS) ==>
                  Agree(f.state.store[id], f.calls[id].outcome, s.state.store[id], s.calls[id].outcome))
  {
    var f := Run(Asked(beforeF, id, FutureMode, timeoutF), afterF);
    var s := Run(Asked(beforeS, id, StreamMode, timeoutS), afterS);
    var arrived := ArrivedFor(beforeF, id, FutureMode, timeoutF, afterF);
    AnswerOfArrivals(beforeF, id, FutureMode, timeoutF, afterF);
    AnswerOfArrivals(beforeS, id, StreamMode, timeoutS, afterS);
    Reached(beforeF, id, FutureMode, timeoutF, afterF);
    if Undisturbed(f.calls[id]) && Undisturbed(s.calls[id])
       && arrived == ArrivedFor(beforeS, id, StreamMode, timeoutS, afterS) {
      BothReceived(f.state.store[id], f.calls[id].outcome, s.state.store[id], s.calls[id].outcome, arrived, id);
    }
  }
}
