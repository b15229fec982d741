/** The thread-marshalling shim of the client: what a foreign thread submits is queued for
    the loop, what comes on the loop (or before there is one) is handled at once. */
module Marshalling {
  import opened Sequences

  /** Messages are numbered by submission; `handled` and `scheduled` are in order. */
  datatype Shim = Shim(captured: bool, submitted: nat, scheduled: seq<nat>, handled: seq<nat>)

  datatype Event = Capture | Submit(onLoop: bool) | LoopRuns

  const NEW_SHIM := Shim(false, 0, [], [])

  predicate Inline(m: Shim, ev: Event) {
    ev.Submit? && (!m.captured || ev.onLoop)
  }

  function Step(m: Shim, ev: Event): Shim {
    match ev
    case Capture => m.(captured := true)
    case Submit(_) =>
      var m' := m.(submitted := m.submitted + 1);
      if Inline(m, ev) then m'.(handled := m.handled + [m.submitted])
      else m'.(scheduled := m.scheduled + [m.submitted])
    case LoopRuns =>
      if m.scheduled == [] then m
      else m.(scheduled := m.scheduled[1..], handled := m.handled + [m.scheduled[0]])
  }

  function Run(m: Shim, evs: seq<Event>): Shim
    decreases |evs|
  {
    if evs == [] then m else Run(Step(m, evs[0]), evs[1..])
  }

  function Upto(n: nat): (numbers: seq<nat>)
    ensures |numbers| == n
  {
    seq(n, i requires 0 <= i < n => i)
  }

  /** The handled messages are the first ones submitted, in order. */
  predicate InOrder(m: Shim) {
    |m.handled| <= m.submitted && m.handled == Upto(|m.handled|)
  }

  /** Handled and scheduled messages together are all that were submitted, in order. */
  predicate Ordered(m: Shim) {
    m.handled + m.scheduled == Upto(m.submitted)
  }

  /** A message is handled at once although others are still scheduled. */
  predicate Overtakes(m: Shim, ev: Event) {
    Inline(m, ev) && m.scheduled != []
  }

  predicate NoOvertaking(m: Shim, evs: seq<Event>)
    decreases |evs|
  {
    evs == [] || (!Overtakes(m, evs[0]) && NoOvertaking(Step(m, evs[0]), evs[1..]))
  }

  lemma OrderedStep(m: Shim, ev: Event)
    requires Ordered(m)
    ensures Ordered(Step(m, ev)) <==> !Overtakes(m, ev)
  {
    var m' := Step(m, ev);
    var n := m.submitted;
    match ev
    case Capture =>
    case LoopRuns =>
      if m.scheduled != [] {
        assert m'.handled + m'.scheduled == m.handled + m.scheduled;
      }
    case Submit(_) =>
      assert Upto(n + 1) == Upto(n) + [n];
      if Inline(m, ev) {
        if m.scheduled == [] {
          assert m'.handled + m'.scheduled == m.handled + m.scheduled + [n];
        } else {
          var k := |m.handled|;
          assert (m.handled + m.scheduled)[k] == m.scheduled[0] == k;
          assert (m'.handled + m'.scheduled)[k] == n;
        }
      } else {
        assert m'.handled + m'.scheduled == m.handled + m.scheduled + [n];
      }
  }

  lemma {:induction false} OrderedRun(m: Shim, evs: seq<Event>)
    requires Ordered(m) && NoOvertaking(m, evs)
    ensures Ordered(Run(m, evs))
    decreases |evs|
  {
    if evs != [] {
      OrderedStep(m, evs[0]);
      OrderedRun(Step(m, evs[0]), evs[1..]);
    }
  }

  /** Once a message has overtaken another, the handled ones are out of order for good. */
  lemma {:induction false} DisorderStays(m: Shim, evs: seq<Event>, k: nat)
    requires k < |m.handled| && m.handled[k] != k
    ensures k < |Run(m, evs).handled| && Run(m, evs).handled[k] != k
    decreases |evs|
  {
    if evs != [] {
      DisorderStays(Step(m, evs[0]), evs[1..], k);
    }
  }

  lemma {:induction false} OvertakingShows(m: Shim, evs: seq<Event>)
    requires Ordered(m) && !NoOvertaking(m, evs)
    ensures !InOrder(Run(m, evs))
    decreases |evs|
  {
    var m1 := Step(m, evs[0]);
    if Overtakes(m, evs[0]) {
      var k := |m.handled|;
      assert (m.handled + m.scheduled)[k] == m.scheduled[0] == k;
      assert m1.handled[k] == m.submitted;
      assert |m.handled + m.scheduled| == m.submitted;
      DisorderStays(m1, evs[1..], k);
    } else {
      OrderedStep(m, evs[0]);
      OvertakingShows(m1, evs[1..]);
    }
  }

  /** In every run the messages handled are a prefix of those submitted, in order and each
      once, if and only if no message was handled inline while others were scheduled. */
  lemma OrderKeptExactlyWithoutOvertaking(evs: seq<Event>)
    ensures InOrder(Run(NEW_SHIM, evs)) <==> NoOvertaking(NEW_SHIM, evs)
    ensures NoOvertaking(NEW_SHIM, evs) ==>
              Run(NEW_SHIM, evs).handled + Run(NEW_SHIM, evs).scheduled == Upto(Run(NEW_SHIM, evs).submitted)
  {
    if NoOvertaking(NEW_SHIM, evs) {
      OrderedRun(NEW_SHIM, evs);
      var m := Run(NEW_SHIM, evs);
      assert m.handled == (m.handled + m.scheduled)[..|m.handled|];
      assert m.handled == Upto(|m.handled|);
    } else {
      OvertakingShows(NEW_SHIM, evs);
    }
  }

  /** The condition is needed: a message from another thread and then one from the loop. */
  lemma InlineOvertakes()
    ensures !InOrder(Run(NEW_SHIM, [Capture, Submit(false), Submit(true)]))
  {
    var m1, m2 := Shim(true, 0, [], []), Shim(true, 1, [0], []);
    var rest1, rest2 := [Submit(false), Submit(true)], [Submit(true)];
    assert [Capture, Submit(false), Submit(true)][1..] == rest1 && rest1[1..] == rest2;
    assert Step(NEW_SHIM, Capture) == m1 && Step(m1, Submit(false)) == m2;
    assert Overtakes(m2, Submit(true));
    assert !NoOvertaking(m1, rest1);
    OrderKeptExactlyWithoutOvertaking([Capture, Submit(false), Submit(true)]);
  }

  // ---- Nothing stays behind ----

  function Turns(k: nat): (evs: seq<Event>)
    ensures |evs| == k
  {
    seq(k, i requires 0 <= i < k => LoopRuns)
  }

  /** `k` turns of the loop handle the first `k` messages that are scheduled. */
  lemma {:induction false} LoopHandlesScheduled(m: Shim, k: nat)
    requires k <= |m.scheduled|
    ensures Run(m, Turns(k)) == m.(handled := m.handled + m.scheduled[..k], scheduled := m.scheduled[k..])
    decreases k
  {
    if k == 0 {
      assert m.handled + m.scheduled[..0] == m.handled && m.scheduled[0..] == m.scheduled;
    } else {
      var m1 := Step(m, LoopRuns);
      assert Turns(k)[0] == LoopRuns && Turns(k)[1..] == Turns(k - 1);
      LoopHandlesScheduled(m1, k - 1);
      assert m.scheduled[..k] == [m.scheduled[0]] + m1.scheduled[..k - 1];
      Assoc(m.handled, [m.scheduled[0]], m1.scheduled[..k - 1]);
      assert m.scheduled[k..] == m1.scheduled[k - 1..];
    }
  }

  lemma {:induction false} RunConcat(m: Shim, a: seq<Event>, b: seq<Event>)
    ensures Run(m, a + b) == Run(Run(m, a), b)
    decreases |a|
  {
    if a == [] {
      assert a + b == b;
    } else {
      ConcatTail(a, b);
      RunConcat(Step(m, a[0]), a[1..], b);
    }
  }

  /** Every message submitted is handled or scheduled, exactly once. */
  predicate Complete(m: Shim) {
    multiset(m.handled) + multiset(m.scheduled) == multiset(Upto(m.submitted))
  }

  lemma CompleteStep(m: Shim, ev: Event)
    requires Complete(m)
    ensures Complete(Step(m, ev))
  {
    match ev
    case Capture =>
    case Submit(_) => assert Upto(m.submitted + 1) == Upto(m.submitted) + [m.submitted];
    case LoopRuns =>
      if m.scheduled != [] {
        assert m.scheduled == [m.scheduled[0]] + m.scheduled[1..];
      }
  }

  lemma {:induction false} CompleteRun(m: Shim, evs: seq<Event>)
    requires Complete(m)
    ensures Complete(Run(m, evs))
    decreases |evs|
  {
    if evs != [] {
      CompleteStep(m, evs[0]);
      CompleteRun(Step(m, evs[0]), evs[1..]);
    }
  }

  /** After any run as many turns of the loop as messages are scheduled handle all that were
      submitted, each exactly once. */
  lemma EveryMessageIsHandled(evs: seq<Event>)
    ensures var m := Run(NEW_SHIM, evs);
            var z := Run(NEW_SHIM, evs + Turns(|m.scheduled|));
            && z.scheduled == [] && z.submitted == m.submitted
            && multiset(z.handled) == multiset(Upto(m.submitted))
  {
    var m := Run(NEW_SHIM, evs);
    CompleteRun(NEW_SHIM, evs);
    RunConcat(NEW_SHIM, evs, Turns(|m.scheduled|));
    LoopHandlesScheduled(m, |m.scheduled|);
    assert m.scheduled[..|m.scheduled|] == m.scheduled;
  }

  /** What is submitted on the loop, or before there is one, is handled at once, and what
      another thread submits is scheduled. */
  lemma SubmissionHandledOrScheduled(m: Shim, onLoop: bool)
    ensures Step(m, Capture).captured && Step(m, Submit(onLoop)).captured == m.captured
    ensures var m' := Step(m, Submit(onLoop));
            && m'.submitted == m.submitted + 1
            && (!m.captured || onLoop ==> m'.handled == m.handled + [m.submitted] && m'.scheduled == m.scheduled)
            && (m.captured && !onLoop ==> m'.handled == m.handled && m'.scheduled == m.scheduled + [m.submitted])
  {
  }

  // ---- One foreign thread ----

  predicate AllForeign(evs: seq<Event>) {
    forall ev :: ev in evs ==> ev != Submit(true)
  }

  lemma {:induction false} ForeignNeverOvertakes(m: Shim, evs: seq<Event>)
    requires m.captured && AllForeign(evs)
    ensures NoOvertaking(m, evs)
    decreases |evs|
  {
    if evs != [] {
      assert evs[0] in evs && forall ev :: ev in evs[1..] ==> ev in evs;
      ForeignNeverOvertakes(Step(m, evs[0]), evs[1..]);
    }
  }

  /** A single foreign thread, from the capture of the loop on, keeps its order. */
  lemma ForeignThreadKeepsOrder(evs: seq<Event>)
    requires AllForeign(evs)
    ensures InOrder(Run(NEW_SHIM, [Capture] + evs))
  {
    ForeignNeverOvertakes(Step(NEW_SHIM, Capture), evs);
    assert ([Capture] + evs)[1..] == evs;
    OrderKeptExactlyWithoutOvertaking([Capture] + evs);
  }
}
