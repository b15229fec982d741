/** A bounded notification subscription as a value, and the fan-out over many of them. */
module Subscription {
  import opened Protocol
  import opened Sequences

  type Notification = map<string, Json>

  datatype Slot = Note(data: Notification) | Sentinel

  datatype Overflow = DropNewest | CloseStream

  /** A notification offered to a subscription, and whether its queue took it. */
  datatype Offer = Offer(data: Notification, accepted: bool)

  /** `parked` says that the consumer waits in `get()`; `offered` and `yielded` are history.
      A limit that is not positive means an unbounded queue. */
  datatype Sub = Sub(
    queue: seq<Slot>, maxQueue: int, overflow: Overflow, closed: bool,
    parked: bool, offered: seq<Offer>, yielded: seq<Notification>)

  /** What a call of `__anext__` does when it runs. */
  datatype Answer = Yield(data: Notification) | StopIteration | Park

  function Opened(maxQueue: int, overflow: Overflow): Sub {
    Sub([], maxQueue, overflow, false, false, [], [])
  }

  predicate Full(s: Sub) {
    s.maxQueue > 0 && |s.queue| >= s.maxQueue
  }

  function Close(s: Sub): Sub {
    if s.closed then s
    else s.(closed := true, queue := if Full(s) then s.queue else s.queue + [Sentinel])
  }

  function Refuse(s: Sub, data: Notification): Sub {
    s.(offered := s.offered + [Offer(data, false)])
  }

  function DeliverTo(s: Sub, data: Notification): Sub {
    if s.closed then Refuse(s, data)
    else if !Full(s) then
      s.(queue := s.queue + [Note(data)], offered := s.offered + [Offer(data, true)])
    else if s.overflow == DropNewest then Refuse(s, data)
    else Close(Refuse(s, data))
  }

  /** The oldest slot leaves the queue and is handed to the consumer. */
  function Pop(s: Sub): (Sub, Answer)
    requires s.queue != []
  {
    var s' := s.(queue := s.queue[1..], parked := false);
    match s.queue[0]
    case Sentinel => (s', StopIteration)
    case Note(data) => (s'.(yielded := s.yielded + [data]), Yield(data))
  }

  /** `__anext__` up to its await, or to its end if it need not wait. */
  function Next(s: Sub): (Sub, Answer) {
    if s.closed && s.queue == [] then (s, StopIteration)
    else if s.queue == [] then (s.(parked := true), Park)
    else Pop(s)
  }

  /** A parked consumer goes on as soon as the queue has an item. */
  function Resume(s: Sub): (Sub, Answer) {
    if s.parked && s.queue != [] then Pop(s) else (s, Park)
  }

  // ---- Runs ----

  datatype Event = Offered(data: Notification) | Closing | Asking | Resuming | Leaving

  /** One event, with a single consumer: it asks only when it is not parked. */
  function Step(s: Sub, ev: Event): Sub {
    match ev
    case Offered(data) => DeliverTo(s, data)
    case Closing => Close(s)
    case Asking => if s.parked then s else Next(s).0
    case Resuming => Resume(s).0
    case Leaving => s.(parked := false)
  }

  function Run(s: Sub, evs: seq<Event>): Sub
    decreases |evs|
  {
    if evs == [] then s else Run(Step(s, evs[0]), evs[1..])
  }

  // ---- The invariant ----

  function Notes(queue: seq<Slot>): seq<Notification> {
    if queue == [] then []
    else (if queue[0].Note? then [queue[0].data] else []) + Notes(queue[1..])
  }

  function Accepted(offers: seq<Offer>): seq<Notification> {
    if offers == [] then []
    else (if offers[0].accepted then [offers[0].data] else []) + Accepted(offers[1..])
  }

  function Rejected(offers: seq<Offer>): nat {
    if offers == [] then 0 else (if offers[0].accepted then 0 else 1) + Rejected(offers[1..])
  }

  function Datas(offers: seq<Offer>): (datas: seq<Notification>)
    ensures |datas| == |offers|
  {
    seq(|offers|, i requires 0 <= i < |offers| => offers[i].data)
  }

  lemma {:induction false} NotesConcat(a: seq<Slot>, b: seq<Slot>)
    ensures Notes(a + b) == Notes(a) + Notes(b)
    decreases |a|
  {
    if a == [] {
      assert a + b == b;
    } else {
      ConcatTail(a, b);
      NotesConcat(a[1..], b);
      Assoc(if a[0].Note? then [a[0].data] else [], Notes(a[1..]), Notes(b));
    }
  }

  lemma {:induction false} AcceptedConcat(a: seq<Offer>, b: seq<Offer>)
    ensures Accepted(a + b) == Accepted(a) + Accepted(b)
    decreases |a|
  {
    if a == [] {
      assert a + b == b;
    } else {
      ConcatTail(a, b);
      AcceptedConcat(a[1..], b);
      Assoc(if a[0].accepted then [a[0].data] else [], Accepted(a[1..]), Accepted(b));
    }
  }

  lemma {:induction false} RejectedConcat(a: seq<Offer>, b: seq<Offer>)
    ensures Rejected(a + b) == Rejected(a) + Rejected(b)
    decreases |a|
  {
    if a == [] {
      assert a + b == b;
    } else {
      ConcatTail(a, b);
      RejectedConcat(a[1..], b);
    }
  }

  predicate AllAccepted(offers: seq<Offer>) {
    forall offer :: offer in offers ==> offer.accepted
  }

  lemma {:induction false} AllAcceptedIsAll(offers: seq<Offer>)
    requires AllAccepted(offers)
    ensures Accepted(offers) == Datas(offers) && Rejected(offers) == 0
  {
    if offers != [] {
      assert offers[0] in offers && forall offer :: offer in offers[1..] ==> offer in offers;
      AllAcceptedIsAll(offers[1..]);
      assert Datas(offers) == [offers[0].data] + Datas(offers[1..]);
    }
  }

  lemma {:induction false} Counted(offers: seq<Offer>)
    ensures |Accepted(offers)| + Rejected(offers) == |offers|
  {
    if offers != [] { Counted(offers[1..]); }
  }

  ghost predicate SubInv(s: Sub) {
    // conservation, in order
    && s.yielded + Notes(s.queue) == Accepted(s.offered)
    // the sentinel is last and only there if closed
    && (forall i :: 0 <= i < |s.queue| && s.queue[i].Sentinel? ==> i == |s.queue| - 1 && s.closed)
    && (s.maxQueue > 0 ==> |s.queue| <= s.maxQueue)
    // no lost wakeup
    && (s.parked && s.closed ==> s.queue != [])
    // overflow that closes rejects only a suffix
    && (s.overflow == CloseStream && !s.closed ==> AllAccepted(s.offered))
    && (s.overflow == CloseStream ==> Accepted(s.offered) <= Datas(s.offered))
  }

  lemma RefuseKeeps(s: Sub, data: Notification)
    requires SubInv(s) && (s.overflow == CloseStream ==> s.closed)
    ensures SubInv(Refuse(s, data))
  {
    AcceptedConcat(s.offered, [Offer(data, false)]);
    var offers := s.offered + [Offer(data, false)];
    assert Datas(offers) == Datas(s.offered) + [data];
    assert Accepted(offers) == Accepted(s.offered) + [];
  }

  lemma CloseKeeps(s: Sub)
    requires SubInv(s)
    ensures SubInv(Close(s))
  {
    NotesConcat(s.queue, [Sentinel]);
    assert Notes(s.queue) + [] == Notes(s.queue);
  }

  lemma OverflowKeeps(s: Sub, data: Notification)
    requires SubInv(s) && !s.closed && Full(s) && s.overflow == CloseStream
    ensures SubInv(Close(Refuse(s, data)))
  {
    AcceptedConcat(s.offered, [Offer(data, false)]);
    AllAcceptedIsAll(s.offered);
    var offers := s.offered + [Offer(data, false)];
    assert Datas(offers) == Datas(s.offered) + [data];
    assert Accepted(offers) == Accepted(s.offered) + [];
  }

  lemma AcceptKeeps(s: Sub, data: Notification)
    requires SubInv(s) && !s.closed && !Full(s)
    ensures SubInv(DeliverTo(s, data))
  {
    NotesConcat(s.queue, [Note(data)]);
    AcceptedConcat(s.offered, [Offer(data, true)]);
    assert Notes([Note(data)]) == [data] && Accepted([Offer(data, true)]) == [data];
    assert s.yielded + (Notes(s.queue) + [data]) == s.yielded + Notes(s.queue) + [data];
    if s.overflow == CloseStream { AllAcceptedIsAll(s.offered + [Offer(data, true)]); }
  }

  lemma DeliverKeeps(s: Sub, data: Notification)
    requires SubInv(s)
    ensures SubInv(DeliverTo(s, data))
  {
    if s.closed { RefuseKeeps(s, data); }
    else if !Full(s) { AcceptKeeps(s, data); }
    else if s.overflow == DropNewest { RefuseKeeps(s, data); }
    else { OverflowKeeps(s, data); }
  }

  lemma PopKeeps(s: Sub)
    requires SubInv(s) && s.queue != []
    ensures SubInv(Pop(s).0)
  {
    var s' := Pop(s).0;
    if s.queue[0].Note? {
      assert s.yielded + ([s.queue[0].data] + Notes(s.queue[1..]))
             == s.yielded + [s.queue[0].data] + Notes(s.queue[1..]);
    }
    forall i | 0 <= i < |s'.queue| && s'.queue[i].Sentinel?
      ensures i == |s'.queue| - 1 && s'.closed
    {
      assert s.queue[i + 1].Sentinel?;
    }
  }

  lemma StepKeeps(s: Sub, ev: Event)
    requires SubInv(s)
    ensures SubInv(Step(s, ev))
    ensures Step(s, ev).maxQueue == s.maxQueue && Step(s, ev).overflow == s.overflow
  {
    match ev
    case Offered(data) => DeliverKeeps(s, data);
    case Closing => CloseKeeps(s);
    case Asking => if s.queue != [] { PopKeeps(s); }
    case Resuming => if s.queue != [] { PopKeeps(s); }
    case Leaving =>
  }

  lemma {:induction false} RunKeeps(s: Sub, evs: seq<Event>)
    requires SubInv(s)
    ensures SubInv(Run(s, evs)) && Run(s, evs).maxQueue == s.maxQueue && Run(s, evs).overflow == s.overflow
    decreases |evs|
  {
    if evs != [] {
      var s1 := Step(s, evs[0]);
      StepKeeps(s, evs[0]);
      RunKeeps(s1, evs[1..]);
      assert Run(s, evs) == Run(s1, evs[1..]);
    }
  }

  // ---- Theorems about runs ----

  /** In every run: what was yielded and what is buffered are the accepted notifications in
      order; offered is accepted plus rejected; the buffer respects its limit; the sentinel
      occurs once at most, last, and only if closed; and overflow that closes accepts a
      prefix of what was offered. */
  lemma Conservation(maxQueue: int, overflow: Overflow, evs: seq<Event>)
    ensures var s := Run(Opened(maxQueue, overflow), evs);
            && s.yielded + Notes(s.queue) == Accepted(s.offered)
            && |s.offered| == |Accepted(s.offered)| + Rejected(s.offered)
            && (maxQueue > 0 ==> |s.queue| <= maxQueue)
            && (forall i :: 0 <= i < |s.queue| && s.queue[i].Sentinel? ==>
                  i == |s.queue| - 1 && s.closed)
            && (overflow == CloseStream ==> Accepted(s.offered) <= Datas(s.offered))
  {
    RunKeeps(Opened(maxQueue, overflow), evs);
    Counted(Run(Opened(maxQueue, overflow), evs).offered);
  }

  /** In every run a consumer that is parked when its subscription is closed finds an item
      on the queue, even if the queue was full and the sentinel could not be enqueued. */
  lemma NoLostWakeup(maxQueue: int, overflow: Overflow, evs: seq<Event>)
    ensures var s := Run(Opened(maxQueue, overflow), evs);
            s.parked && s.closed ==> s.queue != [] && !Resume(s).0.parked && Resume(s).1 != Park
  {
    RunKeeps(Opened(maxQueue, overflow), evs);
  }

  /** A notification is rejected if and only if the subscription is closed or its buffer is
      at its limit; an open subscription closes on it exactly under "close". */
  lemma RejectedExactlyWhenFull(s: Sub, data: Notification)
    requires SubInv(s)
    ensures var s' := DeliverTo(s, data);
            && (Rejected(s'.offered) == Rejected(s.offered) + 1 <==>
                  s.closed || (s.maxQueue > 0 && |s.queue| == s.maxQueue))
            && (Rejected(s'.offered) == Rejected(s.offered) <==> Notes(s'.queue) == Notes(s.queue) + [data])
            && (s'.closed && !s.closed <==>
                  s.overflow == CloseStream && !s.closed && s.maxQueue > 0 && |s.queue| == s.maxQueue)
  {
    RejectedConcat(s.offered, [Offer(data, true)]);
    RejectedConcat(s.offered, [Offer(data, false)]);
    NotesConcat(s.queue, [Note(data)]);
    NotesConcat(s.queue, [Sentinel]);
    assert Notes([Note(data)]) == [data] && Notes([Sentinel]) == [];
    assert |Notes(s.queue) + [data]| == |Notes(s.queue)| + 1;
    assert Rejected([Offer(data, true)]) == 0 && Rejected([Offer(data, false)]) == 1;
  }

  /** Closing loses nothing and adds nothing: in every run after it, what has been yielded
      and what is buffered stay the same in total. */
  lemma {:induction false} ClosedConserves(s: Sub, evs: seq<Event>)
    requires SubInv(s) && s.closed
    ensures var z := Run(s, evs);
            z.closed && z.yielded + Notes(z.queue) == s.yielded + Notes(s.queue)
    decreases |evs|
  {
    if evs != [] {
      var s1 := Step(s, evs[0]);
      StepKeeps(s, evs[0]);
      ClosedStep(s, evs[0]);
      ClosedConserves(s1, evs[1..]);
      assert Run(s, evs) == Run(s1, evs[1..]);
    }
  }

  lemma ClosedStep(s: Sub, ev: Event)
    requires SubInv(s) && s.closed
    ensures var s1 := Step(s, ev);
            s1.closed && s1.yielded + Notes(s1.queue) == s.yielded + Notes(s.queue)
  {
    if s.queue != [] { PopConserves(s); }
  }

  lemma PopConserves(s: Sub)
    requires s.queue != []
    ensures var s1 := Pop(s).0; s1.yielded + Notes(s1.queue) == s.yielded + Notes(s.queue)
  {
    var rest := Notes(s.queue[1..]);
    if s.queue[0].Note? {
      assert s.yielded + ([s.queue[0].data] + rest) == s.yielded + [s.queue[0].data] + rest;
    } else {
      assert [] + rest == rest;
    }
  }

  /** The answers of `n` successive calls. */
  function Answers(s: Sub, n: nat): (answers: seq<Answer>)
    ensures |answers| == n
    decreases n
  {
    if n == 0 then [] else [Next(s).1] + Answers(Next(s).0, n - 1)
  }

  /** Drain, then stop: after `close()` any number of successive calls yield exactly the
      buffered notifications in order and then raise StopAsyncIteration for ever. */
  lemma {:induction false} DrainThenStop(s: Sub, n: nat)
    requires SubInv(s) && s.closed && !s.parked
    ensures forall i :: 0 <= i < n ==>
              Answers(s, n)[i] == if i < |Notes(s.queue)| then Yield(Notes(s.queue)[i]) else StopIteration
    decreases n
  {
    if n != 0 {
      var s' := Next(s).0;
      StepKeeps(s, Asking);
      DrainThenStop(s', n - 1);
      if s.queue != [] && s.queue[0].Sentinel? {
        assert s'.queue == [];
      }
    }
  }

  // ---- What the consumer is told ----

  /** The answer that the consumer gets when an event lets it run: a call of `__anext__`
      by a consumer that is not parked, or the waking of one that is. */
  function AnswerTo(s: Sub, ev: Event): Option<Answer> {
    match ev
    case Asking => if s.parked then None else Some(Next(s).1)
    case Resuming => if s.parked then Some(Resume(s).1) else None
    case _ => None
  }

  /** The notifications in the answers of a run, in order. */
  function Told(s: Sub, evs: seq<Event>): seq<Notification>
    decreases |evs|
  {
    if evs == [] then []
    else
      (match AnswerTo(s, evs[0]) case Some(Yield(data)) => [data] case _ => [])
      + Told(Step(s, evs[0]), evs[1..])
  }

  lemma {:induction false} ToldIsYielded(s: Sub, evs: seq<Event>)
    ensures Run(s, evs).yielded == s.yielded + Told(s, evs)
    decreases |evs|
  {
    if evs == [] {
      assert s.yielded + [] == s.yielded;
    } else {
      var s1 := Step(s, evs[0]);
      var now := match AnswerTo(s, evs[0]) case Some(Yield(data)) => [data] case _ => [];
      assert s1.yielded == s.yielded + now;
      ToldIsYielded(s1, evs[1..]);
      Assoc(s.yielded, now, Told(s1, evs[1..]));
    }
  }

  lemma NotesHead(queue: seq<Slot>)
    requires queue != []
    ensures queue[0].Note? ==> Notes(queue) != [] && Notes(queue)[0] == queue[0].data
    ensures queue[0].Sentinel? && |queue| == 1 ==> Notes(queue) == []
  {
  }

  /** In every run the consumer is told the oldest buffered notification if there is one, is
      stopped if there is none and the subscription is closed, and waits otherwise: an open
      subscription never stops it. */
  lemma AnswersExactly(maxQueue: int, overflow: Overflow, evs: seq<Event>, ev: Event)
    ensures var s := Run(Opened(maxQueue, overflow), evs);
            && (AnswerTo(s, ev).Some? <==> if s.parked then ev == Resuming else ev == Asking)
            && (AnswerTo(s, ev).Some? ==>
                  AnswerTo(s, ev).value
                  == if Notes(s.queue) != [] then Yield(Notes(s.queue)[0])
                     else if s.closed then StopIteration else Park)
  {
    RunKeeps(Opened(maxQueue, overflow), evs);
    var s := Run(Opened(maxQueue, overflow), evs);
    if s.queue != [] { NotesHead(s.queue); }
  }

  /** In every run what the consumer has been told, followed by what is buffered, are the
      accepted notifications in order: none is lost between the queue and the consumer. */
  lemma ToldInOrder(maxQueue: int, overflow: Overflow, evs: seq<Event>)
    ensures var s := Run(Opened(maxQueue, overflow), evs);
            Told(Opened(maxQueue, overflow), evs) + Notes(s.queue) == Accepted(s.offered)
  {
    Conservation(maxQueue, overflow, evs);
    ToldIsYielded(Opened(maxQueue, overflow), evs);
    assert [] + Told(Opened(maxQueue, overflow), evs) == Told(Opened(maxQueue, overflow), evs);
  }
}
