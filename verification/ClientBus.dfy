/** The client's objects: pending requests, subscriptions and the bus that owns both.
    Each method is one atomic region of the client, proved against the value models. */
module ClientBus {
  import opened Protocol
  import opened Table
  import opened Session
  import Subscription
  import opened SessionInvariant
  import Lifecycle

  type Notification = Subscription.Notification
  type Slot = Subscription.Slot

  // ---- Recognising an operation from its effect on each entry ----

  ghost predicate Pointwise(was: State, now: State, touched: set<Id>, f: Entry -> Entry) {
    && now.store.Keys == was.store.Keys
    && forall id :: id in was.store ==>
         now.store[id] == if id in touched then f(was.store[id]) else was.store[id]
  }

  lemma IsBroadcast(was: State, now: State, text: string)
    requires was.table <= was.store.Keys
    requires Pointwise(was, now, was.table, (e: Entry) => DeliverChunk(e, text))
    requires now.table == was.table && now.log == was.log + [text]
    ensures now == Broadcast(was, text)
  {
    assert now.store == Broadcast(was, text).store;
  }

  lemma IsRejectAll(was: State, now: State, exc: Failure)
    requires was.table <= was.store.Keys
    requires Pointwise(was, now, was.table, (e: Entry) => DeliverError(e, exc))
    requires now.table == {} && now.log == was.log
    ensures now == RejectAll(was, exc)
  {
    assert now.store == RejectAll(was, exc).store;
  }

  lemma IsSettle(was: State, now: State, id: Id, reply: Reply)
    requires was.table <= was.store.Keys && id in was.table
    requires Pointwise(was, now, {id}, (e: Entry) => DeliverReply(e, reply))
    requires now.table == was.table - {id} && now.log == was.log
    ensures now == Settle(was, id, reply)
  {
    assert now.store == Settle(was, id, reply).store;
  }

  lemma IsAdd(was: State, now: State, id: Id, mode: Mode)
    requires was.table <= was.store.Keys && id !in was.store
    requires now.store.Keys == was.store.Keys + {id} && now.store[id] == Fresh(mode, |was.log|)
    requires forall other :: other in was.store ==> now.store[other] == was.store[other]
    requires now.table == was.table + {id} && now.log == was.log
    ensures now == Apply(was, Add(id, mode))
  {
    assert now.store == was.store[id := Fresh(mode, |was.log|)];
  }

  lemma IsOpened(was: State, id: Id, mode: Mode, sending: Lifecycle.Sending)
    requires was.table <= was.store.Keys
    ensures var added := Apply(was, Add(id, mode));
            ApplyAll(was, OpenOps(id, mode, sending)) == if sending.Sent? then added else Apply(added, Drop(id))
  {
    OneOp(was, Add(id, mode));
    TwoOps(was, Add(id, mode), Drop(id));
  }

  lemma IsStreamTurn(was: State, now: State, id: Id, finding: Finding)
    requires was.table <= was.store.Keys && id in was.store
    requires Pointwise(was, now, if finding.Ready? then {id} else {}, TakeItem) && now.log == was.log
    requires now.table == if finding.Nothing? || (finding.Ready? && finding.item.Chunk?)
                          then was.table else was.table - {id}
    ensures now == ApplyAll(was, WakeOps(id, StreamMode, finding))
  {
    OneOp(was, Take(id));
    OneOp(was, Drop(id));
    TwoOps(was, Take(id), Drop(id));
    if finding.Ready? {
      assert WakeOps(id, StreamMode, finding)
             == if finding.item.Chunk? then [Take(id)] else [Take(id), Drop(id)];
      assert now.store == was.store[id := TakeItem(was.store[id])];
    } else {
      assert finding.TooLate? ==> WakeOps(id, StreamMode, finding) == [Drop(id)];
      assert now.store == was.store;
    }
  }

  lemma IsRequestWake(was: State, now: State, id: Id, finding: Finding)
    requires was.table <= was.store.Keys && id in was.store
    requires finding.Ready? ==> !finding.item.Chunk?
    requires Pointwise(was, now, if finding.TooLate? then {id} else {}, (e: Entry) => Complete(e, Cancelled))
    requires now.log == was.log
    requires now.table == if finding.Nothing? || (finding.Ready? && finding.item.Result?)
                          then was.table else was.table - {id}
    ensures now == ApplyAll(was, WakeOps(id, FutureMode, finding))
  {
    OneOp(was, Drop(id));
    TwoOps(was, Cancel(id), Drop(id));
    if finding.TooLate? {
      assert WakeOps(id, FutureMode, finding) == [Cancel(id), Drop(id)];
      assert now.store == was.store[id := Complete(was.store[id], Cancelled)];
    } else {
      assert finding.Ready? && finding.item.Error? ==> WakeOps(id, FutureMode, finding) == [Drop(id)];
      assert now.store == was.store;
    }
  }

  /** `_PendingRequest`. The asyncio future and queue that it owns are fields here. */
  class PendingRequest {
    var future: Option<Cell>
    var chunks: seq<string>
    var queue: Option<seq<Item>>
    ghost var taken: seq<Item>
    ghost var since: nat

    ghost function View(): Entry
      reads this
    {
      Entry(future, chunks, queue, taken, since)
    }

    constructor ForFuture(ghost since: nat)
      ensures View() == Fresh(FutureMode, since)
    {
      future, chunks, queue, taken := Some(Waiting), [], None, [];
      this.since := since;
    }

    constructor ForStream(ghost since: nat)
      ensures View() == Fresh(StreamMode, since)
    {
      future, chunks, queue, taken := None, [], Some([]), [];
      this.since := since;
    }

    method DeliverChunk(text: string)
      modifies this
      ensures View() == Table.DeliverChunk(old(View()), text)
    {
      chunks := chunks + [text];
      if queue.Some? {
        queue := Some(queue.value + [Chunk(text)]);
      }
    }

    method DeliverResult(value: Json)
      modifies this
      ensures View() == Table.DeliverResult(old(View()), value)
    {
      if queue.Some? {
        queue := Some(queue.value + [Result(value)]);
      } else if future.Some? && future.value.Waiting? {
        future := Some(Resolved(value));
      }
    }

    method DeliverError(exc: Failure)
      modifies this
      ensures View() == Table.DeliverError(old(View()), exc)
    {
      if queue.Some? {
        queue := Some(queue.value + [Error(exc)]);
      } else if future.Some? && future.value.Waiting? {
        future := Some(Rejected(exc));
      }
    }

    /** `queue.get_nowait()` */
    method GetNowait() returns (item: Item)
      requires queue.Some? && queue.value != []
      modifies this
      ensures item == old(queue).value[0] && View() == TakeItem(old(View()))
    {
      item := queue.value[0];
      queue := Some(queue.value[1..]);
      taken := taken + [item];
    }

    /** `future.cancel()` */
    method CancelFuture()
      modifies this
      ensures View() == Complete(old(View()), Cancelled)
    {
      if future.Some? && future.value.Waiting? {
        future := Some(Cancelled);
      }
    }
  }

  /** `NotificationSubscription`. */
  class NotificationSubscription {
    const owner: AsyncStdioBus
    const maxQueue: int
    const overflow: Subscription.Overflow
    var queue: seq<Slot>
    var closed: bool
    ghost var parked: bool
    ghost var offered: seq<Subscription.Offer>
    ghost var yielded: seq<Notification>

    ghost function View(): Subscription.Sub
      reads this
    {
      Subscription.Sub(queue, maxQueue, overflow, closed, parked, offered, yielded)
    }

    constructor (owner: AsyncStdioBus, maxQueue: int, overflow: Subscription.Overflow)
      ensures this.owner == owner && View() == Subscription.Opened(maxQueue, overflow)
    {
      this.owner, this.maxQueue, this.overflow := owner, maxQueue, overflow;
      queue, closed := [], false;
      parked, offered, yielded := false, [], [];
    }

    /** `queue.put_nowait()`; `ok` is false where it raises QueueFull. */
    method PutNowait(slot: Slot) returns (ok: bool)
      modifies this`queue
      ensures ok == !Subscription.Full(old(View()))
      ensures queue == if ok then old(queue) + [slot] else old(queue)
    {
      ok := !(maxQueue > 0 && |queue| >= maxQueue);
      if ok {
        queue := queue + [slot];
      }
    }

    method Deliver(data: Notification)
      modifies this, owner`subscriptions
      ensures View() == Subscription.DeliverTo(old(View()), data)
      ensures owner.subscriptions ==
                if !old(closed) && closed then old(owner.subscriptions) - {this} else old(owner.subscriptions)
    {
      if closed {
        offered := offered + [Subscription.Offer(data, false)];
        return;
      }
      var ok := PutNowait(Subscription.Note(data));
      offered := offered + [Subscription.Offer(data, ok)];
      if !ok {
        if overflow == Subscription.DropNewest {
          return;
        }
        Close();
      }
    }

    method Close()
      modifies this`queue, this`closed, owner`subscriptions
      ensures View() == Subscription.Close(old(View()))
      ensures owner.subscriptions ==
                if old(closed) then old(owner.subscriptions) else old(owner.subscriptions) - {this}
    {
      if closed {
        return;
      }
      closed := true;
      owner.RemoveSubscription(this);
      var _ := PutNowait(Subscription.Sentinel);
    }

    /** `__anext__` as far as it runs without waiting. */
    method Next() returns (answer: Subscription.Answer)
      modifies this
      ensures (View(), answer) == Subscription.Next(old(View()))
    {
      if closed && queue == [] {
        return Subscription.StopIteration;
      }
      if queue == [] {
        parked := true;
        return Subscription.Park;
      }
      answer := Get();
    }

    /** The parked consumer is woken. */
    method Resume() returns (answer: Subscription.Answer)
      requires parked
      modifies this
      ensures (View(), answer) == Subscription.Resume(old(View()))
    {
      if queue == [] {
        return Subscription.Park;
      }
      answer := Get();
    }

    method Get() returns (answer: Subscription.Answer)
      requires queue != []
      modifies this
      ensures (View(), answer) == Subscription.Pop(old(View()))
    {
      var item := queue[0];
      queue := queue[1..];
      parked := false;
      match item
      case Sentinel => return Subscription.StopIteration;
      case Note(data) =>
        yielded := yielded + [data];
        return Subscription.Yield(data);
    }
  }

  /** How a region of a request or stream ends: refused, still waiting, a chunk for the
      consumer, or the outcome of the call. */
  datatype Progress = Refused(reason: string) | Waits | Gives(text: string) | Ends(outcome: Outcome)

  /** A call after its request was sent, or not. */
  function Launched(sending: Lifecycle.Sending): Progress {
    match SendOutcome(sending)
    case Some(outcome) => Ends(outcome)
    case None => Waits
  }

  /** `AsyncStdioBus`. `registered` has every request ever made, `subscribers` every
      subscription. */
  class AsyncStdioBus {
    var pendingRequests: map<Id, PendingRequest>
    var subscriptions: set<NotificationSubscription>
    ghost var registered: map<Id, PendingRequest>
    ghost var subscribers: set<NotificationSubscription>
    ghost var log: seq<string>

    ghost predicate ValidTable()
      reads this`pendingRequests, this`registered
    {
      && (forall id :: id in pendingRequests ==> id in registered && registered[id] == pendingRequests[id])
      && (forall a, b :: a in registered && b in registered && registered[a] == registered[b] ==> a == b)
    }

    ghost predicate ValidSubscriptions()
      reads this`subscriptions, this`subscribers, subscribers
    {
      && subscriptions <= subscribers
      && (forall sub :: sub in subscribers ==> sub.owner == this)
      && (forall sub :: sub in subscribers ==> (sub in subscriptions <==> !sub.closed))
    }

    ghost function View(): (s: State)
      requires ValidTable()
      reads this`pendingRequests, this`registered, this`log, registered.Values
      ensures s.table <= s.store.Keys
    {
      State(map id | id in registered :: registered[id].View(), pendingRequests.Keys, log)
    }

    constructor ()
      ensures ValidTable() && ValidSubscriptions() && View() == EMPTY && subscribers == {}
    {
      pendingRequests, registered, log := map[], map[], [];
      subscriptions, subscribers := {}, {};
    }

    // ---- Messages ----

    method HandleMessageOnLoop(msg: Message)
      requires ValidTable() && ValidSubscriptions()
      modifies this, registered.Values, subscribers
      ensures ValidTable() && registered == old(registered)
      ensures View() == Apply(old(View()), Op.Deliver(msg))
      ensures ValidSubscriptions() && subscribers == old(subscribers)
      ensures forall sub :: sub in subscribers ==>
                sub.View() == if msg.Data? && IsNotification(msg.fields) && sub in old(subscriptions)
                              then Subscription.DeliverTo(old(sub.View()), msg.fields) else old(sub.View())
    {
      if msg.Junk? {
        return;
      }
      var data := msg.fields;
      if IsNotification(data) {
        assert Classify(msg) == Notify(ChunkText(data));
        HandleNotificationOnLoop(data);
        return;
      }
      if HasId(data) {
        var key := Key(data["id"]);
        assert Classify(msg) == Respond(key, ReplyOf(data));
        if key.None? || key.value !in pendingRequests {
          return;
        }
        SettleRequest(key.value, ReplyOf(data));
      }
    }

    /** The pending request leaves the table and gets the reply. */
    method SettleRequest(msgId: Id, reply: Reply)
      requires ValidTable() && msgId in pendingRequests
      modifies this`pendingRequests, pendingRequests[msgId]
      ensures ValidTable() && View() == Settle(old(View()), msgId, reply)
    {
      ghost var was := View();
      var pending := pendingRequests[msgId];
      pendingRequests := pendingRequests - {msgId};
      match reply {
        case Fails(exc) => pending.DeliverError(exc);
        case Broken =>
        case Succeeds(value) => pending.DeliverResult(WithText(value, pending.chunks));
      }
      IsSettle(was, View(), msgId, reply);
    }

    method HandleNotificationOnLoop(data: map<string, Json>)
      requires ValidTable() && ValidSubscriptions()
      modifies this`log, this`subscriptions, pendingRequests.Values, subscribers
      ensures ValidTable()
      ensures View() == Act(old(View()), Notify(ChunkText(data)))
      ensures ValidSubscriptions()
      ensures forall sub :: sub in subscribers ==>
                sub.View() == if sub in old(subscriptions)
                              then Subscription.DeliverTo(old(sub.View()), data) else old(sub.View())
    {
      var text := ChunkText(data);
      if text.Some? {
        BroadcastChunk(text.value);
      }
      FanOut(data);
    }

    method BroadcastChunk(text: string)
      requires ValidTable()
      modifies this`log, pendingRequests.Values
      ensures ValidTable() && View() == Broadcast(old(View()), text)
    {
      ghost var was := View();
      ChunkToAll(text);
      log := log + [text];
      IsBroadcast(was, View(), text);
    }

    method ChunkToAll(text: string)
      requires ValidTable()
      modifies pendingRequests.Values
      ensures forall id :: id in registered ==>
                registered[id].View() == if id in pendingRequests
                                         then Table.DeliverChunk(old(registered[id].View()), text)
                                         else old(registered[id].View())
    {
      var ids := pendingRequests.Keys;
      while ids != {}
        invariant ids <= pendingRequests.Keys
        invariant forall id :: id in registered ==>
                    registered[id].View() == if id in pendingRequests && id !in ids
                                             then Table.DeliverChunk(old(registered[id].View()), text)
                                             else old(registered[id].View())
        decreases |ids|
      {
        var id :| id in ids;
        pendingRequests[id].DeliverChunk(text);
        ids := ids - {id};
      }
    }

    /** Delivery to a snapshot, in any order; a subscription that overflows may remove
        itself from the active set on the way. */
    method FanOut(data: map<string, Json>)
      requires ValidSubscriptions()
      modifies this`subscriptions, subscriptions
      ensures ValidSubscriptions()
      ensures forall sub :: sub in subscribers ==>
                sub.View() == if sub in old(subscriptions)
                              then Subscription.DeliverTo(old(sub.View()), data) else old(sub.View())
    {
      var snapshot := subscriptions;
      while snapshot != {}
        invariant snapshot <= old(subscriptions) <= subscribers
        invariant ValidSubscriptions()
        invariant forall sub :: sub in subscribers ==>
                    sub.View() == if sub in old(subscriptions) && sub !in snapshot
                                  then Subscription.DeliverTo(old(sub.View()), data) else old(sub.View())
        decreases |snapshot|
      {
        var sub :| sub in snapshot;
        sub.Deliver(data);
        snapshot := snapshot - {sub};
      }
    }

    method RemoveSubscription(sub: NotificationSubscription)
      modifies this`subscriptions
      ensures subscriptions == old(subscriptions) - {sub}
    {
      subscriptions := subscriptions - {sub};
    }

    method SubscribeNotifications(maxQueue: int, overflow: Subscription.Overflow)
      returns (sub: NotificationSubscription)
      requires ValidSubscriptions()
      modifies this`subscriptions, this`subscribers
      ensures ValidSubscriptions() && fresh(sub) && sub.View() == Subscription.Opened(maxQueue, overflow)
      ensures subscribers == old(subscribers) + {sub} && subscriptions == old(subscriptions) + {sub}
    {
      sub := new NotificationSubscription(this, maxQueue, overflow);
      subscriptions := subscriptions + {sub};
      subscribers := subscribers + {sub};
    }

    // ---- Lifecycle ----

    /** Fail every pending request and clear the table. */
    method FailPending(exc: Failure)
      requires ValidTable()
      modifies this`pendingRequests, pendingRequests.Values
      ensures ValidTable() && View() == Apply(old(View()), FailAll(exc))
    {
      ghost var was := View();
      ErrorToAll(exc);
      pendingRequests := map[];
      IsRejectAll(was, View(), exc);
    }

    method ErrorToAll(exc: Failure)
      requires ValidTable()
      modifies pendingRequests.Values
      ensures forall id :: id in registered ==>
                registered[id].View() == if id in pendingRequests
                                         then Table.DeliverError(old(registered[id].View()), exc)
                                         else old(registered[id].View())
    {
      var ids := pendingRequests.Keys;
      while ids != {}
        invariant ids <= pendingRequests.Keys
        invariant forall id :: id in registered ==>
                    registered[id].View() == if id in pendingRequests && id !in ids
                                             then Table.DeliverError(old(registered[id].View()), exc)
                                             else old(registered[id].View())
        decreases |ids|
      {
        var id :| id in ids;
        pendingRequests[id].DeliverError(exc);
        ids := ids - {id};
      }
    }

    method OnBackendClosed()
      requires ValidTable()
      modifies this`pendingRequests, pendingRequests.Values
      ensures ValidTable() && View() == Apply(old(View()), FailAll(CRASHED))
    {
      FailPending(CRASHED);
    }

    method CloseSubscriptions()
      requires ValidSubscriptions()
      modifies this`subscriptions, subscriptions
      ensures ValidSubscriptions() && subscriptions == {}
      ensures forall sub :: sub in subscribers ==> sub.View() == Subscription.Close(old(sub.View()))
    {
      var snapshot := subscriptions;
      while snapshot != {}
        invariant snapshot == subscriptions && snapshot <= old(subscriptions) <= subscribers
        invariant ValidSubscriptions()
        invariant forall sub :: sub in subscribers ==>
                    sub.View() == if sub in snapshot then old(sub.View()) else Subscription.Close(old(sub.View()))
        decreases |snapshot|
      {
        var sub :| sub in snapshot;
        sub.Close();
        snapshot := snapshot - {sub};
      }
    }

    /** `stop()` up to the call of the backend. */
    method Stop()
      requires ValidTable() && ValidSubscriptions()
      modifies this`pendingRequests, this`subscriptions, pendingRequests.Values, subscriptions
      ensures ValidTable() && View() == Apply(old(View()), FailAll(SHUTDOWN))
      ensures ValidSubscriptions() && subscriptions == {}
      ensures forall sub :: sub in subscribers ==> sub.View() == Subscription.Close(old(sub.View()))
    {
      FailPending(SHUTDOWN);
      ghost var failed := View();
      CloseSubscriptions();
      assert View() == failed;
    }

    /** `destroy()` up to the call of the backend: it does not touch the table. */
    method Destroy()
      requires ValidTable() && ValidSubscriptions()
      modifies this`subscriptions, subscriptions
      ensures ValidTable() && View() == old(View())
      ensures ValidSubscriptions() && subscriptions == {}
      ensures forall sub :: sub in subscribers ==> sub.View() == Subscription.Close(old(sub.View()))
    {
      CloseSubscriptions();
    }

    method Register(msgId: Id, pending: PendingRequest, ghost mode: Mode)
      requires ValidTable() && msgId !in registered && pending !in registered.Values
      requires pending.View() == Fresh(mode, |log|)
      modifies this`pendingRequests, this`registered
      ensures ValidTable()
      ensures registered == old(registered)[msgId := pending]
      ensures pendingRequests == old(pendingRequests)[msgId := pending]
      ensures View() == Apply(old(View()), Add(msgId, mode))
    {
      ghost var was := View();
      pendingRequests := pendingRequests[msgId := pending];
      registered := registered[msgId := pending];
      IsAdd(was, View(), msgId, mode);
    }

    /** `_pending_requests.pop(msg_id, None)` */
    method Forget(msgId: Id)
      requires ValidTable()
      modifies this`pendingRequests
      ensures ValidTable() && pendingRequests == old(pendingRequests) - {msgId}
      ensures View() == Apply(old(View()), Drop(msgId))
    {
      pendingRequests := pendingRequests - {msgId};
    }

    /** Register the request and send it; a request that cannot be sent is dropped. */
    method Launch(msgId: Id, pending: PendingRequest, ghost mode: Mode, sending: Lifecycle.Sending)
      returns (progress: Progress)
      requires ValidTable() && msgId !in registered && pending !in registered.Values
      requires pending.View() == Fresh(mode, |log|)
      modifies this`pendingRequests, this`registered
      ensures ValidTable() && registered == old(registered)[msgId := pending]
      ensures View() == ApplyAll(old(View()), OpenOps(msgId, mode, sending))
      ensures progress == Launched(sending)
    {
      IsOpened(View(), msgId, mode, sending);
      Register(msgId, pending, mode);
      match sending
      case Sent => progress := Waits;
      case NotSent =>
        Forget(msgId);
        progress := Ends(Raised(UNSENT));
      case Raises =>
        Forget(msgId);
        progress := Ends(Raised(CLOSED));
    }

    // ---- request() ----

    /** `request()` up to its await. `running` and `sending` are the answers of the backend. */
    method BeginRequest(msgId: Id, running: bool, sending: Lifecycle.Sending) returns (progress: Progress)
      requires ValidTable() && msgId !in registered
      modifies this`pendingRequests, this`registered
      ensures ValidTable()
      ensures if running then msgId in registered && fresh(registered[msgId])
                              && registered == old(registered)[msgId := registered[msgId]]
              else registered == old(registered)
      ensures View() == if running then ApplyAll(old(View()), OpenOps(msgId, FutureMode, sending)) else old(View())
      ensures progress == if !running then Refused("Bus not running")
                          else Launched(sending)
    {
      if !running {
        return Refused("Bus not running");
      }
      var pending := new PendingRequest.ForFuture(|log|);
      progress := Launch(msgId, pending, FutureMode, sending);
    }

    /** `wait_for(future, timeout)` runs again; `late` says that its timeout has passed. */
    method ResumeRequest(msgId: Id, pending: PendingRequest, late: bool) returns (progress: Progress)
      requires ValidTable() && msgId in registered && registered[msgId] == pending
      requires pending.queue.None? && pending.future.Some? && !pending.future.value.Cancelled?
      modifies this`pendingRequests, pending
      ensures ValidTable()
      ensures var finding := Look(old(pending.View()), late);
              && View() == ApplyAll(old(View()), WakeOps(msgId, FutureMode, finding))
              && progress == (match finding
                              case Ready(Result(value)) => Ends(Returned(value))
                              case Ready(Error(exc)) => Ends(Raised(exc))
                              case Ready(Chunk(_)) => Waits
                              case TooLate => Ends(TimedOut)
                              case Nothing => Waits)
    {
      ghost var was, finding := View(), Look(pending.View(), late);
      match pending.future.value {
        case Resolved(value) => progress := Ends(Returned(value));
        case Rejected(exc) =>
          pendingRequests := pendingRequests - {msgId};
          progress := Ends(Raised(exc));
        case Waiting =>
          if late {
            pending.CancelFuture();
            pendingRequests := pendingRequests - {msgId};
            progress := Ends(TimedOut);
          } else {
            progress := Waits;
          }
      }
      IsRequestWake(was, View(), msgId, finding);
    }

    /** The task that awaits the request is cancelled: no `except` clause applies. */
    method CancelRequest(msgId: Id, pending: PendingRequest)
      requires ValidTable() && msgId in registered && registered[msgId] == pending
      modifies pending
      ensures ValidTable() && View() == ApplyAll(old(View()), LeaveOps(msgId, FutureMode))
    {
      OneOp(old(View()), Cancel(msgId));
      pending.CancelFuture();
    }

    // ---- stream_request() ----

    /** `any(p.queue is not None for p in pending)` */
    method AnyStream() returns (any: bool)
      requires ValidTable()
      ensures any == StreamPending(View())
    {
      var ids := pendingRequests.Keys;
      while ids != {}
        invariant ids <= pendingRequests.Keys
        invariant forall id :: id in pendingRequests && id !in ids ==> pendingRequests[id].queue.None?
        decreases |ids|
      {
        var id :| id in ids;
        if pendingRequests[id].queue.Some? {
          assert id in View().table && View().store[id].queue.Some?;
          return true;
        }
        ids := ids - {id};
      }
      any := false;
    }

    /** `stream_request()` up to its loop. */
    method BeginStream(msgId: Id, running: bool, sending: Lifecycle.Sending) returns (progress: Progress)
      requires ValidTable() && msgId !in registered
      modifies this`pendingRequests, this`registered
      ensures ValidTable()
      ensures if running && !StreamPending(old(View()))
              then msgId in registered && fresh(registered[msgId])
                   && registered == old(registered)[msgId := registered[msgId]]
              else registered == old(registered)
      ensures View() == if running && !StreamPending(old(View()))
                        then ApplyAll(old(View()), OpenOps(msgId, StreamMode, sending)) else old(View())
      ensures progress == if !running then Refused("Bus not running")
                          else if StreamPending(old(View()))
                          then Refused("Only one active stream_request is supported at a time")
                          else Launched(sending)
    {
      if !running {
        return Refused("Bus not running");
      }
      var busy := AnyStream();
      if busy {
        return Refused("Only one active stream_request is supported at a time");
      }
      var pending := new PendingRequest.ForStream(|log|);
      progress := Launch(msgId, pending, StreamMode, sending);
    }

    /** One turn of the loop of `stream_request()`: drain first, then mind the deadline. */
    method StreamTurn(msgId: Id, pending: PendingRequest, late: bool) returns (progress: Progress)
      requires ValidTable() && msgId in registered && registered[msgId] == pending
      requires pending.queue.Some? && pending.future.None?
      modifies this`pendingRequests, pending
      ensures ValidTable()
      ensures var finding := Look(old(pending.View()), late);
              && View() == ApplyAll(old(View()), WakeOps(msgId, StreamMode, finding))
              && progress == (match finding
                              case Ready(Chunk(text)) => Gives(text)
                              case Ready(Result(value)) => Ends(Returned(value))
                              case Ready(Error(exc)) => Ends(Raised(exc))
                              case TooLate => Ends(TimedOut)
                              case Nothing => Waits)
    {
      ghost var was, finding := View(), Look(pending.View(), late);
      progress := Progressed(pending, late);
      if progress.Ends? {
        // the `finally` block
        pendingRequests := pendingRequests - {msgId};
      }
      IsStreamTurn(was, View(), msgId, finding);
    }

    /** What the loop finds: an item that is ready, or else the state of the deadline. */
    method Progressed(pending: PendingRequest, late: bool) returns (progress: Progress)
      requires pending.queue.Some? && pending.future.None?
      modifies pending
      ensures var finding := Look(old(pending.View()), late);
              && pending.View() == (if finding.Ready? then TakeItem(old(pending.View())) else old(pending.View()))
              && progress == (match finding
                              case Ready(Chunk(text)) => Gives(text)
                              case Ready(Result(value)) => Ends(Returned(value))
                              case Ready(Error(exc)) => Ends(Raised(exc))
                              case TooLate => Ends(TimedOut)
                              case Nothing => Waits)
    {
      if pending.queue.value == [] {
        return if late then Ends(TimedOut) else Waits;
      }
      var item := pending.GetNowait();
      match item
      case Chunk(text) => progress := Gives(text);
      case Result(value) => progress := Ends(Returned(value));
      case Error(exc) => progress := Ends(Raised(exc));
    }

    /** The consumer abandons the stream; only the `finally` block runs. */
    method AbandonStream(msgId: Id)
      requires ValidTable()
      modifies this`pendingRequests
      ensures ValidTable() && View() == ApplyAll(old(View()), LeaveOps(msgId, StreamMode))
    {
      OneOp(old(View()), Drop(msgId));
      pendingRequests := pendingRequests - {msgId};
    }
  }
}
