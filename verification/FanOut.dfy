/** Delivering a notification to, or closing, every active subscription. */
module FanOut {
  import opened Protocol
  import opened Subscription

  type Key = nat

  /** All subscriptions ever made, and the active set of the bus. */
  datatype Hub = Hub(subs: map<Key, Sub>, active: set<Key>)

  /** The active set is exactly the set of the subscriptions that are not closed. */
  predicate HubInv(h: Hub) {
    && h.active <= h.subs.Keys
    && forall k :: k in h.subs ==> (k in h.active <==> !h.subs[k].closed)
  }

  /** What the loop does to one subscriber: deliver, or close; closing detaches it. */
  datatype Job = Send(data: Notification) | Shut

  function Do(s: Sub, job: Job): Sub {
    match job
    case Send(data) => DeliverTo(s, data)
    case Shut => Close(s)
  }

  function Serve(h: Hub, k: Key, job: Job): (h': Hub)
    requires k in h.subs
  {
    var s := Do(h.subs[k], job);
    Hub(h.subs[k := s], if s.closed then h.active - {k} else h.active)
  }

  /** The loop over a snapshot in a given order. */
  function ServeAll(h: Hub, order: seq<Key>, job: Job): Hub
    requires forall k :: k in order ==> k in h.subs
    decreases |order|
  {
    if order == [] then h else ServeAll(Serve(h, order[0], job), order[1..], job)
  }

  /** Each active subscriber served alone, all others untouched. */
  function ServedAlone(h: Hub, served: set<Key>, job: Job): Hub
    requires served <= h.subs.Keys
  {
    Hub(map k | k in h.subs :: if k in served then Do(h.subs[k], job) else h.subs[k],
        set k | k in h.active && (k in served ==> !Do(h.subs[k], job).closed))
  }

  predicate Distinct(order: seq<Key>) {
    forall i, j :: 0 <= i < j < |order| ==> order[i] != order[j]
  }

  function Members(order: seq<Key>): (members: set<Key>)
    ensures forall k :: k in members <==> k in order
  {
    set k | k in order
  }

  lemma ServeOne(h: Hub, k: Key, rest: set<Key>, job: Job)
    requires HubInv(h) && k in h.subs && rest <= h.subs.Keys && k !in rest
    ensures ServedAlone(Serve(h, k, job), rest, job) == ServedAlone(h, rest + {k}, job)
  {
    var a, b := ServedAlone(Serve(h, k, job), rest, job), ServedAlone(h, rest + {k}, job);
    assert a.subs.Keys == b.subs.Keys;
    forall j | j in a.subs
      ensures a.subs[j] == b.subs[j]
    {
    }
    forall j
      ensures j in a.active <==> j in b.active
    {
    }
  }

  lemma ServeKeeps(h: Hub, k: Key, job: Job)
    requires HubInv(h) && k in h.subs
    ensures HubInv(Serve(h, k, job))
  {
  }

  lemma {:induction false} ServeAllIsServedAlone(h: Hub, order: seq<Key>, job: Job)
    requires HubInv(h) && Distinct(order) && forall k :: k in order ==> k in h.subs
    ensures ServeAll(h, order, job) == ServedAlone(h, Members(order), job)
    ensures HubInv(ServeAll(h, order, job))
    decreases |order|
  {
    if order == [] {
      var z := ServedAlone(h, {}, job);
      assert Members(order) == {} && z.subs == h.subs && z.active == h.active;
    } else {
      var k, rest := order[0], order[1..];
      assert forall j :: j in rest ==> j in order;
      assert Members(order) == Members(rest) + {k};
      ServeKeeps(h, k, job);
      ServeAllIsServedAlone(Serve(h, k, job), rest, job);
      ServeOne(h, k, Members(rest), job);
    }
  }

  /** Fan-out is isolated and does not depend on the order of the snapshot: whatever the
      order, each subscriber ends in the state that serving it alone gives, nobody else
      changes, and the active set is again the set of the subscriptions not closed. */
  lemma FanOutIsolation(h: Hub, order: seq<Key>, data: Notification)
    requires HubInv(h) && Distinct(order) && Members(order) == h.active
    ensures var z := ServeAll(h, order, Send(data));
            && HubInv(z) && z.subs.Keys == h.subs.Keys
            && (forall k :: k in h.subs ==>
                  z.subs[k] == if k in h.active then DeliverTo(h.subs[k], data) else h.subs[k])
            && (forall k :: k in z.active <==> k in h.active && !DeliverTo(h.subs[k], data).closed)
  {
    ServeAllIsServedAlone(h, order, Send(data));
  }

  lemma FanOutOrderIndependent(h: Hub, order: seq<Key>, other: seq<Key>, data: Notification)
    requires HubInv(h) && Distinct(order) && Distinct(other)
    requires Members(order) == h.active == Members(other)
    ensures ServeAll(h, order, Send(data)) == ServeAll(h, other, Send(data))
  {
    ServeAllIsServedAlone(h, order, Send(data));
    ServeAllIsServedAlone(h, other, Send(data));
  }

  lemma CloseKeepsNotes(s: Sub)
    requires SubInv(s)
    ensures Close(s).closed && SubInv(Close(s)) && Notes(Close(s).queue) == Notes(s.queue)
  {
    CloseKeeps(s);
    NotesConcat(s.queue, [Sentinel]);
    assert Notes(s.queue) + [] == Notes(s.queue);
  }

  /** Tearing down closes every subscription and leaves no active one; what each had
      buffered is still there to be drained. */
  lemma TeardownClosesAll(h: Hub, order: seq<Key>)
    requires HubInv(h) && Distinct(order) && Members(order) == h.active
    requires forall k :: k in h.subs ==> SubInv(h.subs[k])
    ensures var z := ServeAll(h, order, Shut);
            && HubInv(z) && z.active == {}
            && (forall k :: k in h.subs ==>
                  k in z.subs && z.subs[k].closed && SubInv(z.subs[k])
                  && Notes(z.subs[k].queue) == Notes(h.subs[k].queue))
  {
    ServeAllIsServedAlone(h, order, Shut);
    var z := ServeAll(h, order, Shut);
    forall k | k in h.subs
      ensures z.subs[k].closed && SubInv(z.subs[k]) && Notes(z.subs[k].queue) == Notes(h.subs[k].queue)
    {
      assert z.subs[k] == if k in h.active then Close(h.subs[k]) else h.subs[k];
      CloseKeepsNotes(h.subs[k]);
    }
  }
}
