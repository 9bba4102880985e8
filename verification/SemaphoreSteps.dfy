/** Every step of the semaphore keeps the shape of the waiters, the queue and the calls. */
module SemaphoreSteps {
  import opened Options
  import opened Waking
  import opened SemaphoreModel
  import opened SemaphoreInvariant
  import AQ = AbstractQueue

  // ---------------------------------------------------------- the queue's part

  /** Setting the state of an empty queue, without reopening it. */
  lemma StateSetKeepsShape(s: Sem, v: nat)
    requires Shape(s) && s.q.live == [] && (s.q.state % 2 == 1 ==> v % 2 == 1)
    ensures Shape(s.(q := Do(s.q, AQ.SetState(v))))
  {
    StateSet(s.q, v);
    var t := s.(q := Do(s.q, AQ.SetState(v)));
    forall w | 0 <= w < |t.waiters| ensures PlaceOk(t.q, t.waiters[w], w) {
      assert PlaceOk(s.q, s.waiters[w], w);
    }
    forall i | 0 <= i < |t.calls| ensures CallOk(t.q, t.lock, t.calls[i], i) {
      assert CallOk(s.q, s.lock, s.calls[i], i);
    }
  }

  // ------------------------------------------------------------- the waiters

  /** A waiter changes without moving in or out of the queue. */
  lemma WaiterSetKeepsShape(s: Sem, w: nat, x: Waiter)
    requires Shape(s) && w < |s.waiters|
    requires Sane(x) && TakerOk(s.calls, x) && PlaceOk(s.q, x, w)
    requires w in s.q.live && w != s.q.live[0] ==> x.remaining == x.permits
    ensures Shape(s.(waiters := s.waiters[w := x]))
  {
    var t := s.(waiters := s.waiters[w := x]);
    forall j | 1 <= j < |t.q.live| ensures Untouched(t.waiters, t.q.live[j]) {
      assert Untouched(s.waiters, s.q.live[j]);
    }
  }

  lemma NewWaiterKeepsShape(s: Sem, p: nat)
    requires Shape(s) && p < U32
    ensures Shape(s.(waiters := s.waiters + [Waiter(p, 0, Unqueued, Rest, Unset)]))
  {
    var x := Waiter(p, 0, Unqueued, Rest, Unset);
    var t := s.(waiters := s.waiters + [x]);
    forall w | 0 <= w < |t.waiters| ensures Sane(t.waiters[w]) && TakerOk(t.calls, t.waiters[w]) && PlaceOk(t.q, t.waiters[w], w) {
      if w < |s.waiters| {
        assert t.waiters[w] == s.waiters[w];
      }
    }
    forall j | 1 <= j < |t.q.live| ensures Untouched(t.waiters, t.q.live[j]) {
      assert Untouched(s.waiters, s.q.live[j]);
      assert AQ.Present(s.q, s.q.live[j]);
    }
  }

  // ------------------------------------------------------ in and out of line

  lemma EnqueueKeepsShape(s: Sem, w: nat, x: Waiter)
    requires Shape(s) && w < |s.waiters| && !AQ.Present(s.q, w) && !Closed(s.q)
    requires Sane(x) && x.node.Queued? && (s.q.live != [] ==> x.remaining == x.permits)
    ensures Shape(s.(q := Do(s.q, AQ.Enqueue(w)), waiters := s.waiters[w := x]))
  {
    var t := s.(q := Do(s.q, AQ.Enqueue(w)), waiters := s.waiters[w := x]);
    AQ.InvKept(s.q, AQ.Enqueue(w));
    forall n: nat ensures AQ.Present(t.q, n) <==> AQ.Present(s.q, n) || n == w {
      AQ.PresentAfter(s.q, AQ.Enqueue(w), n);
    }
    forall k | 0 <= k < |t.waiters| ensures PlaceOk(t.q, t.waiters[k], k) {
      assert PlaceOk(s.q, s.waiters[k], k);
    }
    forall i | 0 <= i < |t.calls| ensures CallOk(t.q, t.lock, t.calls[i], i) {
      assert CallOk(s.q, s.lock, s.calls[i], i);
    }
    forall j | 1 <= j < |t.q.live| ensures Untouched(t.waiters, t.q.live[j]) {
      if j < |s.q.live| { assert Untouched(s.waiters, s.q.live[j]); }
    }
  }

  /** No call is about to dequeue and count on a non-empty queue. */
  predicate NoneWorking(s: Sem) {
    forall i :: 0 <= i < |s.calls| ==> !(s.calls[i].kind.AddPermits? && s.calls[i].pc.Working?)
  }

  lemma RemoveKeepsHeadOnly(s: Sem, w: nat, x: Waiter, v: nat)
    requires Shape(s) && w < |s.waiters| && AQ.Present(s.q, w)
    ensures HeadOnly(s.(q := Do(s.q, AQ.Remove(w, v)), waiters := s.waiters[w := x]))
  {
    var t := s.(q := Do(s.q, AQ.Remove(w, v)), waiters := s.waiters[w := x]);
    RemoveFromLive(s.q, w, v);
    AQ.PresentAfter(s.q, AQ.Remove(w, v), w);
    forall j | 1 <= j < |t.q.live| ensures Untouched(t.waiters, t.q.live[j]) {
      var k :| 0 <= k < |s.q.live[1..]| && s.q.live[1..][k] == t.q.live[j];
      assert Untouched(s.waiters, s.q.live[k + 1]);
      assert t.q.live[j] != w;
    }
  }

  lemma RemoveKeepsShape(s: Sem, w: nat, x: Waiter, v: nat)
    requires Shape(s) && w < |s.waiters| && AQ.Present(s.q, w)
    requires Sane(x) && TakerOk(s.calls, x) && !x.node.Queued?
    requires x.node.Dequeued? ==> x.remaining == 0
    requires s.q.live == [w] ==> NoneWorking(s)
    ensures Shape(s.(q := Do(s.q, AQ.Remove(w, v)), waiters := s.waiters[w := x]))
  {
    var t := s.(q := Do(s.q, AQ.Remove(w, v)), waiters := s.waiters[w := x]);
    AQ.InvKept(s.q, AQ.Remove(w, v));
    RemoveFromLive(s.q, w, v);
    RemoveKeepsHeadOnly(s, w, x, v);
    forall n: nat ensures AQ.Present(t.q, n) <==> AQ.Present(s.q, n) && n != w {
      AQ.PresentAfter(s.q, AQ.Remove(w, v), n);
    }
    forall k | 0 <= k < |t.waiters| ensures PlaceOk(t.q, t.waiters[k], k) {
      assert PlaceOk(s.q, s.waiters[k], k);
    }
    forall i | 0 <= i < |t.calls| ensures CallOk(t.q, t.lock, t.calls[i], i) {
      assert CallOk(s.q, s.lock, s.calls[i], i);
    }
    assert t.q.lists != map[] ==> s.q.lists != map[];
  }

  // --------------------------------------------------------------- the calls

  /** A call changes while the queue stays. */
  lemma CallSetKeepsShape(s: Sem, i: nat, c: Call, lock: Option<nat>)
    requires Shape(s) && i < |s.calls|
    requires CallOk(s.q, lock, c, i)
    requires WillWake(s.calls[i].pc) ==> WillWake(c.pc)
    requires lock == s.lock || (s.lock == None && lock == Some(i)) || (s.lock == Some(i) && lock == None)
    ensures Shape(s.(calls := s.calls[i := c], lock := lock))
  {
    var t := s.(calls := s.calls[i := c], lock := lock);
    forall k | 0 <= k < |t.calls| ensures CallOk(t.q, t.lock, t.calls[k], k) {
      assert CallOk(s.q, s.lock, s.calls[k], k);
    }
    forall w | 0 <= w < |t.waiters| ensures TakerOk(t.calls, t.waiters[w]) {
      assert TakerOk(s.calls, s.waiters[w]);
    }
    assert HeadOnly(t);
  }

  lemma NewCallKeepsShape(s: Sem, c: Call, lock: Option<nat>)
    requires Shape(s) && (lock == s.lock || (s.lock == None && lock == Some(|s.calls|)))
    requires CallOk(s.q, lock, c, |s.calls|)
    ensures Shape(s.(calls := s.calls + [c], lock := lock))
  {
    var t := s.(calls := s.calls + [c], lock := lock);
    forall k | 0 <= k < |t.calls| ensures CallOk(t.q, t.lock, t.calls[k], k) {
      if k < |s.calls| { assert CallOk(s.q, s.lock, s.calls[k], k); }
    }
    forall w | 0 <= w < |t.waiters| ensures TakerOk(t.calls, t.waiters[w]) {
      assert TakerOk(s.calls, s.waiters[w]);
    }
    assert HeadOnly(t);
  }

  // ------------------------------------------------------------ the future

  lemma PollTryKeepsShape(s: Sem, w: nat)
    requires Shape(s) && Enabled(s, PollTry(w))
    ensures Shape(PollTryNext(s, w))
  {
    var x := s.waiters[w];
    var v := View(s.q);
    assert Sane(x) && TakerOk(s.calls, x) && PlaceOk(s.q, x, w);
    if v.Some? && CheckAcquire(v.value, x.permits).Some? {
      WaiterSetKeepsShape(s, w, x.(permits := 0, remaining := 0));
      StateSetKeepsShape(s.(waiters := s.waiters[w := x.(permits := 0, remaining := 0)]), CheckAcquire(v.value, x.permits).value);
      var t := s.(waiters := s.waiters[w := x.(permits := 0, remaining := 0)]);
      var u := t.(q := Do(s.q, AQ.SetState(CheckAcquire(v.value, x.permits).value)));
      assert PollTryNext(s, w) == u.(held := s.held + [x.permits]);
    } else if !Closed(s.q) && x.permits >= Grabbed(v) {
      WaiterSetKeepsShape(s, w, x.(remaining := x.permits - Grabbed(v), poll := Enqueuing(v), wake := Armed));
    }
  }

  lemma GrabbedSmall(v: nat)
    ensures Grabbed(Some(v)) <= v / 2
    ensures v < U32 ==> Grabbed(Some(v)) == v / 2
  {
    assert v % U32 <= v;
  }

  /** A waiter that reaches the queue still misses a permit, unless it asked for none. */
  lemma EnqueuedIsSane(x: Waiter)
    requires Sane(x) && x.poll.Enqueuing?
    ensures Sane(x.(node := Queued, poll := Rest))
    ensures x.poll.view.None? ==> x.remaining == x.permits
    ensures x.poll.view.Some? ==> x.poll.view.value % 2 == 0
  {
    if x.poll.view.Some? { GrabbedSmall(x.poll.view.value); }
  }

  /** What a successful conditional enqueue relies on. */
  lemma PollEnqueueReady(q: AQ.Queue<nat>, calls: seq<Call>, x: Waiter, w: nat)
    requires Sane(x) && TakerOk(calls, x) && PlaceOk(q, x, w) && x.poll.Enqueuing? && View(q) == x.poll.view
    ensures var y := x.(node := Queued, poll := Rest);
      && Sane(y) && TakerOk(calls, y) && !AQ.Present(q, w) && !Closed(q)
      && (q.live != [] ==> y.remaining == y.permits)
  {
    EnqueuedIsSane(x);
  }

  lemma LeakedIsFree(s: Sem, leaked: int)
    requires Shape(s)
    ensures Shape(s.(leaked := leaked))
  {
  }

  lemma PollEnqueueKeepsShape(s: Sem, w: nat)
    requires Shape(s) && Enabled(s, PollEnqueue(w))
    ensures Shape(PollEnqueueNext(s, w))
  {
    var x := s.waiters[w];
    assert Sane(x) && TakerOk(s.calls, x) && PlaceOk(s.q, x, w);
    if View(s.q) != x.poll.view {
      WaiterSetKeepsShape(s, w, x.(poll := Rest));
    } else {
      var y := x.(node := Queued, poll := Rest);
      PollEnqueueReady(s.q, s.calls, x, w);
      EnqueueKeepsShape(s, w, y);
      var t := s.(q := Do(s.q, AQ.Enqueue(w)), waiters := s.waiters[w := y]);
      LeakedIsFree(t, PollEnqueueNext(s, w).leaked);
    }
  }

  lemma PollDequeuedKeepsShape(s: Sem, w: nat)
    requires Shape(s) && Enabled(s, PollDequeued(w))
    ensures Shape(PollDequeuedNext(s, w))
  {
    var x := s.waiters[w];
    assert Sane(x) && TakerOk(s.calls, x) && PlaceOk(s.q, x, w);
    if !Closed(s.q) {
      WaiterSetKeepsShape(s, w, x.(permits := 0));
    }
  }

  lemma NewAddKeepsShape(s: Sem, n: nat)
    requires Shape(s)
    ensures Shape(NewCall(s, n))
  {
    var c := Call(AddPermits, n, 0, if n == 0 then Over else Fast);
    NewCallKeepsShape(s, c, s.lock);
  }

  /** With the lock free no call is at work. */
  lemma FreeLock(s: Sem)
    requires Shape(s) && s.lock.None?
    ensures NoneWorking(s)
  {
    forall i | 0 <= i < |s.calls| ensures !(s.calls[i].kind.AddPermits? && s.calls[i].pc.Working?) {
      assert CallOk(s.q, s.lock, s.calls[i], i);
    }
  }

  ghost function Dropped(s: Sem, w: nat): Sem
    requires w < |s.waiters| && s.waiters[w].remaining <= s.waiters[w].permits
  {
    s.(q := Do(s.q, AQ.Remove(w, s.waiters[w].permits - s.waiters[w].remaining)), waiters := s.waiters[w := GONE])
  }

  lemma DroppedKeepsShape(s: Sem, w: nat)
    requires Shape(s) && Enabled(s, Cancel(w)) && s.waiters[w].node.Queued?
    ensures s.waiters[w].remaining <= s.waiters[w].permits
    ensures Shape(Dropped(s, w)) && Dropped(s, w).lock.None?
    ensures s.q.live == [] ==> Closed(s.q) && Closed(Dropped(s, w).q)
    ensures s.q.live != [] && w != s.q.live[|s.q.live| - 1] ==> Dropped(s, w).q.live != []
  {
    var x := s.waiters[w];
    assert Sane(x) && TakerOk(s.calls, x) && PlaceOk(s.q, x, w);
    FreeLock(s);
    RemoveFromLive(s.q, w, x.permits - x.remaining);
    RemoveKeepsShape(s, w, GONE, x.permits - x.remaining);
  }

  /** Handing the permits of a dropped future to those behind it, with the lock still held. */
  lemma GiveBackKeepsShape(u: Sem, amount: nat)
    requires Shape(u) && u.lock.None? && u.q.live != [] && amount > 0
    ensures Shape(u.(calls := u.calls + [Call(AddPermits, amount, 0, Working)], lock := Some(|u.calls|)))
  {
    NewCallKeepsShape(u, Call(AddPermits, amount, 0, Working), Some(|u.calls|));
  }

  lemma CancelQueuedKeepsShape(s: Sem, w: nat)
    requires Shape(s) && Enabled(s, Cancel(w)) && s.waiters[w].node.Queued?
    ensures Shape(CancelNext(s, w))
  {
    DroppedKeepsShape(s, w);
    var u := Dropped(s, w);
    var acquired := s.waiters[w].permits - s.waiters[w].remaining;
    assert u == s.(waiters := s.waiters[w := GONE], q := Do(s.q, AQ.Remove(w, acquired)));
    if s.q.live != [] && w == s.q.live[|s.q.live| - 1] {
      assert Shape(u.(leaked := CancelNext(s, w).leaked));
    } else if Closed(u.q) {
      NewAddKeepsShape(u, acquired);
    } else if acquired > 0 {
      GiveBackKeepsShape(u, acquired);
    }
  }

  lemma CancelKeepsShape(s: Sem, w: nat)
    requires Shape(s) && Enabled(s, Cancel(w))
    ensures Shape(CancelNext(s, w))
  {
    var x := s.waiters[w];
    assert Sane(x) && TakerOk(s.calls, x) && PlaceOk(s.q, x, w);
    if x.node.Queued? {
      CancelQueuedKeepsShape(s, w);
    } else {
      WaiterSetKeepsShape(s, w, GONE);
      var t := s.(waiters := s.waiters[w := GONE]);
      if x.node.Dequeued? { NewAddKeepsShape(t, x.permits - x.remaining); }
    }
  }
}
