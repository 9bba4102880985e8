/** The steps of `add_permits` and `close` keep the semaphore's shape. */
module SemaphoreCalls {
  import opened Options
  import opened Waking
  import opened SemaphoreModel
  import opened SemaphoreInvariant
  import opened SemaphoreSteps
  import AQ = AbstractQueue

  lemma AttemptKeepsShape(s: Sem, i: nat, onFailure: CallPc, lock: Option<nat>)
    requires Shape(s) && i < |s.calls|
    requires (s.calls[i].pc.Fast? && onFailure.Want? && lock == s.lock)
      || (s.calls[i].pc.Locked? && onFailure.Working? && lock == None && (s.calls[i].kind.CloseAll? ==> s.q.live == []))
    ensures Shape(Attempt(s, i, onFailure, lock))
  {
    var c := s.calls[i];
    assert CallOk(s.q, s.lock, c, i);
    if s.q.live != [] {
      CallSetKeepsShape(s, i, c.(pc := onFailure), s.lock);
      assert Attempt(s, i, onFailure, lock) == s.(calls := s.calls[i := c.(pc := onFailure)], lock := s.lock);
    } else {
      var v := if c.kind.CloseAll? then Some(WithClosed(s.q.state)) else CheckAdd(s.q.state, c.amount);
      if v.Some? {
        var d := c.(amount := 0, pc := Over);
        StateSetKeepsShape(s, v.value);
        var t := s.(q := Do(s.q, AQ.SetState(v.value)));
        assert CallOk(t.q, t.lock, c, i);
        CallSetKeepsShape(t, i, d, lock);
        assert Attempt(s, i, onFailure, lock) == t.(calls := t.calls[i := d], lock := lock);
      }
    }
  }

  /** The swap of `drain_try_set_state(CLOSED)`: everyone in line moves to the drained list. */
  lemma OpenDrainKeepsShape(s: Sem, i: nat)
    requires Shape(s) && i < |s.calls| && s.calls[i].pc.Locked? && s.calls[i].kind.CloseAll? && s.q.live != []
    ensures Shape(SetPc(s, i, Working).(q := Do(s.q, AQ.OpenDrain(i, 1))))
  {
    var t := SetPc(s, i, Working).(q := Do(s.q, AQ.OpenDrain(i, 1)));
    assert CallOk(s.q, s.lock, s.calls[i], i);
    AQ.InvKept(s.q, AQ.OpenDrain(i, 1));
    forall n: nat ensures AQ.Present(t.q, n) <==> AQ.Present(s.q, n) {
      AQ.PresentAfter(s.q, AQ.OpenDrain(i, 1), n);
    }
    forall k | 0 <= k < |t.waiters| ensures PlaceOk(t.q, t.waiters[k], k) && TakerOk(t.calls, t.waiters[k]) {
      assert PlaceOk(s.q, s.waiters[k], k) && TakerOk(s.calls, s.waiters[k]);
    }
    forall k | 0 <= k < |t.calls| ensures CallOk(t.q, t.lock, t.calls[k], k) {
      assert CallOk(s.q, s.lock, s.calls[k], k);
    }
  }

  lemma CallRetryKeepsShape(s: Sem, i: nat)
    requires Shape(s) && Enabled(s, CallRetry(i))
    ensures Shape(CallRetryNext(s, i))
  {
    if s.q.live != [] && s.calls[i].kind.CloseAll? {
      OpenDrainKeepsShape(s, i);
    } else {
      AttemptKeepsShape(s, i, Working, None);
    }
  }

  /** The first in line gets a part of what it misses. */
  lemma PartialGrantKeepsShape(s: Sem, i: nat, w: nat)
    requires Shape(s) && Enabled(s, Grant(i)) && s.q.live != [] && w == s.q.live[0] < |s.waiters|
    requires s.waiters[w].remaining > s.calls[i].amount
    ensures Shape(GrantNext(s, i))
  {
    var c, x := s.calls[i], s.waiters[w];
    assert AQ.Present(s.q, w);
    assert CallOk(s.q, s.lock, c, i);
    assert Sane(x) && TakerOk(s.calls, x) && PlaceOk(s.q, x, w);
    var y := x.(remaining := x.remaining - c.amount);
    WaiterSetKeepsShape(s, w, y);
    var t := s.(waiters := s.waiters[w := y]);
    CallSetKeepsShape(t, i, c.(amount := 0, pc := Unlocking(true)), s.lock);
    assert GrantNext(s, i) == t.(calls := t.calls[i := c.(amount := 0, pc := Unlocking(true))], lock := s.lock);
  }

  /** The first in line gets all it misses and leaves. */
  lemma FullGrantKeepsShape(s: Sem, i: nat, w: nat)
    requires Shape(s) && Enabled(s, Grant(i)) && s.q.live != [] && w == s.q.live[0] < |s.waiters|
    requires s.waiters[w].remaining <= s.calls[i].amount && StateWord(s.calls[i].amount - s.waiters[w].remaining).Some?
    ensures Shape(GrantNext(s, i))
  {
    var c, x := s.calls[i], s.waiters[w];
    assert AQ.Present(s.q, w);
    assert CallOk(s.q, s.lock, c, i);
    assert Sane(x) && TakerOk(s.calls, x) && PlaceOk(s.q, x, w);
    var d := GrantNext(s, i).calls[i];
    assert CallOk(s.q, s.lock, d, i);
    CallSetKeepsShape(s, i, d, s.lock);
    var t := s.(calls := s.calls[i := d], lock := s.lock);
    var y := x.(remaining := 0, node := Dequeued, wake := Taken(i));
    OnlyOneWorks(s, t, i);
    var word := StateWord(c.amount - x.remaining).value;
    RemoveKeepsShape(t, w, y, word);
    var u := t.(q := Do(t.q, AQ.Remove(w, word)), waiters := t.waiters[w := y]);
    LeakedIsFree(u, GrantNext(s, i).leaked);
    assert GrantNext(s, i) == u.(leaked := GrantNext(s, i).leaked);
  }

  /** When the loop empties the queue, its call stops working, and no other works. */
  lemma OnlyOneWorks(s: Sem, t: Sem, i: nat)
    requires Calling(s) && i < |s.calls| && s.lock == Some(i)
    requires |t.calls| == |s.calls| && forall k :: 0 <= k < |s.calls| && k != i ==> t.calls[k] == s.calls[k]
    ensures !t.calls[i].pc.Working? ==> NoneWorking(t)
  {
    forall k | 0 <= k < |t.calls| && k != i ensures !(t.calls[k].kind.AddPermits? && t.calls[k].pc.Working?) {
      assert CallOk(s.q, s.lock, s.calls[k], k);
    }
  }

  /** The granting loop never finds the queue empty, a waiter without waker or its buffer full. */
  lemma GrantHasWaiter(s: Sem, i: nat)
    requires Shape(s) && Enabled(s, Grant(i))
    ensures s.q.live != [] && s.q.live[0] < |s.waiters| && s.waiters[s.q.live[0]].wake.Armed? && s.calls[i].batch < BATCH
    ensures s.waiters[s.q.live[0]].node.Queued?
  {
    assert CallOk(s.q, s.lock, s.calls[i], i);
    var w := s.q.live[0];
    assert AQ.Present(s.q, w);
    assert Sane(s.waiters[w]) && PlaceOk(s.q, s.waiters[w], w);
  }

  lemma GrantKeepsShape(s: Sem, i: nat)
    requires Shape(s) && Enabled(s, Grant(i))
    ensures Shape(GrantNext(s, i))
  {
    GrantHasWaiter(s, i);
    var w := s.q.live[0];
    if s.waiters[w].remaining > s.calls[i].amount {
      PartialGrantKeepsShape(s, i, w);
    } else if StateWord(s.calls[i].amount - s.waiters[w].remaining).Some? {
      FullGrantKeepsShape(s, i, w);
    }
  }

  lemma DrainHasWaiter(s: Sem, i: nat)
    requires Shape(s) && Enabled(s, DrainNext(i))
    ensures s.q.lists[i].rest[0] < |s.waiters| && s.waiters[s.q.lists[i].rest[0]].wake.Armed? && s.calls[i].batch < BATCH
    ensures s.waiters[s.q.lists[i].rest[0]].node.Queued?
  {
    assert CallOk(s.q, s.lock, s.calls[i], i);
    var w := s.q.lists[i].rest[0];
    assert AQ.InRest(s.q, i, w);
    assert AQ.Present(s.q, w);
    assert Sane(s.waiters[w]) && PlaceOk(s.q, s.waiters[w], w);
  }

  lemma YieldKeepsShape(s: Sem, i: nat, x: Waiter)
    requires Shape(s) && i in s.q.lists && s.q.lists[i].rest != [] && s.q.lists[i].rest[0] < |s.waiters|
    requires Sane(x) && TakerOk(s.calls, x) && x.node.Dequeued?
    ensures Shape(s.(q := Do(s.q, AQ.Yield(i)), waiters := s.waiters[s.q.lists[i].rest[0] := x]))
  {
    var w := s.q.lists[i].rest[0];
    var t := s.(q := Do(s.q, AQ.Yield(i)), waiters := s.waiters[w := x]);
    AQ.InvKept(s.q, AQ.Yield(i));
    forall n: nat ensures AQ.Present(t.q, n) <==> AQ.Present(s.q, n) && n != w {
      AQ.PresentAfter(s.q, AQ.Yield(i), n);
    }
    assert Closed(s.q);
    forall k | 0 <= k < |t.waiters| ensures PlaceOk(t.q, t.waiters[k], k) {
      assert PlaceOk(s.q, s.waiters[k], k);
    }
    forall k | 0 <= k < |t.calls| ensures CallOk(t.q, t.lock, t.calls[k], k) {
      assert CallOk(s.q, s.lock, s.calls[k], k);
    }
  }

  lemma DrainNextKeepsShape(s: Sem, i: nat)
    requires Shape(s) && Enabled(s, DrainNext(i))
    ensures Shape(DrainNextNext(s, i))
  {
    DrainHasWaiter(s, i);
    var w := s.q.lists[i].rest[0];
    var x := s.waiters[w];
    assert Sane(x) && TakerOk(s.calls, x);
    assert CallOk(s.q, s.lock, s.calls[i], i);
    var y := x.(node := Dequeued, wake := Taken(i));
    YieldKeepsShape(s, i, y);
    var t := s.(q := Do(s.q, AQ.Yield(i)), waiters := s.waiters[w := y]);
    var d := DrainNextNext(s, i).calls[i];
    assert t.q.lists[i].rest == s.q.lists[i].rest[1..];
    assert CallOk(t.q, t.lock, d, i);
    CallSetKeepsShape(t, i, d, s.lock);
    assert DrainNextNext(s, i) == t.(calls := t.calls[i := d], lock := s.lock);
  }

  lemma DrainEndKeepsShape(s: Sem, i: nat)
    requires Shape(s) && Enabled(s, DrainEnd(i))
    ensures Shape(SetPc(s, i, Unlocking(true)).(q := Do(s.q, AQ.CloseDrain(i))))
  {
    var t := SetPc(s, i, Unlocking(true)).(q := Do(s.q, AQ.CloseDrain(i)));
    AQ.InvKept(s.q, AQ.CloseDrain(i));
    forall n: nat ensures AQ.Present(t.q, n) <==> AQ.Present(s.q, n) {
      AQ.PresentAfter(s.q, AQ.CloseDrain(i), n);
    }
    forall k | 0 <= k < |t.waiters| ensures PlaceOk(t.q, t.waiters[k], k) && TakerOk(t.calls, t.waiters[k]) {
      assert PlaceOk(s.q, s.waiters[k], k) && TakerOk(s.calls, s.waiters[k]);
    }
    forall k | 0 <= k < |t.calls| ensures CallOk(t.q, t.lock, t.calls[k], k) {
      assert CallOk(s.q, s.lock, s.calls[k], k);
    }
  }

  /** A batch of wakers is woken: nobody waits for call `i` any more. */
  lemma WakeKeepsShape(s: Sem, i: nat, c: Call)
    requires Shape(s) && i < |s.calls| && CallOk(s.q, s.lock, c, i)
    ensures Shape(s.(waiters := WakeAll(s.waiters, i), calls := s.calls[i := c]))
  {
    var t := s.(waiters := WakeAll(s.waiters, i), calls := s.calls[i := c]);
    forall k | 0 <= k < |t.waiters|
      ensures Sane(t.waiters[k]) && PlaceOk(t.q, t.waiters[k], k) && TakerOk(t.calls, t.waiters[k])
    {
      assert Sane(s.waiters[k]) && PlaceOk(s.q, s.waiters[k], k) && TakerOk(s.calls, s.waiters[k]);
    }
    forall j | 1 <= j < |t.q.live| ensures Untouched(t.waiters, t.q.live[j]) {
      assert Untouched(s.waiters, s.q.live[j]);
    }
    forall k | 0 <= k < |t.calls| ensures CallOk(t.q, t.lock, t.calls[k], k) {
      assert CallOk(s.q, s.lock, s.calls[k], k);
    }
  }

  lemma CallWakeKeepsShape(s: Sem, i: nat)
    requires Shape(s) && Enabled(s, CallWake(i))
    ensures Shape(CallNext(s, CallWake(i)))
  {
    var c := CallNext(s, CallWake(i)).calls[i];
    assert CallOk(s.q, s.lock, s.calls[i], i);
    WakeKeepsShape(s, i, c);
    assert CallNext(s, CallWake(i)) == s.(waiters := WakeAll(s.waiters, i), calls := s.calls[i := c]);
  }

  /** Taking and releasing the lock. */
  lemma LockStepKeepsShape(s: Sem, i: nat, pc: CallPc, lock: Option<nat>)
    requires Shape(s) && i < |s.calls|
    requires (s.calls[i].pc.Want? && s.lock == None && pc.Locked? && lock == Some(i))
      || (s.calls[i].pc.Relocking? && s.lock == None && pc.Working? && lock == Some(i))
      || (s.calls[i].pc.Unlocking? && pc == Waking(s.calls[i].pc.last) && lock == None)
    ensures Shape(SetPc(s, i, pc).(lock := lock))
  {
    assert CallOk(s.q, s.lock, s.calls[i], i);
    CallSetKeepsShape(s, i, s.calls[i].(pc := pc), lock);
    assert SetPc(s, i, pc).(lock := lock) == s.(calls := s.calls[i := s.calls[i].(pc := pc)], lock := lock);
  }

  predicate IsCall(step: Step) {
    step.CallFast? || step.CallLock? || step.CallRetry? || step.Grant? || step.DrainNext? || step.DrainEnd?
    || step.CallUnlock? || step.CallWake? || step.CallRelock?
  }

  lemma CallKeepsShape(s: Sem, step: Step)
    requires Shape(s) && Enabled(s, step) && IsCall(step)
    ensures Shape(CallNext(s, step))
  {
    match step
    case CallFast(i) => AttemptKeepsShape(s, i, Want, s.lock);
    case CallLock(i) => LockStepKeepsShape(s, i, Locked, Some(i));
    case CallRetry(i) => CallRetryKeepsShape(s, i);
    case Grant(i) => GrantKeepsShape(s, i);
    case DrainNext(i) => DrainNextKeepsShape(s, i);
    case DrainEnd(i) => DrainEndKeepsShape(s, i);
    case CallUnlock(i) => LockStepKeepsShape(s, i, Waking(s.calls[i].pc.last), None);
    case CallWake(i) => CallWakeKeepsShape(s, i);
    case CallRelock(i) => LockStepKeepsShape(s, i, Working, Some(i));
  }

  lemma HeldIsFree(s: Sem, held: seq<nat>, issued: int)
    requires Shape(s)
    ensures Shape(s.(held := held, issued := issued))
  {
  }

  lemma StateStepKeepsShape(s: Sem, v: nat, held: seq<nat>, issued: int)
    requires Shape(s) && s.q.live == [] && (s.q.state % 2 == 1 ==> v % 2 == 1)
    ensures Shape(s.(q := Do(s.q, AQ.SetState(v)), held := held, issued := issued))
  {
    StateSetKeepsShape(s, v);
    HeldIsFree(s.(q := Do(s.q, AQ.SetState(v))), held, issued);
  }

  predicate IsFuture(step: Step) {
    step.NewAcquire? || step.PollTry? || step.PollEnqueue? || step.PollQueued? || step.PollDequeued? || step.Cancel?
  }

  lemma FutureKeepsShape(s: Sem, step: Step)
    requires Shape(s) && Enabled(s, step) && IsFuture(step)
    ensures Shape(Next(s, step))
  {
    match step
    case NewAcquire(p) => NewWaiterKeepsShape(s, p);
    case PollTry(w) => PollTryKeepsShape(s, w);
    case PollEnqueue(w) => PollEnqueueKeepsShape(s, w);
    case PollQueued(w) =>
    case PollDequeued(w) => PollDequeuedKeepsShape(s, w);
    case Cancel(w) => CancelKeepsShape(s, w);
  }

  lemma UserKeepsShape(s: Sem, step: Step)
    requires Shape(s) && Enabled(s, step) && !IsFuture(step) && !IsCall(step)
    ensures Shape(Next(s, step))
  {
    match step
    case TryAcquire(p) => StateStepKeepsShape(s, CheckAcquire(s.q.state, p).value, s.held + [p], s.issued);
    case Add(n) => NewAddKeepsShape(s, n); HeldIsFree(NewCall(s, n), s.held, s.issued + n);
    case Close => NewCallKeepsShape(s, Call(CloseAll, 0, 0, Fast), s.lock);
    case Forget(n) => StateStepKeepsShape(s, s.q.state - 2 * n, s.held, s.issued - n);
    case DropPermit(i) => NewAddKeepsShape(s, s.held[i]); HeldIsFree(NewCall(s, s.held[i]), s.held[i := 0], s.issued);
    case ForgetPermit(i) => HeldIsFree(s, s.held[i := 0], s.issued - s.held[i]);
    case Merge(i, j) =>
      HeldIsFree(s, s.held[i := s.held[i] + s.held[j]][j := 0], s.issued);
    case Split(i, n) => HeldIsFree(s, s.held[i := s.held[i] - n] + [n], s.issued);
  }

  lemma ShapeKept(s: Sem, step: Step)
    requires Shape(s) && Enabled(s, step)
    ensures Shape(Next(s, step))
  {
    if IsCall(step) { CallKeepsShape(s, step); }
    else if IsFuture(step) { FutureKeepsShape(s, step); }
    else { UserKeepsShape(s, step); }
  }
}
