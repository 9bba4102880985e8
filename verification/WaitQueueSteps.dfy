/** Every step of the wait queue keeps the shape of the waiters, the queue and the calls. */
module WaitQueueSteps {
  import opened Options
  import opened Waking
  import opened WaitQueueModel
  import opened WaitQueueInvariant
  import AQ = AbstractQueue

  // ----------------------------------------------------------- single changes

  /** An empty queue is closed. */
  lemma CloseKeepsShape(s: State)
    requires Shape(s) && s.q.live == []
    ensures Shape(s.(q := Do(s.q, AQ.SetState(CLOSED))))
  {
    StateSet(s.q, CLOSED);
    var t := s.(q := Do(s.q, AQ.SetState(CLOSED)));
    forall w | 0 <= w < |t.waiters| ensures PlaceOk(t.q, t.waiters[w], w) {
      assert PlaceOk(s.q, s.waiters[w], w);
    }
    forall i | 0 <= i < |t.calls| ensures CallOk(t.q, t.lock, t.calls[i], i) {
      assert CallOk(s.q, s.lock, s.calls[i], i);
    }
  }

  /** A waiter changes without moving in or out of the queue. */
  lemma WaiterSetKeepsShape(s: State, w: nat, x: Waiter)
    requires Shape(s) && w < |s.waiters|
    requires Sane(x) && TakerOk(s.calls, x) && PlaceOk(s.q, x, w)
    ensures Shape(SetWaiter(s, w, x))
  {
  }

  lemma NewWaitKeepsShape(s: State, kind: Kind)
    requires Shape(s)
    ensures Shape(s.(waiters := s.waiters + [Waiter(kind, Unqueued, Idle, Unset)]))
  {
    var t := s.(waiters := s.waiters + [Waiter(kind, Unqueued, Idle, Unset)]);
    forall w | 0 <= w < |t.waiters|
      ensures Sane(t.waiters[w]) && TakerOk(t.calls, t.waiters[w]) && PlaceOk(t.q, t.waiters[w], w)
    {
      if w < |s.waiters| { assert t.waiters[w] == s.waiters[w]; }
    }
  }

  /** A call changes while the queue stays. */
  lemma CallSetKeepsShape(s: State, i: nat, c: Call, lock: Option<nat>)
    requires Shape(s) && i < |s.calls|
    requires CallOk(s.q, lock, c, i)
    requires WillWake(s.calls[i].pc) ==> WillWake(c.pc)
    requires lock == s.lock || (s.lock == None && lock == Some(i)) || (s.lock == Some(i) && lock == None)
    ensures Shape(SetCall(s, i, c).(lock := lock))
  {
    var t := SetCall(s, i, c).(lock := lock);
    forall k | 0 <= k < |t.calls| ensures CallOk(t.q, t.lock, t.calls[k], k) {
      assert CallOk(s.q, s.lock, s.calls[k], k);
    }
    forall w | 0 <= w < |t.waiters| ensures TakerOk(t.calls, t.waiters[w]) {
      assert TakerOk(s.calls, s.waiters[w]);
    }
  }

  lemma StartKeepsShape(s: State, job: Job)
    requires Shape(s)
    ensures Shape(s.(calls := s.calls + [Call(job, s.cond, 0, Fast)]))
  {
    var t := s.(calls := s.calls + [Call(job, s.cond, 0, Fast)]);
    forall k | 0 <= k < |t.calls| ensures CallOk(t.q, t.lock, t.calls[k], k) {
      if k < |s.calls| { assert CallOk(s.q, s.lock, s.calls[k], k); }
    }
    forall w | 0 <= w < |t.waiters| ensures TakerOk(t.calls, t.waiters[w]) {
      assert TakerOk(s.calls, s.waiters[w]);
    }
  }

  /** The accounts do not matter to the shape. */
  lemma AccountsAreFree(s: State, cond: bool, served: bool, closedEarly: bool)
    requires Shape(s)
    ensures Shape(s.(cond := cond, served := served, closedEarly := closedEarly))
  {
  }

  lemma ClearedKeepsShape(s: State)
    requires Shape(s)
    ensures Shape(Cleared(s))
  {
    var t := Cleared(s);
    forall i | 0 <= i < |t.calls| ensures CallOk(t.q, t.lock, t.calls[i], i) {
      assert CallOk(s.q, s.lock, s.calls[i], i);
    }
    forall w | 0 <= w < |t.waiters| ensures TakerOk(t.calls, t.waiters[w]) {
      assert TakerOk(s.calls, s.waiters[w]);
    }
  }

  // ------------------------------------------------------ in and out of line

  lemma EnqueueKeepsShape(s: State, w: nat, x: Waiter)
    requires Shape(s) && w < |s.waiters| && !AQ.Present(s.q, w) && !Closed(s.q)
    requires Sane(x) && x.node.Queued?
    ensures Shape(SetWaiter(s, w, x).(q := Do(s.q, AQ.Enqueue(w))))
  {
    var t := SetWaiter(s, w, x).(q := Do(s.q, AQ.Enqueue(w)));
    AQ.InvKept(s.q, AQ.Enqueue(w));
    forall n: nat ensures AQ.Present(t.q, n) <==> AQ.Present(s.q, n) || n == w {
      AQ.PresentAfter(s.q, AQ.Enqueue(w), n);
    }
    forall k | 0 <= k < |t.waiters| ensures PlaceOk(t.q, t.waiters[k], k) {
      assert PlaceOk(s.q, s.waiters[k], k);
    }
    forall i | 0 <= i < |t.calls| ensures CallOk(t.q, t.lock, t.calls[i], i) {
      assert CallOk(s.q, s.lock, s.calls[i], i);
    }
  }

  /** No call counts on somebody being in line. */
  predicate NonePicking(s: State) {
    forall i :: 0 <= i < |s.calls| ==>
      !s.calls[i].pc.Picked? && !s.calls[i].pc.Swapping? && (s.calls[i].pc.Working? ==> s.calls[i].job.Many?)
  }

  lemma RemoveKeepsShape(s: State, w: nat, x: Waiter)
    requires Shape(s) && w < |s.waiters| && AQ.Present(s.q, w) && NonePicking(s)
    requires Sane(x) && TakerOk(s.calls, x) && x.node.Dequeued?
    requires x.poll.Rechecking? ==> !x.poll.closed
    ensures Shape(SetWaiter(s, w, x).(q := Do(s.q, AQ.Remove(w, EMPTY))))
  {
    var t := SetWaiter(s, w, x).(q := Do(s.q, AQ.Remove(w, EMPTY)));
    AQ.InvKept(s.q, AQ.Remove(w, EMPTY));
    RemoveFromLive(s.q, w, EMPTY);
    forall n: nat ensures AQ.Present(t.q, n) <==> AQ.Present(s.q, n) && n != w {
      AQ.PresentAfter(s.q, AQ.Remove(w, EMPTY), n);
    }
    forall k | 0 <= k < |t.waiters| ensures PlaceOk(t.q, t.waiters[k], k) {
      assert PlaceOk(s.q, s.waiters[k], k);
    }
    forall i | 0 <= i < |t.calls| ensures CallOk(t.q, t.lock, t.calls[i], i) {
      assert CallOk(s.q, s.lock, s.calls[i], i);
    }
  }

  lemma YieldKeepsShape(s: State, i: nat, x: Waiter)
    requires Shape(s) && i in s.q.lists && s.q.lists[i].rest != [] && s.q.lists[i].rest[0] < |s.waiters|
    requires Sane(x) && TakerOk(s.calls, x) && x.node.Dequeued? && (x.poll.Rechecking? ==> !x.poll.closed)
    ensures Shape(SetWaiter(s, s.q.lists[i].rest[0], x).(q := Do(s.q, AQ.Yield(i))))
  {
    var w := s.q.lists[i].rest[0];
    var t := SetWaiter(s, w, x).(q := Do(s.q, AQ.Yield(i)));
    AQ.InvKept(s.q, AQ.Yield(i));
    forall n: nat ensures AQ.Present(t.q, n) <==> AQ.Present(s.q, n) && n != w {
      AQ.PresentAfter(s.q, AQ.Yield(i), n);
    }
    forall k | 0 <= k < |t.waiters| ensures PlaceOk(t.q, t.waiters[k], k) {
      assert PlaceOk(s.q, s.waiters[k], k);
    }
    forall k | 0 <= k < |t.calls| ensures CallOk(t.q, t.lock, t.calls[k], k) {
      assert CallOk(s.q, s.lock, s.calls[k], k);
    }
  }

  // ------------------------------------------------------------ the waiters

  lemma FreeLock(s: State)
    requires Shape(s) && s.lock.None?
    ensures NonePicking(s)
  {
    forall i | 0 <= i < |s.calls| ensures !s.calls[i].pc.Picked? && !s.calls[i].pc.Working? && !s.calls[i].pc.Swapping? {
      assert CallOk(s.q, s.lock, s.calls[i], i);
    }
  }

  predicate IsWaiter(step: Step) { step.Begin? || step.Enter? || step.TryEnqueue? || step.Recheck? || step.Drop? }

  lemma WaiterKeepsShape(s: State, step: Step)
    requires Shape(s) && Enabled(s, step) && IsWaiter(step)
    ensures Shape(WaiterNext(s, step))
  {
    var w := step.w;
    var x := s.waiters[w];
    assert Sane(x) && TakerOk(s.calls, x) && PlaceOk(s.q, x, w);
    if step.TryEnqueue? && !Closed(s.q) {
      EnqueueKeepsShape(s, w, AfterPoll(x.(node := Queued), false));
    } else if step.Drop? && x.node.Queued? {
      FreeLock(s);
      RemoveKeepsShape(s, w, x.(node := Dequeued, poll := Gone));
    } else if !WaiterNext(s, step).panicked {
      WaiterSetKeepsShape(s, w, WaiterNext(s, step).waiters[w]);
    }
  }

  // -------------------------------------------------------------- the calls

  lemma FindEmptyKeepsShape(s: State, i: nat, lock: Option<nat>)
    requires Shape(s) && i < |s.calls| && s.q.live == []
    requires (s.calls[i].pc.Fast? && lock == s.lock) || (s.calls[i].pc.Locked? && lock == None)
    ensures Shape(FindEmpty(s, i, lock))
  {
    var c := s.calls[i];
    assert CallOk(s.q, s.lock, c, i);
    CallSetKeepsShape(s, i, c.(pc := Over), lock);
    var t := SetCall(s, i, c.(pc := Over)).(lock := lock);
    if c.job.Shut? {
      CloseKeepsShape(t);
      AccountsAreFree(t.(q := Do(t.q, AQ.SetState(CLOSED))), s.cond, FindEmpty(s, i, lock).served, s.closedEarly);
    } else {
      AccountsAreFree(t, s.cond, FindEmpty(s, i, lock).served, s.closedEarly);
    }
  }

  /** The picked waiter is in line and has its waker. */
  lemma ServeHasWaiter(s: State, i: nat)
    requires Shape(s) && Enabled(s, Serve(i))
    ensures var w := s.calls[i].pc.w;
      && w in s.q.live && AQ.Present(s.q, w) && w < |s.waiters| && s.waiters[w].node.Queued? && s.waiters[w].wake.Armed?
      && s.calls[i].batch < BATCH && (s.calls[i].job.Many? ==> s.calls[i].job.count > 0)
  {
    assert CallOk(s.q, s.lock, s.calls[i], i);
    var w := s.calls[i].pc.w;
    assert AQ.Present(s.q, w);
    assert Sane(s.waiters[w]) && PlaceOk(s.q, s.waiters[w], w);
  }

  lemma ServeKeepsShape(s: State, i: nat)
    requires Shape(s) && Enabled(s, Serve(i))
    ensures Shape(ServeNext(s, i))
  {
    ServeHasWaiter(s, i);
    var c, w := s.calls[i], s.calls[i].pc.w;
    assert CallOk(s.q, s.lock, c, i);
    var d := ServeNext(s, i).calls[i];
    CallSetKeepsShape(s, i, d, s.lock);
    var t := SetCall(s, i, d).(lock := s.lock);
    assert NonePicking(t) by {
      forall k | 0 <= k < |t.calls| && k != i ensures !t.calls[k].pc.Picked? && !t.calls[k].pc.Working? && !t.calls[k].pc.Swapping? {
        assert CallOk(s.q, s.lock, s.calls[k], k);
      }
    }
    assert Sane(s.waiters[w]);
    RemoveKeepsShape(t, w, Notified(s.waiters[w], i));
  }

  lemma SwapKeepsShape(s: State, i: nat)
    requires Shape(s) && Enabled(s, Swap(i))
    ensures Shape(SwapNext(s, i))
  {
    var v := if s.calls[i].job.Shut? then CLOSED else EMPTY;
    var t := SetPc(s, i, Draining).(q := Do(s.q, AQ.OpenDrain(i, v)));
    assert CallOk(s.q, s.lock, s.calls[i], i);
    AQ.InvKept(s.q, AQ.OpenDrain(i, v));
    forall n: nat ensures AQ.Present(t.q, n) <==> AQ.Present(s.q, n) {
      AQ.PresentAfter(s.q, AQ.OpenDrain(i, v), n);
    }
    forall k | 0 <= k < |t.waiters| ensures PlaceOk(t.q, t.waiters[k], k) && TakerOk(t.calls, t.waiters[k]) {
      assert PlaceOk(s.q, s.waiters[k], k) && TakerOk(s.calls, s.waiters[k]);
    }
    forall k | 0 <= k < |t.calls| ensures CallOk(t.q, t.lock, t.calls[k], k) {
      assert CallOk(s.q, s.lock, s.calls[k], k);
    }
    AccountsAreFree(t, s.cond, SwapNext(s, i).served, s.closedEarly);
  }

  lemma DrainHasWaiter(s: State, i: nat)
    requires Shape(s) && Enabled(s, DrainNext(i))
    ensures var w := s.q.lists[i].rest[0];
      w < |s.waiters| && s.waiters[w].node.Queued? && s.waiters[w].wake.Armed? && s.calls[i].batch < BATCH
  {
    assert CallOk(s.q, s.lock, s.calls[i], i);
    var w := s.q.lists[i].rest[0];
    assert AQ.InRest(s.q, i, w);
    assert AQ.Present(s.q, w);
    assert Sane(s.waiters[w]) && PlaceOk(s.q, s.waiters[w], w);
  }

  lemma DrainNextKeepsShape(s: State, i: nat)
    requires Shape(s) && Enabled(s, DrainNext(i))
    ensures Shape(DrainNextNext(s, i))
  {
    DrainHasWaiter(s, i);
    var w := s.q.lists[i].rest[0];
    var x := Notified(s.waiters[w], i);
    assert Sane(s.waiters[w]);
    assert CallOk(s.q, s.lock, s.calls[i], i);
    YieldKeepsShape(s, i, x);
    var t := SetWaiter(s, w, x).(q := Do(s.q, AQ.Yield(i)));
    var d := DrainNextNext(s, i).calls[i];
    assert t.q.lists[i].rest == s.q.lists[i].rest[1..];
    assert CallOk(t.q, t.lock, d, i);
    CallSetKeepsShape(t, i, d, s.lock);
    assert DrainNextNext(s, i) == SetCall(t, i, d).(lock := s.lock);
  }

  lemma DrainEndKeepsShape(s: State, i: nat)
    requires Shape(s) && Enabled(s, DrainEnd(i))
    ensures Shape(CallNext(s, DrainEnd(i)))
  {
    var t := CallNext(s, DrainEnd(i));
    assert CallOk(s.q, s.lock, s.calls[i], i);
    AQ.InvKept(s.q, AQ.CloseDrain(i));
    forall n: nat ensures AQ.Present(t.q, n) <==> AQ.Present(s.q, n) {
      AQ.PresentAfter(s.q, AQ.CloseDrain(i), n);
    }
    forall k | 0 <= k < |t.waiters| ensures PlaceOk(t.q, t.waiters[k], k) && TakerOk(t.calls, t.waiters[k]) {
      assert PlaceOk(s.q, s.waiters[k], k) && TakerOk(s.calls, s.waiters[k]);
    }
    forall k | 0 <= k < |t.calls| ensures CallOk(t.q, t.lock, t.calls[k], k) {
      assert CallOk(s.q, s.lock, s.calls[k], k);
    }
  }

  lemma CallWakeKeepsShape(s: State, i: nat)
    requires Shape(s) && Enabled(s, CallWake(i))
    ensures Shape(CallNext(s, CallWake(i)))
  {
    var t := CallNext(s, CallWake(i));
    assert CallOk(s.q, s.lock, s.calls[i], i);
    forall k | 0 <= k < |t.waiters|
      ensures Sane(t.waiters[k]) && PlaceOk(t.q, t.waiters[k], k) && TakerOk(t.calls, t.waiters[k])
    {
      assert Sane(s.waiters[k]) && PlaceOk(s.q, s.waiters[k], k) && TakerOk(s.calls, s.waiters[k]);
    }
    forall k | 0 <= k < |t.calls| ensures CallOk(t.q, t.lock, t.calls[k], k) {
      assert CallOk(s.q, s.lock, s.calls[k], k);
    }
  }

  predicate IsCall(step: Step) {
    !IsWaiter(step) && !step.NewWait? && !step.SetCondition? && !step.ClearCondition? && !step.Start?
  }

  /** The steps that only move a call's program counter or the lock. */
  predicate OnlyPc(s: State, step: Step)
    requires Enabled(s, step)
  {
    step.CallLock? || step.CallUnlock? || step.CallRelock? || step.Pick?
    || ((step.CallFast? || step.CallRetry?) && s.q.live != [])
  }

  lemma PcStep(s: State, step: Step)
    requires Enabled(s, step) && OnlyPc(s, step)
    ensures var t := CallNext(s, step);
      t.panicked || (|t.calls| == |s.calls| && t == SetCall(s, step.i, t.calls[step.i]).(lock := t.lock))
  {
  }

  lemma PcCallOk(s: State, step: Step)
    requires Enabled(s, step) && OnlyPc(s, step) && CallOk(s.q, s.lock, s.calls[step.i], step.i)
    ensures var t := CallNext(s, step);
      && !t.panicked && |t.calls| == |s.calls|
      && CallOk(s.q, t.lock, t.calls[step.i], step.i)
      && (WillWake(s.calls[step.i].pc) ==> WillWake(t.calls[step.i].pc))
      && (t.lock == s.lock || (s.lock == None && t.lock == Some(step.i)) || (s.lock == Some(step.i) && t.lock == None))
  {
    match step
    case CallFast(_) =>
    case CallLock(_) =>
    case CallRetry(_) =>
    case Pick(_) =>
    case CallUnlock(_) =>
    case CallRelock(_) =>
  }

  lemma PcKeepsShape(s: State, step: Step)
    requires Shape(s) && Enabled(s, step) && OnlyPc(s, step)
    ensures Shape(CallNext(s, step))
  {
    assert CallOk(s.q, s.lock, s.calls[step.i], step.i);
    PcStep(s, step);
    PcCallOk(s, step);
    var t := CallNext(s, step);
    CallSetKeepsShape(s, step.i, t.calls[step.i], t.lock);
  }

  lemma CallKeepsShape(s: State, step: Step)
    requires Shape(s) && Enabled(s, step) && IsCall(step)
    ensures Shape(CallNext(s, step))
  {
    var i := step.i;
    if step.CallFast? && s.q.live == [] {
      FindEmptyKeepsShape(s, i, s.lock);
    } else if step.CallRetry? && s.q.live == [] {
      FindEmptyKeepsShape(s, i, None);
    } else {
      match step
      case Serve(_) => ServeKeepsShape(s, i);
      case Swap(_) => SwapKeepsShape(s, i);
      case DrainNext(_) => DrainNextKeepsShape(s, i);
      case DrainEnd(_) => DrainEndKeepsShape(s, i);
      case CallWake(_) => CallWakeKeepsShape(s, i);
      case _ => PcKeepsShape(s, step);
    }
  }

  lemma ShapeKept(s: State, step: Step)
    requires Shape(s) && Enabled(s, step)
    ensures Shape(Next(s, step))
  {
    match step
    case NewWait(kind) => NewWaitKeepsShape(s, kind);
    case SetCondition => AccountsAreFree(s, true, s.served, s.closedEarly);
    case ClearCondition => ClearedKeepsShape(s);
    case Start(job) =>
      StartKeepsShape(s, job);
      AccountsAreFree(s.(calls := s.calls + [Call(job, s.cond, 0, Fast)]), s.cond, s.served, Next(s, step).closedEarly);
    case _ =>
      if IsWaiter(step) { WaiterKeepsShape(s, step); } else { CallKeepsShape(s, step); }
  }
}
