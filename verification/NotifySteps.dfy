/** Every step of the notifier keeps the shape of the futures, the queue and the calls. */
module NotifySteps {
  import opened Options
  import opened Waking
  import opened NotifyModel
  import opened NotifyInvariant
  import AQ = AbstractQueue

  // ----------------------------------------------------------- single changes

  /** The state of an empty queue changes. */
  lemma StateSetKeepsShape(s: Notify, v: nat)
    requires Shape(s) && s.q.live == [] && v <= NOTIFIED
    ensures Shape(s.(q := Do(s.q, AQ.SetState(v))))
  {
    StateSet(s.q, v);
    var t := s.(q := Do(s.q, AQ.SetState(v)));
    forall w | 0 <= w < |t.futures| ensures PlaceOk(t.q, t.futures[w], w) {
      assert PlaceOk(s.q, s.futures[w], w);
    }
    forall i | 0 <= i < |t.calls| ensures CallOk(t.q, t.lock, t.calls[i], i) {
      assert CallOk(s.q, s.lock, s.calls[i], i);
    }
  }

  /** A future changes without moving in or out of the queue. */
  lemma FutureSetKeepsShape(s: Notify, w: nat, f: Future)
    requires Shape(s) && w < |s.futures|
    requires Sane(f, s.gen) && TakerOk(s.calls, f) && PlaceOk(s.q, f, w)
    requires w in s.q.live ==> CurrentOk(SetFuture(s, w, f), w)
    ensures Shape(SetFuture(s, w, f))
  {
    var t := SetFuture(s, w, f);
    forall x | x in t.q.live ensures CurrentOk(t, x) {
      assert CurrentOk(s, x);
    }
  }

  lemma CreateKeepsShape(s: Notify)
    requires Shape(s)
    ensures Shape(s.(futures := s.futures + [Future(s.gen, Unqueued, None, Idle, Unset)]))
  {
    var f := Future(s.gen, Unqueued, None, Idle, Unset);
    var t := s.(futures := s.futures + [f]);
    forall w | 0 <= w < |t.futures|
      ensures Sane(t.futures[w], t.gen) && TakerOk(t.calls, t.futures[w]) && PlaceOk(t.q, t.futures[w], w)
    {
      if w < |s.futures| { assert t.futures[w] == s.futures[w]; }
    }
    forall x | x in t.q.live ensures CurrentOk(t, x) {
      assert CurrentOk(s, x);
      assert AQ.Present(s.q, x);
    }
  }

  /** A call changes while the queue and the generation stay. */
  lemma CallSetKeepsShape(s: Notify, i: nat, c: Call, lock: Option<nat>)
    requires Shape(s) && i < |s.calls|
    requires CallOk(s.q, lock, c, i)
    requires WillWake(s.calls[i].pc) ==> WillWake(c.pc)
    requires !s.calls[i].pc.Bumped?
    requires lock == s.lock || (s.lock == None && lock == Some(i)) || (s.lock == Some(i) && lock == None)
    ensures Shape(SetCall(s, i, c).(lock := lock))
  {
    var t := SetCall(s, i, c).(lock := lock);
    assert CallOk(s.q, s.lock, s.calls[i], i);
    forall k | 0 <= k < |t.calls| ensures CallOk(t.q, t.lock, t.calls[k], k) {
      assert CallOk(s.q, s.lock, s.calls[k], k);
    }
    forall w | 0 <= w < |t.futures| ensures TakerOk(t.calls, t.futures[w]) {
      assert TakerOk(s.calls, s.futures[w]);
    }
    assert SwapPending(s) ==> SwapPending(t);
    forall x | x in t.q.live ensures CurrentOk(t, x) { assert CurrentOk(s, x); }
  }

  lemma NewCallKeepsShape(s: Notify, kind: Note)
    requires Shape(s)
    ensures Shape(NewCall(s, kind))
  {
    var t := NewCall(s, kind);
    forall k | 0 <= k < |t.calls| ensures CallOk(t.q, t.lock, t.calls[k], k) {
      if k < |s.calls| { assert CallOk(s.q, s.lock, s.calls[k], k); }
    }
    forall w | 0 <= w < |t.futures| ensures TakerOk(t.calls, t.futures[w]) {
      assert TakerOk(s.calls, s.futures[w]);
    }
    forall x | x in t.q.live ensures CurrentOk(t, x) { assert CurrentOk(s, x); }
  }

  // ------------------------------------------------------ in and out of line

  lemma EnqueueKeepsShape(s: Notify, w: nat, f: Future)
    requires Shape(s) && w < |s.futures| && !AQ.Present(s.q, w)
    requires Sane(f, s.gen) && TakerOk(s.calls, f) && f.node.Queued? && f.poll.Recheck?
    ensures Shape(SetFuture(s, w, f).(q := Do(s.q, AQ.Enqueue(w))))
  {
    var t := SetFuture(s, w, f).(q := Do(s.q, AQ.Enqueue(w)));
    AQ.InvKept(s.q, AQ.Enqueue(w));
    forall n: nat ensures AQ.Present(t.q, n) <==> AQ.Present(s.q, n) || n == w {
      AQ.PresentAfter(s.q, AQ.Enqueue(w), n);
    }
    forall k | 0 <= k < |t.futures| ensures PlaceOk(t.q, t.futures[k], k) {
      assert PlaceOk(s.q, s.futures[k], k);
    }
    forall i | 0 <= i < |t.calls| ensures CallOk(t.q, t.lock, t.calls[i], i) {
      assert CallOk(s.q, s.lock, s.calls[i], i);
    }
    forall x | x in t.q.live ensures CurrentOk(t, x) {
      if x != w { assert CurrentOk(s, x); }
    }
  }

  /** No call counts on somebody being in line. */
  predicate NonePicking(s: Notify) {
    forall i :: 0 <= i < |s.calls| ==> !s.calls[i].pc.Working? && !s.calls[i].pc.Picked?
  }

  lemma RemoveKeepsCurrent(s: Notify, w: nat, f: Future)
    requires Shape(s) && w < |s.futures| && AQ.Present(s.q, w)
    ensures Current(SetFuture(s, w, f).(q := Do(s.q, AQ.Remove(w, UNNOTIFIED))))
  {
    var t := SetFuture(s, w, f).(q := Do(s.q, AQ.Remove(w, UNNOTIFIED)));
    forall x | x in t.q.live ensures CurrentOk(t, x) {
      assert x in s.q.live && x != w;
      assert CurrentOk(s, x);
    }
  }

  lemma RemoveKeepsShape(s: Notify, w: nat, f: Future)
    requires Shape(s) && w < |s.futures| && AQ.Present(s.q, w) && NonePicking(s)
    requires Sane(f, s.gen) && TakerOk(s.calls, f) && !f.node.Queued?
    ensures Shape(SetFuture(s, w, f).(q := Do(s.q, AQ.Remove(w, UNNOTIFIED))))
  {
    var t := SetFuture(s, w, f).(q := Do(s.q, AQ.Remove(w, UNNOTIFIED)));
    AQ.InvKept(s.q, AQ.Remove(w, UNNOTIFIED));
    RemoveFromLive(s.q, w, UNNOTIFIED);
    RemoveKeepsCurrent(s, w, f);
    forall n: nat ensures AQ.Present(t.q, n) <==> AQ.Present(s.q, n) && n != w {
      AQ.PresentAfter(s.q, AQ.Remove(w, UNNOTIFIED), n);
    }
    forall k | 0 <= k < |t.futures| ensures PlaceOk(t.q, t.futures[k], k) {
      assert PlaceOk(s.q, s.futures[k], k);
    }
    forall i | 0 <= i < |t.calls| ensures CallOk(t.q, t.lock, t.calls[i], i) {
      assert CallOk(s.q, s.lock, s.calls[i], i);
    }
  }

  lemma YieldKeepsShape(s: Notify, i: nat, f: Future)
    requires Shape(s) && i in s.q.lists && s.q.lists[i].rest != [] && s.q.lists[i].rest[0] < |s.futures|
    requires Sane(f, s.gen) && TakerOk(s.calls, f) && !f.node.Queued?
    ensures Shape(SetFuture(s, s.q.lists[i].rest[0], f).(q := Do(s.q, AQ.Yield(i))))
  {
    var w := s.q.lists[i].rest[0];
    var t := SetFuture(s, w, f).(q := Do(s.q, AQ.Yield(i)));
    assert AQ.InRest(s.q, i, w);
    AQ.InvKept(s.q, AQ.Yield(i));
    forall n: nat ensures AQ.Present(t.q, n) <==> AQ.Present(s.q, n) && n != w {
      AQ.PresentAfter(s.q, AQ.Yield(i), n);
    }
    forall k | 0 <= k < |t.futures| ensures PlaceOk(t.q, t.futures[k], k) {
      assert PlaceOk(s.q, s.futures[k], k);
    }
    forall k | 0 <= k < |t.calls| ensures CallOk(t.q, t.lock, t.calls[k], k) {
      assert CallOk(s.q, s.lock, s.calls[k], k);
    }
    forall x | x in t.q.live ensures CurrentOk(t, x) { assert CurrentOk(s, x); }
  }

  // ------------------------------------------------------------- the future

  /** With the lock free no call has picked anybody. */
  lemma FreeLock(s: Notify)
    requires Shape(s) && s.lock.None?
    ensures NonePicking(s)
  {
    forall i | 0 <= i < |s.calls| ensures !s.calls[i].pc.Working? && !s.calls[i].pc.Picked? {
      assert CallOk(s.q, s.lock, s.calls[i], i);
    }
  }

  /** A future that finds itself queued leaves the line. */
  lemma LeaveKeepsShape(s: Notify, w: nat, poll: Poll)
    requires Shape(s) && w < |s.futures| && s.futures[w].node.Queued? && s.lock.None?
    requires poll.Done? || poll.Gone?
    ensures Shape(SetFuture(s, w, s.futures[w].(node := Dequeued, poll := poll)).(q := Do(s.q, AQ.Remove(w, UNNOTIFIED))))
  {
    var f := s.futures[w];
    assert Sane(f, s.gen) && TakerOk(s.calls, f) && PlaceOk(s.q, f, w);
    FreeLock(s);
    RemoveKeepsShape(s, w, f.(node := Dequeued, poll := poll));
  }

  lemma CancelKeepsShape(s: Notify, w: nat, poll: Poll)
    requires Shape(s) && w < |s.futures| && (s.futures[w].node.Queued? ==> s.lock.None?)
    requires poll.Done? || poll.Gone?
    ensures Shape(CancelNext(s, w, poll))
  {
    var f := s.futures[w];
    assert Sane(f, s.gen) && TakerOk(s.calls, f) && PlaceOk(s.q, f, w);
    if f.node.Queued? {
      LeaveKeepsShape(s, w, poll);
    } else {
      assert AQ.Present(s.q, w) <== w in s.q.live;
      FutureSetKeepsShape(s, w, f.(poll := poll));
      if f.node.Dequeued? && f.note.Some? && !f.note.value.All? {
        NewCallKeepsShape(SetFuture(s, w, f.(poll := poll)), f.note.value);
      }
    }
  }

  lemma PollTakeKeepsShape(s: Notify, w: nat, cx: bool)
    requires Shape(s) && Enabled(s, PollTake(w, cx))
    ensures Shape(PollTakeNext(s, w, cx))
  {
    var f := s.futures[w];
    assert Sane(f, s.gen) && TakerOk(s.calls, f) && PlaceOk(s.q, f, w);
    assert AQ.Present(s.q, w) <== w in s.q.live;
    if s.q.live == [] && s.q.state == NOTIFIED {
      FutureSetKeepsShape(s, w, f.(poll := Done));
      StateSetKeepsShape(SetFuture(s, w, f.(poll := Done)), UNNOTIFIED);
    } else {
      FutureSetKeepsShape(s, w, f.(poll := Tried(View(s.q)), wake := if cx && f.wake.Unset? then Armed else f.wake));
    }
  }

  lemma PollEnqueueKeepsShape(s: Notify, w: nat)
    requires Shape(s) && Enabled(s, PollEnqueue(w))
    ensures Shape(FutureNext(s, PollEnqueue(w)))
  {
    var f := s.futures[w];
    assert Sane(f, s.gen) && TakerOk(s.calls, f) && PlaceOk(s.q, f, w);
    assert AQ.Present(s.q, w) <== w in s.q.live;
    if View(s.q) != f.poll.view {
      FutureSetKeepsShape(s, w, f.(poll := Looping));
    } else {
      EnqueueKeepsShape(s, w, f.(node := Queued, poll := Recheck));
    }
  }

  /** Steps that only change what the future knows. */
  lemma LookKeepsShape(s: Notify, step: Step)
    requires Shape(s) && Enabled(s, step)
    requires step.PollGen? || step.PollRecheck? || step.PollDequeued?
    ensures Shape(FutureNext(s, step))
  {
    var w := step.w;
    var f := s.futures[w];
    assert Sane(f, s.gen) && TakerOk(s.calls, f) && PlaceOk(s.q, f, w);
    assert AQ.Present(s.q, w) <== w in s.q.live;
    var g := FutureNext(s, step).futures[w];
    FutureSetKeepsShape(s, w, g);
    assert Shape(SetFuture(s, w, g).(consumed := FutureNext(s, step).consumed));
  }

  lemma PollQueuedKeepsShape(s: Notify, w: nat, cx: bool)
    requires Shape(s) && Enabled(s, PollQueued(w, cx))
    ensures Shape(FutureNext(s, PollQueued(w, cx)))
  {
    var f := s.futures[w];
    assert Sane(f, s.gen) && TakerOk(s.calls, f) && PlaceOk(s.q, f, w);
    if s.gen != f.gen {
      LeaveKeepsShape(s, w, Done);
    } else {
      FutureSetKeepsShape(s, w, f.(wake := if cx then Armed else f.wake));
    }
  }

  lemma DropKeepsShape(s: Notify, w: nat)
    requires Shape(s) && Enabled(s, Drop(w))
    ensures Shape(FutureNext(s, Drop(w)))
  {
    var f := s.futures[w];
    assert Sane(f, s.gen) && TakerOk(s.calls, f) && PlaceOk(s.q, f, w);
    if f.poll.Done? {
      assert AQ.Present(s.q, w) <== w in s.q.live;
      FutureSetKeepsShape(s, w, f.(poll := Gone));
    } else {
      CancelKeepsShape(s, w, Gone);
    }
  }

  predicate IsFuture(step: Step) {
    step.PollGen? || step.PollTake? || step.PollEnqueue? || step.PollRecheck? || step.PollCancel?
    || step.PollQueued? || step.PollDequeued? || step.Drop?
  }

  lemma FutureKeepsShape(s: Notify, step: Step)
    requires Shape(s) && Enabled(s, step) && IsFuture(step)
    ensures Shape(FutureNext(s, step))
  {
    match step
    case PollTake(w, cx) => PollTakeKeepsShape(s, w, cx);
    case PollEnqueue(w) => PollEnqueueKeepsShape(s, w);
    case PollCancel(w) => CancelKeepsShape(s, w, Done);
    case PollQueued(w, cx) => PollQueuedKeepsShape(s, w, cx);
    case Drop(w) => DropKeepsShape(s, w);
    case _ => LookKeepsShape(s, step);
  }
}
