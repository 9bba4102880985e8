/** The steps of `notify_one`, `notify_last` and `notify_waiters` keep the notifier's shape. */
module NotifyCalls {
  import opened Options
  import opened Waking
  import opened NotifyModel
  import opened NotifyInvariant
  import opened NotifySteps
  import AQ = AbstractQueue

  lemma AttemptKeepsShape(s: Notify, i: nat, onFailure: CallPc, lock: Option<nat>)
    requires Shape(s) && i < |s.calls| && !s.calls[i].kind.All?
    requires (s.calls[i].pc.Fast? && onFailure.Want? && lock == s.lock)
      || (s.calls[i].pc.Locked? && onFailure.Working? && lock == None)
    ensures Shape(Attempt(s, i, onFailure, lock))
  {
    var c := s.calls[i];
    assert CallOk(s.q, s.lock, c, i);
    if s.q.live != [] {
      CallSetKeepsShape(s, i, c.(pc := onFailure), s.lock);
      assert Attempt(s, i, onFailure, lock) == SetCall(s, i, c.(pc := onFailure)).(lock := s.lock);
    } else {
      StateSetKeepsShape(s, NOTIFIED);
      var t := s.(q := Do(s.q, AQ.SetState(NOTIFIED)));
      assert CallOk(t.q, t.lock, c, i);
      CallSetKeepsShape(t, i, c.(pc := Over), lock);
      var u := SetCall(t, i, c.(pc := Over)).(lock := lock);
      assert Shape(u.(coalesced := Attempt(s, i, onFailure, lock).coalesced));
    }
  }

  lemma PickKeepsShape(s: Notify, i: nat)
    requires Shape(s) && Enabled(s, Pick(i))
    ensures s.q.live != []
    ensures Shape(PickNext(s, i))
  {
    assert CallOk(s.q, s.lock, s.calls[i], i);
    var c := s.calls[i].(pc := PickNext(s, i).calls[i].pc);
    CallSetKeepsShape(s, i, c, s.lock);
    assert PickNext(s, i) == SetCall(s, i, c).(lock := s.lock);
  }

  /** The picked future is still in line, without a notification. */
  lemma ServeHasFuture(s: Notify, i: nat)
    requires Shape(s) && Enabled(s, Serve(i))
    ensures var w := s.calls[i].pc.w;
      w in s.q.live && w < |s.futures| && s.futures[w].node.Queued? && AQ.Present(s.q, w)
      && s.futures[w].note.None? && !s.calls[i].kind.All?
  {
    assert CallOk(s.q, s.lock, s.calls[i], i);
    var w := s.calls[i].pc.w;
    assert AQ.Present(s.q, w);
    assert Sane(s.futures[w], s.gen) && PlaceOk(s.q, s.futures[w], w);
  }

  lemma NotifiedIsSane(calls: seq<Call>, f: Future, gen: nat, note: Note, i: nat)
    requires Sane(f, gen) && f.node.Queued? && TakerOk(calls, f)
    requires i < |calls| && WillWake(calls[i].pc)
    ensures Sane(Notified(f, note, i), gen) && TakerOk(calls, Notified(f, note, i))
  {
  }

  lemma ServeKeepsShape(s: Notify, i: nat)
    requires Shape(s) && Enabled(s, Serve(i))
    ensures Shape(ServeNext(s, i))
  {
    ServeHasFuture(s, i);
    var c, w := s.calls[i], s.calls[i].pc.w;
    assert CallOk(s.q, s.lock, c, i);
    var d := c.(pc := Unlocking(true));
    CallSetKeepsShape(s, i, d, s.lock);
    var t := SetCall(s, i, d).(lock := s.lock);
    assert NonePicking(t) by {
      forall k | 0 <= k < |t.calls| ensures !t.calls[k].pc.Working? && !t.calls[k].pc.Picked? {
        assert CallOk(s.q, s.lock, s.calls[k], k);
        assert s.lock == Some(i);
      }
    }
    assert Sane(s.futures[w], s.gen) && TakerOk(s.calls, s.futures[w]);
    assert TakerOk(t.calls, s.futures[w]);
    NotifiedIsSane(t.calls, s.futures[w], s.gen, c.kind, i);
    RemoveKeepsShape(t, w, Notified(s.futures[w], c.kind, i));
  }

  lemma BumpKeepsShape(s: Notify, i: nat)
    requires Shape(s) && Enabled(s, Bump(i))
    ensures Shape(CallNext(s, Bump(i)))
  {
    var t := CallNext(s, Bump(i));
    assert CallOk(s.q, s.lock, s.calls[i], i);
    forall k | 0 <= k < |t.calls| ensures CallOk(t.q, t.lock, t.calls[k], k) {
      assert CallOk(s.q, s.lock, s.calls[k], k);
    }
    forall w | 0 <= w < |t.futures|
      ensures Sane(t.futures[w], t.gen) && TakerOk(t.calls, t.futures[w]) && PlaceOk(t.q, t.futures[w], w)
    {
      assert Sane(s.futures[w], s.gen) && TakerOk(s.calls, s.futures[w]) && PlaceOk(s.q, s.futures[w], w);
    }
    assert SwapPending(t);
  }

  /** The swap takes everyone out of line at once. */
  lemma SwapKeepsShape(s: Notify, i: nat)
    requires Shape(s) && Enabled(s, Swap(i))
    ensures Shape(CallNext(s, Swap(i)))
  {
    var t := CallNext(s, Swap(i));
    assert CallOk(s.q, s.lock, s.calls[i], i);
    AQ.InvKept(s.q, AQ.OpenDrain(i, UNNOTIFIED));
    forall n: nat ensures AQ.Present(t.q, n) <==> AQ.Present(s.q, n) {
      AQ.PresentAfter(s.q, AQ.OpenDrain(i, UNNOTIFIED), n);
    }
    forall k | 0 <= k < |t.futures|
      ensures PlaceOk(t.q, t.futures[k], k) && TakerOk(t.calls, t.futures[k])
    {
      assert PlaceOk(s.q, s.futures[k], k) && TakerOk(s.calls, s.futures[k]);
    }
    forall k | 0 <= k < |t.calls| ensures CallOk(t.q, t.lock, t.calls[k], k) {
      assert CallOk(s.q, s.lock, s.calls[k], k);
    }
  }

  lemma DrainHasFuture(s: Notify, i: nat)
    requires Shape(s) && Enabled(s, DrainNext(i))
    ensures var w := s.q.lists[i].rest[0];
      w < |s.futures| && s.futures[w].node.Queued? && s.futures[w].note.None? && s.calls[i].batch < BATCH
  {
    assert CallOk(s.q, s.lock, s.calls[i], i);
    var w := s.q.lists[i].rest[0];
    assert AQ.InRest(s.q, i, w);
    assert AQ.Present(s.q, w);
    assert Sane(s.futures[w], s.gen) && PlaceOk(s.q, s.futures[w], w);
  }

  lemma DrainNextKeepsShape(s: Notify, i: nat)
    requires Shape(s) && Enabled(s, DrainNext(i))
    ensures Shape(DrainNextNext(s, i))
  {
    DrainHasFuture(s, i);
    var w := s.q.lists[i].rest[0];
    var f := s.futures[w];
    assert Sane(f, s.gen) && TakerOk(s.calls, f);
    assert CallOk(s.q, s.lock, s.calls[i], i);
    NotifiedIsSane(s.calls, f, s.gen, All, i);
    YieldKeepsShape(s, i, Notified(f, All, i));
    var t := SetFuture(s, w, Notified(f, All, i)).(q := Do(s.q, AQ.Yield(i)));
    var d := DrainNextNext(s, i).calls[i];
    assert t.q.lists[i].rest == s.q.lists[i].rest[1..];
    assert CallOk(t.q, t.lock, d, i);
    CallSetKeepsShape(t, i, d, s.lock);
    assert DrainNextNext(s, i) == SetCall(t, i, d).(lock := s.lock);
  }

  lemma DrainEndKeepsShape(s: Notify, i: nat)
    requires Shape(s) && Enabled(s, DrainEnd(i))
    ensures Shape(CallNext(s, DrainEnd(i)))
  {
    var t := CallNext(s, DrainEnd(i));
    assert CallOk(s.q, s.lock, s.calls[i], i);
    AQ.InvKept(s.q, AQ.CloseDrain(i));
    forall n: nat ensures AQ.Present(t.q, n) <==> AQ.Present(s.q, n) {
      AQ.PresentAfter(s.q, AQ.CloseDrain(i), n);
    }
    forall k | 0 <= k < |t.futures|
      ensures PlaceOk(t.q, t.futures[k], k) && TakerOk(t.calls, t.futures[k])
    {
      assert PlaceOk(s.q, s.futures[k], k) && TakerOk(s.calls, s.futures[k]);
    }
    forall k | 0 <= k < |t.calls| ensures CallOk(t.q, t.lock, t.calls[k], k) {
      assert CallOk(s.q, s.lock, s.calls[k], k);
    }
    forall x | x in t.q.live ensures CurrentOk(t, x) { assert CurrentOk(s, x); }
  }

  lemma CallWakeKeepsShape(s: Notify, i: nat)
    requires Shape(s) && Enabled(s, CallWake(i))
    ensures Shape(CallNext(s, CallWake(i)))
  {
    var t := CallNext(s, CallWake(i));
    assert CallOk(s.q, s.lock, s.calls[i], i);
    forall k | 0 <= k < |t.futures|
      ensures Sane(t.futures[k], t.gen) && PlaceOk(t.q, t.futures[k], k) && TakerOk(t.calls, t.futures[k])
    {
      assert Sane(s.futures[k], s.gen) && PlaceOk(s.q, s.futures[k], k) && TakerOk(s.calls, s.futures[k]);
    }
    forall k | 0 <= k < |t.calls| ensures CallOk(t.q, t.lock, t.calls[k], k) {
      assert CallOk(s.q, s.lock, s.calls[k], k);
    }
    assert SwapPending(s) ==> SwapPending(t);
    forall x | x in t.q.live ensures CurrentOk(t, x) { assert CurrentOk(s, x); }
  }

  /** Taking and releasing the lock. */
  lemma LockStepKeepsShape(s: Notify, i: nat, pc: CallPc, lock: Option<nat>)
    requires Shape(s) && i < |s.calls|
    requires (s.calls[i].pc.Want? && s.lock == None && pc.Locked? && lock == Some(i))
      || (s.calls[i].pc.Relocking? && s.lock == None && pc.Draining? && lock == Some(i))
      || (s.calls[i].pc.Unlocking? && pc == Wakening(s.calls[i].pc.last) && lock == None)
    ensures Shape(SetPc(s, i, pc).(lock := lock))
  {
    assert CallOk(s.q, s.lock, s.calls[i], i);
    CallSetKeepsShape(s, i, s.calls[i].(pc := pc), lock);
  }

  lemma CallKeepsShape(s: Notify, step: Step)
    requires Shape(s) && Enabled(s, step) && !IsFuture(step) && !step.Create? && !step.Start?
    ensures Shape(CallNext(s, step))
  {
    var i := step.i;
    assert CallOk(s.q, s.lock, s.calls[i], i);
    match step
    case CallFast(_) => AttemptKeepsShape(s, i, Want, s.lock);
    case CallLock(_) => LockStepKeepsShape(s, i, Locked, Some(i));
    case CallRetry(_) => AttemptKeepsShape(s, i, Working, None);
    case Pick(_) => PickKeepsShape(s, i);
    case Serve(_) => ServeKeepsShape(s, i);
    case Bump(_) => BumpKeepsShape(s, i);
    case Swap(_) => SwapKeepsShape(s, i);
    case DrainNext(_) => DrainNextKeepsShape(s, i);
    case DrainEnd(_) => DrainEndKeepsShape(s, i);
    case CallUnlock(_) => LockStepKeepsShape(s, i, Wakening(s.calls[i].pc.last), None);
    case CallWake(_) => CallWakeKeepsShape(s, i);
    case CallRelock(_) => LockStepKeepsShape(s, i, Draining, Some(i));
  }

  lemma ShapeKept(s: Notify, step: Step)
    requires Shape(s) && Enabled(s, step)
    ensures Shape(Next(s, step))
  {
    if IsFuture(step) {
      FutureKeepsShape(s, step);
    } else if step.Create? {
      CreateKeepsShape(s);
    } else if step.Start? {
      NewCallKeepsShape(s, step.kind);
      var t := NewCall(s, step.kind);
      assert Shape(t.(issued := Next(s, step).issued));
    } else {
      CallKeepsShape(s, step);
    }
  }
}
