/** Where every single notification is: each step moves it from one account to another. */
module NotifyLedger {
  import opened Options
  import opened Waking
  import opened Sums
  import opened NotifyModel
  import opened NotifyInvariant
  import opened NotifySteps
  import opened NotifyCalls
  import AQ = AbstractQueue

  lemma HandedsUpdate(fs: seq<Future>, w: nat, f: Future)
    requires w < |fs|
    ensures Total(Handeds(fs[w := f])) == Total(Handeds(fs)) - Handed(fs[w]) + Handed(f)
  {
    assert Handeds(fs[w := f]) == Handeds(fs)[w := Handed(f)];
    TotalUpdate(Handeds(fs), w, Handed(f));
  }

  lemma InHandsUpdate(cs: seq<Call>, i: nat, c: Call)
    requires i < |cs|
    ensures Total(InHands(cs[i := c])) == Total(InHands(cs)) - InHand(cs[i]) + InHand(c)
  {
    assert InHands(cs[i := c]) == InHands(cs)[i := InHand(c)];
    TotalUpdate(InHands(cs), i, InHand(c));
  }

  lemma NewCallMoves(s: Notify, kind: Note)
    ensures Total(InHands(NewCall(s, kind).calls)) == Total(InHands(s.calls)) + (if kind.All? then 0 else 1)
  {
    var c := Call(kind, 0, if kind.All? then Want else Fast);
    assert InHands(s.calls + [c]) == InHands(s.calls) + [InHand(c)];
    TotalAppend(InHands(s.calls), InHand(c));
  }

  lemma WakeKeepsHandeds(fs: seq<Future>, i: nat)
    ensures Handeds(WakeAll(fs, i)) == Handeds(fs)
  {
  }

  /** The books agree before and after, but for `issued` new notifications. */
  predicate Moves(s: Notify, t: Notify, issued: nat) {
    t.panicked ||
    (Outstanding(t) + t.consumed + t.coalesced == Outstanding(s) + s.consumed + s.coalesced + issued
      && t.issued == s.issued + issued)
  }

  lemma CancelMoves(s: Notify, w: nat, poll: Poll)
    requires Shape(s) && w < |s.futures| && !Finished(s.futures[w]) && (poll.Done? || poll.Gone?)
    ensures Moves(s, CancelNext(s, w, poll), 0)
  {
    var f := s.futures[w];
    assert Sane(f, s.gen) && PlaceOk(s.q, f, w);
    var g := f.(poll := poll, node := if f.node.Queued? then Dequeued else f.node);
    HandedsUpdate(s.futures, w, g);
    NewCallMoves(SetFuture(s, w, g), One);
    NewCallMoves(SetFuture(s, w, g), Last);
    if f.node.Queued? { RemoveFromLive(s.q, w, UNNOTIFIED); }
  }

  lemma QuietFutureMoves(s: Notify, step: Step)
    requires Shape(s) && Enabled(s, step) && IsFuture(step) && !step.PollCancel?
    requires step.Drop? ==> s.futures[step.w].poll.Done?
    ensures Moves(s, FutureNext(s, step), 0)
  {
    var w := step.w;
    var f := s.futures[w];
    assert Sane(f, s.gen) && PlaceOk(s.q, f, w);
    HandedsUpdate(s.futures, w, FutureNext(s, step).futures[w]);
    if step.PollQueued? { RemoveFromLive(s.q, w, UNNOTIFIED); }
  }

  lemma FutureMoves(s: Notify, step: Step)
    requires Shape(s) && Enabled(s, step) && IsFuture(step)
    ensures Moves(s, FutureNext(s, step), 0)
  {
    if step.PollCancel? {
      CancelMoves(s, step.w, Done);
    } else if step.Drop? && !s.futures[step.w].poll.Done? {
      CancelMoves(s, step.w, Gone);
    } else {
      QuietFutureMoves(s, step);
    }
  }

  lemma ServeMoves(s: Notify, i: nat)
    requires Shape(s) && Enabled(s, Serve(i))
    ensures Moves(s, ServeNext(s, i), 0)
  {
    ServeHasFuture(s, i);
    var w := s.calls[i].pc.w;
    assert Sane(s.futures[w], s.gen);
    RemoveFromLive(s.q, w, UNNOTIFIED);
    HandedsUpdate(s.futures, w, ServeNext(s, i).futures[w]);
    InHandsUpdate(s.calls, i, ServeNext(s, i).calls[i]);
  }

  lemma DrainNextMoves(s: Notify, i: nat)
    requires Shape(s) && Enabled(s, DrainNext(i))
    ensures Moves(s, DrainNextNext(s, i), 0)
  {
    DrainHasFuture(s, i);
    var w := s.q.lists[i].rest[0];
    HandedsUpdate(s.futures, w, DrainNextNext(s, i).futures[w]);
    InHandsUpdate(s.calls, i, DrainNextNext(s, i).calls[i]);
  }

  /** The drain, the lock, the generation and the wakers carry no single notification. */
  lemma QuietCallMoves(s: Notify, step: Step)
    requires Enabled(s, step) && !IsFuture(step) && !step.Create? && !step.Start?
    requires step.Bump? || step.Swap? || step.DrainEnd? || step.CallUnlock? || step.CallWake? || step.CallRelock? || step.CallLock?
    requires CallOk(s.q, s.lock, s.calls[step.i], step.i)
    ensures Moves(s, CallNext(s, step), 0)
  {
    InHandsUpdate(s.calls, step.i, CallNext(s, step).calls[step.i]);
    if step.CallWake? { WakeKeepsHandeds(s.futures, step.i); }
  }

  lemma AttemptMoves(s: Notify, i: nat, onFailure: CallPc, lock: Option<nat>)
    requires i < |s.calls| && InHand(s.calls[i]) == 1 && s.q.state <= NOTIFIED
    requires onFailure.Want? || onFailure.Working?
    ensures Moves(s, Attempt(s, i, onFailure, lock), 0)
  {
    InHandsUpdate(s.calls, i, Attempt(s, i, onFailure, lock).calls[i]);
  }

  lemma CallMoves(s: Notify, step: Step)
    requires Shape(s) && Enabled(s, step) && !IsFuture(step) && !step.Create? && !step.Start?
    ensures Moves(s, CallNext(s, step), 0)
  {
    var i := step.i;
    assert CallOk(s.q, s.lock, s.calls[i], i);
    match step
    case Serve(_) => ServeMoves(s, i);
    case DrainNext(_) => DrainNextMoves(s, i);
    case CallFast(_) => AttemptMoves(s, i, Want, s.lock);
    case CallRetry(_) => AttemptMoves(s, i, Working, None);
    case Pick(_) => InHandsUpdate(s.calls, i, PickNext(s, i).calls[i]);
    case _ => QuietCallMoves(s, step);
  }

  lemma CreateMoves(s: Notify)
    ensures Total(Handeds(s.futures + [Future(s.gen, Unqueued, None, Idle, Unset)])) == Total(Handeds(s.futures))
  {
    var f := Future(s.gen, Unqueued, None, Idle, Unset);
    assert Handeds(s.futures + [f]) == Handeds(s.futures) + [0];
    TotalAppend(Handeds(s.futures), 0);
  }

  lemma StepMoves(s: Notify, step: Step)
    requires Shape(s) && Enabled(s, step)
    ensures Moves(s, Next(s, step), if step.Start? && !step.kind.All? then 1 else 0)
  {
    if IsFuture(step) { FutureMoves(s, step); }
    else if step.Create? { CreateMoves(s); }
    else if step.Start? { NewCallMoves(s, step.kind); }
    else { CallMoves(s, step); }
  }

  /** `notification.unwrap()`, `dequeue().unwrap()` and `pop().unwrap()` never fail, and the
      waker buffer never overflows. */
  lemma StepIsSafe(s: Notify, step: Step)
    requires Shape(s) && Enabled(s, step)
    ensures !Next(s, step).panicked
  {
    if IsFuture(step) {
      assert Sane(s.futures[step.w], s.gen);
    } else if !step.Create? && !step.Start? {
      assert CallOk(s.q, s.lock, s.calls[step.i], step.i);
      if step.Serve? { ServeHasFuture(s, step.i); }
      if step.DrainNext? { DrainHasFuture(s, step.i); }
    }
  }

  lemma StepKeepsInv(s: Notify, step: Step)
    requires Inv(s) && Enabled(s, step)
    ensures Inv(Next(s, step))
  {
    ShapeKept(s, step);
    StepIsSafe(s, step);
    StepMoves(s, step);
  }
}
