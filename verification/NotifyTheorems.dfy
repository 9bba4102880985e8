/** The theorems about every run of the notifier. */
module NotifyTheorems {
  import opened Options
  import opened Waking
  import opened Sums
  import opened NotifyModel
  import opened NotifyInvariant
  import opened NotifySteps
  import opened NotifyCalls
  import opened NotifyLedger
  import AQ = AbstractQueue

  ghost predicate Reachable(s: Notify) {
    exists start: Notify, steps: seq<Step> :: Init(start) && IsRun(start, steps) && s == Exec(start, steps)
  }

  lemma {:induction false} RunKeepsInv(s: Notify, steps: seq<Step>)
    requires Inv(s) && IsRun(s, steps)
    ensures Inv(Exec(s, steps))
  {
    if steps != [] {
      var front := steps[..|steps| - 1];
      RunKeepsInv(s, front);
      StepKeepsInv(Exec(s, front), steps[|steps| - 1]);
    }
  }

  lemma InitHasInv(start: Notify)
    requires Init(start)
    ensures Inv(start) && start.issued == 0
  {
  }

  lemma ReachableHasInv(s: Notify)
    requires Reachable(s)
    ensures Inv(s)
  {
    var start: Notify, steps: seq<Step> :| Init(start) && IsRun(start, steps) && s == Exec(start, steps);
    InitHasInv(start);
    RunKeepsInv(start, steps);
  }

  /** Nothing the notifier unwraps is ever missing, in any run. */
  lemma NeverPanics(start: Notify, steps: seq<Step>)
    requires Init(start) && IsRun(start, steps)
    ensures !Exec(start, steps).panicked
  {
    InitHasInv(start);
    RunKeepsInv(start, steps);
  }

  // ------------------------------------------------------------ who changes what

  predicate IsCall(step: Step) { !IsFuture(step) && !step.Create? && !step.Start? }

  /** The picked waiter of a delivery. */
  predicate Serves(s: Notify, step: Step, w: nat)
    requires Enabled(s, step)
  {
    step.Serve? && s.calls[step.i].pc == Picked(w)
  }

  predicate Drains(s: Notify, step: Step, w: nat)
    requires Enabled(s, step)
  {
    step.DrainNext? && s.q.lists[step.i].rest[0] == w
  }

  /** A call notifies one future, wakes futures, or leaves them alone. */
  lemma CallFutures(s: Notify, step: Step, w: nat)
    requires Enabled(s, step) && IsCall(step) && !CallNext(s, step).panicked && w < |s.futures|
    ensures |CallNext(s, step).futures| == |s.futures|
    ensures var f, g := s.futures[w], CallNext(s, step).futures[w];
      if Serves(s, step, w) then g == Notified(f, s.calls[step.i].kind, step.i)
      else if Drains(s, step, w) then g == Notified(f, All, step.i)
      else g == f || g == f.(wake := Woken)
  {
  }

  /** What a step does to a future other than through the future itself. */
  lemma OtherFutures(s: Notify, step: Step, w: nat)
    requires Enabled(s, step) && !Next(s, step).panicked && w < |s.futures| && !(IsFuture(step) && step.w == w)
    ensures w < |Next(s, step).futures|
    ensures var f, g := s.futures[w], Next(s, step).futures[w];
      if Serves(s, step, w) then g == Notified(f, s.calls[step.i].kind, step.i)
      else if Drains(s, step, w) then g == Notified(f, All, step.i)
      else g == f || g == f.(wake := Woken)
  {
    if IsCall(step) { CallFutures(s, step, w); }
  }

  // ------------------------------------------------------ single notifications

  /** Calls to `notify_one` and `notify_last` in a run. */
  function Singles(steps: seq<Step>): nat {
    if steps == [] then 0
    else
      var step := steps[|steps| - 1];
      Singles(steps[..|steps| - 1]) + if step.Start? && !step.kind.All? then 1 else 0
  }

  lemma {:induction false} IssuedIsSingles(s: Notify, steps: seq<Step>)
    requires Inv(s) && IsRun(s, steps)
    ensures Exec(s, steps).issued == s.issued + Singles(steps)
  {
    if steps != [] {
      var front := steps[..|steps| - 1];
      IssuedIsSingles(s, front);
      RunKeepsInv(s, front);
      StepIsSafe(Exec(s, front), steps[|steps| - 1]);
      StepMoves(Exec(s, front), steps[|steps| - 1]);
    }
  }

  /** No single notification is lost or invented, whatever is cancelled: each one is stored,
      on its way, held by a future that can still use it or pass it on, consumed by a future
      that completed, or merged with one that was already stored. */
  lemma Conservation(start: Notify, steps: seq<Step>)
    requires Init(start) && IsRun(start, steps)
    ensures var t := Exec(start, steps); Outstanding(t) + t.consumed + t.coalesced == Singles(steps)
  {
    InitHasInv(start);
    RunKeepsInv(start, steps);
    IssuedIsSingles(start, steps);
  }

  /** A future that holds a single notification loses it only by completing with it, or by
      handing the same kind on to exactly one new call. */
  lemma HandedOn(s: Notify, step: Step, w: nat)
    requires Inv(s) && Enabled(s, step) && w < |s.futures| && Handed(s.futures[w]) == 1
    ensures w < |Next(s, step).futures|
    ensures Handed(Next(s, step).futures[w]) == 0 ==>
      && IsFuture(step) && step.w == w
      && (if step.PollDequeued? then
            Next(s, step).consumed == s.consumed + 1 && Next(s, step).calls == s.calls
          else
            Next(s, step).consumed == s.consumed
            && Next(s, step).calls == s.calls + [Call(s.futures[w].note.value, 0, Fast)])
    ensures Handed(Next(s, step).futures[w]) == 1 ==> Next(s, step).futures[w].note == s.futures[w].note
  {
    StepIsSafe(s, step);
    if IsFuture(step) && step.w == w {
      HandedOnItself(s, step);
    } else {
      OtherFutures(s, step, w);
      NotifiedWasQueued(s, step, w);
    }
  }

  lemma HandedOnItself(s: Notify, step: Step)
    requires Enabled(s, step) && IsFuture(step) && Sane(s.futures[step.w], s.gen) && Handed(s.futures[step.w]) == 1
    ensures |FutureNext(s, step).futures| == |s.futures|
    ensures var f, t := s.futures[step.w], FutureNext(s, step);
      if Handed(t.futures[step.w]) == 1 then t.futures[step.w].note == f.note
      else if step.PollDequeued? then t.consumed == s.consumed + 1 && t.calls == s.calls
      else t.consumed == s.consumed && t.calls == s.calls + [Call(f.note.value, 0, Fast)]
  {
  }

  /** Only a future in line, without notification, is notified. */
  lemma NotifiedWasQueued(s: Notify, step: Step, w: nat)
    requires Shape(s) && Enabled(s, step)
    ensures Serves(s, step, w) ==> w in s.q.live && !s.calls[step.i].kind.All?
    ensures Serves(s, step, w) || Drains(s, step, w) ==>
      w < |s.futures| && s.futures[w].node.Queued? && s.futures[w].note.None? && !Finished(s.futures[w])
    ensures Drains(s, step, w) ==> AQ.InRest(s.q, step.i, w)
  {
    if Serves(s, step, w) {
      ServeHasFuture(s, step.i);
      assert Sane(s.futures[w], s.gen);
    }
    if Drains(s, step, w) {
      DrainHasFuture(s, step.i);
      assert Sane(s.futures[w], s.gen);
    }
  }

  /** No future notifies itself. */
  lemma NotedByOthers(s: Notify, step: Step)
    requires Enabled(s, step) && IsFuture(step) && Sane(s.futures[step.w], s.gen)
    ensures |FutureNext(s, step).futures| == |s.futures|
    ensures var f, g := s.futures[step.w], FutureNext(s, step).futures[step.w];
      g.note == f.note && g.gen == f.gen && Handed(g) <= Handed(f) && (Finished(f) ==> Finished(g))
  {
  }

  /** A future gets a single notification only as the picked waiter of one such call: the
      first in line for `notify_one`. */
  lemma HandedBy(s: Notify, step: Step, w: nat)
    requires Inv(s) && Enabled(s, step) && w < |s.futures| && Handed(s.futures[w]) == 0
    requires w < |Next(s, step).futures| && Handed(Next(s, step).futures[w]) == 1
    ensures step.Serve? && step.i < |s.calls| && s.calls[step.i].pc == Picked(w) && w in s.q.live
    ensures Next(s, step).futures[w].note == Some(s.calls[step.i].kind)
    ensures s.calls[step.i].kind.One? ==> w == s.q.live[0]
  {
    StepIsSafe(s, step);
    assert Sane(s.futures[w], s.gen);
    if IsFuture(step) && step.w == w {
      NotedByOthers(s, step);
    } else {
      OtherFutures(s, step, w);
      NotifiedWasQueued(s, step, w);
      assert step.Serve? ==> CallOk(s.q, s.lock, s.calls[step.i], step.i);
    }
  }

  /** While a call holds the lock, the others can only append to the line. */
  lemma LineOnlyGrows(s: Notify, step: Step, i: nat)
    requires Inv(s) && Enabled(s, step) && step != Serve(i)
    requires i < |s.calls| && s.calls[i].pc.Picked?
    ensures i < |Next(s, step).calls| && Next(s, step).calls[i] == s.calls[i]
    ensures s.q.live <= Next(s, step).q.live
  {
    StepIsSafe(s, step);
    StepIsQueueOp(s, step);
    assert CallOk(s.q, s.lock, s.calls[i], i);
    if IsCall(step) {
      assert CallOk(s.q, s.lock, s.calls[step.i], step.i);
      OtherCalls(s, step, i);
    }
  }

  lemma OtherCalls(s: Notify, step: Step, i: nat)
    requires Enabled(s, step) && IsCall(step) && i < |s.calls| && step.i != i
    ensures |CallNext(s, step).calls| == |s.calls| && CallNext(s, step).calls[i] == s.calls[i]
  {
  }

  /** Whatever happens between the moment a call picks its waiter and the moment it serves it,
      the waiter is the one that was then first in line, or last for `notify_last`, and all
      those behind it have arrived since. */
  lemma {:induction false} PickedIsServed(s: Notify, steps: seq<Step>, i: nat)
    requires Inv(s) && Enabled(s, Pick(i)) && s.q.live != []
    requires IsRun(Next(s, Pick(i)), steps) && forall k :: 0 <= k < |steps| ==> steps[k] != Serve(i)
    ensures var t := Exec(Next(s, Pick(i)), steps);
      && Enabled(t, Serve(i)) && s.q.live <= t.q.live
      && t.calls[i].kind == s.calls[i].kind
      && t.calls[i].pc == Picked(if s.calls[i].kind.Last? then s.q.live[|s.q.live| - 1] else s.q.live[0])
  {
    var p := Next(s, Pick(i));
    StepKeepsInv(s, Pick(i));
    RunKeepsInv(p, steps);
    if steps != [] {
      var front := steps[..|steps| - 1];
      PickedIsServed(s, front, i);
      RunKeepsInv(p, front);
      LineOnlyGrows(Exec(p, front), steps[|steps| - 1], i);
    }
  }

  // ------------------------------------------------------ notify_waiters

  /** A poll returns `Pending` only if the future is up to date with the generation. */
  lemma PendingIsCurrent(s: Notify, step: Step)
    requires Inv(s) && Enabled(s, step) && IsFuture(step)
    requires Next(s, step).futures[step.w].poll.Idle?
    ensures s.futures[step.w].gen == s.gen == Next(s, step).gen
  {
    assert Sane(s.futures[step.w], s.gen);
  }

  lemma CallsProgress(s: Notify, step: Step, i: nat)
    requires Shape(s) && Enabled(s, step) && i < |s.calls| && s.calls[i].kind.All?
    ensures var t := Next(s, step);
      && i < |t.calls| && s.gen <= t.gen && t.calls[i].kind.All?
      && (BeforeBump(s.calls[i].pc) ==> BeforeBump(t.calls[i].pc) || t.gen > s.gen)
  {
    assert CallOk(s.q, s.lock, s.calls[i], i);
    if IsCall(step) { CallProgresses(s, step, i); }
  }

  lemma CallProgresses(s: Notify, step: Step, i: nat)
    requires Enabled(s, step) && IsCall(step) && i < |s.calls| && s.calls[i].kind.All?
    requires CallOk(s.q, s.lock, s.calls[i], i)
    ensures var t := CallNext(s, step);
      && |t.calls| == |s.calls| && s.gen <= t.gen && t.calls[i].kind.All?
      && (BeforeBump(s.calls[i].pc) ==> BeforeBump(t.calls[i].pc) || t.gen > s.gen)
  {
  }

  lemma FutureKeepsGen(s: Notify, step: Step, w: nat)
    requires Inv(s) && Enabled(s, step) && w < |s.futures|
    ensures w < |Next(s, step).futures| && Next(s, step).futures[w].gen == s.futures[w].gen
  {
    StepIsSafe(s, step);
    if IsFuture(step) && step.w == w {
      assert Sane(s.futures[w], s.gen);
      NotedByOthers(s, step);
    } else {
      OtherFutures(s, step, w);
    }
  }

  predicate BeforeBump(pc: CallPc) { pc.Want? || pc.Locked? }

  /** Along a run the generation a future was born with stays, and a `notify_waiters` call
      gets past its bump only by raising the notifier's generation. */
  lemma {:induction false} RunNeverAges(s: Notify, steps: seq<Step>, i: nat, w: nat)
    requires Inv(s) && IsRun(s, steps) && w < |s.futures|
    requires i < |s.calls| && s.calls[i].kind.All? && BeforeBump(s.calls[i].pc)
    ensures var t := Exec(s, steps);
      && s.gen <= t.gen && w < |t.futures| && t.futures[w].gen == s.futures[w].gen
      && i < |t.calls| && t.calls[i].kind.All? && (BeforeBump(t.calls[i].pc) || t.gen > s.gen)
  {
    if steps != [] {
      var front := steps[..|steps| - 1];
      RunNeverAges(s, front, i, w);
      RunKeepsInv(s, front);
      CallsProgress(Exec(s, front), steps[|steps| - 1], i);
      FutureKeepsGen(Exec(s, front), steps[|steps| - 1], w);
    }
  }

  /** Completeness of `notify_waiters`: once a call that had not bumped the generation yet has
      returned, no poll of a future created before can return `Pending`, now or ever. */
  lemma NotifyWaitersCompletes(s: Notify, steps: seq<Step>, i: nat, w: nat, step: Step)
    requires Inv(s) && IsRun(s, steps)
    requires i < |s.calls| && s.calls[i].kind.All? && BeforeBump(s.calls[i].pc)
    requires w < |s.futures|
    requires i < |Exec(s, steps).calls| && !BeforeBump(Exec(s, steps).calls[i].pc)
    requires Enabled(Exec(s, steps), step) && IsFuture(step) && step.w == w
    ensures w < |Next(Exec(s, steps), step).futures|
    ensures !Next(Exec(s, steps), step).futures[w].poll.Idle?
  {
    var t := Exec(s, steps);
    RunNeverAges(s, steps, i, w);
    RunKeepsInv(s, steps);
    FutureKeepsGen(t, step, w);
    assert Sane(s.futures[w], s.gen);
    if Next(t, step).futures[w].poll.Idle? { PendingIsCurrent(t, step); }
  }

  /** A poll is ready at its very first step if and only if the future is outdated or was
      notified; it may still become so by the stored notification, or by a later bump. */
  lemma OutdatedIsReady(s: Notify, step: Step)
    requires Inv(s) && Enabled(s, step) && IsFuture(step) && !step.Drop? && s.futures[step.w].poll.Idle?
    ensures Next(s, step).futures[step.w].poll.Done? <==>
      s.futures[step.w].gen < s.gen || s.futures[step.w].node.Dequeued?
  {
    assert Sane(s.futures[step.w], s.gen);
  }

  /** A future completes only if it was notified: its generation is outdated, it consumes
      exactly one single notification, or `notify_waiters` took it out of the line. */
  lemma CompletedIsNotified(s: Notify, step: Step, w: nat)
    requires Inv(s) && Enabled(s, step) && w < |s.futures| && !Finished(s.futures[w])
    requires w < |Next(s, step).futures| && Next(s, step).futures[w].poll.Done?
    ensures IsFuture(step) && step.w == w
    ensures s.futures[w].gen < s.gen || Next(s, step).consumed == s.consumed + 1
      || (s.futures[w].note == Some(All) && s.futures[w].node.Dequeued?)
  {
    StepIsSafe(s, step);
    if IsFuture(step) && step.w == w {
      assert Sane(s.futures[w], s.gen);
      CompletesNotified(s, step);
    } else {
      OtherFutures(s, step, w);
    }
  }

  lemma CompletesNotified(s: Notify, step: Step)
    requires Enabled(s, step) && IsFuture(step) && Sane(s.futures[step.w], s.gen) && !Finished(s.futures[step.w])
    requires |FutureNext(s, step).futures| == |s.futures| && FutureNext(s, step).futures[step.w].poll.Done?
    ensures var f := s.futures[step.w];
      f.gen < s.gen || FutureNext(s, step).consumed == s.consumed + 1 || (f.note == Some(All) && f.node.Dequeued?)
  {
    var f := s.futures[step.w];
    if step.PollDequeued? {
      match f.note.value
      case One =>
      case Last =>
      case All =>
    }
  }

  /** And a future that was notified completes: any first step of its next poll is the last. */
  lemma NotifiedIsReady(s: Notify, step: Step, w: nat)
    requires Inv(s) && Enabled(s, step) && IsFuture(step) && step.w == w && !step.Drop?
    requires s.futures[w].poll.Idle? && s.futures[w].node.Dequeued?
    ensures w < |Next(s, step).futures| && Next(s, step).futures[w].poll.Done?
    ensures Next(s, step).consumed == s.consumed + Handed(s.futures[w])
  {
  }

  /** A future that is up to date, with nothing stored for it, is not ready: the steps of its
      poll lead into the line. */
  lemma UnnotifiedWaits(s: Notify, step: Step, w: nat)
    requires Inv(s) && Enabled(s, step) && IsFuture(step) && step.w == w && s.futures[w].gen == s.gen
    requires step.PollGen? || (step.PollTake? && !(s.q.live == [] && s.q.state == NOTIFIED)) || step.PollEnqueue? || step.PollQueued?
    ensures w < |Next(s, step).futures|
    ensures !Finished(Next(s, step).futures[w]) && !Next(s, step).futures[w].node.Dequeued?
    ensures step.PollEnqueue? && View(s.q) == s.futures[w].poll.view ==>
      Next(s, step).q.live == s.q.live + [w] && Next(s, step).futures[w].node.Queued?
  {
    assert Sane(s.futures[w], s.gen) && PlaceOk(s.q, s.futures[w], w);
  }

  // --------------------------------------------------------------- registering

  /** A waker, once registered, stays registered, taken or woken. */
  lemma WakeNeverUnset(s: Notify, step: Step, w: nat)
    requires Inv(s) && Enabled(s, step) && w < |s.futures| && !s.futures[w].wake.Unset?
    ensures w < |Next(s, step).futures| && !Next(s, step).futures[w].wake.Unset?
  {
    StepIsSafe(s, step);
    if IsFuture(step) && step.w == w { OwnWake(s, step); } else { OtherFutures(s, step, w); }
  }

  lemma OwnWake(s: Notify, step: Step)
    requires Enabled(s, step) && IsFuture(step)
    ensures |FutureNext(s, step).futures| == |s.futures|
    ensures !s.futures[step.w].wake.Unset? ==> !FutureNext(s, step).futures[step.w].wake.Unset?
  {
  }

  /** A poll that is given a context registers a waker before it goes on to wait. */
  lemma ContextRegisters(s: Notify, step: Step)
    requires Inv(s) && Enabled(s, step) && (step.PollTake? || step.PollQueued?) && step.cx
    ensures step.w < |Next(s, step).futures|
    ensures var f := Next(s, step).futures[step.w];
      f.poll.Done? || (!f.wake.Unset? && (step.PollQueued? ==> f.wake.Armed?))
  {
    assert Sane(s.futures[step.w], s.gen);
  }

  /** From then on, along every run, it has one: what is owed to it cannot be lost. */
  lemma {:induction false} RegisteredForGood(s: Notify, steps: seq<Step>, w: nat)
    requires Inv(s) && IsRun(s, steps) && w < |s.futures| && !s.futures[w].wake.Unset?
    ensures w < |Exec(s, steps).futures| && !Exec(s, steps).futures[w].wake.Unset?
    decreases |steps|
  {
    if steps != [] {
      var front := steps[..|steps| - 1];
      RegisteredForGood(s, front, w);
      RunKeepsInv(s, front);
      WakeNeverUnset(Exec(s, front), steps[|steps| - 1], w);
    }
  }

  /** Who still owes a wake-up to a future: the call that took its waker, a drain that holds
      it, or a `notify_waiters` about to swap it out. */
  ghost predicate Owed(s: Notify, w: nat)
    requires w < |s.futures|
  {
    match s.futures[w].wake
    case Woken => true
    case Taken(i) => i < |s.calls| && WillWake(s.calls[i].pc)
    case Armed => SwapPending(s) || exists z: nat :: AQ.InRest(s.q, z, w) && z < |s.calls| && DrainOpen(s.calls[z].pc)
    case Unset => false
  }

  lemma QueuedIsOwed(s: Notify, w: nat)
    requires AQ.Inv(s.q) && Current(s) && Calling(s) && AQ.Present(s.q, w)
    requires w < |s.futures| && s.futures[w].poll.Idle? && s.futures[w].gen < s.gen && s.futures[w].wake.Armed?
    ensures Owed(s, w)
  {
    if w in s.q.live {
      assert CurrentOk(s, w);
    } else {
      var z: nat :| AQ.InRest(s.q, z, w);
      assert z in s.q.lists && z < |s.calls|;
      assert CallOk(s.q, s.lock, s.calls[z], z);
    }
  }

  /** A `Pending` future that should be ready, because it was notified or is outdated, and that
      registered a waker, has been woken or a running call still owes it the wake-up. */
  lemma NoLostWakeup(s: Notify, w: nat)
    requires Reachable(s) && w < |s.futures|
    requires s.futures[w].poll.Idle? && !s.futures[w].wake.Unset?
    requires s.futures[w].node.Dequeued? || (s.futures[w].node.Queued? && s.futures[w].gen < s.gen)
    ensures Owed(s, w)
  {
    ReachableHasInv(s);
    assert Sane(s.futures[w], s.gen) && TakerOk(s.calls, s.futures[w]) && PlaceOk(s.q, s.futures[w], w);
    if s.futures[w].node.Queued? { QueuedIsOwed(s, w); }
  }

  /** When every call has returned, nobody is owed anything: every notified or outdated future
      with a waker has been woken, and all notifications are stored, held or accounted for. */
  lemma QuietMeansWoken(s: Notify, w: nat)
    requires Reachable(s) && (forall i :: 0 <= i < |s.calls| ==> s.calls[i].pc.Over?) && w < |s.futures|
    requires s.futures[w].poll.Idle? && !s.futures[w].wake.Unset?
    ensures s.futures[w].node.Dequeued? || (s.futures[w].node.Queued? && s.futures[w].gen < s.gen) ==>
      s.futures[w].wake.Woken?
  {
    ReachableHasInv(s);
    if s.futures[w].node.Dequeued? || (s.futures[w].node.Queued? && s.futures[w].gen < s.gen) {
      NoLostWakeup(s, w);
    }
  }

  // ------------------------------------------------ drained means drained

  /** The one queue operation that a step performs. */
  function OpOf(s: Notify, step: Step): AQ.Op<nat>
    requires Enabled(s, step)
  {
    match step
    case PollTake(_, _) => if s.q.live == [] && s.q.state == NOTIFIED then AQ.SetState(UNNOTIFIED) else AQ.Stutter
    case PollEnqueue(w) => if View(s.q) == s.futures[w].poll.view then AQ.Enqueue(w) else AQ.Stutter
    case PollCancel(w) => if s.futures[w].node.Queued? then AQ.Remove(w, UNNOTIFIED) else AQ.Stutter
    case PollQueued(w, _) => if s.gen != s.futures[w].gen then AQ.Remove(w, UNNOTIFIED) else AQ.Stutter
    case Drop(w) => if s.futures[w].node.Queued? then AQ.Remove(w, UNNOTIFIED) else AQ.Stutter
    case CallFast(_) => if s.q.live == [] then AQ.SetState(NOTIFIED) else AQ.Stutter
    case CallRetry(_) => if s.q.live == [] then AQ.SetState(NOTIFIED) else AQ.Stutter
    case Serve(i) => AQ.Remove(s.calls[i].pc.w, UNNOTIFIED)
    case Swap(i) => AQ.OpenDrain(i, UNNOTIFIED)
    case DrainNext(i) => AQ.Yield(i)
    case DrainEnd(i) => AQ.CloseDrain(i)
    case _ => AQ.Stutter
  }

  lemma FutureOp(s: Notify, step: Step)
    requires Enabled(s, step) && IsFuture(step)
    requires Sane(s.futures[step.w], s.gen) && PlaceOk(s.q, s.futures[step.w], step.w)
    ensures AQ.Enabled(s.q, OpOf(s, step)) && FutureNext(s, step).q == AQ.Apply(s.q, OpOf(s, step))
  {
  }

  lemma CallOp(s: Notify, step: Step)
    requires Shape(s) && Enabled(s, step) && IsCall(step)
    ensures AQ.Enabled(s.q, OpOf(s, step)) && CallNext(s, step).q == AQ.Apply(s.q, OpOf(s, step))
  {
    assert CallOk(s.q, s.lock, s.calls[step.i], step.i);
    if step.Serve? { ServeHasFuture(s, step.i); }
    if step.DrainNext? { DrainHasFuture(s, step.i); }
  }

  /** The notifier only ever performs operations that the queue's contract allows. */
  lemma StepIsQueueOp(s: Notify, step: Step)
    requires Inv(s) && Enabled(s, step)
    ensures AQ.Enabled(s.q, OpOf(s, step)) && Next(s, step).q == AQ.Apply(s.q, OpOf(s, step))
  {
    if IsFuture(step) {
      FutureOp(s, step);
    } else if IsCall(step) {
      CallOp(s, step);
    }
  }

  /** In a drained list, notified by `notify_waiters`, or finished. */
  ghost predicate Sealed(s: Notify, w: nat) {
    w < |s.futures| &&
    ((exists z: nat :: AQ.InRest(s.q, z, w)) || s.futures[w].note == Some(All) || Finished(s.futures[w]))
  }

  lemma SealedHoldsNone(s: Notify, w: nat)
    requires Inv(s) && Sealed(s, w)
    ensures Handed(s.futures[w]) == 0
  {
    if exists z: nat :: AQ.InRest(s.q, z, w) {
      assert AQ.Present(s.q, w);
      assert PlaceOk(s.q, s.futures[w], w);
    }
  }

  lemma DrainedStep(s: Notify, step: Step, z: nat, w: nat)
    requires Inv(s) && Enabled(s, step) && AQ.InRest(s.q, z, w)
    ensures Sealed(Next(s, step), w)
  {
    assert AQ.Present(s.q, w);
    StepIsSafe(s, step);
    StepIsQueueOp(s, step);
    RestAfter(s.q, OpOf(s, step), z, w);
    if IsFuture(step) && step.w == w {
      LeavesFinished(s, step);
    } else {
      OtherFutures(s, step, w);
      NotifiedWasQueued(s, step, w);
      OtherRemoves(s, step, w);
    }
  }

  /** A future that takes itself out is finished. */
  lemma LeavesFinished(s: Notify, step: Step)
    requires Enabled(s, step) && IsFuture(step)
    ensures |FutureNext(s, step).futures| == |s.futures|
    ensures OpOf(s, step).Remove? ==> OpOf(s, step).n == step.w && Finished(FutureNext(s, step).futures[step.w])
    ensures !OpOf(s, step).Yield?
  {
  }

  lemma OtherRemoves(s: Notify, step: Step, w: nat)
    requires Enabled(s, step) && !(IsFuture(step) && step.w == w)
    ensures OpOf(s, step).Remove? && OpOf(s, step).n == w ==> Serves(s, step, w)
    ensures OpOf(s, step).Yield? ==> step == DrainNext(OpOf(s, step).z)
  {
  }

  lemma NotedStep(s: Notify, step: Step, w: nat)
    requires Inv(s) && Enabled(s, step) && w < |s.futures|
    requires s.futures[w].note == Some(All) || Finished(s.futures[w])
    ensures Sealed(Next(s, step), w)
  {
    StepIsSafe(s, step);
    if IsFuture(step) && step.w == w {
      assert Sane(s.futures[w], s.gen);
      NotedByOthers(s, step);
    } else {
      OtherFutures(s, step, w);
      NotifiedWasQueued(s, step, w);
    }
  }

  /** A future moved by the swap of `notify_waiters` never takes a single notification again:
      none that comes later is wasted on it. */
  lemma {:induction false} DrainedTakesNothing(s: Notify, steps: seq<Step>, w: nat)
    requires Inv(s) && IsRun(s, steps) && Sealed(s, w)
    ensures Sealed(Exec(s, steps), w) && Handed(Exec(s, steps).futures[w]) == 0
  {
    if steps == [] {
      SealedHoldsNone(s, w);
    } else {
      var front := steps[..|steps| - 1];
      var u := Exec(s, front);
      var step := steps[|steps| - 1];
      DrainedTakesNothing(s, front, w);
      RunKeepsInv(s, front);
      if exists z: nat :: AQ.InRest(u.q, z, w) {
        var z: nat :| AQ.InRest(u.q, z, w);
        DrainedStep(u, step, z, w);
      } else {
        NotedStep(u, step, w);
      }
      StepKeepsInv(u, step);
      SealedHoldsNone(Exec(s, steps), w);
    }
  }

  /** The swap seals everybody in line. */
  lemma SwapSeals(s: Notify, i: nat, w: nat)
    requires Inv(s) && Enabled(s, Swap(i)) && w in s.q.live
    ensures Sealed(Next(s, Swap(i)), w)
  {
    assert CallOk(s.q, s.lock, s.calls[i], i);
    assert AQ.Present(s.q, w);
    assert AQ.InRest(Next(s, Swap(i)).q, i, w);
  }

  // ------------------------------------------------------------ full batches

  /** A call that gives up the lock before it is done has a full batch to wake. */
  predicate BatchOk(c: Call) { c.pc == Unlocking(false) || c.pc == Wakening(false) ==> c.batch == BATCH }

  lemma OwnBatch(s: Notify, step: Step)
    requires Enabled(s, step) && IsCall(step) && BatchOk(s.calls[step.i])
    ensures var t := CallNext(s, step);
      |t.calls| == |s.calls| && BatchOk(t.calls[step.i]) && forall i :: 0 <= i < |s.calls| && i != step.i ==> t.calls[i] == s.calls[i]
  {
    match step
    case Serve(_) =>
    case DrainNext(_) =>
    case Swap(_) =>
    case _ =>
  }

  ghost predicate BatchesOk(calls: seq<Call>) { forall i :: 0 <= i < |calls| ==> BatchOk(calls[i]) }

  lemma BatchStep(s: Notify, step: Step)
    requires Enabled(s, step) && BatchesOk(s.calls)
    ensures BatchesOk(Next(s, step).calls)
  {
    if IsCall(step) { OwnBatch(s, step); }
  }

  /** Over every run: the lock changes hands in the middle of a call only after 32 wakers. */
  lemma {:induction false} BatchesAreFull(s: Notify, steps: seq<Step>)
    requires IsRun(s, steps) && BatchesOk(s.calls)
    ensures BatchesOk(Exec(s, steps).calls)
    decreases |steps|
  {
    if steps != [] {
      var front := steps[..|steps| - 1];
      BatchesAreFull(s, front);
      BatchStep(Exec(s, front), steps[|steps| - 1]);
    }
  }
}
