/** The theorems about every run of the wait queue. */
module WaitQueueTheorems {
  import opened Waking
  import opened WaitQueueModel
  import opened WaitQueueInvariant
  import opened WaitQueueSteps
  import AQ = AbstractQueue

  // ------------------------------------------------------- who changes what

  /** The one queue operation that a step performs. */
  function OpOf(s: State, step: Step): AQ.Op<nat>
    requires Enabled(s, step)
  {
    match step
    case TryEnqueue(w) => if Closed(s.q) then AQ.Stutter else AQ.Enqueue(w)
    case Drop(w) => if s.waiters[w].node.Queued? then AQ.Remove(w, EMPTY) else AQ.Stutter
    case CallFast(i) => if s.q.live == [] && s.calls[i].job.Shut? then AQ.SetState(CLOSED) else AQ.Stutter
    case CallRetry(i) => if s.q.live == [] && s.calls[i].job.Shut? then AQ.SetState(CLOSED) else AQ.Stutter
    case Serve(i) => AQ.Remove(s.calls[i].pc.w, EMPTY)
    case Swap(i) => AQ.OpenDrain(i, if s.calls[i].job.Shut? then CLOSED else EMPTY)
    case DrainNext(i) => AQ.Yield(i)
    case DrainEnd(i) => AQ.CloseDrain(i)
    case _ => AQ.Stutter
  }

  lemma WaiterOp(s: State, step: Step)
    requires Shape(s) && Enabled(s, step) && IsWaiter(step)
    ensures AQ.Enabled(s.q, OpOf(s, step)) && WaiterNext(s, step).q == AQ.Apply(s.q, OpOf(s, step))
  {
    assert Sane(s.waiters[step.w]) && PlaceOk(s.q, s.waiters[step.w], step.w);
  }

  lemma CallOp(s: State, step: Step)
    requires Shape(s) && Enabled(s, step) && IsCall(step)
    ensures AQ.Enabled(s.q, OpOf(s, step)) && CallNext(s, step).q == AQ.Apply(s.q, OpOf(s, step))
  {
    assert CallOk(s.q, s.lock, s.calls[step.i], step.i);
    if step.Serve? { ServeHasWaiter(s, step.i); }
    if step.DrainNext? { DrainHasWaiter(s, step.i); }
  }

  /** The wait queue only ever performs operations that the queue's contract allows. */
  lemma StepIsQueueOp(s: State, step: Step)
    requires Shape(s) && Enabled(s, step)
    ensures AQ.Enabled(s.q, OpOf(s, step)) && Next(s, step).q == AQ.Apply(s.q, OpOf(s, step))
  {
    if IsWaiter(step) { WaiterOp(s, step); } else if IsCall(step) { CallOp(s, step); }
  }

  /** The line after a step: those who were in it, and whoever enqueued itself. */
  lemma LineAfter(s: State, step: Step, w: nat)
    requires Shape(s) && Enabled(s, step) && w in Next(s, step).q.live
    ensures w in s.q.live || (step == TryEnqueue(w) && !Closed(s.q))
  {
    StepIsQueueOp(s, step);
  }

  /** Closing is permanent, and only `close` closes. */
  lemma ClosedIff(s: State, step: Step)
    requires Shape(s) && Enabled(s, step)
    ensures Closed(Next(s, step).q) <==> Closed(s.q) || Closes(s, step)
  {
    StepIsQueueOp(s, step);
    if step.Drop? { assert PlaceOk(s.q, s.waiters[step.w], step.w); }
    if IsCall(step) { assert CallOk(s.q, s.lock, s.calls[step.i], step.i); }
    if OpOf(s, step).Remove? { RemoveFromLive(s.q, OpOf(s, step).n, EMPTY); }
  }

  predicate Closes(s: State, step: Step)
    requires Enabled(s, step)
  {
    match step
    case CallFast(i) => s.calls[i].job.Shut? && s.q.live == []
    case CallRetry(i) => s.calls[i].job.Shut? && s.q.live == []
    case Swap(i) => s.calls[i].job.Shut?
    case _ => false
  }

  // ---------------------------------------------------------------- accounts

  lemma AccountsGrow(s: State, step: Step)
    requires Enabled(s, step)
    ensures !step.ClearCondition? ==>
      (s.cond ==> Next(s, step).cond) && (s.served ==> Next(s, step).served)
    ensures s.closedEarly ==> Next(s, step).closedEarly
  {
  }

  lemma NodeStepChangesOne(s: State, step: Step)
    requires Enabled(s, step) && (step.Serve? || step.DrainNext?)
    ensures var t := CallNext(s, step);
      && |t.calls| == |s.calls| && t.calls == s.calls[step.i := t.calls[step.i]]
      && t.calls[step.i].late == s.calls[step.i].late
      && (t.calls[step.i].job == s.calls[step.i].job || (s.calls[step.i].job.Many? && t.calls[step.i].job.Many?))
  {
  }

  /** A call changes only itself, and keeps what it was asked to do and when. */
  lemma OneCallChanges(s: State, step: Step)
    requires Enabled(s, step) && IsCall(step)
    ensures var t := CallNext(s, step);
      && |t.calls| == |s.calls| && t.calls == s.calls[step.i := t.calls[step.i]]
      && t.calls[step.i].late == s.calls[step.i].late
      && (t.calls[step.i].job == s.calls[step.i].job || (s.calls[step.i].job.Many? && t.calls[step.i].job.Many?))
  {
    if step.Serve? || step.DrainNext? { NodeStepChangesOne(s, step); }
  }

  predicate MayDecide(step: Step) { step.CallFast? || step.CallRetry? || step.Swap? }

  lemma LaterSteps(s: State, step: Step)
    requires Enabled(s, step) && IsCall(step) && !MayDecide(step) && CallOk(s.q, s.lock, s.calls[step.i], step.i)
    ensures |CallNext(s, step).calls| == |s.calls|
    ensures Global(s.calls[step.i].job) && Decided(CallNext(s, step).calls[step.i].pc) ==> Decided(s.calls[step.i].pc)
  {
  }

  /** A global call passes its decisive point only by serving, and by closing if it is a `close`. */
  lemma CallDecides(s: State, step: Step)
    requires Enabled(s, step) && MayDecide(step) && CallOk(s.q, s.lock, s.calls[step.i], step.i)
    ensures |CallNext(s, step).calls| == |s.calls|
    ensures var c, d := s.calls[step.i], CallNext(s, step).calls[step.i];
      Global(c.job) && Decided(d.pc) ==> (c.late ==> CallNext(s, step).served) && (c.job.Shut? ==> Closes(s, step))
  {
  }

  /** The call that steps keeps its own account right. */
  lemma OwnAccount(s: State, step: Step)
    requires Enabled(s, step) && IsCall(step) && AccountOk(s, s.calls[step.i])
    requires CallOk(s.q, s.lock, s.calls[step.i], step.i)
    requires Closed(CallNext(s, step).q) <==> Closed(s.q) || Closes(s, step)
    ensures |CallNext(s, step).calls| == |s.calls|
    ensures AccountOk(CallNext(s, step), CallNext(s, step).calls[step.i])
  {
    OneCallChanges(s, step);
    AccountsGrow(s, step);
    if MayDecide(step) { CallDecides(s, step); } else { LaterSteps(s, step); }
  }

  lemma CallStepAccounted(s: State, step: Step)
    requires Shape(s) && Accounts(s) && Enabled(s, step) && IsCall(step)
    ensures var t := CallNext(s, step);
      |t.calls| == |s.calls| && t.calls == s.calls[step.i := t.calls[step.i]] && AccountOk(t, t.calls[step.i])
  {
    ClosedIff(s, step);
    assert CallOk(s.q, s.lock, s.calls[step.i], step.i);
    assert AccountOk(s, s.calls[step.i]);
    OneCallChanges(s, step);
    OwnAccount(s, step);
  }

  lemma CallsAccounted(s: State, step: Step)
    requires Shape(s) && Accounts(s) && Enabled(s, step)
    ensures forall k :: 0 <= k < |Next(s, step).calls| ==> AccountOk(Next(s, step), Next(s, step).calls[k])
  {
    var t := Next(s, step);
    AccountsGrow(s, step);
    ClosedIff(s, step);
    if IsCall(step) { CallStepAccounted(s, step); }
    forall k | 0 <= k < |t.calls| ensures AccountOk(t, t.calls[k]) {
      if k < |s.calls| { assert AccountOk(s, s.calls[k]); }
    }
  }

  /** Only a waiter's own steps move its poll. */
  lemma CallLeavesPolls(s: State, step: Step, w: nat)
    requires Enabled(s, step) && IsCall(step) && w < |s.waiters|
    ensures w < |CallNext(s, step).waiters|
    ensures CallNext(s, step).waiters[w].kind == s.waiters[w].kind && CallNext(s, step).waiters[w].poll == s.waiters[w].poll
  {
    match step
    case Serve(_) =>
    case DrainNext(_) =>
    case CallWake(_) =>
    case _ =>
  }

  lemma OthersLeavePolls(s: State, step: Step, w: nat)
    requires Enabled(s, step) && w < |s.waiters| && !(IsWaiter(step) && step.w == w)
    ensures w < |Next(s, step).waiters|
    ensures Next(s, step).waiters[w].kind == s.waiters[w].kind && Next(s, step).waiters[w].poll == s.waiters[w].poll
  {
    if IsCall(step) { CallLeavesPolls(s, step, w); }
  }

  /** A waiter in line stays past its first test of the condition once the condition holds. */
  lemma LateStep(s: State, step: Step, w: nat)
    requires Shape(s) && Enabled(s, step) && !step.ClearCondition? && s.cond && w < |s.waiters| && LateOk(s.waiters, w)
    requires s.waiters[w].node.Queued? && w in Next(s, step).q.live
    ensures LateOk(Next(s, step).waiters, w)
  {
    if IsWaiter(step) && step.w == w {
      assert PlaceOk(s.q, s.waiters[w], w);
      LateOwnStep(s, step);
    } else {
      OthersLeavePolls(s, step, w);
    }
  }

  lemma LateOwnStep(s: State, step: Step)
    requires Enabled(s, step) && IsWaiter(step) && s.cond && LateOk(s.waiters, step.w)
    requires s.waiters[step.w].node.Queued? && AQ.Present(s.q, step.w) && step.w in WaiterNext(s, step).q.live
    ensures LateOk(WaiterNext(s, step).waiters, step.w)
  {
  }

  lemma LateEnqueue(s: State, w: nat)
    requires Enabled(s, TryEnqueue(w)) && !Closed(s.q)
    ensures LateOk(WaiterNext(s, TryEnqueue(w)).waiters, w)
  {
  }

  /** The decisive point of a global notification leaves nobody in line. */
  lemma NewlyServed(s: State, step: Step)
    requires Shape(s) && Accounts(s) && Enabled(s, step) && !s.served && Next(s, step).served
    ensures Next(s, step).q.live == [] && Next(s, step).cond
  {
    StepIsQueueOp(s, step);
    assert IsCall(step) && AccountOk(s, s.calls[step.i]);
  }

  lemma LineAccounted(s: State, step: Step)
    requires Shape(s) && Accounts(s) && Enabled(s, step) && Next(s, step).served
    ensures Next(s, step).cond && forall w :: w in Next(s, step).q.live ==> LateOk(Next(s, step).waiters, w)
  {
    AccountsGrow(s, step);
    if !s.served {
      NewlyServed(s, step);
    } else {
      forall w | w in Next(s, step).q.live ensures LateOk(Next(s, step).waiters, w) {
        LineAfter(s, step, w);
        if w in s.q.live {
          assert AQ.Present(s.q, w);
          assert PlaceOk(s.q, s.waiters[w], w);
          assert LateOk(s.waiters, w);
          LateStep(s, step, w);
        } else {
          LateEnqueue(s, w);
        }
      }
    }
  }

  /** Nothing fails but the documented panic of a wait whose condition is still false when the
      queue is closed; and that only happens to those who close too early. */
  lemma StepIsSafe(s: State, step: Step)
    requires Shape(s) && Accounts(s) && Enabled(s, step)
    ensures Next(s, step).panicked <==> step.Recheck? && !s.cond && s.waiters[step.w].poll == Rechecking(true)
    ensures Next(s, step).panicked ==> Next(s, step).closedEarly && Closed(s.q)
  {
    if IsWaiter(step) {
      assert Sane(s.waiters[step.w]) && PlaceOk(s.q, s.waiters[step.w], step.w);
    } else if IsCall(step) {
      assert CallOk(s.q, s.lock, s.calls[step.i], step.i);
      if step.Serve? { ServeHasWaiter(s, step.i); }
      if step.DrainNext? { DrainHasWaiter(s, step.i); }
    }
  }

  lemma ClosedAccounted(s: State, step: Step)
    requires Shape(s) && Accounts(s) && Enabled(s, step) && Closed(Next(s, step).q)
    ensures Next(s, step).cond || Next(s, step).closedEarly
  {
    ClosedIff(s, step);
    AccountsGrow(s, step);
    if !Closed(s.q) { assert AccountOk(s, s.calls[step.i]); }
  }

  lemma StepKeepsInv(s: State, step: Step)
    requires Inv(s) && Enabled(s, step)
    ensures Inv(Next(s, step))
  {
    ShapeKept(s, step);
    StepIsSafe(s, step);
    CallsAccounted(s, step);
    if Next(s, step).served { LineAccounted(s, step); }
    if Closed(Next(s, step).q) { ClosedAccounted(s, step); }
  }

  lemma {:induction false} RunKeepsInv(s: State, steps: seq<Step>)
    requires Inv(s) && IsRun(s, steps)
    ensures Inv(Exec(s, steps))
  {
    if steps != [] {
      var front := steps[..|steps| - 1];
      RunKeepsInv(s, front);
      StepKeepsInv(Exec(s, front), steps[|steps| - 1]);
    }
  }

  lemma InitHasInv(start: State)
    requires Init(start)
    ensures Inv(start)
  {
  }

  ghost predicate Reachable(s: State) {
    exists start: State, steps: seq<Step> :: Init(start) && IsRun(start, steps) && s == Exec(start, steps)
  }

  lemma ReachableHasInv(s: State)
    requires Reachable(s)
    ensures Inv(s)
  {
    var start: State, steps: seq<Step> :| Init(start) && IsRun(start, steps) && s == Exec(start, steps);
    InitHasInv(start);
    RunKeepsInv(start, steps);
  }

  // ----------------------------------------------------------------- theorems

  /** In a run where nobody closes before the condition holds, nothing fails: every linked
      waiter has its waker when it is taken, and no batch overflows. */
  lemma NeverPanics(start: State, steps: seq<Step>)
    requires Init(start) && IsRun(start, steps)
    ensures Exec(start, steps).panicked ==> Exec(start, steps).closedEarly
  {
    InitHasInv(start);
    RunKeepsInv(start, steps);
  }

  /** Who still owes a wake-up to a waiter: the call that took its waker, or a drain that holds it. */
  ghost predicate Owed(s: State, w: nat)
    requires w < |s.waiters|
  {
    match s.waiters[w].wake
    case Woken => true
    case Taken(i) => i < |s.calls| && WillWake(s.calls[i].pc)
    case Armed => exists z: nat :: AQ.InRest(s.q, z, w) && z < |s.calls| && DrainOpen(s.calls[z])
    case Unset => false
  }

  lemma OutOfLineIsOwed(s: State, w: nat)
    requires Inv(s) && w < |s.waiters| && s.waiters[w].poll.Idle? && !s.waiters[w].node.Unqueued? && w !in s.q.live
    ensures Owed(s, w)
  {
    assert Sane(s.waiters[w]) && TakerOk(s.calls, s.waiters[w]) && PlaceOk(s.q, s.waiters[w], w);
    if s.waiters[w].node.Queued? {
      var z: nat :| AQ.InRest(s.q, z, w);
      assert z in s.q.lists && z < |s.calls|;
      assert CallOk(s.q, s.lock, s.calls[z], z);
    }
  }

  /** No missed condition. Somebody made the condition true and then called `notify_all` (or
      `close`), and that call has returned, or is only busy waking: every `wait_until` that
      is pending has been woken, or a running call still owes it the wake-up. */
  lemma NoMissedCondition(s: State, i: nat, w: nat)
    requires Reachable(s) && i < |s.calls| && Global(s.calls[i].job) && s.calls[i].late && Decided(s.calls[i].pc)
    requires w < |s.waiters| && s.waiters[w].kind.Until? && s.waiters[w].poll.Idle? && !s.waiters[w].node.Unqueued?
    ensures Owed(s, w)
  {
    ReachableHasInv(s);
    assert AccountOk(s, s.calls[i]);
    assert w in s.q.live ==> LateOk(s.waiters, w);
    OutOfLineIsOwed(s, w);
  }

  // -------------------------------------------------------- sound completion

  /** A `wait_until` completes only by a test of the condition that finds it true. */
  lemma UntilIsSound(s: State, step: Step, w: nat)
    requires Enabled(s, step) && w < |s.waiters| && s.waiters[w].kind.Until? && !s.waiters[w].poll.Done?
    requires w < |Next(s, step).waiters| && Next(s, step).waiters[w].poll.Done?
    ensures s.cond && IsWaiter(step) && step.w == w
  {
    if !(IsWaiter(step) && step.w == w) { OthersLeavePolls(s, step, w); }
  }

  /** Over every run: if it is complete, the condition was true when it became so. */
  ghost predicate WasTrue(s: State, steps: seq<Step>)
    requires IsRun(s, steps)
    decreases |steps|
  {
    s.cond || (steps != [] && (WasTrue(s, steps[..|steps| - 1]) || Exec(s, steps).cond))
  }

  lemma {:induction false} CompletedWasTrue(s: State, steps: seq<Step>, w: nat)
    requires IsRun(s, steps) && w < |s.waiters| && s.waiters[w].kind.Until? && !s.waiters[w].poll.Done?
    ensures w < |Exec(s, steps).waiters| && Exec(s, steps).waiters[w].kind.Until?
    ensures Exec(s, steps).waiters[w].poll.Done? ==> WasTrue(s, steps)
    decreases |steps|
  {
    if steps != [] {
      var front, step := steps[..|steps| - 1], steps[|steps| - 1];
      CompletedWasTrue(s, front, w);
      var u := Exec(s, front);
      KindStays(u, step, w);
      if Next(u, step).waiters[w].poll.Done? && !u.waiters[w].poll.Done? {
        UntilIsSound(u, step, w);
        NowTrue(s, front);
      }
    }
  }

  lemma NowTrue(s: State, steps: seq<Step>)
    requires IsRun(s, steps) && Exec(s, steps).cond
    ensures WasTrue(s, steps)
  {
  }

  lemma KindStays(s: State, step: Step, w: nat)
    requires Enabled(s, step) && w < |s.waiters|
    ensures w < |Next(s, step).waiters| && Next(s, step).waiters[w].kind == s.waiters[w].kind
  {
    if !(IsWaiter(step) && step.w == w) { OthersLeavePolls(s, step, w); }
  }

  /** A plain `wait` completes only after it was notified, or because the queue is closed. */
  lemma OnceIsSound(s: State, step: Step, w: nat)
    requires Inv(s) && Enabled(s, step) && w < |s.waiters| && s.waiters[w].kind.Once? && !s.waiters[w].poll.Done?
    requires w < |Next(s, step).waiters| && Next(s, step).waiters[w].poll.Done?
    ensures s.waiters[w].node.Dequeued? || Closed(s.q)
    ensures s.waiters[w].node.Dequeued? ==> s.waiters[w].wake.Taken? || s.waiters[w].wake.Woken?
  {
    if IsWaiter(step) && step.w == w {
      assert Sane(s.waiters[w]);
    } else {
      OthersLeavePolls(s, step, w);
    }
  }

  /** And a plain `wait` that was notified is ready at its next poll. */
  lemma NotifiedOnceIsReady(s: State, w: nat)
    requires Enabled(s, Begin(w)) && s.waiters[w].kind.Once? && s.waiters[w].node.Dequeued?
    ensures Enabled(Next(s, Begin(w)), Enter(w))
    ensures Next(Next(s, Begin(w)), Enter(w)).waiters[w].poll.Done?
  {
  }

  /** Until one of these happens a poll ends in line. */
  lemma UnnotifiedWaits(s: State, w: nat)
    requires Inv(s) && Enabled(s, TryEnqueue(w)) && !Closed(s.q)
    ensures var t := Next(s, TryEnqueue(w));
      t.q.live == s.q.live + [w] && w < |t.waiters| && t.waiters[w].node.Queued? && t.waiters[w].wake.Armed?
      && !t.waiters[w].poll.Done?
  {
    assert Sane(s.waiters[w]) && PlaceOk(s.q, s.waiters[w], w);
  }

  // ------------------------------------------------------ whom a call serves

  /** While a call holds the lock, the others can only append to the line. */
  lemma LineOnlyGrows(s: State, step: Step, i: nat)
    requires Inv(s) && Enabled(s, step) && step != Serve(i)
    requires i < |s.calls| && s.calls[i].pc.Picked?
    ensures i < |Next(s, step).calls|
    ensures Next(s, step).calls[i].pc == s.calls[i].pc && Next(s, step).calls[i].job == s.calls[i].job
    ensures s.q.live <= Next(s, step).q.live
  {
    StepIsQueueOp(s, step);
    assert CallOk(s.q, s.lock, s.calls[i], i);
    if IsCall(step) {
      assert CallOk(s.q, s.lock, s.calls[step.i], step.i);
      OneCallChanges(s, step);
    }
  }

  /** The waiter that a call picks: the first in line, or the last for `notify_last`. */
  function Choice(live: seq<nat>, job: Job): nat
    requires live != []
  {
    if job.Final? then live[|live| - 1] else live[0]
  }

  /** Whatever happens between the moment a call picks its waiter and the moment it serves it,
      the waiter is the one that was then first in line, or last for `notify_last`, and all
      those behind it have arrived since. */
  lemma {:induction false} PickedIsServed(s: State, steps: seq<Step>, i: nat)
    requires Inv(s) && Enabled(s, Pick(i)) && s.q.live != [] && s.calls[i].job != Many(0)
    requires IsRun(Next(s, Pick(i)), steps) && forall k :: 0 <= k < |steps| ==> steps[k] != Serve(i)
    ensures var t := Exec(Next(s, Pick(i)), steps);
      && i < |t.calls| && t.calls[i].job == s.calls[i].job && t.calls[i].pc == Picked(Choice(s.q.live, s.calls[i].job))
      && s.q.live <= t.q.live
    decreases |steps|
  {
    var p := Next(s, Pick(i));
    StepKeepsInv(s, Pick(i));
    RunKeepsInv(p, steps);
    if steps != [] {
      var front := steps[..|steps| - 1];
      PickedIsServed(s, front, i);
      RunKeepsInv(p, front);
      LineOnlyGrows(Exec(p, front), steps[|steps| - 1], i);
    }
  }

  /** And serving means: exactly that waiter leaves the line, notified, with its waker taken. */
  lemma ServedLeaves(s: State, i: nat)
    requires Inv(s) && Enabled(s, Serve(i))
    ensures var t, w := Next(s, Serve(i)), s.calls[i].pc.w;
      && w < |s.waiters| && |t.waiters| == |s.waiters| && !t.panicked
      && w in s.q.live && t.q == AQ.Apply(s.q, AQ.Remove(w, EMPTY)) && w !in t.q.live
      && t.waiters[w].node.Dequeued? && t.waiters[w].wake == Taken(i)
      && forall x :: 0 <= x < |s.waiters| && x != w ==> t.waiters[x] == s.waiters[x]
  {
    ServeHasWaiter(s, i);
    StepIsQueueOp(s, Serve(i));
  }

  /** How many waiters call `i` serves in a run. */
  function Serves(steps: seq<Step>, i: nat): nat {
    if steps == [] then 0 else Serves(steps[..|steps| - 1], i) + if steps[|steps| - 1] == Serve(i) then 1 else 0
  }

  lemma ManyCounts(s: State, step: Step, i: nat)
    requires Inv(s) && Enabled(s, step) && i < |s.calls| && s.calls[i].job.Many?
    ensures i < |Next(s, step).calls| && Next(s, step).calls[i].job.Many?
    ensures Next(s, step).calls[i].job.count + (if step == Serve(i) then 1 else 0) == s.calls[i].job.count
  {
    if step.Serve? { ServeHasWaiter(s, step.i); }
    if IsCall(step) { OneCallChanges(s, step); }
    if step == Serve(i) { CountsDown(s, i); } else { JobStays(s, step, i); }
  }

  lemma CountsDown(s: State, i: nat)
    requires Enabled(s, Serve(i)) && s.calls[i].job.Many? && !ServeNext(s, i).panicked
    ensures |ServeNext(s, i).calls| == |s.calls|
    ensures s.calls[i].job.count > 0 && ServeNext(s, i).calls[i].job == Many(s.calls[i].job.count - 1)
  {
  }

  lemma JobStays(s: State, step: Step, i: nat)
    requires Enabled(s, step) && i < |s.calls| && step != Serve(i)
    ensures i < |Next(s, step).calls| && Next(s, step).calls[i].job == s.calls[i].job
  {
    if IsCall(step) && step.i != i { OneCallChanges(s, step); } else if IsCall(step) { OwnJobStays(s, step); }
  }

  lemma OwnJobStays(s: State, step: Step)
    requires Enabled(s, step) && IsCall(step) && !step.Serve?
    ensures |CallNext(s, step).calls| == |s.calls| && CallNext(s, step).calls[step.i].job == s.calls[step.i].job
  {
    match step
    case DrainNext(_) =>
    case Swap(_) =>
    case CallWake(_) =>
    case _ =>
  }

  /** `notify_many(n)` serves at most n waiters, under any interference: what it has served and
      what it may still serve add up to n. */
  lemma {:induction false} ManyServesItsCount(s: State, steps: seq<Step>, i: nat)
    requires Inv(s) && IsRun(s, steps) && i < |s.calls| && s.calls[i].job.Many?
    ensures i < |Exec(s, steps).calls| && Exec(s, steps).calls[i].job.Many?
    ensures Serves(steps, i) + Exec(s, steps).calls[i].job.count == s.calls[i].job.count
    decreases |steps|
  {
    if steps != [] {
      var front := steps[..|steps| - 1];
      ManyServesItsCount(s, front, i);
      RunKeepsInv(s, front);
      ManyCounts(Exec(s, front), steps[|steps| - 1], i);
    }
  }

  predicate Ending(pc: CallPc) { pc.Over? || pc == Unlocking(true) || pc == Wakening(true) }

  lemma OwnEnding(s: State, step: Step)
    requires Enabled(s, step) && IsCall(step) && s.calls[step.i].job.Many? && !Ending(s.calls[step.i].pc)
    requires !CallNext(s, step).panicked && !step.DrainNext? && !step.DrainEnd?
    ensures var t := CallNext(s, step);
      |t.calls| == |s.calls| && (Ending(t.calls[step.i].pc) ==> s.calls[step.i].job.count == 0 || s.q.live == [])
  {
    match step
    case Pick(_) =>
    case Serve(_) =>
    case CallWake(_) =>
    case _ =>
  }

  /** And it stops short of its count only when nobody is in line: over all steps, it turns to
      its last wake-ups, or returns, only with its count used up or the line empty. */
  lemma ManyStopsOnlyEmpty(s: State, step: Step, i: nat)
    requires Inv(s) && Enabled(s, step) && i < |s.calls| && s.calls[i].job.Many? && !Ending(s.calls[i].pc)
    ensures i < |Next(s, step).calls|
    ensures Ending(Next(s, step).calls[i].pc) ==> s.calls[i].job.count == 0 || s.q.live == []
  {
    if IsCall(step) && step.i == i {
      StepIsSafe(s, step);
      assert CallOk(s.q, s.lock, s.calls[i], i);
      OwnEnding(s, step);
    } else if IsCall(step) {
      OneCallChanges(s, step);
    }
  }

  predicate NeverCleared(steps: seq<Step>) { forall k :: 0 <= k < |steps| ==> !steps[k].ClearCondition? }

  lemma ConditionalStep(s: State, step: Step, w: nat)
    requires s.cond && Enabled(s, step) && !step.ClearCondition?
    requires w < |s.waiters| && s.waiters[w].kind.Until?
    requires s.waiters[w].poll.Idle? || s.waiters[w].poll.Done? || s.waiters[w].poll.Gone?
    ensures w < |Next(s, step).waiters| && Next(s, step).waiters[w].kind.Until? && Next(s, step).cond
    ensures var p := Next(s, step).waiters[w].poll;
      if IsWaiter(step) && step.w == w then p.Done? || p.Gone? else p == s.waiters[w].poll
  {
    if !(IsWaiter(step) && step.w == w) { OthersLeavePolls(s, step, w); }
  }

  /** While the condition stays true, a pending `wait_until` never becomes `Pending` again:
      whatever happens meanwhile, its next poll completes it. */
  lemma {:induction false} PollsComplete(s: State, steps: seq<Step>, w: nat)
    requires Inv(s) && s.cond && IsRun(s, steps) && NeverCleared(steps)
    requires w < |s.waiters| && s.waiters[w].kind.Until? && s.waiters[w].poll.Idle?
    ensures Exec(s, steps).cond && w < |Exec(s, steps).waiters| && Exec(s, steps).waiters[w].kind.Until?
    ensures var p := Exec(s, steps).waiters[w].poll;
      && (p.Idle? || p.Done? || p.Gone?)
      && ((exists k :: 0 <= k < |steps| && steps[k] == Begin(w)) ==> !p.Idle?)
  {
    if steps != [] {
      var front := steps[..|steps| - 1];
      PollsComplete(s, front, w);
      RunKeepsInv(s, front);
      ConditionalStep(Exec(s, front), steps[|steps| - 1], w);
      assert forall k :: 0 <= k < |front| ==> front[k] == steps[k];
    }
  }

  /** Both together: such a waiter has been woken or is owed it, and the poll that the wake-up
      causes completes, however much later, unless the condition falls in between. */
  lemma WaitUntilCompletes(s: State, i: nat, steps: seq<Step>, w: nat)
    requires Reachable(s) && i < |s.calls| && Global(s.calls[i].job) && s.calls[i].late && Decided(s.calls[i].pc)
    requires w < |s.waiters| && s.waiters[w].kind.Until? && s.waiters[w].poll.Idle? && !s.waiters[w].node.Unqueued?
    requires IsRun(s, steps) && NeverCleared(steps) && exists k :: 0 <= k < |steps| && steps[k] == Begin(w)
    ensures Owed(s, w)
    ensures w < |Exec(s, steps).waiters|
    ensures Exec(s, steps).waiters[w].poll.Done? || Exec(s, steps).waiters[w].poll.Gone?
  {
    NoMissedCondition(s, i, w);
    ReachableHasInv(s);
    assert AccountOk(s, s.calls[i]);
    PollsComplete(s, steps, w);
  }

  /** When `close` has returned, or is only busy waking, nobody is in line, nobody can enter
      it any more, and every pending wait has been woken or is owed the wake-up. */
  lemma ClosedMeansOut(s: State, i: nat, w: nat)
    requires Reachable(s) && i < |s.calls| && s.calls[i].job.Shut? && Decided(s.calls[i].pc)
    ensures Closed(s.q)
    ensures w < |s.waiters| && s.waiters[w].poll.Idle? && !s.waiters[w].node.Unqueued? ==> Owed(s, w)
    ensures Enabled(s, TryEnqueue(w)) ==> Next(s, TryEnqueue(w)).q == s.q && !Next(s, TryEnqueue(w)).waiters[w].poll.Idle?
  {
    ReachableHasInv(s);
    assert AccountOk(s, s.calls[i]);
    if w < |s.waiters| && s.waiters[w].poll.Idle? && !s.waiters[w].node.Unqueued? { OutOfLineIsOwed(s, w); }
  }

  /** Closed stays closed, over every run. */
  lemma {:induction false} CloseIsPermanent(s: State, steps: seq<Step>)
    requires Inv(s) && Closed(s.q) && IsRun(s, steps)
    ensures Closed(Exec(s, steps).q)
  {
    if steps != [] {
      var front := steps[..|steps| - 1];
      CloseIsPermanent(s, front);
      RunKeepsInv(s, front);
      ClosedIff(Exec(s, front), steps[|steps| - 1]);
    }
  }

  /** When every call has returned, everybody who is out of line has been woken. */
  lemma QuietMeansWoken(s: State, w: nat)
    requires Reachable(s) && forall i :: 0 <= i < |s.calls| ==> s.calls[i].pc.Over?
    requires w < |s.waiters| && s.waiters[w].poll.Idle? && !s.waiters[w].node.Unqueued? && w !in s.q.live
    ensures s.waiters[w].wake.Woken?
  {
    ReachableHasInv(s);
    OutOfLineIsOwed(s, w);
  }

  // ------------------------------------------------------------ full batches

  /** A call that gives up the lock before it is done has a full batch to wake. */
  predicate BatchOk(c: Call) { c.pc == Unlocking(false) || c.pc == Wakening(false) ==> c.batch == BATCH }

  lemma OwnBatch(s: State, step: Step)
    requires Enabled(s, step) && IsCall(step) && BatchOk(s.calls[step.i]) && !step.Serve? && !step.DrainNext?
    ensures |CallNext(s, step).calls| == |s.calls| && BatchOk(CallNext(s, step).calls[step.i])
  {
    match step
    case Swap(_) =>
    case CallWake(_) =>
    case _ =>
  }

  lemma NodeBatch(s: State, step: Step)
    requires Enabled(s, step) && (step.Serve? || step.DrainNext?) && BatchOk(s.calls[step.i])
    ensures |CallNext(s, step).calls| == |s.calls| && BatchOk(CallNext(s, step).calls[step.i])
  {
  }

  ghost predicate BatchesOk(calls: seq<Call>) { forall i :: 0 <= i < |calls| ==> BatchOk(calls[i]) }

  lemma BatchStep(s: State, step: Step)
    requires Enabled(s, step) && BatchesOk(s.calls)
    ensures BatchesOk(Next(s, step).calls)
  {
    if IsCall(step) {
      OneCallChanges(s, step);
      if step.Serve? || step.DrainNext? { NodeBatch(s, step); } else { OwnBatch(s, step); }
    }
  }

  /** Over every run: the lock changes hands in the middle of a call only after 32 wakers. */
  lemma {:induction false} BatchesAreFull(s: State, steps: seq<Step>)
    requires IsRun(s, steps) && BatchesOk(s.calls)
    ensures BatchesOk(Exec(s, steps).calls)
    decreases |steps|
  {
    if steps != [] {
      var front := steps[..|steps| - 1];
      BatchesAreFull(s, front);
      BatchStep(Exec(s, front), steps[|steps| - 1]);
    }
  }
}
