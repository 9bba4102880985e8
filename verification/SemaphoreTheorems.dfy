/** The theorems about every run of the semaphore. */
module SemaphoreTheorems {
  import opened Options
  import opened Waking
  import opened Sums
  import opened SemaphoreModel
  import opened SemaphoreInvariant
  import opened SemaphoreSteps
  import opened SemaphoreCalls
  import opened SemaphoreLedger
  import AQ = AbstractQueue

  ghost predicate Reachable(s: Sem) {
    exists permits: nat, steps: seq<Step> ::
      permits <= MAX_PERMITS && IsRun(Init(permits), steps) && s == Exec(Init(permits), steps)
  }

  lemma InitHasInv(permits: nat)
    requires permits <= MAX_PERMITS
    ensures Inv(Init(permits)) && Accounted(Init(permits)) == permits
  {
  }

  lemma {:induction false} RunKeepsInv(s: Sem, steps: seq<Step>)
    requires Inv(s) && IsRun(s, steps)
    ensures Inv(Exec(s, steps))
  {
    if steps != [] {
      var front := steps[..|steps| - 1];
      RunKeepsInv(s, front);
      StepKeepsInv(Exec(s, front), steps[|steps| - 1]);
    }
  }

  lemma ReachableHasInv(s: Sem)
    requires Reachable(s)
    ensures Inv(s)
  {
    var permits: nat, steps: seq<Step> :|
      permits <= MAX_PERMITS && IsRun(Init(permits), steps) && s == Exec(Init(permits), steps);
    InitHasInv(permits);
    RunKeepsInv(Init(permits), steps);
  }

  /** In every run a step panics exactly when one of the overflow checks that users can run
      into fires, and those on the total only if they put in more than `MAX_PERMITS`: no
      unwrap, other assertion, subtraction or waker buffer ever fails. */
  lemma PanicsIff(s: Sem, step: Step)
    requires Reachable(s) && Enabled(s, step)
    ensures Next(s, step).panicked <==> Overflows(s, step)
    ensures Next(s, step).panicked && s.issued <= MAX_PERMITS ==> step.Merge?
  {
    ReachableHasInv(s);
    StepPanicsIff(s, step);
    if Overflows(s, step) && !step.Merge? { OverflowMeansOverBudget(s, step); }
  }

  /** So a run in which users stay within `MAX_PERMITS` and 32 bits never panics. */
  ghost predicate WithinBudget(s: Sem, steps: seq<Step>)
    requires IsRun(s, steps)
    decreases |steps|
  {
    steps == [] ||
    var u, step := Exec(s, steps[..|steps| - 1]), steps[|steps| - 1];
    && WithinBudget(s, steps[..|steps| - 1])
    && u.issued <= MAX_PERMITS
    && (step.Merge? ==> u.held[step.i] + u.held[step.j] < U32)
  }

  lemma {:induction false} NeverPanics(permits: nat, steps: seq<Step>)
    requires permits <= MAX_PERMITS && IsRun(Init(permits), steps) && WithinBudget(Init(permits), steps)
    ensures !Exec(Init(permits), steps).panicked
  {
    if steps != [] {
      var u := Exec(Init(permits), steps[..|steps| - 1]);
      InitHasInv(permits);
      RunKeepsInv(Init(permits), steps[..|steps| - 1]);
      StepPanicsIff(u, steps[|steps| - 1]);
      if Overflows(u, steps[|steps| - 1]) { OverflowMeansOverBudget(u, steps[|steps| - 1]); }
    }
  }

  // ------------------------------------------------------------ conservation

  /** The three ways in which the code loses permits, as a caller can see them coming: dropping
      the only queued future when it already holds some permits, queueing up behind 2^31 or
      more stored ones, and adding so many that serving the last in line leaves 2^63 or more
      (and the rest of the shifted word still fits the tail). */
  predicate Leaks(s: Sem, step: Step)
    requires Enabled(s, step)
  {
    match step
    case Cancel(w) =>
      s.waiters[w].node.Queued? && s.q.live == [w] && s.waiters[w].remaining < s.waiters[w].permits
    case PollEnqueue(w) => View(s.q) == s.waiters[w].poll.view && s.q.live == [] && s.q.state >= U32
    case Grant(i) => Empties(s, i) && LeftOver(s, i) >= U63 && StateWord(LeftOver(s, i)).Some?
    case _ => false
  }

  lemma WideStateLost(v: nat)
    ensures v / 2 > Grabbed(Some(v)) <==> v >= U32
  {
    GrabbedSmall(v);
    if v >= U32 { assert v % U32 <= v - U32; }
  }

  lemma LostMeansLeaks(s: Sem, step: Step)
    requires Enabled(s, step)
    ensures Lost(s, step) > 0 <==> Leaks(s, step)
  {
    if step.PollEnqueue? && s.q.live == [] { WideStateLost(s.q.state); }
    if step.Grant? && Empties(s, step.i) { WordHalf(LeftOver(s, step.i)); }
  }

  /** After a step less is accounted for than before, plus what the user brought or retired,
      if and only if it is one of these three; no step makes it more. */
  lemma LostIffLeaks(s: Sem, step: Step)
    requires Inv(s) && Enabled(s, step)
    ensures Accounted(Next(s, step)) <= Accounted(s) + Brought(s, step)
    ensures Accounted(Next(s, step)) < Accounted(s) + Brought(s, step) <==> Leaks(s, step)
  {
    StepMoves(s, step);
    LostMeansLeaks(s, step);
  }

  /** No step of the run is one of the three losing ones. */
  ghost predicate Clean(s: Sem, steps: seq<Step>)
    requires IsRun(s, steps)
    decreases |steps|
  {
    steps == [] ||
    (Clean(s, steps[..|steps| - 1]) && !Leaks(Exec(s, steps[..|steps| - 1]), steps[|steps| - 1]))
  }

  /** What users have put in, minus what they have retired, over a run. */
  ghost function Contributed(s: Sem, steps: seq<Step>): int
    requires IsRun(s, steps)
    decreases |steps|
  {
    if steps == [] then 0
    else Contributed(s, steps[..|steps| - 1]) + Brought(Exec(s, steps[..|steps| - 1]), steps[|steps| - 1])
  }

  lemma {:induction false} RunBalance(s: Sem, steps: seq<Step>)
    requires Inv(s) && IsRun(s, steps)
    ensures var t := Exec(s, steps);
      && Accounted(t) + t.leaked == Accounted(s) + s.leaked + Contributed(s, steps)
      && t.leaked >= s.leaked
      && (t.leaked == s.leaked <==> Clean(s, steps))
  {
    if steps != [] {
      var front := steps[..|steps| - 1];
      var u := Exec(s, front);
      RunBalance(s, front);
      RunKeepsInv(s, front);
      StepMoves(u, steps[|steps| - 1]);
      LostMeansLeaks(u, steps[|steps| - 1]);
    }
  }

  /** Permit conservation: stored + set aside for waiters + held + in the hands of running
      calls is never more than what was put in, and equal to it exactly when no step was
      one of the three losing ones. */
  lemma Conservation(permits: nat, steps: seq<Step>)
    requires permits <= MAX_PERMITS && IsRun(Init(permits), steps)
    ensures var t := Exec(Init(permits), steps);
      && Accounted(t) <= permits + Contributed(Init(permits), steps)
      && (Accounted(t) == permits + Contributed(Init(permits), steps) <==> Clean(Init(permits), steps))
  {
    InitHasInv(permits);
    RunBalance(Init(permits), steps);
    RunKeepsInv(Init(permits), steps);
  }

  // ------------------------------------------------------------- the waiters

  /** Only the first in line holds part of its permits; nobody in line is fully served. */
  lemma WaiterOrder(s: Sem, j: nat)
    requires Reachable(s) && j < |s.q.live|
    ensures s.q.live[j] < |s.waiters|
    ensures var x := s.waiters[s.q.live[j]];
      && x.remaining <= x.permits
      && (j > 0 ==> x.remaining == x.permits)
      && (x.permits > 0 ==> x.remaining > 0)
      && x.wake.Armed?
  {
    ReachableHasInv(s);
    assert AQ.Present(s.q, s.q.live[j]);
    assert Sane(s.waiters[s.q.live[j]]) && PlaceOk(s.q, s.waiters[s.q.live[j]], s.q.live[j]);
    if j > 0 { assert Untouched(s.waiters, s.q.live[j]); }
  }

  /** A future that left the queue and sees it open has all its permits, and gets exactly them. */
  lemma ReadyMeansServed(s: Sem, w: nat)
    requires Reachable(s) && Enabled(s, PollDequeued(w)) && !Closed(s.q)
    ensures s.waiters[w].remaining == 0
    ensures Next(s, PollDequeued(w)).held == s.held + [s.waiters[w].permits]
    ensures Granted(s.waiters[w]) == s.waiters[w].permits && Granted(Next(s, PollDequeued(w)).waiters[w]) == 0
  {
    ReachableHasInv(s);
    assert Sane(s.waiters[w]) && PlaceOk(s.q, s.waiters[w], w);
  }

  /** The first poll, three ways: an error, which changes nothing, if and only if the semaphore
      is closed; all permits at once, out of the stored ones, if and only if nobody waits and
      there are enough; otherwise the future gets ready to queue up, with a waker, lacking what
      it could not see. */
  lemma PollAnswers(s: Sem, w: nat)
    requires Inv(s) && Enabled(s, PollTry(w))
    ensures var t, x := Next(s, PollTry(w)), s.waiters[w];
      var enough := s.q.live == [] && !Closed(s.q) && 2 * x.permits <= s.q.state;
      && w < |t.waiters|
      && (Closed(s.q) <==> t == s)
      && (enough <==> t.held == s.held + [x.permits])
      && (enough ==> t.q.state == s.q.state - 2 * x.permits && t.waiters[w].permits == 0)
      && (!enough && !Closed(s.q) ==>
          && t.q == s.q && t.held == s.held && t.waiters[w].poll == Enqueuing(View(s.q)) && t.waiters[w].wake.Armed?
          && t.waiters[w].permits == x.permits && t.waiters[w].remaining == x.permits - Grabbed(View(s.q)))
  {
    FuturePanicsNot(s, PollTry(w));
    assert Sane(s.waiters[w]);
  }

  /** Queueing up succeeds exactly if what the future saw is still so, and puts it at the end. */
  lemma EnqueueAnswers(s: Sem, w: nat)
    requires Inv(s) && Enabled(s, PollEnqueue(w))
    ensures var t, x := Next(s, PollEnqueue(w)), s.waiters[w];
      && w < |t.waiters| && t.held == s.held
      && (if View(s.q) == x.poll.view then
            t.q.live == s.q.live + [w] && t.waiters[w].node.Queued? && t.waiters[w].remaining == x.remaining
          else t.q == s.q && t.waiters[w].node.Unqueued?)
      && t.waiters[w].poll.Rest?
  {
    assert Sane(s.waiters[w]) && PlaceOk(s.q, s.waiters[w], w);
  }

  /** A future out of line is answered with an error, which changes nothing, if and only if the
      semaphore is closed. */
  lemma DequeuedAnswers(s: Sem, w: nat)
    requires Inv(s) && Enabled(s, PollDequeued(w))
    ensures Closed(s.q) <==> Next(s, PollDequeued(w)) == s
    ensures !Closed(s.q) <==> Next(s, PollDequeued(w)).held == s.held + [s.waiters[w].permits]
  {
  }

  /** The first step of a poll. */
  function PollStep(x: Waiter, w: nat): Step {
    match x.node
    case Unqueued => PollTry(w)
    case Queued => PollQueued(w)
    case Dequeued => PollDequeued(w)
  }

  /** A whole poll that nothing disturbs. */
  ghost function Polled(s: Sem, w: nat): Sem
    requires w < |s.waiters| && Enabled(s, PollStep(s.waiters[w], w))
  {
    var t := Next(s, PollStep(s.waiters[w], w));
    if Enabled(t, PollEnqueue(w)) then Next(t, PollEnqueue(w)) else t
  }

  /** What such a poll comes to, in one description. */
  ghost predicate Answered(s: Sem, w: nat, t: Sem)
    requires w < |s.waiters|
  {
    var x := s.waiters[w];
    && !t.panicked && w < |t.waiters| && t.waiters[w].poll.Rest? && t.calls == s.calls
    && if Closed(s.q) then t == s
       else match x.node
         case Dequeued => t.q == s.q && t.held == s.held + [x.permits]
         case Queued => t == s
         case Unqueued =>
           if s.q.live == [] && 2 * x.permits <= s.q.state then
             t.q == s.q.(state := s.q.state - 2 * x.permits) && t.held == s.held + [x.permits]
           else
             && t.q == s.q.(live := s.q.live + [w]) && t.held == s.held
             && t.waiters[w].node.Queued? && t.waiters[w].wake.Armed?
             && t.waiters[w].permits == x.permits && t.waiters[w].remaining == x.permits - Grabbed(View(s.q))
  }

  lemma AloneSteps(s: Sem, w: nat)
    requires w < |s.waiters| && Enabled(s, PollStep(s.waiters[w], w)) && !Next(s, PollStep(s.waiters[w], w)).panicked
    requires Sane(s.waiters[w]) && PlaceOk(s.q, s.waiters[w], w)
    ensures Answered(s, w, Polled(s, w))
  {
  }

  /** It is an error, and changes nothing, on a closed semaphore. Otherwise a future that was
      dequeued gets what it asked for; so does a new one, out of the stored permits, if nobody
      waits and they suffice; a new one for which they do not queues up at the end, lacking what
      it did not find, with a waker; and one in line stays there. */
  lemma AlonePoll(s: Sem, w: nat)
    requires Inv(s) && !s.panicked && w < |s.waiters| && s.waiters[w].poll.Rest?
    requires s.waiters[w].node.Queued? ==> s.lock.None?
    ensures Enabled(s, PollStep(s.waiters[w], w)) && Answered(s, w, Polled(s, w))
  {
    FuturePanicsNot(s, PollStep(s.waiters[w], w));
    AloneSteps(s, w);
  }

  /** Splitting and merging move permits between the two permits named, and no others. */
  lemma SplitAndMerge(s: Sem, i: nat, j: nat, n: nat)
    requires i < |s.held|
    ensures Enabled(s, Split(i, n)) ==>
      var h := Next(s, Split(i, n)).held;
      && |h| == |s.held| + 1 && h[|s.held|] == n && h[i] + n == s.held[i]
      && forall k :: 0 <= k < |s.held| && k != i ==> h[k] == s.held[k]
    ensures Enabled(s, Merge(i, j)) && s.held[i] + s.held[j] < U32 ==>
      var h := Next(s, Merge(i, j)).held;
      && |h| == |s.held| && h[i] == s.held[i] + s.held[j] && h[j] == 0
      && forall k :: 0 <= k < |s.held| && k != i && k != j ==> h[k] == s.held[k]
  {
  }

  /** While somebody is in line, permits reach a user only through a future that left the line. */
  lemma NoBarging(s: Sem, step: Step)
    requires Enabled(s, step) && s.q.live != [] && Total(Next(s, step).held) > Total(s.held)
    ensures step.PollDequeued?
  {
    if IsCall(step) || IsFuture(step) {
    } else if step.Merge? || step.Split? || step.DropPermit? || step.ForgetPermit? {
      HeldNeverGrows(s.held, step);
    }
  }

  lemma HeldNeverGrows(held: seq<nat>, step: Step)
    ensures step.Merge? && step.i < |held| && step.j < |held| && step.i != step.j ==>
      Total(held[step.i := held[step.i] + held[step.j]][step.j := 0]) == Total(held)
    ensures step.Split? && step.i < |held| && step.n <= held[step.i] ==>
      Total(held[step.i := held[step.i] - step.n] + [step.n]) == Total(held)
    ensures (step.DropPermit? || step.ForgetPermit?) && step.i < |held| ==>
      Total(held[step.i := 0]) <= Total(held)
  {
    if step.Merge? && step.i < |held| && step.j < |held| && step.i != step.j {
      TotalUpdate(held, step.i, held[step.i] + held[step.j]);
      TotalUpdate(held[step.i := held[step.i] + held[step.j]], step.j, 0);
    } else if step.Split? && step.i < |held| && step.n <= held[step.i] {
      TotalUpdate(held, step.i, held[step.i] - step.n);
      TotalAppend(held[step.i := held[step.i] - step.n], step.n);
    } else if (step.DropPermit? || step.ForgetPermit?) && step.i < |held| {
      TotalUpdate(held, step.i, 0);
    }
  }

  lemma {:induction false} NothingInHand(cs: seq<Call>)
    requires forall i :: 0 <= i < |cs| ==> cs[i].amount == 0
    ensures Total(Amounts(cs)) == 0
  {
    if cs != [] {
      assert Amounts(cs)[1..] == Amounts(cs[1..]);
      NothingInHand(cs[1..]);
    }
  }

  lemma ListsAreDrained(s: Sem)
    requires Calling(s)
    ensures forall z :: z in s.q.lists ==> z < |s.calls| && Draining(s.calls[z])
  {
    assert forall z :: z in s.q.lists ==> z < |s.calls| && CallOk(s.q, s.lock, s.calls[z], z);
  }

  lemma AllOver(s: Sem)
    requires Calling(s) && forall i :: 0 <= i < |s.calls| ==> s.calls[i].pc.Over?
    ensures s.lock.None? && s.q.lists == map[]
    ensures forall i :: 0 <= i < |s.calls| ==> s.calls[i].amount == 0
  {
    ListsAreDrained(s);
    assert s.lock.Some? ==> CallOk(s.q, s.lock, s.calls[s.lock.value], s.lock.value);
    assert forall i :: 0 <= i < |s.calls| ==> CallOk(s.q, s.lock, s.calls[i], i);
    assert forall z :: z !in s.q.lists;
  }

  /** When every call has returned, every waiter that left the line has been woken, no drain is
      open and no permit is in a call's hands. */
  lemma QuietMeansWoken(s: Sem)
    requires Reachable(s) && forall i :: 0 <= i < |s.calls| ==> s.calls[i].pc.Over?
    ensures s.lock.None? && s.q.lists == map[] && Total(Amounts(s.calls)) == 0
    ensures forall w :: 0 <= w < |s.waiters| && s.waiters[w].node.Dequeued? ==> s.waiters[w].wake.Woken?
    ensures forall w :: 0 <= w < |s.waiters| && s.waiters[w].node.Queued? ==> w in s.q.live
  {
    ReachableHasInv(s);
    AllOver(s);
    NothingInHand(s.calls);
    forall w | 0 <= w < |s.waiters|
      ensures s.waiters[w].node.Dequeued? ==> s.waiters[w].wake.Woken?
      ensures s.waiters[w].node.Queued? ==> w in s.q.live
    {
      assert Sane(s.waiters[w]) && TakerOk(s.calls, s.waiters[w]) && PlaceOk(s.q, s.waiters[w], w);
    }
  }

  // ------------------------------------------------------------------- close

  /** Who closes: a `close` call that finds the state, or swaps it in; or, against the design,
      dropping the only queued future while it holds an odd number of permits. */
  predicate Closes(s: Sem, step: Step)
    requires Enabled(s, step)
  {
    match step
    case CallFast(i) => s.calls[i].kind.CloseAll? && s.q.live == []
    case CallRetry(i) => s.calls[i].kind.CloseAll?
    case Cancel(w) => s.waiters[w].node.Queued? && s.q.live == [w] && Granted(s.waiters[w]) % 2 == 1
    case _ => false
  }

  lemma CancelCloses(s: Sem, w: nat)
    requires Inv(s) && Enabled(s, Cancel(w))
    ensures Closed(CancelNext(s, w).q) <==> Closed(s.q) || Closes(s, Cancel(w))
  {
    var x := s.waiters[w];
    assert Sane(x) && PlaceOk(s.q, x, w);
    if x.node.Queued? { RemoveFromLive(s.q, w, x.permits - x.remaining); }
  }

  lemma GrantCloses(s: Sem, i: nat)
    requires Inv(s) && Enabled(s, Grant(i))
    ensures !Closed(s.q) && !Closed(GrantNext(s, i).q)
  {
    GrantHasWaiter(s, i);
    var w := s.q.live[0];
    assert AQ.Present(s.q, w);
    if Serves(s, i) && StateWord(LeftOver(s, i)).Some? {
      RemoveFromLive(s.q, w, StateWord(LeftOver(s, i)).value);
      WordHalf(LeftOver(s, i));
    }
  }

  lemma AttemptCloses(s: Sem, i: nat, onFailure: CallPc, lock: Option<nat>)
    requires Inv(s) && i < |s.calls|
    ensures Closed(Attempt(s, i, onFailure, lock).q) <==>
      Closed(s.q) || (s.calls[i].kind.CloseAll? && s.q.live == [])
  {
  }

  lemma RetryCloses(s: Sem, i: nat)
    requires Inv(s) && Enabled(s, CallRetry(i))
    ensures Closed(CallRetryNext(s, i).q) <==> Closed(s.q) || s.calls[i].kind.CloseAll?
  {
    AttemptCloses(s, i, Working, None);
  }

  lemma CallCloses(s: Sem, step: Step)
    requires Inv(s) && Enabled(s, step) && IsCall(step)
    ensures Closed(CallNext(s, step).q) <==> Closed(s.q) || Closes(s, step)
  {
    match step
    case Grant(i) => GrantCloses(s, i);
    case CallFast(i) => AttemptCloses(s, i, Want, s.lock);
    case CallRetry(i) => RetryCloses(s, i);
    case _ =>
  }

  lemma PollEnqueueCloses(s: Sem, w: nat)
    requires Enabled(s, PollEnqueue(w)) && Sane(s.waiters[w]) && PlaceOk(s.q, s.waiters[w], w)
    ensures Closed(PollEnqueueNext(s, w).q) <==> Closed(s.q)
  {
  }

  lemma OtherCloses(s: Sem, step: Step)
    requires Enabled(s, step) && !IsCall(step) && !step.Cancel? && !step.PollEnqueue?
    ensures Closed(Next(s, step).q) <==> Closed(s.q)
  {
  }

  /** A step leaves the semaphore closed exactly when it was closed or the step closes it:
      closing is permanent, and nothing else closes. */
  lemma ClosedIff(s: Sem, step: Step)
    requires Inv(s) && Enabled(s, step)
    ensures Closed(Next(s, step).q) <==> Closed(s.q) || Closes(s, step)
  {
    if IsCall(step) {
      CallCloses(s, step);
    } else if step.Cancel? {
      CancelCloses(s, step.w);
    } else if step.PollEnqueue? {
      assert Sane(s.waiters[step.w]) && PlaceOk(s.q, s.waiters[step.w], step.w);
      PollEnqueueCloses(s, step.w);
    } else {
      OtherCloses(s, step);
    }
  }

  /** On a closed semaphore every poll is an error and changes nothing it could be granted;
      no permit is handed out, nobody queues up, and nothing leaks any more. */
  lemma ClosedStep(s: Sem, step: Step)
    requires Inv(s) && Enabled(s, step) && Closed(s.q)
    ensures !step.TryAcquire?
    ensures step.PollTry? || step.PollQueued? || step.PollDequeued? ==> Next(s, step) == s
    ensures step.PollEnqueue? ==> Next(s, step).q == s.q && Next(s, step).waiters[step.w].node.Unqueued?
    ensures Lost(s, step) == 0
    ensures step.Cancel? && !s.waiters[step.w].node.Unqueued? ==>
      Next(s, step).calls == s.calls + [GiveBack(Granted(s.waiters[step.w]))]
  {
    if step.PollEnqueue? {
      assert Sane(s.waiters[step.w]);
      assert PlaceOk(s.q, s.waiters[step.w], step.w);
    } else if step.Cancel? {
      ClosedCancel(s, step.w);
    }
  }

  /** The call by which a dropped future gives its permits back. */
  function GiveBack(n: nat): Call { Call(AddPermits, n, 0, if n == 0 then Over else Fast) }

  lemma ClosedCancel(s: Sem, w: nat)
    requires Inv(s) && Enabled(s, Cancel(w)) && Closed(s.q)
    ensures !s.waiters[w].node.Unqueued? ==> CancelNext(s, w).calls == s.calls + [GiveBack(Granted(s.waiters[w]))]
  {
    var x := s.waiters[w];
    assert Sane(x) && PlaceOk(s.q, x, w);
    if x.node.Queued? { RemoveFromLive(s.q, w, x.permits - x.remaining); }
  }

  /** When `close` has returned, or is only busy waking the waiters it took out, the semaphore is closed. */
  lemma CloseCloses(s: Sem, i: nat)
    requires Reachable(s) && i < |s.calls| && s.calls[i].kind.CloseAll?
    requires !s.calls[i].pc.Fast? && !s.calls[i].pc.Want? && !s.calls[i].pc.Locked?
    ensures Closed(s.q)
  {
    ReachableHasInv(s);
    assert CallOk(s.q, s.lock, s.calls[i], i);
  }

  /** Once closed, for ever closed and empty, and the books stay balanced. */
  lemma {:induction false} CloseIsPermanent(s: Sem, steps: seq<Step>)
    requires Inv(s) && Closed(s.q) && IsRun(s, steps)
    ensures Closed(Exec(s, steps).q) && Exec(s, steps).leaked == s.leaked
  {
    if steps != [] {
      var front := steps[..|steps| - 1];
      CloseIsPermanent(s, front);
      RunKeepsInv(s, front);
      var u := Exec(s, front);
      ClosedIff(u, steps[|steps| - 1]);
      ClosedStep(u, steps[|steps| - 1]);
      StepMoves(u, steps[|steps| - 1]);
    }
  }

  // ------------------------------------------------- the loop stops in time

  predicate AsksOne(s: Sem) {
    forall w :: 0 <= w < |s.waiters| && s.waiters[w].node.Queued? ==> s.waiters[w].permits > 0
  }

  lemma OtherAmounts(s: Sem, step: Step, i: nat)
    requires Enabled(s, step) && i < |s.calls| && !step.Grant?
    ensures i < |Next(s, step).calls| && Next(s, step).calls[i].amount <= s.calls[i].amount
  {
  }

  lemma GrantAmounts(s: Sem, k: nat, i: nat)
    requires Enabled(s, Grant(k)) && i < |s.calls|
    requires s.q.live != [] && s.q.live[0] < |s.waiters| && s.waiters[s.q.live[0]].remaining > 0
    requires s.waiters[s.q.live[0]].wake.Armed? && s.calls[k].batch < BATCH
    ensures i < |GrantNext(s, k).calls|
    ensures GrantNext(s, k).calls[i].amount + Dequeues(s, Grant(k), i) <= s.calls[i].amount
  {
  }

  /** Each waiter that call `i` dequeues costs it a permit. */
  lemma DequeueCosts(s: Sem, step: Step, i: nat)
    requires Inv(s) && Enabled(s, step) && i < |s.calls| && AsksOne(s)
    ensures i < |Next(s, step).calls|
    ensures Next(s, step).calls[i].amount + Dequeues(s, step, i) <= s.calls[i].amount
  {
    if step.Grant? {
      GrantHasWaiter(s, step.i);
      assert Sane(s.waiters[s.q.live[0]]);
      GrantAmounts(s, step.i, i);
    } else {
      OtherAmounts(s, step, i);
    }
  }

  function Dequeues(s: Sem, step: Step, i: nat): nat
    requires Enabled(s, step)
  {
    if step == Grant(i) && Serves(s, i) && StateWord(LeftOver(s, i)).Some? then 1 else 0
  }

  ghost function DequeuedBy(s: Sem, steps: seq<Step>, i: nat): nat
    requires IsRun(s, steps)
    decreases |steps|
  {
    if steps == [] then 0
    else DequeuedBy(s, steps[..|steps| - 1], i) + Dequeues(Exec(s, steps[..|steps| - 1]), steps[|steps| - 1], i)
  }

  ghost predicate AlwaysAsksOne(s: Sem, steps: seq<Step>)
    requires IsRun(s, steps)
    decreases |steps|
  {
    AsksOne(Exec(s, steps)) && (steps == [] || AlwaysAsksOne(s, steps[..|steps| - 1]))
  }

  /** Under any interference, a call that brings n permits dequeues at most n waiters,
      if each waiter asks for at least one. */
  lemma {:induction false} DequeuesBounded(s: Sem, steps: seq<Step>, i: nat)
    requires Inv(s) && IsRun(s, steps) && i < |s.calls| && AlwaysAsksOne(s, steps)
    ensures i < |Exec(s, steps).calls|
    ensures DequeuedBy(s, steps, i) + Exec(s, steps).calls[i].amount <= s.calls[i].amount
  {
    if steps != [] {
      var front := steps[..|steps| - 1];
      DequeuesBounded(s, front, i);
      RunKeepsInv(s, front);
      assert AlwaysAsksOne(s, front);
      DequeueCosts(Exec(s, front), steps[|steps| - 1], i);
    }
  }

  // ------------------------------------------------------------ the queue below

  /** The one queue operation that a step performs. */
  function OpOf(s: Sem, step: Step): AQ.Op<nat>
    requires Enabled(s, step)
  {
    match step
    case TryAcquire(p) => AQ.SetState(CheckAcquire(s.q.state, p).value)
    case PollTry(w) =>
      if s.q.live == [] && CheckAcquire(s.q.state, s.waiters[w].permits).Some?
      then AQ.SetState(CheckAcquire(s.q.state, s.waiters[w].permits).value) else AQ.Stutter
    case PollEnqueue(w) => if View(s.q) == s.waiters[w].poll.view then AQ.Enqueue(w) else AQ.Stutter
    case Cancel(w) =>
      if s.waiters[w].node.Queued? && s.waiters[w].remaining <= s.waiters[w].permits
      then AQ.Remove(w, s.waiters[w].permits - s.waiters[w].remaining) else AQ.Stutter
    case Forget(n) => AQ.SetState(s.q.state - 2 * n)
    case CallFast(i) => AttemptOp(s, i)
    case CallRetry(i) =>
      if s.q.live != [] && s.calls[i].kind.CloseAll? then AQ.OpenDrain(i, 1) else AttemptOp(s, i)
    case Grant(i) =>
      if Serves(s, i) && StateWord(LeftOver(s, i)).Some?
      then AQ.Remove(s.q.live[0], StateWord(LeftOver(s, i)).value) else AQ.Stutter
    case DrainNext(i) => AQ.Yield(i)
    case DrainEnd(i) => AQ.CloseDrain(i)
    case _ => AQ.Stutter
  }

  function AttemptOp(s: Sem, i: nat): AQ.Op<nat>
    requires i < |s.calls|
  {
    if s.q.live != [] then AQ.Stutter
    else if s.calls[i].kind.CloseAll? then AQ.SetState(WithClosed(s.q.state))
    else if CheckAdd(s.q.state, s.calls[i].amount).None? then AQ.Stutter
    else AQ.SetState(s.q.state + 2 * s.calls[i].amount)
  }

  ghost predicate Performs(s: Sem, t: Sem, op: AQ.Op<nat>) { AQ.Enabled(s.q, op) && t.q == AQ.Apply(s.q, op) }

  lemma FutureOp(s: Sem, step: Step)
    requires Inv(s) && Enabled(s, step) && IsFuture(step)
    ensures Performs(s, Next(s, step), OpOf(s, step))
  {
    FuturePanicsNot(s, step);
    if !step.NewAcquire? {
      var x := s.waiters[step.w];
      assert Sane(x) && PlaceOk(s.q, x, step.w);
    }
  }

  lemma AttemptPerforms(s: Sem, i: nat, onFailure: CallPc, lock: Option<nat>)
    requires Inv(s) && i < |s.calls|
    ensures Performs(s, Attempt(s, i, onFailure, lock), AttemptOp(s, i))
  {
  }

  lemma GrantPerforms(s: Sem, i: nat)
    requires Inv(s) && Enabled(s, Grant(i))
    ensures Performs(s, GrantNext(s, i), OpOf(s, Grant(i)))
  {
    GrantHasWaiter(s, i);
    assert AQ.Present(s.q, s.q.live[0]);
  }

  lemma RetryPerforms(s: Sem, i: nat)
    requires Inv(s) && Enabled(s, CallRetry(i))
    ensures Performs(s, CallRetryNext(s, i), OpOf(s, CallRetry(i)))
  {
    assert CallOk(s.q, s.lock, s.calls[i], i);
    AttemptPerforms(s, i, Working, None);
  }

  lemma QuietCallOp(s: Sem, step: Step)
    requires Enabled(s, step) && IsCall(step)
    requires !step.CallFast? && !step.CallRetry? && !step.Grant? && !step.DrainNext?
    ensures Performs(s, CallNext(s, step), OpOf(s, step))
  {
  }

  lemma CallOp(s: Sem, step: Step)
    requires Inv(s) && Enabled(s, step) && IsCall(step)
    ensures Performs(s, CallNext(s, step), OpOf(s, step))
  {
    match step
    case CallFast(i) => AttemptPerforms(s, i, Want, s.lock);
    case CallRetry(i) => RetryPerforms(s, i);
    case Grant(i) => GrantPerforms(s, i);
    case DrainNext(i) => DrainHasWaiter(s, i);
    case _ => QuietCallOp(s, step);
  }

  /** The semaphore only ever performs operations that the queue's contract allows: it never
      enqueues a node twice, never dequeues from an empty queue, never removes an absent node. */
  lemma StepIsQueueOp(s: Sem, step: Step)
    requires Inv(s) && Enabled(s, step)
    ensures AQ.Enabled(s.q, OpOf(s, step)) && Next(s, step).q == AQ.Apply(s.q, OpOf(s, step))
  {
    if IsCall(step) {
      CallOp(s, step);
      assert Performs(s, Next(s, step), OpOf(s, step));
    } else if IsFuture(step) {
      FutureOp(s, step);
      assert Performs(s, Next(s, step), OpOf(s, step));
    }
  }

  // ------------------------------------------------------------ forgetting

  /** The state update of `forget_permits` on 64-bit words: shift and subtraction wrap around,
      and `None` is the panic "queue state overflow" on the way back into the tail word. */
  function ForgetState(state: nat, n: nat): Option<nat> {
    var word := (state + U64 - (2 * n) % U64) % U64;
    if word < U63 then Some(word) else None
  }

  /** What the shift leaves of `n`. */
  function Shifted(n: nat): nat
    requires n < U64
  {
    if n < U63 then n else n - U63
  }

  lemma ForgetWord(state: nat, n: nat)
    requires state < U63 && n < U64
    ensures var k := Shifted(n);
      (state + U64 - (2 * n) % U64) % U64 == if 2 * k <= state then state - 2 * k else state + U64 - 2 * k
  {
    var k := Shifted(n);
    if n >= U63 { assert 2 * n == 2 * k + U64; }
    assert (2 * n) % U64 == 2 * k;
    if 2 * k <= state { assert state + U64 - 2 * k == (state - 2 * k) + U64; }
  }

  /** For every word: it takes what is stored, or panics and installs nothing, or silently
      wraps and leaves more permits than there were. The closed flag stays in any case. */
  lemma ForgetRegions(state: nat, n: nat)
    requires state < U63 && n < U64
    ensures var k, r := Shifted(n), ForgetState(state, n);
      && (k <= state / 2 ==> r == Some(state - 2 * k))
      && (r.None? <==> state < 2 * k <= state + U63)
      && (2 * k > state + U63 ==> r == Some(state + U64 - 2 * k) && r.value > state)
      && (r.Some? ==> r.value % 2 == state % 2)
  {
    ForgetWord(state, n);
  }

  /** It reports what it takes away exactly when that many are stored, apart from the counts
      whose shift happens to leave just the number stored; on the others it panics, wraps,
      or reports permits that stay. Within the stored count it is the machine's `Forget` step. */
  lemma ForgetIsExact(state: nat, n: nat)
    requires state < U63 && n < U64
    ensures var r := ForgetState(state, n);
      (r.Some? && r.value / 2 + (if n < state / 2 then n else state / 2) == state / 2) <==>
      n <= state / 2 || n == U63 + state / 2
    ensures n <= state / 2 ==> ForgetState(state, n) == Some(state - 2 * n)
  {
    ForgetWord(state, n);
  }

  /** With nothing stored, forgetting one permit panics, and forgetting 2^62 + 1 of them
      creates 2^62 - 1 out of nothing. */
  lemma ForgetFails()
    ensures ForgetState(0, 1) == None
    ensures ForgetState(0, U63 / 2 + 1) == Some(U63 - 2) && (U63 - 2) / 2 == U63 / 2 - 1
    ensures ForgetState(0, U63) == Some(0)
  {
    ForgetWord(0, 1);
    ForgetWord(0, U63 / 2 + 1);
    ForgetWord(0, U63);
  }

  // ------------------------------------------------------------ two losing runs

  lemma RunExtends(s: Sem, steps: seq<Step>, step: Step)
    requires IsRun(s, steps) && Enabled(Exec(s, steps), step)
    ensures IsRun(s, steps + [step]) && Exec(s, steps + [step]) == Next(Exec(s, steps), step)
  {
    assert (steps + [step])[..|steps|] == steps;
  }

  /** One future asks for more than there is, and waits. */
  function QueueUp(asked: nat): seq<Step> { [NewAcquire(asked), PollTry(0), PollEnqueue(0)] }

  lemma QueueUpRun(permits: nat, asked: nat)
    requires permits < asked < U32
    ensures IsRun(Init(permits), QueueUp(asked))
    ensures Exec(Init(permits), QueueUp(asked)) == Sem(
      AQ.Queue([0], 2 * permits, map[]),
      [Waiter(asked, asked - Grabbed(Some(2 * permits)), Queued, Rest, Armed)],
      [], [], None, false, permits, permits - Grabbed(Some(2 * permits)))
  {
    var s := Init(permits);
    GrabbedSmall(2 * permits);
    RunExtends(s, [], NewAcquire(asked));
    var s1 := Next(s, NewAcquire(asked));
    assert s1.waiters == [Waiter(asked, 0, Unqueued, Rest, Unset)];
    RunExtends(s, [NewAcquire(asked)], PollTry(0));
    var s2 := Next(s1, PollTry(0));
    assert s2.waiters == [Waiter(asked, asked - Grabbed(Some(2 * permits)), Unqueued, Enqueuing(Some(2 * permits)), Armed)];
    assert [NewAcquire(asked)] + [PollTry(0)] == [NewAcquire(asked), PollTry(0)];
    assert !AQ.Present(s2.q, 0);
    RunExtends(s, [NewAcquire(asked), PollTry(0)], PollEnqueue(0));
    assert [NewAcquire(asked), PollTry(0)] + [PollEnqueue(0)] == QueueUp(asked);
    assert [] + [0] == [0];
  }

  /** Dropping that future again does not restore the semaphore: half of its permits are
      gone, and an odd number of them closes the semaphore for ever, which nobody asked for. */
  lemma SoleCancelLoses(permits: nat, asked: nat)
    requires 0 < permits < asked < U32 && 2 * permits < U32
    ensures var run := QueueUp(asked) + [Cancel(0)];
      && IsRun(Init(permits), run)
      && Exec(Init(permits), run).q == AQ.Queue([], permits, map[])
      && Accounted(Exec(Init(permits), run)) == permits / 2 < permits
      && (Closed(Exec(Init(permits), run).q) <==> permits % 2 == 1)
  {
    QueueUpRun(permits, asked);
    GrabbedSmall(2 * permits);
    RunExtends(Init(permits), QueueUp(asked), Cancel(0));
    var t := Exec(Init(permits), QueueUp(asked));
    assert AQ.Keep([0], {0}) == [];
    assert t.q.live == [0];
    var u := Next(t, Cancel(0));
    assert u.q.live == [] && u.q.state == permits;
    assert u.q.lists == map[];
    assert u.waiters == [GONE];
    assert Grants(u.waiters) == [0];
    assert Total([0]) == 0;
  }

  /** Queueing up behind 2^31 stored permits or more loses 2^31 of them at once. */
  lemma WideStoreLoses(permits: nat, asked: nat)
    requires U32 / 2 <= permits < asked < U32
    ensures IsRun(Init(permits), QueueUp(asked))
    ensures Accounted(Exec(Init(permits), QueueUp(asked))) == permits - U32 / 2
  {
    QueueUpRun(permits, asked);
    var t := Exec(Init(permits), QueueUp(asked));
    assert (2 * permits) % U32 == 2 * permits - U32;
    assert Grants(t.waiters) == [permits - U32 / 2];
    assert Total(Grants(t.waiters)) == permits - U32 / 2;
  }

  /** One future waits for a single permit, and then `n` are added at once. */
  function AddToOne(n: nat): seq<Step> {
    QueueUp(1) + [Add(n)] + [CallFast(0)] + [CallLock(0)] + [CallRetry(0)] + [Grant(0)]
  }

  /** The state just before the only turn of the granting loop. */
  function OneWaits(n: nat): Sem {
    Sem(AQ.Queue([0], 0, map[]), [Waiter(1, 1, Queued, Rest, Armed)], [Call(AddPermits, n, 0, Working)], [],
        Some(0), false, n, 0)
  }

  lemma AddToOneStart(n: nat)
    requires 0 < n < U64
    ensures var run := QueueUp(1) + [Add(n)] + [CallFast(0)];
      && IsRun(Init(0), run)
      && Exec(Init(0), run) == OneWaits(n).(calls := [Call(AddPermits, n, 0, Want)], lock := None)
  {
    QueueUpRun(0, 1);
    var r0 := QueueUp(1);
    RunExtends(Init(0), r0, Add(n));
    assert Exec(Init(0), r0 + [Add(n)]).calls == [Call(AddPermits, n, 0, Fast)];
    RunExtends(Init(0), r0 + [Add(n)], CallFast(0));
  }

  lemma AddToOneRun(n: nat)
    requires 0 < n < U64
    ensures IsRun(Init(0), AddToOne(n)) && Exec(Init(0), AddToOne(n)) == GrantNext(OneWaits(n), 0)
  {
    AddToOneStart(n);
    var r2 := QueueUp(1) + [Add(n)] + [CallFast(0)];
    RunExtends(Init(0), r2, CallLock(0));
    var r3 := r2 + [CallLock(0)];
    RunExtends(Init(0), r3, CallRetry(0));
    var r4 := r3 + [CallRetry(0)];
    assert Exec(Init(0), r4) == OneWaits(n);
    RunExtends(Init(0), r4, Grant(0));
  }

  lemma LastGrant(n: nat)
    requires 0 < n < U64
    ensures var t := GrantNext(OneWaits(n), 0);
      && (t.panicked <==> StateWord(n - 1).None?)
      && (!t.panicked ==> t.q == AQ.Queue([], StateWord(n - 1).value, map[]))
      && (!t.panicked ==> Accounted(t) == StateWord(n - 1).value / 2 + 1)
  {
    var t := GrantNext(OneWaits(n), 0);
    if !t.panicked {
      assert AQ.Keep([0], {0}) == [];
      assert t.q.lists == map[];
      assert Grants(t.waiters) == [1] && Amounts(t.calls) == [0];
      assert Total([1]) == 1 && Total([0]) == 0;
    }
  }

  /** For every count: one waiter for one permit, then n added. The source's shift makes it
      panic, or lose 2^63 of them, exactly in these regions. */
  lemma HugeAdd(n: nat)
    requires 0 < n < U64
    ensures IsRun(Init(0), AddToOne(n))
    ensures var t, left := Exec(Init(0), AddToOne(n)), n - 1;
      && (t.panicked <==> U63 / 2 <= left < U63 || U63 + U63 / 2 <= left)
      && (left < U63 / 2 ==> t.q.state == 2 * left && Accounted(t) == n)
      && (U63 <= left < U63 + U63 / 2 ==> t.q.state == 2 * (left - U63) && Accounted(t) == n - U63)
  {
    AddToOneRun(n);
    LastGrant(n);
    WordRegions(n - 1);
  }

  /** Two of them: 2^62 + 2^33 permits panic, 2^63 + 1 leave one and a state of zero. */
  lemma HugeAddFails()
    ensures IsRun(Init(0), AddToOne(U63 / 2 + 2 * U32)) && Exec(Init(0), AddToOne(U63 / 2 + 2 * U32)).panicked
    ensures IsRun(Init(0), AddToOne(U63 + 1)) && !Exec(Init(0), AddToOne(U63 + 1)).panicked
    ensures Exec(Init(0), AddToOne(U63 + 1)).q.state == 0 && Accounted(Exec(Init(0), AddToOne(U63 + 1))) == 1
  {
    HugeAdd(U63 / 2 + 2 * U32);
    HugeAdd(U63 + 1);
  }

  // ------------------------------------------------------------ full batches

  /** A call that gives up the lock before it is done has a full batch to wake. */
  predicate BatchOk(c: Call) { c.pc == Unlocking(false) || c.pc == Waking(false) ==> c.batch == BATCH }

  lemma OwnBatch(s: Sem, step: Step)
    requires Enabled(s, step) && IsCall(step) && BatchOk(s.calls[step.i])
    ensures var t := CallNext(s, step);
      |t.calls| == |s.calls| && BatchOk(t.calls[step.i]) && forall i :: 0 <= i < |s.calls| && i != step.i ==> t.calls[i] == s.calls[i]
  {
    match step
    case Grant(_) =>
    case DrainNext(_) =>
    case CallRetry(_) =>
    case _ =>
  }

  ghost predicate BatchesOk(calls: seq<Call>) { forall i :: 0 <= i < |calls| ==> BatchOk(calls[i]) }

  lemma BatchStep(s: Sem, step: Step)
    requires Enabled(s, step) && BatchesOk(s.calls)
    ensures BatchesOk(Next(s, step).calls)
  {
    if IsCall(step) { OwnBatch(s, step); }
  }

  /** Over every run: the lock changes hands in the middle of a call only after 32 wakers. */
  lemma {:induction false} BatchesAreFull(s: Sem, steps: seq<Step>)
    requires IsRun(s, steps) && BatchesOk(s.calls)
    ensures BatchesOk(Exec(s, steps).calls)
    decreases |steps|
  {
    if steps != [] {
      var front := steps[..|steps| - 1];
      BatchesAreFull(s, front);
      BatchStep(Exec(s, front), steps[|steps| - 1]);
    }
  }
}
