/** Where every permit is: each step moves permits, and the account says exactly what is lost. */
module SemaphoreLedger {
  import opened Options
  import opened Waking
  import opened Sums
  import opened SemaphoreModel
  import opened SemaphoreInvariant
  import opened SemaphoreSteps
  import opened SemaphoreCalls
  import AQ = AbstractQueue

  lemma GrantsUpdate(ws: seq<Waiter>, w: nat, x: Waiter)
    requires w < |ws|
    ensures Total(Grants(ws[w := x])) == Total(Grants(ws)) - Granted(ws[w]) + Granted(x)
    ensures Granted(ws[w]) <= Total(Grants(ws))
  {
    assert Grants(ws[w := x]) == Grants(ws)[w := Granted(x)];
    TotalUpdate(Grants(ws), w, Granted(x));
    TotalAtLeast(Grants(ws), w);
  }

  lemma GrantsAppend(ws: seq<Waiter>, x: Waiter)
    ensures Total(Grants(ws + [x])) == Total(Grants(ws)) + Granted(x)
  {
    assert Grants(ws + [x]) == Grants(ws) + [Granted(x)];
    TotalAppend(Grants(ws), Granted(x));
  }

  lemma AmountsUpdate(cs: seq<Call>, i: nat, c: Call)
    requires i < |cs|
    ensures Total(Amounts(cs[i := c])) == Total(Amounts(cs)) - cs[i].amount + c.amount
    ensures cs[i].amount <= Total(Amounts(cs))
  {
    assert Amounts(cs[i := c]) == Amounts(cs)[i := c.amount];
    TotalUpdate(Amounts(cs), i, c.amount);
    TotalAtLeast(Amounts(cs), i);
  }

  lemma AmountsAppend(cs: seq<Call>, c: Call)
    ensures Total(Amounts(cs + [c])) == Total(Amounts(cs)) + c.amount
  {
    assert Amounts(cs + [c]) == Amounts(cs) + [c.amount];
    TotalAppend(Amounts(cs), c.amount);
  }

  lemma WakeKeepsGrants(ws: seq<Waiter>, i: nat)
    ensures Grants(WakeAll(ws, i)) == Grants(ws)
  {
  }

  /** What the shift on the way into the state drops; nothing if it panics instead. */
  function ShiftedOut(permits: nat): (r: nat) {
    if StateWord(permits).None? then 0
    else
      WordHalf(permits);
      permits - StateWord(permits).value / 2
  }

  lemma WordHalf(permits: nat)
    ensures StateWord(permits).Some? ==> StateWord(permits).value % 2 == 0 && StateWord(permits).value / 2 <= permits
    ensures permits < U63 / 2 ==> StateWord(permits) == Some(2 * permits)
    ensures StateWord(permits).Some? && permits < U63 ==> StateWord(permits) == Some(2 * permits)
    ensures permits >= U63 && StateWord(permits).Some? ==> StateWord(permits).value / 2 < permits
  {
    assert (2 * permits) % U64 == 2 * permits - U64 * ((2 * permits) / U64);
    if permits < U63 { assert (2 * permits) % U64 == 2 * permits; }
  }

  /** The three regions of a left-over: exact below 2^62, overflow up to 2^63, and from there
      on the top bit is dropped and the same again. */
  lemma WordRegions(left: nat)
    requires left < U64
    ensures left < U63 / 2 ==> StateWord(left) == Some(2 * left)
    ensures U63 / 2 <= left < U63 ==> StateWord(left) == None
    ensures U63 <= left < U63 + U63 / 2 ==> StateWord(left) == Some(2 * (left - U63))
    ensures U63 + U63 / 2 <= left ==> StateWord(left) == None
  {
    if left >= U63 { assert 2 * left == 2 * (left - U63) + U64; }
  }

  /** The turn of call `i` serves the first in line in full. */
  predicate Serves(s: Sem, i: nat)
    requires i < |s.calls|
  {
    s.q.live != [] && s.q.live[0] < |s.waiters| && s.waiters[s.q.live[0]].remaining <= s.calls[i].amount
  }

  function LeftOver(s: Sem, i: nat): nat
    requires i < |s.calls| && Serves(s, i)
  {
    s.calls[i].amount - s.waiters[s.q.live[0]].remaining
  }

  /** And nobody is left in line. */
  predicate Empties(s: Sem, i: nat)
    requires i < |s.calls|
  {
    Serves(s, i) && |s.q.live| == 1
  }

  /** What a step takes out of circulation (`permits` dropped on the floor by the code). */
  function Lost(s: Sem, step: Step): (r: nat)
    requires Enabled(s, step)
  {
    match step
    case Cancel(w) =>
      if s.waiters[w].node.Queued? && s.q.live == [w] then Granted(s.waiters[w]) - Granted(s.waiters[w]) / 2 else 0
    case PollEnqueue(w) =>
      var v := s.waiters[w].poll.view;
      if View(s.q) == v && v.Some? && v.value / 2 > Grabbed(v) then v.value / 2 - Grabbed(v) else 0
    case Grant(i) => if Empties(s, i) then ShiftedOut(LeftOver(s, i)) else 0
    case _ => 0
  }

  /** What a step brings in or retires on the user's request. */
  function Brought(s: Sem, step: Step): (r: int)
    requires Enabled(s, step)
  {
    var zero: int := 0;
    match step
    case Add(n) => zero + n
    case Forget(n) => zero - n
    case ForgetPermit(i) => zero - s.held[i]
    case _ => zero
  }

  /** The step's effect on the books. */
  ghost predicate Moves(s: Sem, t: Sem, brought: int, lost: int) {
    Accounted(t) == Accounted(s) + brought - lost && t.issued == s.issued + brought && t.leaked == s.leaked + lost
  }

  lemma PollTryMoves(s: Sem, w: nat)
    requires Shape(s) && Enabled(s, PollTry(w))
    ensures Moves(s, PollTryNext(s, w), 0, 0)
  {
    var t := PollTryNext(s, w);
    var x := s.waiters[w];
    GrantsUpdate(s.waiters, w, t.waiters[w]);
    if |t.held| > |s.held| {
      TotalAppend(s.held, x.permits);
    }
  }

  lemma PollEnqueueMoves(s: Sem, w: nat)
    requires Shape(s) && Enabled(s, PollEnqueue(w))
    ensures Moves(s, PollEnqueueNext(s, w), 0, Lost(s, PollEnqueue(w)))
  {
    var t := PollEnqueueNext(s, w);
    var x := s.waiters[w];
    assert Sane(x) && PlaceOk(s.q, x, w);
    GrantsUpdate(s.waiters, w, t.waiters[w]);
    if x.poll.view.Some? { GrabbedSmall(x.poll.view.value); }
  }

  lemma PollDequeuedMoves(s: Sem, w: nat)
    requires Shape(s) && Enabled(s, PollDequeued(w))
    ensures Moves(s, PollDequeuedNext(s, w), 0, 0)
  {
    var t := PollDequeuedNext(s, w);
    var x := s.waiters[w];
    assert Sane(x) && PlaceOk(s.q, x, w);
    GrantsUpdate(s.waiters, w, x.(permits := 0));
    TotalAppend(s.held, x.permits);
  }

  lemma CancelOutsideMoves(s: Sem, w: nat)
    requires Enabled(s, Cancel(w)) && Sane(s.waiters[w]) && !s.waiters[w].node.Queued?
    ensures Moves(s, CancelNext(s, w), 0, 0)
  {
    var acquired := s.waiters[w].permits - s.waiters[w].remaining;
    GrantsUpdate(s.waiters, w, GONE);
    AmountsAppend(s.calls, Call(AddPermits, acquired, 0, if acquired == 0 then Over else Fast));
  }

  /** The last in line, unless it is also the first, has nothing to give back. */
  lemma LastHasNone(s: Sem, w: nat)
    requires Shape(s) && s.q.live != [] && w == s.q.live[|s.q.live| - 1] && w < |s.waiters|
    ensures s.q.live != [w] ==> s.waiters[w].remaining == s.waiters[w].permits
  {
    if |s.q.live| > 1 { assert Untouched(s.waiters, s.q.live[|s.q.live| - 1]); }
  }

  /** What `CancelNext` does with the permits of a queued future, in its three cases. */
  lemma CancelQueuedResult(s: Sem, w: nat)
    requires Enabled(s, Cancel(w)) && Sane(s.waiters[w]) && s.waiters[w].node.Queued?
    requires AQ.Inv(s.q) && AQ.Present(s.q, w)
    ensures var t, acquired := CancelNext(s, w), s.waiters[w].permits - s.waiters[w].remaining;
      && t.waiters == s.waiters[w := GONE] && t.held == s.held && t.issued == s.issued
      && Stored(t.q) == (if s.q.live == [w] then acquired / 2 else Stored(s.q))
      && (if s.q.live != [] && w == s.q.live[|s.q.live| - 1] then
            t.calls == s.calls && t.leaked == s.leaked + acquired - (if s.q.live == [w] then acquired / 2 else 0)
          else
            t.leaked == s.leaked && (if t.calls == s.calls then acquired == 0
                                     else exists pc :: t.calls == s.calls + [Call(AddPermits, acquired, 0, pc)]))
  {
    RemoveFromLive(s.q, w, s.waiters[w].permits - s.waiters[w].remaining);
  }

  lemma CancelQueuedMoves(s: Sem, w: nat)
    requires Enabled(s, Cancel(w)) && Sane(s.waiters[w]) && s.waiters[w].node.Queued?
    requires AQ.Inv(s.q) && AQ.Present(s.q, w)
    requires s.q.live != [] && w == s.q.live[|s.q.live| - 1] && s.q.live != [w] ==> Granted(s.waiters[w]) == 0
    ensures Moves(s, CancelNext(s, w), 0, Lost(s, Cancel(w)))
  {
    var t, acquired := CancelNext(s, w), s.waiters[w].permits - s.waiters[w].remaining;
    CancelQueuedResult(s, w);
    GrantsUpdate(s.waiters, w, GONE);
    if t.calls != s.calls {
      var pc :| t.calls == s.calls + [Call(AddPermits, acquired, 0, pc)];
      AmountsAppend(s.calls, Call(AddPermits, acquired, 0, pc));
    }
  }

  lemma CancelMoves(s: Sem, w: nat)
    requires Shape(s) && Enabled(s, Cancel(w))
    ensures Moves(s, CancelNext(s, w), 0, Lost(s, Cancel(w)))
  {
    var x := s.waiters[w];
    assert Sane(x) && PlaceOk(s.q, x, w);
    if x.node.Queued? {
      if s.q.live != [] && w == s.q.live[|s.q.live| - 1] { LastHasNone(s, w); }
      CancelQueuedMoves(s, w);
    } else {
      CancelOutsideMoves(s, w);
    }
  }

  lemma AttemptMoves(s: Sem, i: nat, onFailure: CallPc, lock: Option<nat>)
    requires Shape(s) && i < |s.calls|
    ensures Moves(s, Attempt(s, i, onFailure, lock), 0, 0)
  {
    assert CallOk(s.q, s.lock, s.calls[i], i);
    var t := Attempt(s, i, onFailure, lock);
    AmountsUpdate(s.calls, i, t.calls[i]);
  }

  lemma GrantMoves(s: Sem, i: nat)
    requires Shape(s) && Enabled(s, Grant(i))
    ensures Moves(s, GrantNext(s, i), 0, Lost(s, Grant(i)))
  {
    GrantHasWaiter(s, i);
    var w := s.q.live[0];
    assert Sane(s.waiters[w]);
    assert AQ.Present(s.q, w);
    if !GrantNext(s, i).panicked {
      if Serves(s, i) {
        RemoveFromLive(s.q, w, StateWord(LeftOver(s, i)).value);
        WordHalf(LeftOver(s, i));
      }
      GrantsUpdate(s.waiters, w, GrantNext(s, i).waiters[w]);
      AmountsUpdate(s.calls, i, GrantNext(s, i).calls[i]);
    }
  }

  lemma DrainNextMoves(s: Sem, i: nat)
    requires Shape(s) && Enabled(s, DrainNext(i))
    ensures Moves(s, DrainNextNext(s, i), 0, 0)
  {
    DrainHasWaiter(s, i);
    var w := s.q.lists[i].rest[0];
    var t := DrainNextNext(s, i);
    GrantsUpdate(s.waiters, w, t.waiters[w]);
    AmountsUpdate(s.calls, i, t.calls[i]);
  }

  /** Opening or ending a drain, the lock and the wakers carry no permits. */
  lemma QuietCallMoves(s: Sem, step: Step)
    requires Enabled(s, step) && IsCall(step) && CallOk(s.q, s.lock, s.calls[step.i], step.i)
    requires !step.CallFast? && !step.Grant? && !step.DrainNext?
    requires step.CallRetry? ==> s.q.live != [] && s.calls[step.i].kind.CloseAll?
    ensures Moves(s, CallNext(s, step), 0, 0)
  {
    var t := CallNext(s, step);
    AmountsUpdate(s.calls, step.i, t.calls[step.i]);
    if step.CallWake? { WakeKeepsGrants(s.waiters, step.i); }
  }

  lemma CallMoves(s: Sem, step: Step)
    requires Shape(s) && Enabled(s, step) && IsCall(step)
    ensures Moves(s, CallNext(s, step), 0, Lost(s, step))
  {
    var i := step.i;
    assert CallOk(s.q, s.lock, s.calls[i], i);
    match step
    case CallFast(_) => AttemptMoves(s, i, Want, s.lock);
    case CallRetry(_) =>
      if s.q.live != [] && s.calls[i].kind.CloseAll? { QuietCallMoves(s, step); } else { AttemptMoves(s, i, Working, None); }
    case Grant(_) => GrantMoves(s, i);
    case DrainNext(_) => DrainNextMoves(s, i);
    case _ => QuietCallMoves(s, step);
  }

  lemma FutureMoves(s: Sem, step: Step)
    requires Shape(s) && Enabled(s, step) && IsFuture(step)
    ensures Moves(s, Next(s, step), 0, Lost(s, step))
  {
    match step
    case NewAcquire(p) => GrantsAppend(s.waiters, Waiter(p, 0, Unqueued, Rest, Unset));
    case PollTry(w) => PollTryMoves(s, w);
    case PollEnqueue(w) => PollEnqueueMoves(s, w);
    case PollQueued(w) =>
    case PollDequeued(w) => PollDequeuedMoves(s, w);
    case Cancel(w) => CancelMoves(s, w);
  }

  lemma MergeMoves(s: Sem, i: nat, j: nat)
    requires Enabled(s, Merge(i, j))
    ensures Moves(s, Next(s, Merge(i, j)), 0, 0)
  {
    TotalUpdate(s.held, i, s.held[i] + s.held[j]);
    TotalUpdate(s.held[i := s.held[i] + s.held[j]], j, 0);
  }

  lemma PermitMoves(s: Sem, step: Step)
    requires Enabled(s, step)
    requires step.DropPermit? || step.ForgetPermit? || step.Merge? || step.Split?
    ensures Moves(s, Next(s, step), Brought(s, step), 0)
  {
    match step
    case DropPermit(i) =>
      AmountsAppend(s.calls, Call(AddPermits, s.held[i], 0, if s.held[i] == 0 then Over else Fast));
      TotalUpdate(s.held, i, 0);
    case ForgetPermit(i) => TotalUpdate(s.held, i, 0);
    case Merge(i, j) => MergeMoves(s, i, j);
    case Split(i, n) =>
      TotalUpdate(s.held, i, s.held[i] - n);
      TotalAppend(s.held[i := s.held[i] - n], n);
  }

  lemma UserMoves(s: Sem, step: Step)
    requires Enabled(s, step) && !IsFuture(step) && !IsCall(step)
    ensures Moves(s, Next(s, step), Brought(s, step), 0)
  {
    match step
    case TryAcquire(p) => TotalAppend(s.held, p);
    case Add(n) => AmountsAppend(s.calls, Call(AddPermits, n, 0, if n == 0 then Over else Fast));
    case Close => AmountsAppend(s.calls, Call(CloseAll, 0, 0, Fast));
    case Forget(n) =>
    case _ => PermitMoves(s, step);
  }

  /** Every step moves permits from one account to another, but for what it brings or loses. */
  lemma StepMoves(s: Sem, step: Step)
    requires Shape(s) && Enabled(s, step)
    ensures Moves(s, Next(s, step), Brought(s, step), Lost(s, step))
  {
    if IsCall(step) { CallMoves(s, step); }
    else if IsFuture(step) { FutureMoves(s, step); }
    else { UserMoves(s, step); }
  }

  // ------------------------------------------------------------------ panics

  /** The overflow checks that users can run into: more stored permits than `MAX_PERMITS`, a
      left-over whose shifted word does not fit the tail, and merging beyond 32 bits. */
  predicate Overflows(s: Sem, step: Step)
    requires Enabled(s, step)
  {
    match step
    case Merge(i, j) => s.held[i] + s.held[j] >= U32
    case CallFast(i) => TooMany(s, i)
    case CallRetry(i) => TooMany(s, i)
    case Grant(i) => Serves(s, i) && StateWord(LeftOver(s, i)).None?
    case _ => false
  }

  predicate TooMany(s: Sem, i: nat)
    requires i < |s.calls|
  {
    s.q.live == [] && s.calls[i].kind.AddPermits? && CheckAdd(s.q.state, s.calls[i].amount).None?
  }

  lemma FuturePanicsNot(s: Sem, step: Step)
    requires Shape(s) && Enabled(s, step) && IsFuture(step)
    ensures !Next(s, step).panicked
  {
    if !step.NewAcquire? {
      var x := s.waiters[step.w];
      assert Sane(x);
      if s.q.live == [] { GrabbedSmall(s.q.state); }
    }
  }

  /** A step panics exactly when one of these overflow checks fires: no unwrap fails, no
      other assertion or subtraction does, and no buffer overflows. */
  lemma StepPanicsIff(s: Sem, step: Step)
    requires Shape(s) && Enabled(s, step)
    ensures Next(s, step).panicked <==> Overflows(s, step)
  {
    if IsFuture(step) {
      FuturePanicsNot(s, step);
    } else if IsCall(step) {
      match step
      case Grant(i) => GrantHasWaiter(s, i);
      case DrainNext(i) => DrainHasWaiter(s, i);
      case _ =>
    }
  }

  /** But for the merge they mean that users have put in more than `MAX_PERMITS`. */
  lemma OverflowMeansOverBudget(s: Sem, step: Step)
    requires Ledger(s) && Enabled(s, step) && Overflows(s, step) && !step.Merge?
    ensures s.issued > MAX_PERMITS
  {
    AmountsUpdate(s.calls, step.i, s.calls[step.i]);
    if step.Grant? { WordHalf(LeftOver(s, step.i)); }
  }

  lemma StepKeepsInv(s: Sem, step: Step)
    requires Inv(s) && Enabled(s, step)
    ensures Inv(Next(s, step))
  {
    ShapeKept(s, step);
    StepMoves(s, step);
  }
}
