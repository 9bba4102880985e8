/** What every step of the wait queue keeps. */
module WaitQueueInvariant {
  import opened Options
  import opened Waking
  import opened WaitQueueModel
  import AQ = AbstractQueue

  predicate Holds(pc: CallPc) {
    pc.Locked? || pc.Working? || pc.Picked? || pc.Swapping? || pc.Draining? || pc.Unlocking?
  }

  predicate WillWake(pc: CallPc) {
    pc.Working? || pc.Picked? || pc.Draining? || pc.Unlocking? || pc.Wakening?
  }

  predicate DrainOpen(c: Call) {
    c.pc.Draining? || (Global(c.job) && (c.pc == Unlocking(false) || c.pc == Wakening(false) || c.pc.Relocking?))
  }

  /** Past the point where it found the queue empty or swapped everybody out. */
  predicate Decided(pc: CallPc) {
    pc.Draining? || pc.Unlocking? || pc.Wakening? || pc.Relocking? || pc.Over?
  }

  predicate Sane(x: Waiter) {
    && (x.poll.Entering? ==> x.node.Unqueued? && x.wake.Armed?)
    && (x.poll.Rechecking? ==> x.kind.Until? && (x.poll.closed <==> x.node.Unqueued?))
    && (x.node.Queued? ==> x.wake.Armed? && !x.poll.Gone?)
    && (x.node.Dequeued? && !x.poll.Gone? ==> x.wake.Taken? || x.wake.Woken?)
  }

  predicate TakerOk(calls: seq<Call>, x: Waiter) {
    x.wake.Taken? ==> x.wake.call < |calls| && WillWake(calls[x.wake.call].pc)
  }

  ghost predicate PlaceOk(q: AQ.Queue<nat>, x: Waiter, w: nat) {
    && (x.node.Queued? <==> AQ.Present(q, w))
    && (x.poll.Rechecking? && x.poll.closed ==> Closed(q))
  }

  /** After a decisive notification nobody in line is pending on the condition. */
  predicate LateOk(ws: seq<Waiter>, w: nat) {
    w < |ws| && ws[w].kind.Until? ==> ws[w].poll.Rechecking? || ws[w].poll.Done?
  }

  predicate CallOk(q: AQ.Queue<nat>, lock: Option<nat>, c: Call, i: nat) {
    && (lock == Some(i) <==> Holds(c.pc))
    && (i in q.lists <==> DrainOpen(c))
    && (c.pc.Swapping? || c.pc.Draining? || c.pc.Relocking? ==> Global(c.job))
    && (c.pc.Working? || c.pc.Picked? ==> !Global(c.job))
    && (c.pc.Swapping? ==> q.live != [])
    && (c.pc.Working? && !c.job.Many? ==> q.live != [] && c.batch == 0)
    && (c.pc.Picked? ==> c.pc.w in q.live && (c.job.Many? ==> c.job.count > 0))
    && (c.pc.Working? || c.pc.Picked? ==> c.batch < BATCH)
    && (c.pc.Unlocking? || c.pc.Wakening? ==> c.pc.last || c.job.Many? || Global(c.job))
    && (!WillWake(c.pc) ==> c.batch == 0)
    && (c.pc.Draining? && i in q.lists ==> c.batch < BATCH || q.lists[i].rest == [])
  }

  /** A call against the accounts. */
  predicate AccountOk(s: State, c: Call) {
    && (c.late ==> s.cond)
    && (c.job.Shut? ==> c.late || s.closedEarly)
    && (Global(c.job) && c.late && Decided(c.pc) ==> s.served)
    && (c.job.Shut? && Decided(c.pc) ==> Closed(s.q))
  }

  ghost predicate Waiting(s: State) {
    && (forall w :: 0 <= w < |s.waiters| ==> Sane(s.waiters[w]))
    && (forall w :: 0 <= w < |s.waiters| ==> TakerOk(s.calls, s.waiters[w]))
    && (forall w :: 0 <= w < |s.waiters| ==> PlaceOk(s.q, s.waiters[w], w))
    && (forall n: nat :: AQ.Present(s.q, n) ==> n < |s.waiters|)
  }

  ghost predicate Calling(s: State) {
    && (forall i :: 0 <= i < |s.calls| ==> CallOk(s.q, s.lock, s.calls[i], i))
    && (s.lock.Some? ==> s.lock.value < |s.calls|)
    && (forall z :: z in s.q.lists ==> z < |s.calls|)
  }

  ghost predicate Accounts(s: State) {
    && (forall i :: 0 <= i < |s.calls| ==> AccountOk(s, s.calls[i]))
    && (s.served ==> s.cond && forall w :: w in s.q.live ==> LateOk(s.waiters, w))
    && (Closed(s.q) ==> s.cond || s.closedEarly)
  }

  ghost predicate Shape(s: State) { AQ.Inv(s.q) && Waiting(s) && Calling(s) }

  ghost predicate Inv(s: State) { (s.panicked ==> s.closedEarly) && Shape(s) && Accounts(s) }
}
