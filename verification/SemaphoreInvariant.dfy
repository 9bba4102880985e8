/** What every step of the semaphore keeps. */
module SemaphoreInvariant {
  import opened Options
  import opened Waking
  import opened Sums
  import opened SemaphoreModel
  import AQ = AbstractQueue

  // -------------------------------------------------------------- structure

  predicate Holds(pc: CallPc) { pc.Locked? || pc.Working? || pc.Unlocking? }

  predicate WillWake(pc: CallPc) { pc.Working? || pc.Unlocking? || pc.Waking? }

  predicate Draining(c: Call) {
    c.kind.CloseAll? && (c.pc.Working? || c.pc == Unlocking(false) || c.pc == Waking(false) || c.pc.Relocking?)
  }

  predicate ViewOk(x: Waiter)
    requires x.poll.Enqueuing?
  {
    x.remaining == x.permits - Grabbed(x.poll.view)
    && (x.poll.view.Some? ==> x.poll.view.value % 2 == 0 && x.poll.view.value < 2 * x.permits)
  }

  /** A waiter on its own. */
  predicate Sane(x: Waiter) {
    && x.remaining <= x.permits < U32
    && (x.poll.Gone? ==> x.node.Unqueued?)
    && (x.poll.Enqueuing? ==> x.node.Unqueued? && x.wake.Armed? && ViewOk(x))
    && (x.node.Queued? ==> x.wake.Armed? && (x.remaining == 0 ==> x.permits == 0))
    && (x.node.Dequeued? ==> x.wake.Taken? || x.wake.Woken?)
  }

  predicate TakerOk(calls: seq<Call>, x: Waiter) {
    x.wake.Taken? ==> x.wake.call < |calls| && WillWake(calls[x.wake.call].pc)
  }

  /** A waiter against the queue: in line exactly when queued; once out, served or turned away. */
  ghost predicate PlaceOk(q: AQ.Queue<nat>, x: Waiter, w: nat) {
    && (x.node.Queued? <==> AQ.Present(q, w))
    && (x.node.Dequeued? ==> x.remaining == 0 || Closed(q))
  }

  ghost predicate Waiting(s: Sem) {
    && (forall w :: 0 <= w < |s.waiters| ==> Sane(s.waiters[w]))
    && (forall w :: 0 <= w < |s.waiters| ==> TakerOk(s.calls, s.waiters[w]))
    && (forall w :: 0 <= w < |s.waiters| ==> PlaceOk(s.q, s.waiters[w], w))
    && (forall n: nat :: AQ.Present(s.q, n) ==> n < |s.waiters|)
  }

  predicate Untouched(ws: seq<Waiter>, w: nat) { w < |ws| ==> ws[w].remaining == ws[w].permits }

  /** Only the first in line may hold some of the permits it asks for. */
  predicate HeadOnly(s: Sem) { forall j :: 1 <= j < |s.q.live| ==> Untouched(s.waiters, s.q.live[j]) }

  /** A call against the lock and the queue. */
  predicate CallOk(q: AQ.Queue<nat>, lock: Option<nat>, c: Call, i: nat) {
    && (lock == Some(i) <==> Holds(c.pc))
    && (i in q.lists <==> Draining(c))
    && (c.kind.CloseAll? ==> c.amount == 0)
    && (c.kind.CloseAll? && !c.pc.Fast? && !c.pc.Want? && !c.pc.Locked? ==> Closed(q))
    && (c.kind.CloseAll? && c.pc.Working? && i in q.lists ==> c.batch < BATCH || q.lists[i].rest == [])
    && (c.kind.AddPermits? ==> !c.pc.Relocking?)
    && (c.kind.AddPermits? && c.pc.Working? ==> q.live != [] && c.batch < BATCH)
    && (!WillWake(c.pc) ==> c.batch == 0)
    && (c.kind.AddPermits? ==>
        (c.amount == 0 <==> c.pc.Over? || c.pc == Unlocking(true) || c.pc == Waking(true)))
  }

  ghost predicate Calling(s: Sem) {
    && (forall i :: 0 <= i < |s.calls| ==> CallOk(s.q, s.lock, s.calls[i], i))
    && (s.lock.Some? ==> s.lock.value < |s.calls|)
    && (forall z :: z in s.q.lists ==> z < |s.calls|)
    && (s.q.lists != map[] ==> Closed(s.q))
  }

  // ----------------------------------------------------------------- ledger

  /** Permits set aside for a waiter that has not been handed out or cancelled. */
  function Granted(x: Waiter): nat {
    if x.node.Unqueued? || x.permits < x.remaining then 0 else x.permits - x.remaining
  }

  function Grants(ws: seq<Waiter>): (r: seq<nat>)
    ensures |r| == |ws| && forall w :: 0 <= w < |ws| ==> r[w] == Granted(ws[w])
  {
    seq(|ws|, w requires 0 <= w < |ws| => Granted(ws[w]))
  }

  function Amounts(cs: seq<Call>): (r: seq<nat>)
    ensures |r| == |cs| && forall i :: 0 <= i < |cs| ==> r[i] == cs[i].amount
  {
    seq(|cs|, i requires 0 <= i < |cs| => cs[i].amount)
  }

  function Stored(q: AQ.Queue<nat>): nat { if q.live == [] then q.state / 2 else 0 }

  /** Every permit that somebody can still use or give back. */
  function Accounted(s: Sem): nat {
    Stored(s.q) + Total(Grants(s.waiters)) + Total(s.held) + Total(Amounts(s.calls))
  }

  ghost predicate Ledger(s: Sem) {
    Accounted(s) + s.leaked == s.issued && s.leaked >= 0
  }

  ghost predicate Shape(s: Sem) {
    AQ.Inv(s.q) && Waiting(s) && HeadOnly(s) && Calling(s)
  }

  ghost predicate Inv(s: Sem) { Shape(s) && Ledger(s) }
}
