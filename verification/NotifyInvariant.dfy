/** What every step of the notifier keeps. */
module NotifyInvariant {
  import opened Options
  import opened Waking
  import opened Sums
  import opened NotifyModel
  import AQ = AbstractQueue

  predicate Holds(pc: CallPc) {
    pc.Locked? || pc.Working? || pc.Picked? || pc.Bumped? || pc.Draining? || pc.Unlocking?
  }

  predicate WillWake(pc: CallPc) { pc.Draining? || pc.Unlocking? || pc.Wakening? }

  predicate DrainOpen(pc: CallPc) { pc.Draining? || pc == Unlocking(false) || pc == Wakening(false) || pc.Relocking? }

  predicate Finished(f: Future) { f.poll.Done? || f.poll.Gone? }

  /** A future on its own. */
  predicate Sane(f: Future, gen: nat) {
    && f.gen <= gen
    && (f.poll.Looping? || f.poll.Checked? || f.poll.Tried? ==> f.node.Unqueued?)
    && (f.poll.Tried? && f.poll.view.Some? ==> f.poll.view.value == UNNOTIFIED)
    && (f.poll.Recheck? || f.poll.MustCancel? ==> !f.node.Unqueued?)
    && (f.poll.MustCancel? ==> f.gen < gen)
    && (f.node.Queued? ==> !Finished(f))
    && (!f.node.Dequeued? ==> f.note.None? && (f.wake.Unset? || f.wake.Armed?))
    && (f.node.Dequeued? && !Finished(f) ==> f.note.Some? && !f.wake.Armed?)
  }

  predicate TakerOk(calls: seq<Call>, f: Future) {
    f.wake.Taken? ==> f.wake.call < |calls| && WillWake(calls[f.wake.call].pc)
  }

  ghost predicate PlaceOk(q: AQ.Queue<nat>, f: Future, w: nat) { f.node.Queued? <==> AQ.Present(q, w) }

  /** Some `notify_waiters` is between its generation bump and its swap. */
  predicate SwapPending(s: Notify) {
    s.lock.Some? && s.lock.value < |s.calls| && s.calls[s.lock.value].pc.Bumped?
  }

  /** An outdated future in the live queue has not yet seen that it is outdated, or is about
      to be swapped out. */
  predicate CurrentOk(s: Notify, w: nat) {
    w < |s.futures| && s.futures[w].gen < s.gen ==>
      s.futures[w].poll.Recheck? || s.futures[w].poll.MustCancel? || SwapPending(s)
  }

  predicate CallOk(q: AQ.Queue<nat>, lock: Option<nat>, c: Call, i: nat) {
    && (lock == Some(i) <==> Holds(c.pc))
    && (i in q.lists <==> DrainOpen(c.pc))
    && (c.pc.Bumped? || DrainOpen(c.pc) ==> c.kind.All?)
    && (c.pc.Fast? || c.pc.Working? || c.pc.Picked? ==> !c.kind.All?)
    && (c.pc.Working? ==> q.live != [])
    && (c.pc.Picked? ==> c.pc.w in q.live && (c.kind.One? ==> c.pc.w == q.live[0]))
    && (!WillWake(c.pc) ==> c.batch == 0)
    && (c.pc.Draining? && i in q.lists ==> c.batch < BATCH || (c.batch == BATCH && q.lists[i].rest == []))
  }

  ghost predicate Waiting(s: Notify) {
    && (forall w :: 0 <= w < |s.futures| ==> Sane(s.futures[w], s.gen))
    && (forall w :: 0 <= w < |s.futures| ==> TakerOk(s.calls, s.futures[w]))
    && (forall w :: 0 <= w < |s.futures| ==> PlaceOk(s.q, s.futures[w], w))
    && (forall n: nat :: AQ.Present(s.q, n) ==> n < |s.futures|)
  }

  ghost predicate Current(s: Notify) { forall w :: w in s.q.live ==> CurrentOk(s, w) }

  ghost predicate Calling(s: Notify) {
    && (forall i :: 0 <= i < |s.calls| ==> CallOk(s.q, s.lock, s.calls[i], i))
    && (s.lock.Some? ==> s.lock.value < |s.calls|)
    && (forall z :: z in s.q.lists ==> z < |s.calls|)
  }

  ghost predicate Shape(s: Notify) {
    AQ.Inv(s.q) && s.q.state <= NOTIFIED && Waiting(s) && Current(s) && Calling(s)
  }

  // ----------------------------------------------------------------- ledger

  /** A single notification that a running call still has to deliver. */
  function InHand(c: Call): nat {
    if !c.kind.All? && (c.pc.Fast? || c.pc.Want? || c.pc.Locked? || c.pc.Working? || c.pc.Picked?) then 1 else 0
  }

  function Handeds(fs: seq<Future>): (r: seq<nat>)
    ensures |r| == |fs| && forall w :: 0 <= w < |fs| ==> r[w] == Handed(fs[w])
  {
    seq(|fs|, w requires 0 <= w < |fs| => Handed(fs[w]))
  }

  function InHands(cs: seq<Call>): (r: seq<nat>)
    ensures |r| == |cs| && forall i :: 0 <= i < |cs| ==> r[i] == InHand(cs[i])
  {
    seq(|cs|, i requires 0 <= i < |cs| => InHand(cs[i]))
  }

  function Stored(q: AQ.Queue<nat>): nat { if q.live == [] then q.state else 0 }

  /** Single notifications not yet consumed: stored, handed to a future, or being delivered. */
  function Outstanding(s: Notify): nat { Stored(s.q) + Total(Handeds(s.futures)) + Total(InHands(s.calls)) }

  predicate Ledger(s: Notify) { Outstanding(s) + s.consumed + s.coalesced == s.issued }

  ghost predicate Inv(s: Notify) { !s.panicked && Shape(s) && Ledger(s) }
}
