/**
 * What a poll of the wait queue answers.
 *
 * `AlonePoll` compares the steps of a poll that nothing disturbs with a description of the
 * whole poll; the other results hold whatever happens between the steps.
 */
module WaitQueuePolls {
  import opened Options
  import opened Waking
  import opened WaitQueueModel
  import opened WaitQueueInvariant
  import opened WaitQueueSteps
  import opened WaitQueueTheorems
  import AQ = AbstractQueue

  predicate Polling(x: Waiter) { x.poll.Checked? || x.poll.Entering? || x.poll.Rechecking? }

  /** The next step of a poll that has begun. */
  function OwnStep(x: Waiter, w: nat): (step: Step)
    requires Polling(x)
    ensures IsWaiter(step) && step.w == w && !step.Begin? && !step.Drop?
  {
    if x.poll.Checked? then Enter(w) else if x.poll.Entering? then TryEnqueue(w) else Recheck(w)
  }

  function Rank(x: Waiter): nat {
    match x.poll
    case Checked => 3
    case Entering => 2
    case Rechecking(_) => 1
    case _ => 0
  }

  /** Every step of a poll brings it closer to its end, and nobody else moves it. */
  lemma PollEnds(s: State, w: nat)
    requires w < |s.waiters| && Polling(s.waiters[w]) && Enabled(s, OwnStep(s.waiters[w], w))
    ensures var t := Next(s, OwnStep(s.waiters[w], w));
      t.panicked || (w < |t.waiters| && Rank(t.waiters[w]) < Rank(s.waiters[w]))
  {
  }

  /** A poll that ends Pending leaves its waiter in line or notified, never unregistered. */
  lemma PendingIsRegistered(s: State, step: Step, w: nat)
    requires Inv(s) && Enabled(s, step) && w < |s.waiters| && !s.waiters[w].poll.Idle?
    requires w < |Next(s, step).waiters| && Next(s, step).waiters[w].poll.Idle?
    ensures !Next(s, step).waiters[w].node.Unqueued?
  {
    if IsWaiter(step) && step.w == w {
      assert Sane(s.waiters[w]) && PlaceOk(s.q, s.waiters[w], w);
    } else {
      OthersLeavePolls(s, step, w);
    }
  }

  // -------------------------------------------------- a poll that is alone

  /** The rest of a poll that nothing disturbs. */
  ghost function Polled(s: State, w: nat): State
    requires w < |s.waiters|
    decreases Rank(s.waiters[w])
  {
    if Polling(s.waiters[w]) && Enabled(s, OwnStep(s.waiters[w], w)) then
      PollEnds(s, w);
      var t := Next(s, OwnStep(s.waiters[w], w));
      if t.panicked then t else Polled(t, w)
    else s
  }

  /** What a poll comes to. */
  datatype Answer = Ready | Pending | Panics

  /** Those who queue up: the new ones, and a conditional wait that was woken too early. */
  predicate QueuesUp(x: Waiter) { x.node.Unqueued? || (x.node.Dequeued? && x.kind.Until?) }

  /** A conditional wait is ready if the condition holds, a plain one if it was notified or
      finds the queue closed; a conditional one that finds it closed panics. */
  function Answered(s: State, x: Waiter): Answer {
    if x.kind.Until? && s.cond then Ready
    else if QueuesUp(x) && Closed(s.q) then (if x.kind.Until? then Panics else Ready)
    else if x.kind.Once? && x.node.Dequeued? then Ready
    else Pending
  }

  ghost predicate Gives(s: State, w: nat, t: State, answer: Answer)
    requires w < |s.waiters|
  {
    match answer
    case Ready => !t.panicked && t.q == s.q && w < |t.waiters| && t.waiters[w].poll.Done?
    case Panics => t.panicked && t.q == s.q
    case Pending =>
      && !t.panicked && w < |t.waiters|
      && t.waiters[w].poll.Idle? && t.waiters[w].node.Queued? && t.waiters[w].wake.Armed?
      && t.q == s.q.(live := if QueuesUp(s.waiters[w]) then s.q.live + [w] else s.q.live)
  }

  lemma LastTest(s: State, w: nat)
    requires !s.panicked && w < |s.waiters| && s.waiters[w].poll.Rechecking?
    ensures Polled(s, w) == Next(s, Recheck(w))
  {
    var t := Next(s, Recheck(w));
    if !t.panicked { Ended(t, w); }
  }

  lemma Ended(s: State, w: nat)
    requires w < |s.waiters| && !Polling(s.waiters[w])
    ensures Polled(s, w) == s
  {
  }

  lemma FromEntering(s: State, w: nat)
    requires Enabled(s, TryEnqueue(w)) && s.waiters[w].node.Unqueued? && s.waiters[w].wake.Armed? && !AQ.Present(s.q, w)
    requires s.waiters[w].kind.Until? ==> !s.cond
    ensures Gives(s, w, Polled(s, w), Answered(s, s.waiters[w]))
  {
    var t := Next(s, TryEnqueue(w));
    assert Polled(s, w) == Polled(t, w);
    if t.waiters[w].poll.Rechecking? { LastTest(t, w); } else { Ended(t, w); }
  }

  /** A poll that nothing disturbs gives that answer, and queues up where it says. */
  lemma AlonePoll(s: State, w: nat)
    requires Inv(s) && Enabled(s, Begin(w)) && (s.waiters[w].node.Queued? ==> s.lock.None?)
    ensures Gives(s, w, Polled(Next(s, Begin(w)), w), Answered(s, s.waiters[w]))
  {
    assert Sane(s.waiters[w]) && PlaceOk(s.q, s.waiters[w], w);
    var t := Next(s, Begin(w));
    if t.waiters[w].poll.Done? {
      Ended(t, w);
    } else {
      var u := Next(t, Enter(w));
      assert Polled(t, w) == Polled(u, w);
      if u.waiters[w].poll.Entering? {
        FromEntering(u, w);
      } else if u.waiters[w].poll.Rechecking? {
        LastTest(u, w);
      } else {
        Ended(u, w);
      }
    }
  }
}
