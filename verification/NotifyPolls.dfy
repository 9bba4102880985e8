/**
 * What a poll of a `Notified` future answers.
 *
 * `AlonePoll` compares the steps of a poll that nothing disturbs with a description of the
 * whole poll; the other results hold whatever happens between the steps.
 */
module NotifyPolls {
  import opened Options
  import opened Waking
  import opened NotifyModel
  import opened NotifyInvariant
  import opened NotifySteps
  import opened NotifyLedger
  import opened NotifyTheorems
  import AQ = AbstractQueue

  predicate Polling(f: Future) { f.poll.Checked? || f.poll.Tried? || f.poll.Recheck? || f.poll.MustCancel? }

  /** The first step of a poll, with or without a context. */
  function BeginStep(f: Future, w: nat, cx: bool): (step: Step) {
    match f.node
    case Unqueued => PollGen(w)
    case Queued => PollQueued(w, cx)
    case Dequeued => PollDequeued(w)
  }

  /** The next step of a poll that has begun. */
  function OwnStep(f: Future, w: nat, cx: bool): (step: Step)
    requires Polling(f)
  {
    match f.poll
    case Checked => PollTake(w, cx)
    case Tried(_) => PollEnqueue(w)
    case Recheck => PollRecheck(w)
    case MustCancel => PollCancel(w)
  }

  function Rank(f: Future): nat {
    match f.poll
    case Checked => 4
    case Tried(_) => 3
    case Recheck => 2
    case MustCancel => 1
    case _ => 0
  }

  /** Every step brings a poll closer to its end, or back to its start after the line moved. */
  lemma PollEnds(s: Notify, w: nat, cx: bool)
    requires w < |s.futures| && Polling(s.futures[w]) && Enabled(s, OwnStep(s.futures[w], w, cx))
    ensures var t := Next(s, OwnStep(s.futures[w], w, cx));
      t.panicked ||
        (w < |t.futures| && Rank(t.futures[w]) < Rank(s.futures[w])
          && (t.futures[w].poll.Looping? ==> s.futures[w].poll == Tried(s.futures[w].poll.view) && View(s.q) != s.futures[w].poll.view))
  {
  }

  /** A poll that starts over looks at the generation first: if that has moved on, it takes no
      notification that somebody else could use. */
  lemma RetryLooksAgain(s: Notify, w: nat)
    requires Inv(s) && Enabled(s, PollEnqueue(w)) && View(s.q) != s.futures[w].poll.view
    ensures var t := Next(s, PollEnqueue(w));
      && Enabled(t, PollGen(w))
      && (s.futures[w].gen < s.gen ==> Next(t, PollGen(w)).futures[w].poll.Done? && Next(t, PollGen(w)).q == s.q)
  {
    assert Sane(s.futures[w], s.gen);
  }

  /** A poll without a context registers nothing. */
  lemma NoContextNoWaker(s: Notify, step: Step)
    requires Inv(s) && Enabled(s, step) && IsFuture(step) && s.futures[step.w].wake.Unset?
    requires (step.PollTake? || step.PollQueued?) ==> !step.cx
    ensures step.w < |Next(s, step).futures| && Next(s, step).futures[step.w].wake.Unset?
  {
    StepIsSafe(s, step);
  }

  // ------------------------------------------------ what makes it outdated

  function Bumps(steps: seq<Step>): nat {
    if steps == [] then 0 else Bumps(steps[..|steps| - 1]) + if steps[|steps| - 1].Bump? then 1 else 0
  }

  lemma OnlyBumpsAge(s: Notify, step: Step)
    requires Enabled(s, step)
    ensures Next(s, step).gen == s.gen + if step.Bump? then 1 else 0
  {
  }

  lemma {:induction false} AgesByBumps(s: Notify, steps: seq<Step>, w: nat)
    requires Inv(s) && IsRun(s, steps) && w < |s.futures|
    ensures Exec(s, steps).gen == s.gen + Bumps(steps)
    ensures w < |Exec(s, steps).futures| && Exec(s, steps).futures[w].gen == s.futures[w].gen
    decreases |steps|
  {
    if steps != [] {
      var front := steps[..|steps| - 1];
      AgesByBumps(s, front, w);
      RunKeepsInv(s, front);
      OnlyBumpsAge(Exec(s, front), steps[|steps| - 1]);
      FutureKeepsGen(Exec(s, front), steps[|steps| - 1], w);
    }
  }

  /** A future is outdated if and only if some `notify_waiters` has raised the generation since
      it was created, over every run. */
  lemma OutdatedIffBumped(s: Notify, steps: seq<Step>)
    requires Inv(s) && Enabled(s, Create) && IsRun(Next(s, Create), steps)
    ensures var t, w := Exec(Next(s, Create), steps), |s.futures|;
      w < |t.futures| && (t.futures[w].gen < t.gen <==> exists k :: 0 <= k < |steps| && steps[k].Bump?)
  {
    StepKeepsInv(s, Create);
    AgesByBumps(Next(s, Create), steps, |s.futures|);
    SomeBump(steps);
  }

  lemma {:induction false} SomeBump(steps: seq<Step>)
    ensures Bumps(steps) > 0 <==> exists k :: 0 <= k < |steps| && steps[k].Bump?
  {
    if steps != [] {
      var front := steps[..|steps| - 1];
      SomeBump(front);
      if k :| 0 <= k < |front| && front[k].Bump? { assert steps[k].Bump?; }
    }
  }

  // -------------------------------------------------- a poll that is alone

  /** The rest of a poll that nothing disturbs. */
  ghost function Polled(s: Notify, w: nat, cx: bool): Notify
    requires w < |s.futures|
    decreases Rank(s.futures[w])
  {
    if Polling(s.futures[w]) && Enabled(s, OwnStep(s.futures[w], w, cx)) then
      PollEnds(s, w, cx);
      var t := Next(s, OwnStep(s.futures[w], w, cx));
      if t.panicked then t else Polled(t, w, cx)
    else s
  }

  /** `Stored`: ready with the stored notification. `Left`: ready, out of the line on its own. */
  datatype Answer = Ready | Stored | Left | Pending

  function Answered(s: Notify, f: Future): Answer {
    if f.node.Dequeued? then Ready
    else if f.gen != s.gen then (if f.node.Queued? then Left else Ready)
    else if f.node.Unqueued? && View(s.q) == Some(NOTIFIED) then Stored
    else Pending
  }

  /** Ready if notified, outdated, or if a notification is stored, which it takes; otherwise
      pending in line, at the end of it if it was not there before, and registered. */
  ghost predicate Gives(s: Notify, w: nat, cx: bool, t: Notify, answer: Answer)
    requires w < |s.futures|
  {
    && !t.panicked && w < |t.futures| && t.gen == s.gen && t.calls == s.calls
    && (t.futures[w].poll.Done? <==> !answer.Pending?)
    && (match answer
        case Ready => t.q == s.q && t.consumed == s.consumed + Handed(s.futures[w])
        case Stored => t.q == s.q.(state := UNNOTIFIED) && t.consumed == s.consumed + 1
        case Left => AQ.Present(s.q, w) && t.q == AQ.Apply(s.q, AQ.Remove(w, UNNOTIFIED)) && t.consumed == s.consumed
        case Pending =>
          && t.futures[w].poll.Idle? && t.futures[w].node.Queued? && (cx ==> t.futures[w].wake.Armed?)
          && t.q == s.q.(live := if s.futures[w].node.Unqueued? then s.q.live + [w] else s.q.live)
          && t.consumed == s.consumed)
  }

  lemma Ended(s: Notify, w: nat, cx: bool)
    requires w < |s.futures| && !Polling(s.futures[w])
    ensures Polled(s, w, cx) == s
  {
  }

  lemma LastLook(s: Notify, w: nat, cx: bool)
    requires Enabled(s, PollRecheck(w)) && s.futures[w].gen == s.gen
    ensures Polled(s, w, cx) == SetFuture(s, w, s.futures[w].(poll := Idle))
  {
    Ended(Next(s, PollRecheck(w)), w, cx);
  }

  lemma FromTried(s: Notify, w: nat, cx: bool)
    requires Enabled(s, PollEnqueue(w)) && s.futures[w].poll.view == View(s.q) && s.futures[w].gen == s.gen
    requires !AQ.Present(s.q, w)
    ensures Polled(s, w, cx) ==
      SetFuture(s, w, s.futures[w].(node := Queued, poll := Idle)).(q := s.q.(live := s.q.live + [w]))
  {
    var t := Next(s, PollEnqueue(w));
    assert Polled(s, w, cx) == Polled(t, w, cx);
    LastLook(t, w, cx);
  }

  lemma AloneSteps(s: Notify, w: nat, cx: bool)
    requires !s.panicked && w < |s.futures| && s.futures[w].poll.Idle? && (s.futures[w].node.Queued? ==> s.lock.None?)
    requires Sane(s.futures[w], s.gen) && PlaceOk(s.q, s.futures[w], w)
    ensures Enabled(s, BeginStep(s.futures[w], w, cx))
    ensures Gives(s, w, cx, Polled(Next(s, BeginStep(s.futures[w], w, cx)), w, cx), Answered(s, s.futures[w]))
  {
    var t := Next(s, BeginStep(s.futures[w], w, cx));
    if t.futures[w].poll.Checked? {
      var u := Next(t, PollTake(w, cx));
      assert Polled(t, w, cx) == Polled(u, w, cx);
      if u.futures[w].poll.Done? {
        Ended(u, w, cx);
      } else {
        FromTried(u, w, cx);
      }
    } else {
      Ended(t, w, cx);
    }
  }

  /** A poll that nothing disturbs gives that answer. */
  lemma AlonePoll(s: Notify, w: nat, cx: bool)
    requires Inv(s) && w < |s.futures| && s.futures[w].poll.Idle? && (s.futures[w].node.Queued? ==> s.lock.None?)
    ensures Enabled(s, BeginStep(s.futures[w], w, cx))
    ensures Gives(s, w, cx, Polled(Next(s, BeginStep(s.futures[w], w, cx)), w, cx), Answered(s, s.futures[w]))
  {
    AloneSteps(s, w, cx);
  }
}
