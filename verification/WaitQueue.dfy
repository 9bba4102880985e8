/**
 * The wait queue of `src/wait_queue.rs` as a machine over the atomic queue: plain waits,
 * waits for a condition, single, counted and global notifications, and `close`.
 *
 * The condition that `wait_until` tests is a flag that users set and clear as they like.
 * `served` and `closedEarly` are accounts that the code never reads: some global notification
 * that began with the condition true, and has seen it true since, has passed its decisive
 * point; some `close` began, or went on, while the condition was false.
 */
module WaitQueueModel {
  import opened Options
  import opened Waking
  import AQ = AbstractQueue

  const EMPTY: nat := 0
  const CLOSED: nat := 1

  datatype Kind = Once | Until

  /** `Checked` is past the first test of the condition, `Entering` about to enqueue,
      `Rechecking` about to test again. `Idle` is between polls: `Pending`, or not yet polled. */
  datatype Poll = Idle | Checked | Entering | Rechecking(closed: bool) | Done | Gone

  datatype Waiter = Waiter(kind: Kind, node: NodeState, poll: Poll, wake: Wake)

  datatype Job = First | Final | Many(count: nat) | All | Shut

  datatype CallPc =
    | Fast | Want | Locked | Working | Picked(w: nat) | Swapping | Draining
    | Unlocking(last: bool) | Wakening(last: bool) | Relocking | Over

  /** `late`: the condition was true when the call began, and has been ever since. */
  datatype Call = Call(job: Job, late: bool, batch: nat, pc: CallPc)

  datatype State = State(
    q: AQ.Queue<nat>,
    cond: bool,
    waiters: seq<Waiter>,
    calls: seq<Call>,
    lock: Option<nat>,
    panicked: bool,
    served: bool,
    closedEarly: bool)

  predicate Closed(q: AQ.Queue<nat>) { q.live == [] && q.state != EMPTY }

  predicate Global(job: Job) { job.All? || job.Shut? }

  datatype Step =
    | NewWait(kind: Kind) | Begin(w: nat) | Enter(w: nat) | TryEnqueue(w: nat) | Recheck(w: nat) | Drop(w: nat)
    | SetCondition | ClearCondition | Start(job: Job)
    | CallFast(i: nat) | CallLock(i: nat) | CallRetry(i: nat) | Pick(i: nat) | Serve(i: nat)
    | Swap(i: nat) | DrainNext(i: nat) | DrainEnd(i: nat)
    | CallUnlock(i: nat) | CallWake(i: nat) | CallRelock(i: nat)

  predicate WaiterAt(s: State, w: nat, poll: Poll) { w < |s.waiters| && s.waiters[w].poll == poll }

  predicate CallAt(s: State, i: nat, pc: CallPc) { i < |s.calls| && s.calls[i].pc == pc }

  predicate Enabled(s: State, step: Step) {
    !s.panicked &&
    match step
    case NewWait(_) => true
    case Begin(w) => WaiterAt(s, w, Idle)
    case Enter(w) => WaiterAt(s, w, Checked) && (s.waiters[w].node.Queued? ==> s.lock.None?)
    case TryEnqueue(w) => WaiterAt(s, w, Entering)
    case Recheck(w) => w < |s.waiters| && s.waiters[w].poll.Rechecking?
    case Drop(w) => (WaiterAt(s, w, Idle) || WaiterAt(s, w, Done)) && (s.waiters[w].node.Queued? ==> s.lock.None?)
    case SetCondition => true
    case ClearCondition => true
    case Start(_) => true
    case CallFast(i) => CallAt(s, i, Fast)
    case CallLock(i) => CallAt(s, i, Want) && s.lock.None?
    case CallRetry(i) => CallAt(s, i, Locked)
    case Pick(i) => CallAt(s, i, Working)
    case Serve(i) => i < |s.calls| && s.calls[i].pc.Picked?
    case Swap(i) => CallAt(s, i, Swapping)
    case DrainNext(i) => CallAt(s, i, Draining) && i in s.q.lists && s.q.lists[i].rest != []
    case DrainEnd(i) => CallAt(s, i, Draining) && i in s.q.lists && s.q.lists[i].rest == []
    case CallUnlock(i) => i < |s.calls| && s.calls[i].pc.Unlocking?
    case CallWake(i) => i < |s.calls| && s.calls[i].pc.Wakening?
    case CallRelock(i) => CallAt(s, i, Relocking) && s.lock.None?
  }

  function Panic(s: State): State { s.(panicked := true) }

  function SetWaiter(s: State, w: nat, x: Waiter): State
    requires w < |s.waiters|
  {
    s.(waiters := s.waiters[w := x])
  }

  function SetCall(s: State, i: nat, c: Call): State
    requires i < |s.calls|
  {
    s.(calls := s.calls[i := c])
  }

  function SetPc(s: State, i: nat, pc: CallPc): State
    requires i < |s.calls|
  {
    SetCall(s, i, s.calls[i].(pc := pc))
  }

  // ----------------------------------------------------------- the waiters

  /** What follows `poll_wait`: a plain wait returns, a conditional one tests again. */
  function AfterPoll(x: Waiter, closed: bool): Waiter {
    x.(poll := if x.kind.Until? then Rechecking(closed) else if closed then Done else Idle)
  }

  /** `poll_wait` up to the enqueue; a conditional wait resets a dequeued node. */
  function EnterNext(s: State, w: nat): State
    requires Enabled(s, Enter(w))
  {
    var x := s.waiters[w];
    match x.node
    case Unqueued => SetWaiter(s, w, x.(poll := Entering, wake := Armed))
    case Queued => SetWaiter(s, w, AfterPoll(x.(wake := Armed), false))
    case Dequeued =>
      if x.kind.Until? then SetWaiter(s, w, x.(node := Unqueued, poll := Entering, wake := Armed))
      else SetWaiter(s, w, x.(poll := Done))
  }

  ghost function WaiterNext(s: State, step: Step): State
    requires Enabled(s, step)
    requires step.Begin? || step.Enter? || step.TryEnqueue? || step.Recheck? || step.Drop?
  {
    var w := step.w;
    var x := s.waiters[w];
    match step
    case Begin(_) => SetWaiter(s, w, x.(poll := if x.kind.Until? && s.cond then Done else Checked))
    case Enter(_) => EnterNext(s, w)
    case TryEnqueue(_) =>
      if Closed(s.q) then SetWaiter(s, w, AfterPoll(x, true))
      else SetWaiter(s, w, AfterPoll(x.(node := Queued), false)).(q := Do(s.q, AQ.Enqueue(w)))
    case Recheck(_) =>
      if s.cond then SetWaiter(s, w, x.(poll := Done))
      else if x.poll.closed then Panic(s)
      else SetWaiter(s, w, x.(poll := Idle))
    case Drop(_) =>
      if x.node.Queued? then SetWaiter(s, w, x.(node := Dequeued, poll := Gone)).(q := Do(s.q, AQ.Remove(w, EMPTY)))
      else SetWaiter(s, w, x.(poll := Gone))
  }

  // ------------------------------------------------------------ the calls

  /** The test for an empty queue: nothing to notify; `close` leaves its mark. */
  ghost function FindEmpty(s: State, i: nat, lock: Option<nat>): State
    requires i < |s.calls|
  {
    var c := s.calls[i];
    SetPc(s, i, Over).(
      lock := lock,
      q := if c.job.Shut? then Do(s.q, AQ.SetState(CLOSED)) else s.q,
      served := s.served || (Global(c.job) && c.late))
  }

  /** A notified waiter leaves the line, and its waker goes to the batch of call `i`. */
  function Notified(x: Waiter, i: nat): Waiter { x.(node := Dequeued, wake := Taken(i)) }

  function PickNext(s: State, i: nat): State
    requires Enabled(s, Pick(i))
  {
    var c := s.calls[i];
    if c.job.Many? && (c.job.count == 0 || s.q.live == []) then SetPc(s, i, Unlocking(true))
    else if s.q.live == [] then Panic(s)
    else SetPc(s, i, Picked(if c.job.Final? then s.q.live[|s.q.live| - 1] else s.q.live[0]))
  }

  ghost function ServeNext(s: State, i: nat): State
    requires Enabled(s, Serve(i))
  {
    var c := s.calls[i];
    var w := c.pc.w;
    if w >= |s.waiters| || !s.waiters[w].wake.Armed? || c.batch >= BATCH || (c.job.Many? && c.job.count == 0) then Panic(s)
    else
      var d :=
        if !c.job.Many? then c.(batch := c.batch + 1, pc := Unlocking(true))
        else Call(Many(c.job.count - 1), c.late, c.batch + 1, if c.batch + 1 == BATCH then Unlocking(false) else Working);
      SetCall(SetWaiter(s, w, Notified(s.waiters[w], i)), i, d).(q := Do(s.q, AQ.Remove(w, EMPTY)))
  }

  ghost function SwapNext(s: State, i: nat): State
    requires Enabled(s, Swap(i))
  {
    SetPc(s, i, Draining).(
      q := Do(s.q, AQ.OpenDrain(i, if s.calls[i].job.Shut? then CLOSED else EMPTY)),
      served := s.served || s.calls[i].late)
  }

  ghost function DrainNextNext(s: State, i: nat): State
    requires Enabled(s, DrainNext(i))
  {
    var c := s.calls[i];
    var rest := s.q.lists[i].rest;
    var w := rest[0];
    if w >= |s.waiters| || !s.waiters[w].wake.Armed? || c.batch >= BATCH then Panic(s)
    else
      var pc := if c.batch + 1 == BATCH && |rest| > 1 then Unlocking(false) else Draining;
      SetCall(SetWaiter(s, w, Notified(s.waiters[w], i)), i, c.(batch := c.batch + 1, pc := pc)).(q := Do(s.q, AQ.Yield(i)))
  }

  /** All wakers taken by call `i` are woken. */
  function WakeAll(ws: seq<Waiter>, i: nat): (r: seq<Waiter>)
    ensures |r| == |ws|
    ensures forall w :: 0 <= w < |ws| ==>
      r[w] == if ws[w].wake == Taken(i) then ws[w].(wake := Woken) else ws[w]
  {
    seq(|ws|, w requires 0 <= w < |ws| => if ws[w].wake == Taken(i) then ws[w].(wake := Woken) else ws[w])
  }

  ghost function CallNext(s: State, step: Step): State
    requires Enabled(s, step)
    requires step.CallFast? || step.CallLock? || step.CallRetry? || step.Pick? || step.Serve? || step.Swap?
      || step.DrainNext? || step.DrainEnd? || step.CallUnlock? || step.CallWake? || step.CallRelock?
  {
    var i := step.i;
    var c := s.calls[i];
    match step
    case CallFast(_) => if s.q.live == [] then FindEmpty(s, i, s.lock) else SetPc(s, i, Want)
    case CallLock(_) => SetPc(s, i, Locked).(lock := Some(i))
    case CallRetry(_) =>
      if s.q.live == [] then FindEmpty(s, i, None) else SetPc(s, i, if Global(c.job) then Swapping else Working)
    case Pick(_) => PickNext(s, i)
    case Serve(_) => ServeNext(s, i)
    case Swap(_) => SwapNext(s, i)
    case DrainNext(_) => DrainNextNext(s, i)
    case DrainEnd(_) => SetPc(s, i, Unlocking(true)).(q := Do(s.q, AQ.CloseDrain(i)))
    case CallUnlock(_) => SetPc(s, i, Wakening(c.pc.last)).(lock := None)
    case CallWake(_) =>
      var pc := if c.pc.last then Over else if Global(c.job) then Relocking else Fast;
      SetCall(s, i, c.(batch := 0, pc := pc)).(waiters := WakeAll(s.waiters, i))
    case CallRelock(_) => SetPc(s, i, Draining).(lock := Some(i))
  }

  /** The condition falls: from now on no call has seen it true throughout. */
  function Cleared(s: State): State {
    s.(cond := false, served := false, calls := NoneLate(s.calls),
       closedEarly := s.closedEarly || Closed(s.q) || exists i :: 0 <= i < |s.calls| && s.calls[i].job.Shut?)
  }

  function NoneLate(cs: seq<Call>): (r: seq<Call>)
    ensures |r| == |cs| && forall i :: 0 <= i < |cs| ==> r[i] == cs[i].(late := false)
  {
    seq(|cs|, i requires 0 <= i < |cs| => cs[i].(late := false))
  }

  ghost function Next(s: State, step: Step): State
    requires Enabled(s, step)
  {
    match step
    case NewWait(kind) => s.(waiters := s.waiters + [Waiter(kind, Unqueued, Idle, Unset)])
    case SetCondition => s.(cond := true)
    case ClearCondition => Cleared(s)
    case Start(job) =>
      s.(calls := s.calls + [Call(job, s.cond, 0, Fast)], closedEarly := s.closedEarly || (job.Shut? && !s.cond))
    case Begin(_) => WaiterNext(s, step)
    case Enter(_) => WaiterNext(s, step)
    case TryEnqueue(_) => WaiterNext(s, step)
    case Recheck(_) => WaiterNext(s, step)
    case Drop(_) => WaiterNext(s, step)
    case _ => CallNext(s, step)
  }

  /** `WaitQueue::new()`. */
  predicate Init(s: State) {
    && s.q.live == [] && s.q.state == EMPTY && s.q.lists == map[]
    && !s.cond && s.waiters == [] && s.calls == [] && s.lock.None? && !s.panicked && !s.served && !s.closedEarly
  }

  ghost predicate IsRun(s: State, steps: seq<Step>)
    decreases |steps|, 0
  {
    steps == [] ||
    (IsRun(s, steps[..|steps| - 1]) && Enabled(Exec(s, steps[..|steps| - 1]), steps[|steps| - 1]))
  }

  ghost function Exec(s: State, steps: seq<Step>): State
    requires IsRun(s, steps)
    decreases |steps|, 1
  {
    if steps == [] then s
    else Next(Exec(s, steps[..|steps| - 1]), steps[|steps| - 1])
  }
}
