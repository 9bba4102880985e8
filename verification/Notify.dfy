/**
 * The notifier of `examples/notify.rs` as a machine over the atomic queue.
 *
 * Any number of `Notified` futures and of `notify_one`, `notify_last` and `notify_waiters`
 * calls are alive at the same time. A step is one atomic access to the queue or to the
 * generation, or a stretch that only the lock holder can observe. `issued`, `consumed` and
 * `coalesced` are accounts of single notifications that the code never reads.
 */
module NotifyModel {
  import opened Options
  import opened Waking
  import AQ = AbstractQueue

  const UNNOTIFIED: nat := 0
  const NOTIFIED: nat := 1

  datatype Note = One | Last | All

  /** Where a future stands: between polls, inside one, or finished.
      `Looping` is the retry of the poll's loop; `MustCancel` is `Ready(true)`. */
  datatype Poll =
    | Idle | Looping | Checked | Tried(view: Option<nat>) | Recheck | MustCancel | Done | Gone

  datatype Future = Future(gen: nat, node: NodeState, note: Option<Note>, poll: Poll, wake: Wake)

  datatype CallPc =
    | Fast | Want | Locked | Working | Picked(w: nat) | Bumped | Draining
    | Unlocking(last: bool) | Wakening(last: bool) | Relocking | Over

  datatype Call = Call(kind: Note, batch: nat, pc: CallPc)

  datatype Notify = Notify(
    q: AQ.Queue<nat>,
    gen: nat,
    futures: seq<Future>,
    calls: seq<Call>,
    lock: Option<nat>,
    panicked: bool,
    issued: nat,
    consumed: nat,
    coalesced: nat)

  datatype Step =
    | Create
    | PollGen(w: nat) | PollTake(w: nat, cx: bool) | PollEnqueue(w: nat) | PollRecheck(w: nat) | PollCancel(w: nat)
    | PollQueued(w: nat, cx: bool) | PollDequeued(w: nat) | Drop(w: nat)
    | Start(kind: Note)
    | CallFast(i: nat) | CallLock(i: nat) | CallRetry(i: nat) | Pick(i: nat) | Serve(i: nat)
    | Bump(i: nat) | Swap(i: nat) | DrainNext(i: nat) | DrainEnd(i: nat)
    | CallUnlock(i: nat) | CallWake(i: nat) | CallRelock(i: nat)

  predicate FutureAt(s: Notify, w: nat, polls: set<Poll>) { w < |s.futures| && s.futures[w].poll in polls }

  predicate CallAt(s: Notify, i: nat, pc: CallPc) { i < |s.calls| && s.calls[i].pc == pc }

  predicate Enabled(s: Notify, step: Step) {
    !s.panicked &&
    match step
    case Create => true
    case PollGen(w) => FutureAt(s, w, {Idle, Looping}) && s.futures[w].node.Unqueued?
    case PollTake(w, _) => FutureAt(s, w, {Checked})
    case PollEnqueue(w) => w < |s.futures| && s.futures[w].poll.Tried?
    case PollRecheck(w) => FutureAt(s, w, {Recheck})
    case PollCancel(w) => FutureAt(s, w, {MustCancel}) && (s.futures[w].node.Queued? ==> s.lock.None?)
    case PollQueued(w, _) => FutureAt(s, w, {Idle}) && s.futures[w].node.Queued? && s.lock.None?
    case PollDequeued(w) => FutureAt(s, w, {Idle}) && s.futures[w].node.Dequeued?
    case Drop(w) => FutureAt(s, w, {Idle, Done}) && (s.futures[w].node.Queued? ==> s.lock.None?)
    case Start(_) => true
    case CallFast(i) => CallAt(s, i, Fast)
    case CallLock(i) => CallAt(s, i, Want) && s.lock.None?
    case CallRetry(i) => CallAt(s, i, Locked) && !s.calls[i].kind.All?
    case Pick(i) => CallAt(s, i, Working)
    case Serve(i) => i < |s.calls| && s.calls[i].pc.Picked?
    case Bump(i) => CallAt(s, i, Locked) && s.calls[i].kind.All?
    case Swap(i) => CallAt(s, i, Bumped)
    case DrainNext(i) => CallAt(s, i, Draining) && i in s.q.lists && s.q.lists[i].rest != []
    case DrainEnd(i) => CallAt(s, i, Draining) && i in s.q.lists && s.q.lists[i].rest == []
    case CallUnlock(i) => i < |s.calls| && s.calls[i].pc.Unlocking?
    case CallWake(i) => i < |s.calls| && s.calls[i].pc.Wakening?
    case CallRelock(i) => CallAt(s, i, Relocking) && s.lock.None?
  }

  function Panic(s: Notify): Notify { s.(panicked := true) }

  function SetFuture(s: Notify, w: nat, f: Future): Notify
    requires w < |s.futures|
  {
    s.(futures := s.futures[w := f])
  }

  function SetCall(s: Notify, i: nat, c: Call): Notify
    requires i < |s.calls|
  {
    s.(calls := s.calls[i := c])
  }

  function SetPc(s: Notify, i: nat, pc: CallPc): Notify
    requires i < |s.calls|
  {
    SetCall(s, i, s.calls[i].(pc := pc))
  }

  function NewCall(s: Notify, kind: Note): Notify {
    s.(calls := s.calls + [Call(kind, 0, if kind.All? then Want else Fast)])
  }

  // ----------------------------------------------------------- the future

  /** A notification handed to a future that has neither completed nor been dropped. */
  function Handed(f: Future): nat {
    if f.node.Dequeued? && (f.note == Some(One) || f.note == Some(Last)) && !f.poll.Done? && !f.poll.Gone? then 1 else 0
  }

  /** `cancel`: leave the queue, or pass the notification on. */
  ghost function CancelNext(s: Notify, w: nat, poll: Poll): Notify
    requires w < |s.futures|
  {
    var f := s.futures[w];
    var t := SetFuture(s, w, f.(poll := poll, node := if f.node.Queued? then Dequeued else f.node));
    match f.node
    case Unqueued => t
    case Queued => t.(q := Do(s.q, AQ.Remove(w, UNNOTIFIED)))
    case Dequeued =>
      if f.note.None? then Panic(s)
      else if f.note.value.All? then t
      else NewCall(t, f.note.value)
  }

  ghost function PollTakeNext(s: Notify, w: nat, cx: bool): Notify
    requires Enabled(s, PollTake(w, cx))
  {
    var f := s.futures[w];
    if s.q.live == [] && s.q.state == NOTIFIED then
      SetFuture(s, w, f.(poll := Done)).(q := Do(s.q, AQ.SetState(UNNOTIFIED)), consumed := s.consumed + 1)
    else
      SetFuture(s, w, f.(poll := Tried(View(s.q)), wake := if cx && f.wake.Unset? then Armed else f.wake))
  }

  ghost function FutureNext(s: Notify, step: Step): Notify
    requires Enabled(s, step)
    requires step.PollGen? || step.PollTake? || step.PollEnqueue? || step.PollRecheck? || step.PollCancel?
      || step.PollQueued? || step.PollDequeued? || step.Drop?
  {
    var w := step.w;
    var f := s.futures[w];
    match step
    case PollGen(_) => SetFuture(s, w, f.(poll := if s.gen != f.gen then Done else Checked))
    case PollTake(_, cx) => PollTakeNext(s, w, cx)
    case PollEnqueue(_) =>
      if View(s.q) != f.poll.view then SetFuture(s, w, f.(poll := Looping))
      else SetFuture(s, w, f.(node := Queued, poll := Recheck)).(q := Do(s.q, AQ.Enqueue(w)))
    case PollRecheck(_) => SetFuture(s, w, f.(poll := if s.gen != f.gen then MustCancel else Idle))
    case PollCancel(_) => CancelNext(s, w, Done)
    case PollQueued(_, cx) =>
      if s.gen != f.gen then
        SetFuture(s, w, f.(node := Dequeued, poll := Done)).(q := Do(s.q, AQ.Remove(w, UNNOTIFIED)))
      else SetFuture(s, w, f.(wake := if cx then Armed else f.wake))
    case PollDequeued(_) => SetFuture(s, w, f.(poll := Done)).(consumed := s.consumed + Handed(f))
    case Drop(_) => if f.poll.Done? then SetFuture(s, w, f.(poll := Gone)) else CancelNext(s, w, Gone)
  }

  // ------------------------------------------------------------ the calls

  /** The state update of `notify_single`. */
  ghost function Attempt(s: Notify, i: nat, onFailure: CallPc, lock: Option<nat>): Notify
    requires i < |s.calls|
  {
    if s.q.live != [] then SetPc(s, i, onFailure)
    else
      SetPc(s, i, Over).(
        q := Do(s.q, AQ.SetState(NOTIFIED)),
        lock := lock,
        coalesced := s.coalesced + (if s.q.state == NOTIFIED then 1 else 0))
  }

  /** A notified future leaves the queue; its waker, if any, is taken. */
  function Notified(f: Future, note: Note, i: nat): Future {
    f.(node := Dequeued, note := Some(note), wake := if f.wake.Armed? then Taken(i) else f.wake)
  }

  function PickNext(s: Notify, i: nat): Notify
    requires Enabled(s, Pick(i))
  {
    if s.q.live == [] then Panic(s)
    else SetPc(s, i, Picked(if s.calls[i].kind.Last? then s.q.live[|s.q.live| - 1] else s.q.live[0]))
  }

  ghost function ServeNext(s: Notify, i: nat): Notify
    requires Enabled(s, Serve(i))
  {
    var w := s.calls[i].pc.w;
    if w >= |s.futures| then Panic(s)
    else
      SetPc(SetFuture(s, w, Notified(s.futures[w], s.calls[i].kind, i)), i, Unlocking(true))
        .(q := Do(s.q, AQ.Remove(w, UNNOTIFIED)))
  }

  ghost function DrainNextNext(s: Notify, i: nat): Notify
    requires Enabled(s, DrainNext(i))
  {
    var c := s.calls[i];
    var rest := s.q.lists[i].rest;
    var w := rest[0];
    if w >= |s.futures| || (s.futures[w].wake.Armed? && c.batch >= BATCH) then Panic(s) else
    var batch := if s.futures[w].wake.Armed? then c.batch + 1 else c.batch;
    var pc := if batch == BATCH && |rest| > 1 then Unlocking(false) else Draining;
    SetCall(SetFuture(s, w, Notified(s.futures[w], All, i)), i, c.(batch := batch, pc := pc))
      .(q := Do(s.q, AQ.Yield(i)))
  }

  /** All wakers taken by call `i` are woken. */
  function WakeAll(fs: seq<Future>, i: nat): (r: seq<Future>)
    ensures |r| == |fs|
    ensures forall w :: 0 <= w < |fs| ==>
      r[w] == if fs[w].wake == Taken(i) then fs[w].(wake := Woken) else fs[w]
  {
    seq(|fs|, w requires 0 <= w < |fs| => if fs[w].wake == Taken(i) then fs[w].(wake := Woken) else fs[w])
  }

  ghost function CallNext(s: Notify, step: Step): Notify
    requires Enabled(s, step)
    requires step.CallFast? || step.CallLock? || step.CallRetry? || step.Pick? || step.Serve? || step.Bump? || step.Swap?
      || step.DrainNext? || step.DrainEnd? || step.CallUnlock? || step.CallWake? || step.CallRelock?
  {
    var i := step.i;
    match step
    case CallFast(_) => Attempt(s, i, Want, s.lock)
    case CallLock(_) => SetPc(s, i, Locked).(lock := Some(i))
    case CallRetry(_) => Attempt(s, i, Working, None)
    case Pick(_) => PickNext(s, i)
    case Serve(_) => ServeNext(s, i)
    case Bump(_) => SetPc(s, i, Bumped).(gen := s.gen + 1)
    case Swap(_) => SetPc(s, i, Draining).(q := Do(s.q, AQ.OpenDrain(i, UNNOTIFIED)))
    case DrainNext(_) => DrainNextNext(s, i)
    case DrainEnd(_) => SetPc(s, i, Unlocking(true)).(q := Do(s.q, AQ.CloseDrain(i)))
    case CallUnlock(_) => SetPc(s, i, Wakening(s.calls[i].pc.last)).(lock := None)
    case CallWake(_) =>
      SetCall(s, i, Call(s.calls[i].kind, 0, if s.calls[i].pc.last then Over else Relocking))
        .(futures := WakeAll(s.futures, i))
    case CallRelock(_) => SetPc(s, i, Draining).(lock := Some(i))
  }

  ghost function Next(s: Notify, step: Step): Notify
    requires Enabled(s, step)
  {
    match step
    case Create => s.(futures := s.futures + [Future(s.gen, Unqueued, None, Idle, Unset)])
    case Start(kind) => NewCall(s, kind).(issued := s.issued + (if kind.All? then 0 else 1))
    case PollGen(_) => FutureNext(s, step)
    case PollTake(_, _) => FutureNext(s, step)
    case PollEnqueue(_) => FutureNext(s, step)
    case PollRecheck(_) => FutureNext(s, step)
    case PollCancel(_) => FutureNext(s, step)
    case PollQueued(_, _) => FutureNext(s, step)
    case PollDequeued(_) => FutureNext(s, step)
    case Drop(_) => FutureNext(s, step)
    case _ => CallNext(s, step)
  }

  /** `Notify::new()`: nobody waits, nothing is stored, nothing was ever asked for. */
  predicate Init(s: Notify) {
    && s.q.live == [] && s.q.state == UNNOTIFIED && s.q.lists == map[]
    && s.gen == 0 && s.futures == [] && s.calls == [] && s.lock.None? && !s.panicked
    && s.issued == 0 && s.consumed == 0 && s.coalesced == 0
  }

  ghost predicate IsRun(s: Notify, steps: seq<Step>)
    decreases |steps|, 0
  {
    steps == [] ||
    (IsRun(s, steps[..|steps| - 1]) && Enabled(Exec(s, steps[..|steps| - 1]), steps[|steps| - 1]))
  }

  ghost function Exec(s: Notify, steps: seq<Step>): Notify
    requires IsRun(s, steps)
    decreases |steps|, 1
  {
    if steps == [] then s
    else Next(Exec(s, steps[..|steps| - 1]), steps[|steps| - 1])
  }
}
