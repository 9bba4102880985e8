/**
 * The semaphore of `examples/semaphore.rs` as a machine over the atomic queue.
 *
 * Any number of acquire futures, `add_permits`/`close` calls and permits are alive at the
 * same time; a step is one atomic access to the queue, or a stretch of code that only the
 * lock holder can observe. The arithmetic is that of the source: the state word holds
 * `permits << 1 | closed`, a request is a `u32`, and the cancel path installs the unshifted
 * count. `leaked` is an account, never read by the code, of permits that this loses.
 */
module SemaphoreModel {
  import opened Options
  import opened Waking
  import AQ = AbstractQueue

  const U32: nat := 0x1_0000_0000
  const U63: nat := 0x8000_0000_0000_0000
  const U64: nat := 0x1_0000_0000_0000_0000
  const MAX_PERMITS: nat := 0x1FFF_FFFF_FFFF_FFFF

  // ------------------------------------------------------------- arithmetic

  /** `None` is the panic "permits overflow". */
  function CheckAdd(state: nat, add: nat): Option<nat> {
    if state / 2 + add <= MAX_PERMITS then Some(state + 2 * add) else None
  }

  function CheckAcquire(state: nat, acquire: nat): Option<nat> {
    if state % 2 == 1 || state < 2 * acquire then None else Some(state - 2 * acquire)
  }

  /** `state as u32 >> PERMIT_SHIFT`: truncated first, shifted after. */
  function Grabbed(view: Option<nat>): nat {
    if view.None? then 0 else (view.value % U32) / 2
  }

  /** The state that `permits << PERMIT_SHIFT` installs. The shift drops the top bit; `None` is
      the panic "queue state overflow" on the way into the tail word. */
  function StateWord(permits: nat): Option<nat> {
    var word := (2 * permits) % U64;
    if word < U63 then Some(word) else None
  }

  function WithClosed(state: nat): nat { if state % 2 == 1 then state else state + 1 }

  // ------------------------------------------------------------------ state

  /** Inside `poll`, between filling in the waiter and the conditional enqueue. */
  datatype Poll = Rest | Enqueuing(view: Option<nat>) | Gone

  datatype Waiter = Waiter(permits: nat, remaining: nat, node: NodeState, poll: Poll, wake: Wake)

  datatype Kind = AddPermits | CloseAll

  datatype CallPc = Fast | Want | Locked | Working | Unlocking(last: bool) | Waking(last: bool) | Relocking | Over

  datatype Call = Call(kind: Kind, amount: nat, batch: nat, pc: CallPc)

  datatype Sem = Sem(
    q: AQ.Queue<nat>,
    waiters: seq<Waiter>,
    calls: seq<Call>,
    held: seq<nat>,
    lock: Option<nat>,
    panicked: bool,
    issued: int,
    leaked: int)

  const GONE := Waiter(0, 0, Unqueued, Gone, Woken)

  predicate Closed(q: AQ.Queue<nat>) { q.live == [] && q.state % 2 == 1 }

  // ------------------------------------------------------------------ steps

  datatype Step =
    | TryAcquire(p: nat) | NewAcquire(p: nat)
    | PollTry(w: nat) | PollEnqueue(w: nat) | PollQueued(w: nat) | PollDequeued(w: nat) | Cancel(w: nat)
    | Add(n: nat) | Close | Forget(n: nat)
    | CallFast(i: nat) | CallLock(i: nat) | CallRetry(i: nat)
    | Grant(i: nat) | DrainNext(i: nat) | DrainEnd(i: nat)
    | CallUnlock(i: nat) | CallWake(i: nat) | CallRelock(i: nat)
    | DropPermit(i: nat) | ForgetPermit(i: nat) | Merge(i: nat, j: nat) | Split(i: nat, n: nat)

  predicate CallAt(s: Sem, i: nat, pc: CallPc) { i < |s.calls| && s.calls[i].pc == pc }

  predicate Enabled(s: Sem, step: Step) {
    !s.panicked &&
    match step
    case TryAcquire(p) => p < U32 && s.q.live == [] && CheckAcquire(s.q.state, p).Some?
    case NewAcquire(p) => p < U32
    case PollTry(w) => w < |s.waiters| && s.waiters[w].poll.Rest? && s.waiters[w].node.Unqueued?
    case PollEnqueue(w) => w < |s.waiters| && s.waiters[w].poll.Enqueuing?
    case PollQueued(w) => w < |s.waiters| && s.waiters[w].poll.Rest? && s.waiters[w].node.Queued? && s.lock.None?
    case PollDequeued(w) => w < |s.waiters| && s.waiters[w].poll.Rest? && s.waiters[w].node.Dequeued?
    case Cancel(w) =>
      w < |s.waiters| && s.waiters[w].poll.Rest? && (s.waiters[w].node.Queued? ==> s.lock.None?)
    case Add(n) => n < U64
    case Close => true
    case Forget(n) => s.q.live == [] && n <= s.q.state / 2
    case CallFast(i) => CallAt(s, i, Fast)
    case CallLock(i) => CallAt(s, i, Want) && s.lock.None?
    case CallRetry(i) => CallAt(s, i, Locked)
    case Grant(i) => CallAt(s, i, Working) && s.calls[i].kind.AddPermits?
    case DrainNext(i) =>
      CallAt(s, i, Working) && s.calls[i].kind.CloseAll? && i in s.q.lists && s.q.lists[i].rest != []
    case DrainEnd(i) =>
      CallAt(s, i, Working) && s.calls[i].kind.CloseAll? && i in s.q.lists && s.q.lists[i].rest == []
    case CallUnlock(i) => i < |s.calls| && s.calls[i].pc.Unlocking?
    case CallWake(i) => i < |s.calls| && s.calls[i].pc.Waking?
    case CallRelock(i) => CallAt(s, i, Relocking) && s.lock.None?
    case DropPermit(i) => i < |s.held|
    case ForgetPermit(i) => i < |s.held|
    case Merge(i, j) => i < |s.held| && j < |s.held| && i != j
    case Split(i, n) => i < |s.held| && n <= s.held[i]
  }

  function Panic(s: Sem): Sem { s.(panicked := true) }

  function SetPc(s: Sem, i: nat, pc: CallPc): Sem
    requires i < |s.calls|
  {
    s.(calls := s.calls[i := s.calls[i].(pc := pc)])
  }

  /** A new `add_permits(n)`: nothing to do for zero. */
  function NewCall(s: Sem, n: nat): Sem {
    s.(calls := s.calls + [Call(AddPermits, n, 0, if n == 0 then Over else Fast)])
  }

  // The future (examples/semaphore.rs:125-147, 231-292)

  /** The unqueued branch: take the permits, fail, or prepare to enqueue. */
  ghost function PollTryNext(s: Sem, w: nat): Sem
    requires Enabled(s, PollTry(w))
  {
    var x := s.waiters[w];
    var v := View(s.q);
    if v.Some? && CheckAcquire(v.value, x.permits).Some? then
      s.(q := Do(s.q, AQ.SetState(CheckAcquire(v.value, x.permits).value)),
         waiters := s.waiters[w := x.(permits := 0, remaining := 0)],
         held := s.held + [x.permits])
    else if Closed(s.q) then s
    else if x.permits < Grabbed(v) then Panic(s)
    else s.(waiters := s.waiters[w := x.(remaining := x.permits - Grabbed(v), poll := Enqueuing(v), wake := Armed)])
  }

  ghost function PollEnqueueNext(s: Sem, w: nat): Sem
    requires Enabled(s, PollEnqueue(w))
  {
    var x := s.waiters[w];
    if View(s.q) != x.poll.view then s.(waiters := s.waiters[w := x.(poll := Rest)])
    else
      s.(q := Do(s.q, AQ.Enqueue(w)),
         waiters := s.waiters[w := x.(node := Queued, poll := Rest)],
         leaked := s.leaked + (if x.poll.view.Some? then x.poll.view.value / 2 - Grabbed(x.poll.view) else 0))
  }

  function PollDequeuedNext(s: Sem, w: nat): Sem
    requires Enabled(s, PollDequeued(w))
  {
    var x := s.waiters[w];
    if Closed(s.q) then s
    else s.(waiters := s.waiters[w := x.(permits := 0)], held := s.held + [x.permits])
  }

  /** Dropping the future. A sole queued waiter leaves its permits behind as the raw state. */
  ghost function CancelNext(s: Sem, w: nat): Sem
    requires Enabled(s, Cancel(w))
  {
    var x := s.waiters[w];
    var t := s.(waiters := s.waiters[w := GONE]);
    var acquired := x.permits - x.remaining;
    if acquired < 0 then Panic(s)
    else if x.node.Unqueued? then t
    else if x.node.Dequeued? then NewCall(t, acquired)
    else
      var u := t.(q := Do(s.q, AQ.Remove(w, acquired)));
      if s.q.live != [] && w == s.q.live[|s.q.live| - 1] then
        u.(leaked := s.leaked + acquired - (if s.q.live == [w] then acquired / 2 else 0))
      else if Closed(u.q) then NewCall(u, acquired)
      else if acquired == 0 then u
      else u.(calls := u.calls + [Call(AddPermits, acquired, 0, Working)], lock := Some(|u.calls|))
  }

  // The calls (examples/semaphore.rs:56-106, 177-189)

  ghost function Attempt(s: Sem, i: nat, onFailure: CallPc, lock: Option<nat>): Sem
    requires i < |s.calls|
  {
    if s.q.live != [] then SetPc(s, i, onFailure)
    else if s.calls[i].kind.CloseAll? then
      s.(q := Do(s.q, AQ.SetState(WithClosed(s.q.state))), lock := lock, calls := s.calls[i := s.calls[i].(pc := Over)])
    else if CheckAdd(s.q.state, s.calls[i].amount).None? then Panic(s)
    else
      s.(q := Do(s.q, AQ.SetState(CheckAdd(s.q.state, s.calls[i].amount).value)), lock := lock,
         calls := s.calls[i := s.calls[i].(amount := 0, pc := Over)])
  }

  ghost function CallRetryNext(s: Sem, i: nat): Sem
    requires Enabled(s, CallRetry(i))
  {
    if s.q.live != [] && s.calls[i].kind.CloseAll? then
      SetPc(s, i, Working).(q := Do(s.q, AQ.OpenDrain(i, 1)))
    else Attempt(s, i, Working, None)
  }

  /** One turn of the granting loop on the first waiter. */
  ghost function GrantNext(s: Sem, i: nat): Sem
    requires Enabled(s, Grant(i))
  {
    var c := s.calls[i];
    if s.q.live == [] || s.q.live[0] >= |s.waiters| then Panic(s) else
    var w := s.q.live[0];
    var x := s.waiters[w];
    if x.remaining > c.amount then
      s.(waiters := s.waiters[w := x.(remaining := x.remaining - c.amount)],
         calls := s.calls[i := c.(amount := 0, pc := Unlocking(true))])
    else if !x.wake.Armed? || c.batch >= BATCH then Panic(s)
    else
      var left := c.amount - x.remaining;
      var emptied := s.q.live == [w];
      var word := StateWord(left);
      if word.None? then Panic(s) else
      var pc :=
        if emptied || left == 0 then Unlocking(true)
        else if c.batch + 1 == BATCH then Unlocking(false)
        else Working;
      s.(q := Do(s.q, AQ.Remove(w, word.value)),
         waiters := s.waiters[w := x.(remaining := 0, node := Dequeued, wake := Taken(i))],
         calls := s.calls[i := Call(AddPermits, if emptied then 0 else left, c.batch + 1, pc)],
         leaked := s.leaked + (if emptied then left - word.value / 2 else 0))
  }

  ghost function DrainNextNext(s: Sem, i: nat): Sem
    requires Enabled(s, DrainNext(i))
  {
    var c := s.calls[i];
    var rest := s.q.lists[i].rest;
    var w := rest[0];
    if w >= |s.waiters| || !s.waiters[w].wake.Armed? || c.batch >= BATCH then Panic(s) else
    var pc := if c.batch + 1 == BATCH && |rest| > 1 then Unlocking(false) else Working;
    s.(q := Do(s.q, AQ.Yield(i)),
       waiters := s.waiters[w := s.waiters[w].(node := Dequeued, wake := Taken(i))],
       calls := s.calls[i := c.(batch := c.batch + 1, pc := pc)])
  }

  /** All wakers taken by call `i` are woken. */
  function WakeAll(ws: seq<Waiter>, i: nat): (r: seq<Waiter>)
    ensures |r| == |ws|
    ensures forall w :: 0 <= w < |ws| ==>
      r[w] == if ws[w].wake == Taken(i) then ws[w].(wake := Woken) else ws[w]
  {
    seq(|ws|, w requires 0 <= w < |ws| => if ws[w].wake == Taken(i) then ws[w].(wake := Woken) else ws[w])
  }

  ghost function CallNext(s: Sem, step: Step): Sem
    requires Enabled(s, step)
    requires step.CallFast? || step.CallLock? || step.CallRetry? || step.Grant? || step.DrainNext? || step.DrainEnd?
      || step.CallUnlock? || step.CallWake? || step.CallRelock?
  {
    var i := step.i;
    match step
    case CallFast(_) => Attempt(s, i, Want, s.lock)
    case CallLock(_) => SetPc(s, i, Locked).(lock := Some(i))
    case CallRetry(_) => CallRetryNext(s, i)
    case Grant(_) => GrantNext(s, i)
    case DrainNext(_) => DrainNextNext(s, i)
    case DrainEnd(_) => SetPc(s, i, Unlocking(true)).(q := Do(s.q, AQ.CloseDrain(i)))
    case CallUnlock(_) => SetPc(s, i, Waking(s.calls[i].pc.last)).(lock := None)
    case CallWake(_) =>
      var pc := if s.calls[i].pc.last then Over else if s.calls[i].kind.AddPermits? then Fast else Relocking;
      s.(waiters := WakeAll(s.waiters, i), calls := s.calls[i := s.calls[i].(batch := 0, pc := pc)])
    case CallRelock(_) => SetPc(s, i, Working).(lock := Some(i))
  }

  ghost function Next(s: Sem, step: Step): Sem
    requires Enabled(s, step)
  {
    match step
    case TryAcquire(p) =>
      s.(q := Do(s.q, AQ.SetState(CheckAcquire(s.q.state, p).value)), held := s.held + [p])
    case NewAcquire(p) => s.(waiters := s.waiters + [Waiter(p, 0, Unqueued, Rest, Unset)])
    case PollTry(w) => PollTryNext(s, w)
    case PollEnqueue(w) => PollEnqueueNext(s, w)
    case PollQueued(w) => if !Closed(s.q) && !s.waiters[w].wake.Armed? then Panic(s) else s
    case PollDequeued(w) => PollDequeuedNext(s, w)
    case Cancel(w) => CancelNext(s, w)
    case Add(n) => NewCall(s, n).(issued := s.issued + n)
    case Close => s.(calls := s.calls + [Call(CloseAll, 0, 0, Fast)])
    case Forget(n) => s.(q := Do(s.q, AQ.SetState(s.q.state - 2 * n)), issued := s.issued - n)
    case DropPermit(i) => NewCall(s, s.held[i]).(held := s.held[i := 0])
    case ForgetPermit(i) => s.(held := s.held[i := 0], issued := s.issued - s.held[i])
    case Merge(i, j) =>
      if s.held[i] + s.held[j] >= U32 then Panic(s)
      else s.(held := s.held[i := s.held[i] + s.held[j]][j := 0])
    case Split(i, n) => s.(held := s.held[i := s.held[i] - n] + [n])
    case _ => CallNext(s, step)
  }

  /** `Semaphore::new(permits)`. */
  function Init(permits: nat): Sem
    requires permits <= MAX_PERMITS
  {
    Sem(AQ.Queue([], 2 * permits, map[]), [], [], [], None, false, permits, 0)
  }

  ghost predicate IsRun(s: Sem, steps: seq<Step>)
    decreases |steps|, 0
  {
    steps == [] ||
    (IsRun(s, steps[..|steps| - 1]) && Enabled(Exec(s, steps[..|steps| - 1]), steps[|steps| - 1]))
  }

  ghost function Exec(s: Sem, steps: seq<Step>): Sem
    requires IsRun(s, steps)
    decreases |steps|, 1
  {
    if steps == [] then s
    else Next(Exec(s, steps[..|steps| - 1]), steps[|steps| - 1])
  }
}
