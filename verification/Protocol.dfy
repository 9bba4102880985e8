/**
 * The queue protocol of `src/queue.rs`, `src/node.rs` and `src/queue/drain.rs` as an
 * interleaved transition system over shared memory.
 *
 * Any number of enqueuers run beside at most one lock holder. Every step performs at
 * most one access to memory that another thread can see, in the order of the source;
 * steps interleave freely (sequential consistency). `Crash` stands for dereferencing a
 * null or marker pointer and for the debug assertion in `remove_with_prev`.
 */
module Protocol {
  import opened Options

  /** The address of a link: an embedded node, or the sentinel of a running drain. */
  datatype Id = Node(i: nat) | Sentinel(z: nat)

  /** What a `prev` field holds: 0, 1, 2 or an address. */
  datatype Prev = Unqueued | Dequeued | HeadMarker | At(id: Id)

  /** The address of an atomic pointer that publishes a successor. */
  datatype Slot = HeadSlot | NextOf(id: Id)

  /** What such a pointer holds; `Parked` is the marker of the x86_64 handshake. */
  datatype Ptr = Null | Parked | To(id: Id)

  /** The tail word, decoded. */
  datatype Tail = Empty(state: nat) | Last(id: Id)

  /** How publishers wake a waiting remover: swap with a marker (x86_64), the
      `parked_next` store/load pattern (elsewhere), or a parker that never blocks. */
  datatype Platform = Swap | Dekker | Spin

  /** Where the owner of a node is inside `enqueue`. */
  datatype Enq =
    | Idle
    | Loaded(t: Tail)
    | Armed(t: Tail)
    | Linking(slot: Slot)
    | Checking(slot: Slot)
    | Unparking

  /** Where the lock holder is inside `get_next`. */
  datatype Wait = First | Asleep | Recheck | Found(v: Ptr)

  /** What the lock holder does with the pointer that `get_next` returns. */
  datatype After =
    | ForDequeue
    | ForPop(n: Id, p: Prev, st: nat)
    | ForRemove(n: Id, p: Prev)
    | ForDrain(st: nat)
    | ForYield(z: nat, n: Id)

  /** The program counter of the lock holder; `Free` when there is none. */
  datatype Holder =
    | Free
    | Held
    | Getting(slot: Slot, w: Wait, k: After)
    | HeadFound(n: Id)
    | TailFound(n: Id)
    | ReadingNext(n: Id, p: Prev, st: nat)
    | Clearing(n: Id, p: Prev, st: nat)
    | SwingingTail(n: Id, p: Prev, st: nat)
    | Relinking(n: Id, p: Prev, x: Id)
    | Splicing(n: Id, p: Prev, x: Id)
    | Finishing(n: Id, emptied: bool)
    | ClearingHead(h: Id, st: nat)
    | SwappingTail(h: Id, st: nat)
    | Draining(z: nat)
    | Advancing(z: nat, n: Id, v: Ptr)
    | FinishingYield(z: nat, n: Id)
    | LinkingHead(z: nat, h: Id)
    | LinkingTail(z: nat)
    | Releasing(z: nat)
    | Reacquired(z: nat)
    | Crash

  datatype Config = Config(
    platform: Platform,
    tail: Tail,
    mem: map<Slot, Ptr>,
    prev: map<Id, Prev>,
    enq: map<Id, Enq>,
    parkedNext: Option<Slot>,
    token: bool,
    drains: set<nat>,
    pc: Holder)

  // Memory starts zeroed: a cell never written reads as null or idle.

  function MemAt(m: map<Slot, Ptr>, s: Slot): Ptr { if s in m then m[s] else Null }

  function PrevAt(m: map<Id, Prev>, n: Id): Prev { if n in m then m[n] else Unqueued }

  function EnqAt(m: map<Id, Enq>, n: Id): Enq { if n in m then m[n] else Idle }

  predicate IsQueued(p: Prev) { p.HeadMarker? || p.At? }

  function SlotOf(p: Prev): Slot { if p.At? then NextOf(p.id) else HeadSlot }

  function PrevOf(s: Slot): Prev { if s.HeadSlot? then HeadMarker else At(s.id) }

  /** The slot in which the next enqueuer will publish itself. */
  function TailSlot(t: Tail): Slot { if t.Empty? then HeadSlot else NextOf(t.id) }

  // -------------------------------------------------------------------- steps

  /** The owner of a node: `enqueue` (src/queue.rs:266-303) and `reset` (src/node.rs:275-283). */
  datatype OwnAct = LoadTail | Reject | Arm | CasOk | CasFail | Publish | CheckParked | Unpark | Reset

  /** The lock, and the operations of a guard (src/queue.rs:388-398, 488-490, 535-537). */
  datatype GuardAct = Lock | Unlock | Dequeue | Pop | Requeue

  /** `get_next` (src/queue.rs:339-385). */
  datatype GetAct = Load | Register | Park | LoadAgain | Forget

  /** The three ways to start a removal, and `remove_with_prev` (src/queue.rs:413-458). */
  datatype RemoveAct =
    | RemoveHead(st: nat) | RemoveTail(st: nat) | RemoveSelf(n: Id, st: nat)
    | ReadNext | ClearPrev | SwingTail | Relink | Splice | Finish

  /** The drain (src/queue/drain.rs:24-112, 153-165). */
  datatype DrainAct =
    | Open(z: nat, st: nat) | ClearHead | SwapTail(z: nat)
    | Yield | Advance | FinishYield
    | BeginUnlocked | LinkHead | LinkTail | Release | Relock(z: nat) | AfterRelock | Close

  /** `UpdateState` is the successful exchange of a lock-free state update; the loads, the
      function and the failing exchanges around it are in `StateUpdate`. */
  datatype Step =
    | Own(n: Id, own: OwnAct)
    | UpdateState(s: nat)
    | Guard(guard: GuardAct)
    | Get(get: GetAct)
    | Rem(rem: RemoveAct)
    | Drain(drain: DrainAct)

  predicate OwnEnabled(c: Config, n: Id, a: OwnAct) {
    match a
    case LoadTail => n.Node? && EnqAt(c.enq, n).Idle? && PrevAt(c.prev, n).Unqueued?
    case Reject => EnqAt(c.enq, n).Loaded?
    case Arm => EnqAt(c.enq, n).Loaded?
    case CasOk => EnqAt(c.enq, n) == Armed(c.tail)
    case CasFail => EnqAt(c.enq, n).Armed?
    case Publish => EnqAt(c.enq, n).Linking?
    case CheckParked => EnqAt(c.enq, n).Checking?
    case Unpark => EnqAt(c.enq, n).Unparking?
    case Reset => n.Node? && EnqAt(c.enq, n).Idle? && PrevAt(c.prev, n).Dequeued?
  }

  function OwnNext(c: Config, n: Id, a: OwnAct): Config
    requires OwnEnabled(c, n, a)
  {
    match a
    case LoadTail => c.(enq := c.enq[n := Loaded(c.tail)])
    case Reject => c.(enq := c.enq[n := Idle], prev := c.prev[n := Unqueued])
    case Arm =>
      var t := EnqAt(c.enq, n).t;
      c.(enq := c.enq[n := Armed(t)], prev := c.prev[n := PrevOf(TailSlot(t))])
    case CasOk => c.(enq := c.enq[n := Linking(TailSlot(c.tail))], tail := Last(n))
    case CasFail => c.(enq := c.enq[n := Loaded(c.tail)])
    case Publish =>
      var s := EnqAt(c.enq, n).slot;
      var after :=
        match c.platform
        case Swap => if MemAt(c.mem, s) == Null then Idle else Unparking
        case Dekker => Checking(s)
        case Spin => Idle;
      c.(mem := c.mem[s := To(n)], enq := c.enq[n := after])
    case CheckParked =>
      c.(enq := c.enq[n := if c.parkedNext == Some(EnqAt(c.enq, n).slot) then Unparking else Idle])
    case Unpark => c.(token := true, enq := c.enq[n := Idle])
    case Reset => c.(prev := c.prev[n := Unqueued], mem := c.mem[NextOf(n) := Null])
  }

  predicate GuardEnabled(c: Config, a: GuardAct) {
    match a
    case Lock => c.pc.Free?
    case Unlock => c.pc.Held?
    case Dequeue => c.pc.Held? && c.tail.Last?
    case Pop => c.pc.Held? && c.tail.Last?
    case Requeue => c.pc.HeadFound? || c.pc.TailFound?
  }

  function GuardNext(c: Config, a: GuardAct): Config
    requires GuardEnabled(c, a)
  {
    match a
    case Lock => c.(pc := Held)
    case Unlock => c.(pc := Free)
    case Dequeue => c.(pc := Getting(HeadSlot, First, ForDequeue))
    case Pop => c.(pc := TailFound(c.tail.id))
    case Requeue => c.(pc := Held)
  }

  /** The continuation of `get_next` once the slot has read as `x`. */
  function Resume(k: After, x: Ptr): Holder {
    if !x.To? then Crash else
    match k
    case ForDequeue => HeadFound(x.id)
    case ForPop(n, p, st) => if x.id == n then ReadingNext(n, p, st) else Crash
    case ForRemove(n, p) => Relinking(n, p, x.id)
    case ForDrain(st) => ClearingHead(x.id, st)
    case ForYield(z, n) => Advancing(z, n, x)
  }

  predicate GetEnabled(c: Config, a: GetAct) {
    c.pc.Getting? &&
    match a
    case Load => c.pc.w.First?
    case Register => c.pc.w.First? && !c.platform.Spin?
    case Park => c.pc.w.Asleep? && c.token
    case LoadAgain => c.pc.w.Recheck?
    case Forget => c.pc.w.Found?
  }

  function GetNext(c: Config, a: GetAct): Config
    requires GetEnabled(c, a)
  {
    var Getting(s, w, k) := c.pc;
    var v := MemAt(c.mem, s);
    match a
    case Load => if v == Null then c else c.(pc := Resume(k, v))
    case Register =>
      if c.platform.Dekker? then c.(parkedNext := Some(s), pc := Getting(s, Recheck, k))
      else if v == Null then c.(mem := c.mem[s := Parked], pc := Getting(s, Asleep, k))
      else c.(pc := Resume(k, v))
    case Park => c.(token := false, pc := Getting(s, Recheck, k))
    case LoadAgain =>
      if c.platform.Dekker? then
        if v == Null then c.(pc := Getting(s, Asleep, k)) else c.(pc := Getting(s, Found(v), k))
      else
        if v == Parked then c.(pc := Getting(s, Asleep, k)) else c.(pc := Resume(k, v))
    case Forget => c.(parkedNext := None, pc := Resume(k, w.v))
  }

  predicate RemoveEnabled(c: Config, a: RemoveAct) {
    match a
    case RemoveHead(_) => c.pc.HeadFound?
    case RemoveTail(_) => c.pc.TailFound?
    case RemoveSelf(n, _) => c.pc.Held? && n.Node? && EnqAt(c.enq, n).Idle? && IsQueued(PrevAt(c.prev, n))
    case ReadNext => c.pc.ReadingNext?
    case ClearPrev => c.pc.Clearing?
    case SwingTail => c.pc.SwingingTail?
    case Relink => c.pc.Relinking?
    case Splice => c.pc.Splicing?
    case Finish => c.pc.Finishing?
  }

  function RemoveNext(c: Config, a: RemoveAct): Config
    requires RemoveEnabled(c, a)
  {
    match a
    case RemoveHead(st) => c.(pc := ReadingNext(c.pc.n, HeadMarker, st))
    case RemoveTail(st) =>
      var p := PrevAt(c.prev, c.pc.n);
      if IsQueued(p) then c.(pc := Getting(SlotOf(p), First, ForPop(c.pc.n, p, st))) else c.(pc := Crash)
    case RemoveSelf(n, st) => c.(pc := ReadingNext(n, PrevAt(c.prev, n), st))
    case ReadNext =>
      var ReadingNext(n, p, st) := c.pc;
      var v := MemAt(c.mem, NextOf(n));
      c.(pc := if v == Null then Clearing(n, p, st) else if v.To? then Relinking(n, p, v.id) else Crash)
    case ClearPrev =>
      var Clearing(n, p, st) := c.pc;
      if IsQueued(p) then c.(mem := c.mem[SlotOf(p) := Null], pc := SwingingTail(n, p, st)) else c.(pc := Crash)
    case SwingTail =>
      var SwingingTail(n, p, st) := c.pc;
      if c.tail != Last(n) then c.(pc := Getting(NextOf(n), First, ForRemove(n, p)))
      else c.(tail := if p.At? then Last(p.id) else Empty(st), pc := Finishing(n, true))
    case Relink =>
      var Relinking(n, p, x) := c.pc;
      c.(prev := c.prev[x := p], pc := Splicing(n, p, x))
    case Splice =>
      var Splicing(n, p, x) := c.pc;
      if IsQueued(p) then c.(mem := c.mem[SlotOf(p) := To(x)], pc := Finishing(n, false)) else c.(pc := Crash)
    case Finish => c.(prev := c.prev[c.pc.n := Dequeued], pc := Held)
  }

  predicate DrainEnabled(c: Config, a: DrainAct) {
    match a
    case Open(z, _) => c.pc.Held? && z !in c.drains
    case ClearHead => c.pc.ClearingHead?
    case SwapTail(z) => c.pc.SwappingTail? && z !in c.drains
    case Yield => c.pc.Draining? && MemAt(c.mem, NextOf(Sentinel(c.pc.z))) != Null
    case Advance => c.pc.Advancing?
    case FinishYield => c.pc.FinishingYield?
    case BeginUnlocked => c.pc.Draining?
    case LinkHead => c.pc.LinkingHead?
    case LinkTail => c.pc.LinkingTail?
    case Release => c.pc.Releasing?
    case Relock(z) => c.pc.Free? && z in c.drains
    case AfterRelock => c.pc.Reacquired?
    case Close => c.pc.Draining? && MemAt(c.mem, NextOf(Sentinel(c.pc.z))) == Null
  }

  function DrainNext(c: Config, a: DrainAct): Config
    requires DrainEnabled(c, a)
  {
    match a
    case Open(z, st) =>
      if c.tail.Last? then c.(pc := Getting(HeadSlot, First, ForDrain(st)))
      else c.(mem := c.mem[NextOf(Sentinel(z)) := Null], drains := c.drains + {z}, pc := Draining(z))
    case ClearHead => c.(mem := c.mem[HeadSlot := Null], pc := SwappingTail(c.pc.h, c.pc.st))
    case SwapTail(z) =>
      if c.tail.Last? then
        c.(tail := Empty(c.pc.st),
           mem := c.mem[NextOf(Sentinel(z)) := To(c.pc.h)],
           prev := c.prev[Sentinel(z) := At(c.tail.id)],
           drains := c.drains + {z},
           pc := Draining(z))
      else c.(pc := Crash)
    case Yield =>
      var z := c.pc.z;
      var v := MemAt(c.mem, NextOf(Sentinel(z)));
      if !v.To? then c.(pc := Crash)
      else if PrevAt(c.prev, Sentinel(z)) == At(v.id) then c.(pc := Advancing(z, v.id, Null))
      else c.(pc := Getting(NextOf(v.id), First, ForYield(z, v.id)))
    case Advance =>
      c.(mem := c.mem[NextOf(Sentinel(c.pc.z)) := c.pc.v], pc := FinishingYield(c.pc.z, c.pc.n))
    case FinishYield => c.(prev := c.prev[c.pc.n := Dequeued], pc := Draining(c.pc.z))
    case BeginUnlocked =>
      var v := MemAt(c.mem, NextOf(Sentinel(c.pc.z)));
      c.(pc := if v == Null then Releasing(c.pc.z) else if v.To? then LinkingHead(c.pc.z, v.id) else Crash)
    case LinkHead =>
      c.(prev := c.prev[c.pc.h := At(Sentinel(c.pc.z))], pc := LinkingTail(c.pc.z))
    case LinkTail =>
      var p := PrevAt(c.prev, Sentinel(c.pc.z));
      if p.At? then c.(mem := c.mem[NextOf(p.id) := To(Sentinel(c.pc.z))], pc := Releasing(c.pc.z))
      else c.(pc := Crash)
    case Release => c.(pc := Free)
    case Relock(z) => c.(pc := Reacquired(z))
    case AfterRelock =>
      var s := NextOf(Sentinel(c.pc.z));
      if MemAt(c.mem, s) == To(Sentinel(c.pc.z)) then c.(mem := c.mem[s := Null], pc := Draining(c.pc.z))
      else c.(pc := Draining(c.pc.z))
    case Close => c.(drains := c.drains - {c.pc.z}, pc := Free)
  }

  predicate Enabled(c: Config, step: Step) {
    match step
    case Own(n, a) => OwnEnabled(c, n, a)
    case UpdateState(_) => c.tail.Empty?
    case Guard(a) => GuardEnabled(c, a)
    case Get(a) => GetEnabled(c, a)
    case Rem(a) => RemoveEnabled(c, a)
    case Drain(a) => DrainEnabled(c, a)
  }

  function Next(c: Config, step: Step): Config
    requires Enabled(c, step)
  {
    match step
    case Own(n, a) => OwnNext(c, n, a)
    case UpdateState(s) => c.(tail := Empty(s))
    case Guard(a) => GuardNext(c, a)
    case Get(a) => GetNext(c, a)
    case Rem(a) => RemoveNext(c, a)
    case Drain(a) => DrainNext(c, a)
  }

  function Init(platform: Platform, state: nat): Config {
    Config(platform, Empty(state), map[], map[], map[], None, false, {}, Free)
  }

  /** The runs of the system: each step is enabled where it is taken. */
  predicate IsRun(c: Config, steps: seq<Step>)
    decreases |steps|, 0
  {
    steps == [] ||
    (IsRun(c, steps[..|steps| - 1]) && Enabled(Exec(c, steps[..|steps| - 1]), steps[|steps| - 1]))
  }

  function Exec(c: Config, steps: seq<Step>): Config
    requires IsRun(c, steps)
    decreases |steps|, 1
  {
    if steps == [] then c
    else Next(Exec(c, steps[..|steps| - 1]), steps[|steps| - 1])
  }
}
