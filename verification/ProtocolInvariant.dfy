/**
 * The inductive invariant of the queue protocol.
 *
 * Beside the configuration runs an auxiliary state that no step reads: `succ` and `at`,
 * the complete chain the links are on their way to (the intended content of each slot and
 * its inverse), the drained lists currently closed into rings, and the abstract queue.
 */
module ProtocolInvariant {
  import opened Options
  import opened Protocol
  import AQ = AbstractQueue

  datatype Ghost = Ghost(succ: map<Slot, Id>, at: map<Id, Slot>, ring: set<nat>, q: AQ.Queue<Id>)

  function SentinelSlot(z: nat): Slot { NextOf(Sentinel(z)) }

  // -------------------------------------------------- the abstract operations

  /** The abstract operation that a step performs: its linearisation point, or a stutter. */
  function OpOf(c: Config, step: Step): AQ.Op<Id> {
    match step
    case Own(n, CasOk) => AQ.Enqueue(n)
    case UpdateState(s) => AQ.SetState(s)
    case Rem(SwingTail) =>
      if c.pc.SwingingTail? && c.tail == Last(c.pc.n) then AQ.Remove(c.pc.n, c.pc.st) else AQ.Stutter
    case Rem(Relink) => if c.pc.Relinking? then AQ.Remove(c.pc.n, 0) else AQ.Stutter
    case Drain(Open(z, st)) => if c.tail.Empty? then AQ.OpenDrain(z, st) else AQ.Stutter
    case Drain(SwapTail(z)) => if c.pc.SwappingTail? then AQ.OpenDrain(z, c.pc.st) else AQ.Stutter
    case Drain(Advance) => if c.pc.Advancing? then AQ.Yield(c.pc.z) else AQ.Stutter
    case Drain(Close) => if c.pc.Draining? then AQ.CloseDrain(c.pc.z) else AQ.Stutter
    case _ => AQ.Stutter
  }

  /** Drop `n`, published at `s`, from the end of its chain. */
  function Cut(g: Ghost, n: Id, s: Slot): Ghost { g.(succ := g.succ - {s}, at := g.at - {n}) }

  /** Drop `n`, published at `s`, and let `x` follow in its place. */
  function Unlink(g: Ghost, n: Id, s: Slot, x: Id): Ghost {
    g.(succ := (g.succ - {NextOf(n)})[s := x], at := (g.at - {n})[x := s])
  }

  function LinksNext(c: Config, g: Ghost, step: Step): Ghost {
    match step
    case Own(n, CasOk) =>
      var e := TailSlot(c.tail);
      g.(succ := g.succ[e := n], at := g.at[n := e])
    case Rem(SwingTail) =>
      if c.pc.SwingingTail? && c.tail == Last(c.pc.n) then Cut(g, c.pc.n, SlotOf(c.pc.p)) else g
    case Rem(Relink) =>
      if c.pc.Relinking? then Unlink(g, c.pc.n, SlotOf(c.pc.p), c.pc.x) else g
    case Drain(SwapTail(z)) =>
      if c.pc.SwappingTail? then
        g.(succ := (g.succ - {HeadSlot})[SentinelSlot(z) := c.pc.h], at := g.at[c.pc.h := SentinelSlot(z)])
      else g
    case Drain(Advance) =>
      if !c.pc.Advancing? then g
      else if c.pc.v.To? then Unlink(g, c.pc.n, SentinelSlot(c.pc.z), c.pc.v.id)
      else Cut(g, c.pc.n, SentinelSlot(c.pc.z))
    case Drain(LinkTail) =>
      if !c.pc.LinkingTail? then g else
      var s := SlotOf(PrevAt(c.prev, Sentinel(c.pc.z)));
      g.(succ := g.succ[s := Sentinel(c.pc.z)], at := g.at[Sentinel(c.pc.z) := s], ring := g.ring + {c.pc.z})
    case Drain(AfterRelock) =>
      if c.pc.Reacquired? && Sentinel(c.pc.z) in g.at then
        Cut(g, Sentinel(c.pc.z), g.at[Sentinel(c.pc.z)]).(ring := g.ring - {c.pc.z})
      else g
    case _ => g
  }

  ghost function GhostNext(c: Config, g: Ghost, step: Step): Ghost {
    var op := OpOf(c, step);
    LinksNext(c, g, step).(q := if AQ.Enabled(g.q, op) then AQ.Apply(g.q, op) else g.q)
  }

  // ---------------------------------------------------------------- the chain

  /** The slot that publishes the i-th element of a chain anchored at `a`. */
  function SlotAt(a: Slot, q: seq<Id>, i: nat): Slot
    requires i <= |q|
  {
    if i == 0 then a else NextOf(q[i - 1])
  }

  ghost predicate Path(succ: map<Slot, Id>, a: Slot, q: seq<Id>) {
    forall i {:trigger SlotAt(a, q, i)} :: 0 <= i < |q| ==> SlotAt(a, q, i) in succ && succ[SlotAt(a, q, i)] == q[i]
  }

  ghost predicate Nodes(q: seq<Id>) {
    forall n :: n in q ==> n.Node?
  }

  /** `succ` and `at` are inverse to each other. */
  ghost predicate Inverse(g: Ghost) {
    && (forall s :: s in g.succ ==> g.succ[s] in g.at && g.at[g.succ[s]] == s)
    && (forall n :: n in g.at ==> g.at[n] in g.succ && g.succ[g.at[n]] == n)
  }

  /** The chain of drain `z`: closed through its sentinel while the lock is released. */
  function ListOf(g: Ghost, z: nat): seq<Id>
    requires z in g.q.lists
  {
    if z in g.ring then g.q.lists[z].rest + [Sentinel(z)] else g.q.lists[z].rest
  }

  ghost predicate LiveChain(g: Ghost) {
    && Nodes(g.q.live)
    && Path(g.succ, HeadSlot, g.q.live)
    && SlotAt(HeadSlot, g.q.live, |g.q.live|) !in g.succ
  }

  ghost predicate DrainChain(g: Ghost, z: nat)
    requires z in g.q.lists
  {
    var rest := g.q.lists[z].rest;
    && Nodes(rest)
    && Path(g.succ, SentinelSlot(z), ListOf(g, z))
    && (z !in g.ring ==> SlotAt(SentinelSlot(z), rest, |rest|) !in g.succ)
  }

  /** Nothing is linked but the members of the live queue and of the drained lists. */
  ghost predicate Homed(g: Ghost) {
    && (forall n :: n in g.at ==> if n.Node? then AQ.Present(g.q, n) else n.z in g.ring)
    && (forall s :: s in g.succ && s.NextOf? ==> s.id in g.at || (s.id.Sentinel? && s.id.z in g.q.lists))
    && (forall z :: z in g.ring ==> z in g.q.lists)
  }

  ghost predicate Chain(g: Ghost) {
    && Inverse(g)
    && LiveChain(g)
    && (forall z :: z in g.q.lists ==> DrainChain(g, z))
    && Homed(g)
  }

  // ------------------------------------------------------- links and chain

  /** The slot whose published value the lock holder has taken over. */
  function Claimed(pc: Holder): Option<Slot> {
    match pc
    case SwingingTail(_, p, _) => Some(SlotOf(p))
    case Getting(_, _, ForRemove(_, p)) => Some(SlotOf(p))
    case Relinking(_, p, _) => Some(SlotOf(p))
    case Splicing(_, p, _) => Some(SlotOf(p))
    case SwappingTail(_, _) => Some(HeadSlot)
    case _ => None
  }

  /** The node that has left the chain but is not yet marked Dequeued. */
  function Leaving(pc: Holder): Option<Id> {
    match pc
    case Splicing(n, _, _) => Some(n)
    case Finishing(n, _) => Some(n)
    case FinishingYield(_, n) => Some(n)
    case _ => None
  }

  /** The drain whose list is open (not a ring) because its owner holds the lock. */
  function OpenedDrain(pc: Holder): Option<nat> {
    match pc
    case Draining(z) => Some(z)
    case Getting(_, _, ForYield(z, _)) => Some(z)
    case Advancing(z, _, _) => Some(z)
    case FinishingYield(z, _) => Some(z)
    case LinkingHead(z, _) => Some(z)
    case LinkingTail(z) => Some(z)
    case _ => None
  }

  predicate Sleeping(c: Config, s: Slot) {
    c.platform.Swap? && c.pc.Getting? && c.pc.slot == s && (c.pc.w.Asleep? || c.pc.w.Recheck?)
  }

  ghost predicate TailOk(c: Config, g: Ghost) {
    && TailSlot(c.tail) == SlotAt(HeadSlot, g.q.live, |g.q.live|)
    && (c.tail.Empty? ==> c.tail.state == g.q.state)
    && MemAt(c.mem, TailSlot(c.tail)) == Null
    && c.drains == g.q.lists.Keys
  }

  /** `prev` follows the chain backwards; only the first node of an open drain may be stale. */
  ghost predicate PrevOk(c: Config, g: Ghost) {
    forall n :: n in g.at ==>
      || PrevAt(c.prev, n) == PrevOf(g.at[n])
      || (g.at[n].NextOf? && g.at[n].id.Sentinel? && g.at[n].id.z !in g.ring && IsQueued(PrevAt(c.prev, n)))
  }

  /** `next` follows the chain except where a publication is outstanding or claimed. */
  ghost predicate NextOk(c: Config, g: Ghost) {
    && (forall s :: s in g.succ ==>
          MemAt(c.mem, s) == To(g.succ[s]) || EnqAt(c.enq, g.succ[s]) == Linking(s) || Claimed(c.pc) == Some(s))
    && (forall s :: MemAt(c.mem, s) == Parked ==> Sleeping(c, s))
  }

  predicate Enqueuing(e: Enq) { e.Loaded? || e.Armed? }

  ghost predicate Unlinked(g: Ghost, n: Id) { n !in g.at && NextOf(n) !in g.succ }

  ghost predicate OwnerOk(c: Config, g: Ghost, n: Id) {
    var e := EnqAt(c.enq, n);
    var p := PrevAt(c.prev, n);
    && (n.Sentinel? ==> e.Idle?)
    && (Enqueuing(e) ==> Unlinked(g, n) && MemAt(c.mem, NextOf(n)) == Null)
    && (e.Armed? ==> p == PrevOf(TailSlot(e.t)))
    && (e.Linking? ==>
          && e.slot in g.succ && g.succ[e.slot] == n && Claimed(c.pc) != Some(e.slot)
          && !MemAt(c.mem, e.slot).To? && (e.slot.NextOf? ==> e.slot.id.Node?))
    && (n.Node? && p.Unqueued? ==> Unlinked(g, n) && MemAt(c.mem, NextOf(n)) == Null && (e.Idle? || e.Loaded?))
    && (n.Node? && p.Dequeued? ==> Unlinked(g, n) && !Enqueuing(e) && !e.Linking?)
    && (n.Node? && IsQueued(p) && !Enqueuing(e) ==> n in g.at || Leaving(c.pc) == Some(n))
  }

  ghost predicate OwnersOk(c: Config, g: Ghost) {
    forall n :: OwnerOk(c, g, n)
  }

  /** A list that is not a ring is empty, or open because its owner holds the lock. */
  ghost predicate DrainOk(c: Config, g: Ghost, z: nat) {
    z in g.q.lists && z !in g.ring ==>
      if g.q.lists[z].rest == [] then MemAt(c.mem, SentinelSlot(z)) == Null
      else
        && OpenedDrain(c.pc) == Some(z)
        && PrevAt(c.prev, Sentinel(z)) == At(g.q.lists[z].rest[|g.q.lists[z].rest| - 1])
  }

  ghost predicate DrainsOk(c: Config, g: Ghost) {
    forall z :: DrainOk(c, g, z)
  }

  // ------------------------------------------------------------- lock holder

  /** `n` is linked behind `p`, fully published, and being removed. */
  ghost predicate Removing(c: Config, g: Ghost, n: Id, p: Prev) {
    && n.Node? && IsQueued(p) && PrevAt(c.prev, n) == p
    && SlotOf(p) in g.succ && g.succ[SlotOf(p)] == n
    && !EnqAt(c.enq, n).Linking?
  }

  /** `n` has left the chain and only has to be marked. */
  ghost predicate Left(c: Config, g: Ghost, n: Id) {
    && n.Node? && Unlinked(g, n) && IsQueued(PrevAt(c.prev, n))
    && !Enqueuing(EnqAt(c.enq, n)) && !EnqAt(c.enq, n).Linking?
  }

  ghost predicate Opened(g: Ghost, z: nat) { z in g.q.lists && z !in g.ring }

  /** Whoever has to fill the slot is still on its way, or its wake-up is. */
  ghost predicate Owed(c: Config, g: Ghost, s: Slot)
    requires s in g.succ
  {
    var e := EnqAt(c.enq, g.succ[s]);
    && !c.platform.Spin?
    && (c.platform.Swap? ==> MemAt(c.mem, s) != Null)
    && (c.platform.Dekker? ==> c.parkedNext == Some(s))
    && (e == Linking(s) || c.token || e == Unparking || (c.platform.Dekker? && e == Checking(s)))
  }

  ghost predicate WaitOk(c: Config, g: Ghost, s: Slot, w: Wait)
    requires s in g.succ
  {
    match w
    case First => true
    case Asleep => Owed(c, g, s)
    case Recheck =>
      && !c.platform.Spin?
      && (c.platform.Swap? ==> MemAt(c.mem, s) != Null)
      && (c.platform.Dekker? ==> c.parkedNext == Some(s))
    case Found(v) => MemAt(c.mem, s) == v && v == To(g.succ[s])
  }

  ghost predicate AfterOk(c: Config, g: Ghost, s: Slot, k: After) {
    match k
    case ForDequeue => s == HeadSlot
    case ForPop(n, p, _) =>
      n.Node? && IsQueued(p) && s == SlotOf(p) && s in g.succ && g.succ[s] == n && PrevAt(c.prev, n) == p
    case ForRemove(n, p) => Removing(c, g, n, p) && s == NextOf(n)
    case ForDrain(_) => s == HeadSlot
    case ForYield(z, n) =>
      Opened(g, z) && s == NextOf(n) && |g.q.lists[z].rest| > 1 && g.q.lists[z].rest[0] == n
  }

  ghost predicate HolderOk(c: Config, g: Ghost) {
    match c.pc
    case Free => true
    case Held => true
    case Getting(s, w, k) => s in g.succ && Claimed(c.pc) != Some(s) && WaitOk(c, g, s, w) && AfterOk(c, g, s, k)
    case HeadFound(n) => HeadSlot in g.succ && g.succ[HeadSlot] == n && MemAt(c.mem, HeadSlot) == To(n)
    case TailFound(n) => n in g.q.live
    case ReadingNext(n, p, _) => Removing(c, g, n, p)
    case Clearing(n, p, _) => Removing(c, g, n, p)
    case SwingingTail(n, p, _) => Removing(c, g, n, p) && MemAt(c.mem, SlotOf(p)) == Null
    case Relinking(n, p, x) =>
      Removing(c, g, n, p) && NextOf(n) in g.succ && g.succ[NextOf(n)] == x && MemAt(c.mem, NextOf(n)) == To(x)
    case Splicing(n, p, x) =>
      Left(c, g, n) && IsQueued(p) && SlotOf(p) in g.succ && g.succ[SlotOf(p)] == x && !EnqAt(c.enq, x).Linking?
    case Finishing(n, _) => Left(c, g, n)
    case ClearingHead(h, _) => HeadSlot in g.succ && g.succ[HeadSlot] == h && MemAt(c.mem, HeadSlot) == To(h)
    case SwappingTail(h, _) =>
      HeadSlot in g.succ && g.succ[HeadSlot] == h && !EnqAt(c.enq, h).Linking? && MemAt(c.mem, HeadSlot) == Null
    case Draining(z) => Opened(g, z)
    case Advancing(z, n, v) =>
      && Opened(g, z) && |g.q.lists[z].rest| > 0 && g.q.lists[z].rest[0] == n
      && (if |g.q.lists[z].rest| == 1 then v == Null
          else v == To(g.q.lists[z].rest[1]) && NextOf(n) in g.succ && MemAt(c.mem, NextOf(n)) == v)
    case FinishingYield(z, n) => Opened(g, z) && Left(c, g, n)
    case LinkingHead(z, h) => Opened(g, z) && g.q.lists[z].rest != [] && g.q.lists[z].rest[0] == h
    case LinkingTail(z) =>
      && Opened(g, z) && g.q.lists[z].rest != [] && PrevAt(c.prev, g.q.lists[z].rest[0]) == At(Sentinel(z))
      && SentinelSlot(z) in g.succ && g.succ[SentinelSlot(z)] == g.q.lists[z].rest[0]
    case Releasing(z) => z in g.q.lists && (z in g.ring || g.q.lists[z].rest == [])
    case Reacquired(z) => z in g.q.lists && (z in g.ring || g.q.lists[z].rest == [])
    case Crash => false
  }

  ghost predicate Links(c: Config, g: Ghost) {
    TailOk(c, g) && PrevOk(c, g) && NextOk(c, g) && OwnersOk(c, g) && DrainsOk(c, g)
  }

  ghost predicate Inv(c: Config, g: Ghost) {
    AQ.Inv(g.q) && Chain(g) && Links(c, g) && HolderOk(c, g)
  }

  function InitGhost(state: nat): Ghost {
    Ghost(map[], map[], {}, AQ.Queue([], state, map[]))
  }

  lemma InitOk(platform: Platform, state: nat)
    ensures Inv(Init(platform, state), InitGhost(state))
  {
  }
}
