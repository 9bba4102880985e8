/** Which nodes the lock holder touches, and which one `pop` takes. */
module ProtocolNodes {
  import opened Options
  import opened Protocol
  import opened ProtocolInvariant
  import opened ProtocolChain
  import opened ProtocolTheorems
  import opened ProtocolSafety
  import AQ = AbstractQueue

  // ------------------------------------------------------------------ touching

  function SlotOwner(s: Slot): set<Id> { if s.NextOf? then {s.id} else {} }

  function PrevOwner(p: Prev): set<Id> { if p.At? then {p.id} else {} }

  /** The nodes and sentinels whose fields a step of the lock holder reads or writes. */
  function Touched(c: Config, step: Step): set<Id>
    requires Enabled(c, step)
  {
    match step
    case Get(_) => SlotOwner(c.pc.slot)
    case Rem(RemoveTail(_)) => {c.pc.n}
    case Rem(RemoveSelf(n, _)) => {n}
    case Rem(ReadNext) => {c.pc.n}
    case Rem(ClearPrev) => PrevOwner(c.pc.p)
    case Rem(Relink) => {c.pc.x}
    case Rem(Splice) => PrevOwner(c.pc.p)
    case Rem(Finish) => {c.pc.n}
    case Drain(FinishYield) => {c.pc.n}
    case Drain(LinkHead) => {c.pc.h}
    case Drain(LinkTail) => PrevOwner(PrevAt(c.prev, Sentinel(c.pc.z))) + {Sentinel(c.pc.z)}
    case Drain(Open(z, _)) => {Sentinel(z)}
    case Drain(SwapTail(z)) => {Sentinel(z)}
    case Drain(Yield) => {Sentinel(c.pc.z)}
    case Drain(Advance) => {Sentinel(c.pc.z)}
    case Drain(BeginUnlocked) => {Sentinel(c.pc.z)}
    case Drain(AfterRelock) => {Sentinel(c.pc.z)}
    case Drain(Close) => {Sentinel(c.pc.z)}
    case _ => {}
  }

  /** A node that is linked, or owns a linked slot, reads Queued. */
  lemma LinkedReadsQueued(c: Config, g: Ghost, n: Id)
    requires Homed(g) && PrevOk(c, g) && n.Node? && (n in g.at || NextOf(n) in g.succ)
    ensures IsQueued(PrevAt(c.prev, n))
  {
  }

  lemma GetTouches(c: Config, g: Ghost, a: GetAct, n: Id)
    requires Homed(g) && PrevOk(c, g) && HolderOk(c, g) && GetEnabled(c, a)
    requires n in Touched(c, Get(a)) && n.Node?
    ensures IsQueued(PrevAt(c.prev, n))
  {
    LinkedReadsQueued(c, g, n);
  }

  lemma RemovalTouches(c: Config, g: Ghost, a: RemoveAct, n: Id)
    requires Homed(g) && Inverse(g) && LiveChain(g) && PrevOk(c, g) && HolderOk(c, g) && RemoveEnabled(c, a)
    requires n in Touched(c, Rem(a)) && n.Node?
    ensures IsQueued(PrevAt(c.prev, n))
  {
    if a.RemoveTail? { TailIsLinked(g, n); }
    if n in g.at || NextOf(n) in g.succ { LinkedReadsQueued(c, g, n); }
  }

  lemma TailIsLinked(g: Ghost, n: Id)
    requires LiveChain(g) && Inverse(g) && n in g.q.live
    ensures n in g.at
  {
    var k :| 0 <= k < |g.q.live| && g.q.live[k] == n;
    assert SlotAt(HeadSlot, g.q.live, k) in g.succ;
  }

  lemma DrainTouches(c: Config, g: Ghost, a: DrainAct, n: Id)
    requires Homed(g) && Inverse(g) && PrevOk(c, g) && DrainsOk(c, g) && HolderOk(c, g) && DrainEnabled(c, a)
    requires forall z :: z in g.q.lists ==> DrainChain(g, z)
    requires n in Touched(c, Drain(a)) && n.Node?
    ensures IsQueued(PrevAt(c.prev, n))
  {
    if a.LinkHead? || a.LinkTail? {
      var z := c.pc.z;
      assert DrainOk(c, g, z);
      DrainedIsLinked(g, z, n);
      LinkedReadsQueued(c, g, n);
    }
  }

  lemma DrainedIsLinked(g: Ghost, z: nat, n: Id)
    requires z in g.q.lists && DrainChain(g, z) && Inverse(g) && n in g.q.lists[z].rest
    ensures n in g.at
  {
    var k :| 0 <= k < |g.q.lists[z].rest| && g.q.lists[z].rest[k] == n;
    assert ListOf(g, z)[k] == n;
    assert SlotAt(SentinelSlot(z), ListOf(g, z), k) in g.succ;
  }

  /** The lock holder reads and writes only nodes that read Queued at that moment: never one
      that is Dequeued, and may have been dropped, or Unqueued, and is its owner's alone. */
  lemma HolderTouchesQueued(c: Config, g: Ghost, step: Step, n: Id)
    requires Inv(c, g) && Enabled(c, step) && n in Touched(c, step) && n.Node?
    ensures IsQueued(PrevAt(c.prev, n))
  {
    match step
    case Get(a) => GetTouches(c, g, a, n);
    case Rem(a) => RemovalTouches(c, g, a, n);
    case Drain(a) => DrainTouches(c, g, a, n);
  }

  // ------------------------------------------------------------------ dropping

  /** What `Node::drop` leaves behind: a node that does not read Queued, its owner done with it. */
  predicate Dropped(c: Config, n: Id) { n.Node? && EnqAt(c.enq, n).Idle? && !IsQueued(PrevAt(c.prev, n)) }

  /** Such a node is in no list, and no enqueuer will write to it. */
  lemma DroppedIsNowhere(c: Config, g: Ghost, n: Id)
    requires Inv(c, g) && Dropped(c, n)
    ensures !AQ.Present(g.q, n)
    ensures forall m :: EnqAt(c.enq, m) != Linking(NextOf(n))
  {
    assert OwnerOk(c, g, n);
    PresentLinked(g, n);
    forall m ensures EnqAt(c.enq, m) != Linking(NextOf(n)) { assert OwnerOk(c, g, m); }
  }

  lemma RemovalKeepsDropped(c: Config, a: RemoveAct, n: Id)
    requires RemoveEnabled(c, a) && !IsQueued(PrevAt(c.prev, n)) && n !in Touched(c, Rem(a))
    ensures !IsQueued(PrevAt(RemoveNext(c, a).prev, n))
  {
  }

  lemma DrainKeepsDropped(c: Config, a: DrainAct, n: Id)
    requires DrainEnabled(c, a) && n.Node? && !IsQueued(PrevAt(c.prev, n)) && n !in Touched(c, Drain(a))
    ensures !IsQueued(PrevAt(DrainNext(c, a).prev, n))
  {
  }

  lemma UntouchedStaysDropped(c: Config, n: Id, step: Step)
    requires Enabled(c, step) && Dropped(c, n) && !(step.Own? && step.n == n) && n !in Touched(c, step)
    ensures !IsQueued(PrevAt(Next(c, step).prev, n))
  {
    match step
    case Rem(a) => RemovalKeepsDropped(c, a, n);
    case Drain(a) => DrainKeepsDropped(c, a, n);
    case _ =>
  }

  lemma DroppedStays(c: Config, g: Ghost, n: Id, step: Step)
    requires Inv(c, g) && Enabled(c, step) && Dropped(c, n) && !(step.Own? && step.n == n)
    ensures Dropped(Next(c, step), n) && n !in Touched(c, step)
  {
    if n in Touched(c, step) { HolderTouchesQueued(c, g, step, n); }
    OwnerAlone(c, n, step);
    UntouchedStaysDropped(c, n, step);
  }

  predicate NotByOwner(steps: seq<Step>, n: Id) {
    forall k :: 0 <= k < |steps| ==> !(steps[k].Own? && steps[k].n == n)
  }

  /** After `Node::drop`, along every run: no list contains the node, no enqueuer is about to
      write to it, and the lock holder does not touch it. */
  lemma {:induction false} NothingAfterDrop(c: Config, g: Ghost, n: Id, steps: seq<Step>)
    requires Inv(c, g) && Dropped(c, n) && IsRun(c, steps) && NotByOwner(steps, n)
    ensures var d := Exec(c, steps);
      && Dropped(d, n) && !AQ.Present(Track(c, g, steps).q, n)
      && (forall m :: EnqAt(d.enq, m) != Linking(NextOf(n)))
      && (forall step :: Enabled(d, step) && !(step.Own? && step.n == n) ==> n !in Touched(d, step))
    decreases |steps|
  {
    RunKeepsInv(c, g, steps);
    var d, h := Exec(c, steps), Track(c, g, steps);
    if steps != [] {
      var front := steps[..|steps| - 1];
      assert forall k :: 0 <= k < |front| ==> front[k] == steps[k];
      NothingAfterDrop(c, g, n, front);
      RunKeepsInv(c, g, front);
      DroppedStays(Exec(c, front), Track(c, g, front), n, steps[|steps| - 1]);
    }
    DroppedIsNowhere(d, h, n);
    forall step | Enabled(d, step) && !(step.Own? && step.n == n) ensures n !in Touched(d, step) {
      DroppedStays(d, h, n, step);
    }
  }

  // ----------------------------------------------------------------------- pop

  /** The lock holder is between having loaded `n` from the tail and having removed it. */
  predicate Popping(pc: Holder, n: Id) {
    match pc
    case TailFound(m) => m == n
    case Getting(_, _, ForPop(m, _, _)) => m == n
    case Getting(_, _, ForRemove(m, _)) => m == n
    case ReadingNext(m, _, _) => m == n
    case Clearing(m, _, _) => m == n
    case SwingingTail(m, _, _) => m == n
    case Relinking(m, _, _) => m == n
    case _ => false
  }

  predicate Removes(c: Config, step: Step) { OpOf(c, step).Remove? || step == Guard(Requeue) }

  predicate PopAfter(k: After, n: Id) { (k.ForPop? || k.ForRemove?) && k.n == n }

  lemma PopResumes(k: After, x: Ptr, n: Id)
    requires PopAfter(k, n) && !Resume(k, x).Crash?
    ensures Popping(Resume(k, x), n)
  {
  }

  lemma GetResumes(c: Config, a: GetAct)
    requires GetEnabled(c, a)
    ensures var d := GetNext(c, a).pc;
      (d.Getting? && d.k == c.pc.k) || exists x :: d == Resume(c.pc.k, x)
  {
    match a
    case Load => if MemAt(c.mem, c.pc.slot) != Null { assert GetNext(c, a).pc == Resume(c.pc.k, MemAt(c.mem, c.pc.slot)); }
    case Register =>
      if !GetNext(c, a).pc.Getting? { assert GetNext(c, a).pc == Resume(c.pc.k, MemAt(c.mem, c.pc.slot)); }
    case Park =>
    case LoadAgain =>
      if !GetNext(c, a).pc.Getting? { assert GetNext(c, a).pc == Resume(c.pc.k, MemAt(c.mem, c.pc.slot)); }
    case Forget => assert GetNext(c, a).pc == Resume(c.pc.k, c.pc.w.v);
  }

  lemma PopGetMoves(c: Config, a: GetAct, n: Id)
    requires GetEnabled(c, a) && Popping(c.pc, n) && !GetNext(c, a).pc.Crash?
    ensures Popping(GetNext(c, a).pc, n)
  {
    var d := GetNext(c, a).pc;
    GetResumes(c, a);
    if !(d.Getting? && d.k == c.pc.k) {
      var x :| d == Resume(c.pc.k, x);
      PopResumes(c.pc.k, x, n);
    }
  }

  lemma PopRemovalMoves(c: Config, a: RemoveAct, n: Id)
    requires RemoveEnabled(c, a) && Popping(c.pc, n) && !RemoveNext(c, a).pc.Crash?
    ensures OpOf(c, Rem(a)) == AQ.Stutter || (OpOf(c, Rem(a)).Remove? && OpOf(c, Rem(a)).n == n)
    ensures OpOf(c, Rem(a)) == AQ.Stutter ==> Popping(RemoveNext(c, a).pc, n)
  {
  }

  lemma PopMoves(c: Config, step: Step, n: Id)
    requires Enabled(c, step) && Popping(c.pc, n) && !Next(c, step).pc.Crash?
    ensures OpOf(c, step).Remove? ==> OpOf(c, step).n == n
    ensures !Removes(c, step) ==>
      Popping(Next(c, step).pc, n) && (OpOf(c, step).Stutter? || OpOf(c, step).Enqueue? || OpOf(c, step).SetState?)
  {
    match step
    case Own(_, _) => OutsiderFrame(c, step);
    case UpdateState(_) => OutsiderFrame(c, step);
    case Guard(_) =>
    case Get(a) => PopGetMoves(c, a, n);
    case Rem(a) => PopRemovalMoves(c, a, n);
    case Drain(a) => PoppingIsNotDraining(c, a, n);
  }

  lemma PoppingIsNotDraining(c: Config, a: DrainAct, n: Id)
    requires Popping(c.pc, n)
    ensures !DrainEnabled(c, a)
  {
  }

  /** No step of the run removes a node or gives the popped one back. */
  ghost predicate NoneRemoved(c: Config, steps: seq<Step>)
    requires IsRun(c, steps)
    decreases |steps|
  {
    steps == [] ||
    (NoneRemoved(c, steps[..|steps| - 1]) && !Removes(Exec(c, steps[..|steps| - 1]), steps[|steps| - 1]))
  }

  lemma RunNeverCrashes(c: Config, g: Ghost, steps: seq<Step>)
    requires Inv(c, g) && IsRun(c, steps)
    ensures !Exec(c, steps).pc.Crash?
  {
    RunKeepsInv(c, g, steps);
    NotCrashed(Exec(c, steps), Track(c, g, steps));
  }

  lemma {:induction false} PopInProgress(c: Config, g: Ghost, n: Id, steps: seq<Step>)
    requires Inv(c, g) && Popping(c.pc, n) && IsRun(c, steps) && NoneRemoved(c, steps)
    ensures Popping(Exec(c, steps).pc, n) && g.q.live <= Track(c, g, steps).q.live
    decreases |steps|
  {
    if steps != [] {
      var front, step := steps[..|steps| - 1], steps[|steps| - 1];
      PopInProgress(c, g, n, front);
      RunNeverCrashes(c, g, steps);
      PopMoves(Exec(c, front), step, n);
    }
  }

  /** `pop` removes the node that was last when it loaded the tail, even if others arrive
      before it gets to the removal: whatever the run in between, if it has removed nothing yet
      and removes now, it removes that node, and all those behind it have come since. */
  lemma PopRemovesItsTail(c: Config, g: Ghost, steps: seq<Step>, step: Step)
    requires Inv(c, g) && GuardEnabled(c, Pop)
    requires IsRun(GuardNext(c, Pop), steps) && NoneRemoved(GuardNext(c, Pop), steps)
    requires Enabled(Exec(GuardNext(c, Pop), steps), step) && OpOf(Exec(GuardNext(c, Pop), steps), step).Remove?
    ensures g.q.live != [] && OpOf(Exec(GuardNext(c, Pop), steps), step).n == g.q.live[|g.q.live| - 1]
    ensures g.q.live <= Track(GuardNext(c, Pop), g, steps).q.live
  {
    var d := GuardNext(c, Pop);
    HandedOutNode(c, g);
    StepKeepsInv(c, g, Guard(Pop));
    PopInProgress(d, g, c.tail.id, steps);
    RunKeepsInv(d, g, steps);
    var e, h := Exec(d, steps), Track(d, g, steps);
    StepKeepsInv(e, h, step);
    NotCrashed(Next(e, step), GhostNext(e, h, step));
    PopMoves(e, step, c.tail.id);
  }
}
