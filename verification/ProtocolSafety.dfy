/** What the invariant says, in the terms of the design: publication, removal, wake-ups. */
module ProtocolSafety {
  import opened Options
  import opened Protocol
  import opened ProtocolInvariant
  import opened ProtocolChain
  import opened ProtocolDrainChain
  import opened ProtocolOwners
  import opened ProtocolGetNext
  import opened ProtocolRemoval
  import opened ProtocolTheorems
  import AQ = AbstractQueue

  // -------------------------------------------------------- publication

  /** Forward links: slot by slot, `head`/`next` agree with the queue except where the
      enqueuer has not published yet or the remover has taken the slot over; the slot at the
      end, where the next enqueuer will publish, is null. */
  lemma ForwardLinks(c: Config, g: Ghost, i: nat)
    requires Inv(c, g) && i < |g.q.live|
    ensures var n, s := g.q.live[i], SlotAt(HeadSlot, g.q.live, i);
      || MemAt(c.mem, s) == To(n)
      || EnqAt(c.enq, n) == Linking(s)
      || Claimed(c.pc) == Some(s)
    ensures MemAt(c.mem, TailSlot(c.tail)) == Null
  {
    assert g.q.live[i] == g.succ[SlotAt(HeadSlot, g.q.live, i)];
  }

  /** The predecessor whose slot is still to be filled is itself linked. */
  lemma LinkingPair(c: Config, g: Ghost, n: Id, p: Id)
    requires Inverse(g) && Homed(g) && OwnerOk(c, g, n) && EnqAt(c.enq, n) == Linking(NextOf(p))
    ensures n in g.at && n.Node? && p in g.at && p.Node?
  {
    assert NextOf(p) in g.succ;
  }

  /** While an enqueuer is between its tail exchange and its publication, the predecessor it
      captured is still in the queue or in its drained list: it is not Dequeued, so it cannot
      have been reset or dropped. */
  lemma PredecessorKept(c: Config, g: Ghost, n: Id, p: Id)
    requires Inv(c, g) && EnqAt(c.enq, n) == Linking(NextOf(p))
    ensures AQ.Present(g.q, p) && AQ.Present(g.q, n)
    ensures IsQueued(PrevAt(c.prev, p)) && !OwnEnabled(c, p, Reset)
  {
    assert OwnerOk(c, g, n);
    LinkingPair(c, g, n, p);
    LinkedQueued(c, g, p);
    LinkedQueued(c, g, n);
  }

  lemma LinkedQueued(c: Config, g: Ghost, n: Id)
    requires Homed(g) && PrevOk(c, g) && n in g.at && n.Node?
    ensures AQ.Present(g.q, n) && IsQueued(PrevAt(c.prev, n)) && !OwnEnabled(c, n, Reset)
  {
  }

  // Holder steps leave the enqueuers' program counters alone.

  lemma DrainLeavesOwners(c: Config, a: DrainAct)
    requires DrainEnabled(c, a)
    ensures DrainNext(c, a).enq == c.enq
  {
  }

  lemma RemovalLeavesOwners(c: Config, a: RemoveAct)
    requires RemoveEnabled(c, a)
    ensures RemoveNext(c, a).enq == c.enq
  {
  }

  /** Only its owner moves the program counter of an enqueuer. */
  lemma OwnerAlone(c: Config, n: Id, step: Step)
    requires Enabled(c, step) && !(step.Own? && step.n == n)
    ensures EnqAt(Next(c, step).enq, n) == EnqAt(c.enq, n)
  {
    match step
    case Drain(a) => DrainLeavesOwners(c, a);
    case Rem(a) => RemovalLeavesOwners(c, a);
    case _ =>
  }

  /** No step of anybody else takes the slot away from an enqueuer that still has to publish
      in it: nothing is published there, nothing claims it, and it stays the slot of `n`. */
  lemma SlotReserved(c: Config, g: Ghost, n: Id, s: Slot, step: Step)
    requires Inv(c, g) && EnqAt(c.enq, n) == Linking(s) && Enabled(c, step) && !(step.Own? && step.n == n)
    ensures var d, h := Next(c, step), GhostNext(c, g, step);
      && EnqAt(d.enq, n) == Linking(s) && !MemAt(d.mem, s).To? && Claimed(d.pc) != Some(s)
      && s in h.succ && h.succ[s] == n
  {
    StepKeepsInv(c, g, step);
    OwnerAlone(c, n, step);
    assert OwnerOk(Next(c, step), GhostNext(c, g, step), n);
  }

  /** What has been published stays published: after any step a linked node whose enqueue is
      over is where its predecessor points, or in the hands of the lock holder. */
  lemma PublicationKept(c: Config, g: Ghost, n: Id, step: Step)
    requires Inv(c, g) && Enabled(c, step) && n in g.at && !EnqAt(c.enq, n).Linking?
    ensures var d, h := Next(c, step), GhostNext(c, g, step);
      n in h.at ==> MemAt(d.mem, h.at[n]) == To(n) || Claimed(d.pc) == Some(h.at[n])
  {
    StepKeepsInv(c, g, step);
    assert OwnerOk(c, g, n);
    StillPublished(c, g, n, step);
    var d, h := Next(c, step), GhostNext(c, g, step);
    if n in h.at { assert h.at[n] in h.succ && h.succ[h.at[n]] == n; }
  }

  lemma StillPublished(c: Config, g: Ghost, n: Id, step: Step)
    requires Enabled(c, step) && OwnerOk(c, g, n) && n in g.at && !EnqAt(c.enq, n).Linking?
    ensures !EnqAt(Next(c, step).enq, n).Linking?
  {
    if !(step.Own? && step.n == n) { OwnerAlone(c, n, step); }
  }

  // ------------------------------------------------------------- the guard

  /** A step of somebody who does not hold the lock. */
  predicate Outsider(step: Step) { step.Own? || step.UpdateState? }

  /** Such a step leaves the holder and its token alone, and can only enqueue or set the state. */
  lemma OutsiderFrame(c: Config, step: Step)
    requires Enabled(c, step) && Outsider(step)
    ensures Next(c, step).pc == c.pc && (c.token ==> Next(c, step).token)
    ensures OpOf(c, step).Stutter? || OpOf(c, step).Enqueue? || OpOf(c, step).SetState?
  {
  }

  lemma OutsidersOnlyAppend(c: Config, g: Ghost, step: Step)
    requires Enabled(c, step) && Outsider(step)
    ensures Next(c, step).pc == c.pc
    ensures g.q.live <= GhostNext(c, g, step).q.live && GhostNext(c, g, step).q.lists == g.q.lists
  {
    OutsiderFrame(c, step);
  }

  /** Under a guard, whatever the others do, the queue only grows at its end: once seen
      non-empty it stays so until the holder removes, and `dequeue` and `pop` then succeed. */
  lemma {:induction false} GuardedQueueGrows(c: Config, g: Ghost, steps: seq<Step>)
    requires Inv(c, g) && IsRun(c, steps) && forall i :: 0 <= i < |steps| ==> Outsider(steps[i])
    ensures Exec(c, steps).pc == c.pc
    ensures g.q.live <= Track(c, g, steps).q.live
    ensures c.pc.Held? && g.q.live != [] ==>
      GuardEnabled(Exec(c, steps), Dequeue) && GuardEnabled(Exec(c, steps), Pop)
    decreases |steps|
  {
    RunKeepsInv(c, g, steps);
    if steps != [] {
      var front := steps[..|steps| - 1];
      GuardedQueueGrows(c, g, front);
      RunKeepsInv(c, g, front);
      OutsidersOnlyAppend(Exec(c, front), Track(c, g, front), steps[|steps| - 1]);
    }
  }

  // ------------------------------------------------------------------ removal

  /** `dequeue` hands out the first node of the queue, `pop` the last. */
  lemma HandedOutNode(c: Config, g: Ghost)
    requires Inv(c, g)
    ensures c.pc.HeadFound? ==> g.q.live != [] && c.pc.n == g.q.live[0]
    ensures c.tail.Last? ==> g.q.live != [] && c.tail.id == g.q.live[|g.q.live| - 1]
  {
    assert SlotAt(HeadSlot, g.q.live, 0) == HeadSlot;
  }

  /** A removal that starts at the head marker removes the first node and no other. */
  lemma HeadRemoval(c: Config, g: Ghost, step: Step)
    requires Inv(c, g) && Enabled(c, step) && OpOf(c, step).Remove? && (c.pc.SwingingTail? || c.pc.Relinking?)
    requires c.pc.p.HeadMarker?
    ensures g.q.live != [] && OpOf(c, step).n == g.q.live[0]
    ensures GhostNext(c, g, step).q.live == g.q.live[1..]
  {
    FirstIsHead(c, g);
    RemovalOp(c, step);
    RemoveFirst(g.q, OpOf(c, step).s);
  }

  /** The queue operation of a removal names the node that the holder removes. */
  lemma RemovalOp(c: Config, step: Step)
    requires Enabled(c, step) && OpOf(c, step).Remove?
    ensures (c.pc.SwingingTail? || c.pc.Relinking?) && OpOf(c, step).n == c.pc.n
  {
  }

  lemma RemoveFirst(q: AQ.Queue<Id>, s: nat)
    requires AQ.Inv(q) && q.live != []
    ensures AQ.Enabled(q, AQ.Remove(q.live[0], s)) && AQ.Apply(q, AQ.Remove(q.live[0], s)).live == q.live[1..]
  {
    AQ.KeepCut(q.live, 0);
    assert q.live[..0] + q.live[1..] == q.live[1..];
  }

  lemma FirstIsHead(c: Config, g: Ghost)
    requires LiveChain(g) && HolderOk(c, g) && (c.pc.SwingingTail? || c.pc.Relinking?) && c.pc.p.HeadMarker?
    ensures g.q.live != [] && c.pc.n == g.q.live[0]
  {
    assert SlotAt(HeadSlot, g.q.live, 0) == HeadSlot;
  }

  /** The tail exchange of a removal: it reports true, and true means "empty, with the given
      state installed" exactly when the removed node was the head of the queue. */
  lemma TrueMeansEmptyIffHead(c: Config, g: Ghost)
    requires Inv(c, g) && c.pc.SwingingTail? && c.tail == Last(c.pc.n)
    ensures var d, q := RemoveNext(c, SwingTail), GhostNext(c, g, Rem(SwingTail)).q;
      && d.pc == Finishing(c.pc.n, true)
      && (d.tail == Empty(c.pc.st) && q.live == [] && q.state == c.pc.st <==> c.pc.n == g.q.live[0])
      && (d.tail.Empty? <==> c.pc.n == g.q.live[0])
  {
    SwingAtEnd(c, g);
    StepKeepsInv(c, g, Rem(SwingTail));
    HeadIffMarker(c, g);
  }

  lemma HeadIffMarker(c: Config, g: Ghost)
    requires AQ.Inv(g.q) && Chain(g) && HolderOk(c, g) && c.pc.SwingingTail? && g.q.live != []
    ensures c.pc.p.HeadMarker? <==> c.pc.n == g.q.live[0]
  {
    assert SlotAt(HeadSlot, g.q.live, 0) == HeadSlot;
    LiveLinked(g, 0);
  }

  lemma RunExtends(c: Config, steps: seq<Step>, step: Step)
    requires IsRun(c, steps) && Enabled(Exec(c, steps), step)
    ensures IsRun(c, steps + [step]) && Exec(c, steps + [step]) == Next(Exec(c, steps), step)
  {
    assert (steps + [step])[..|steps|] == steps;
  }

  lemma TwoSteps(c: Config, steps: seq<Step>, x: Step, y: Step)
    requires IsRun(c, steps) && Enabled(Exec(c, steps), x) && Enabled(Next(Exec(c, steps), x), y)
    ensures IsRun(c, steps + [x] + [y]) && Exec(c, steps + [x] + [y]) == Next(Next(Exec(c, steps), x), y)
  {
    RunExtends(c, steps, x);
    RunExtends(c, steps + [x], y);
  }

  lemma ArmSteps(d: Config, n: Id)
    requires n.Node? && EnqAt(d.enq, n).Idle? && PrevAt(d.prev, n).Unqueued?
    ensures Enabled(d, Own(n, LoadTail)) && Enabled(Next(d, Own(n, LoadTail)), Own(n, Arm))
    ensures Next(Next(d, Own(n, LoadTail)), Own(n, Arm)) ==
      d.(enq := d.enq[n := Armed(d.tail)], prev := d.prev[n := PrevOf(TailSlot(d.tail))])
  {
    assert d.enq[n := Loaded(d.tail)][n := Armed(d.tail)] == d.enq[n := Armed(d.tail)];
  }

  lemma PublishSteps(d: Config, n: Id)
    requires d.platform.Spin? && EnqAt(d.enq, n) == Armed(d.tail)
    ensures Enabled(d, Own(n, CasOk)) && Enabled(Next(d, Own(n, CasOk)), Own(n, Publish))
    ensures Next(Next(d, Own(n, CasOk)), Own(n, Publish)) ==
      d.(tail := Last(n), mem := d.mem[TailSlot(d.tail) := To(n)], enq := d.enq[n := Idle])
  {
    assert d.enq[n := Linking(TailSlot(d.tail))][n := Idle] == d.enq[n := Idle];
  }

  /** A node enqueued with nobody around. */
  lemma EnqueueRun(c: Config, steps: seq<Step>, n: Id)
    requires IsRun(c, steps)
    requires var d := Exec(c, steps);
      d.platform.Spin? && n.Node? && EnqAt(d.enq, n).Idle? && PrevAt(d.prev, n).Unqueued?
    ensures var d := Exec(c, steps);
      var run := steps + [Own(n, LoadTail)] + [Own(n, Arm)] + [Own(n, CasOk)] + [Own(n, Publish)];
      && IsRun(c, run)
      && Exec(c, run) == d.(tail := Last(n), mem := d.mem[TailSlot(d.tail) := To(n)],
           prev := d.prev[n := PrevOf(TailSlot(d.tail))], enq := d.enq[n := Idle])
  {
    var d := Exec(c, steps);
    ArmSteps(d, n);
    TwoSteps(c, steps, Own(n, LoadTail), Own(n, Arm));
    var s2 := steps + [Own(n, LoadTail)] + [Own(n, Arm)];
    PublishSteps(Exec(c, s2), n);
    TwoSteps(c, s2, Own(n, CasOk), Own(n, Publish));
    assert d.enq[n := Armed(d.tail)][n := Idle] == d.enq[n := Idle];
  }

  /** The last node of a longer queue removes itself with nobody around. */
  lemma SelfRemovalRun(c: Config, steps: seq<Step>, n: Id, p: Id, st: nat)
    requires IsRun(c, steps)
    requires var d := Exec(c, steps);
      && d.pc.Free? && d.tail == Last(n) && n.Node? && EnqAt(d.enq, n).Idle?
      && PrevAt(d.prev, n) == At(p) && MemAt(d.mem, NextOf(n)) == Null
    ensures var run :=
        steps + [Guard(Lock)] + [Rem(RemoveSelf(n, st))] + [Rem(ReadNext)] + [Rem(ClearPrev)] + [Rem(SwingTail)];
      IsRun(c, run) && Exec(c, run).pc == Finishing(n, true) && Exec(c, run).tail == Last(p)
  {
    TwoSteps(c, steps, Guard(Lock), Rem(RemoveSelf(n, st)));
    var s2 := steps + [Guard(Lock)] + [Rem(RemoveSelf(n, st))];
    TwoSteps(c, s2, Rem(ReadNext), Rem(ClearPrev));
    RunExtends(c, s2 + [Rem(ReadNext)] + [Rem(ClearPrev)], Rem(SwingTail));
  }

  /** Two nodes enqueued one after the other on a fresh queue. */
  lemma TwoQueued() returns (steps: seq<Step>)
    ensures IsRun(Init(Spin, 0), steps)
    ensures var d := Exec(Init(Spin, 0), steps);
      && d.pc.Free? && d.tail == Last(Node(1)) && EnqAt(d.enq, Node(1)).Idle?
      && PrevAt(d.prev, Node(1)) == At(Node(0)) && MemAt(d.mem, NextOf(Node(1))) == Null
  {
    var c := Init(Spin, 0);
    EnqueueRun(c, [], Node(0));
    steps := [] + [Own(Node(0), LoadTail)] + [Own(Node(0), Arm)] + [Own(Node(0), CasOk)] + [Own(Node(0), Publish)];
    EnqueueRun(c, steps, Node(1));
    steps := steps + [Own(Node(1), LoadTail)] + [Own(Node(1), Arm)] + [Own(Node(1), CasOk)] + [Own(Node(1), Publish)];
  }

  /** The other half is real: two nodes, the second removes itself, and the removal reports
      true although the first is still queued and the state 7 was not installed. */
  lemma TrueThoughNotEmpty()
    ensures exists steps ::
      && IsRun(Init(Spin, 0), steps)
      && Exec(Init(Spin, 0), steps).pc == Finishing(Node(1), true)
      && Exec(Init(Spin, 0), steps).tail == Last(Node(0))
  {
    var steps := TwoQueued();
    SelfRemovalRun(Init(Spin, 0), steps, Node(1), Node(0), 7);
  }

  // -------------------------------------------------------------- life cycle

  /** With the lock free, a node reads as Queued exactly when it is in the queue or waits in
      a drained list (an enqueuer inside its own exchange loop aside). */
  lemma QueuedIffPresent(c: Config, g: Ghost, n: Id)
    requires Inv(c, g) && c.pc.Free? && n.Node? && !Enqueuing(EnqAt(c.enq, n))
    ensures IsQueued(PrevAt(c.prev, n)) <==> AQ.Present(g.q, n)
  {
    assert OwnerOk(c, g, n);
    PresentLinked(g, n);
    if n in g.at { LinkedQueued(c, g, n); }
  }

  /** A node seen as Queued by its idle owner can become Dequeued, but never Unqueued, by
      steps of others. */
  lemma NeverBackToUnqueued(c: Config, g: Ghost, n: Id, step: Step)
    requires Inv(c, g) && Enabled(c, step) && n.Node? && EnqAt(c.enq, n).Idle? && !PrevAt(c.prev, n).Unqueued?
    requires !(step.Own? && step.n == n)
    ensures EnqAt(Next(c, step).enq, n).Idle? && !PrevAt(Next(c, step).prev, n).Unqueued?
  {
    OwnerAlone(c, n, step);
    PrevOthers(c, g, n, step);
  }

  lemma RemovalPrev(c: Config, g: Ghost, n: Id, a: RemoveAct)
    requires RemoveEnabled(c, a) && (c.pc.Relinking? ==> IsQueued(c.pc.p)) && !PrevAt(c.prev, n).Unqueued?
    ensures !PrevAt(RemoveNext(c, a).prev, n).Unqueued?
  {
  }

  lemma DrainPrev(c: Config, n: Id, a: DrainAct)
    requires DrainEnabled(c, a) && !PrevAt(c.prev, n).Unqueued?
    ensures !PrevAt(DrainNext(c, a).prev, n).Unqueued?
  {
  }

  lemma PrevOthers(c: Config, g: Ghost, n: Id, step: Step)
    requires HolderOk(c, g) && Enabled(c, step) && !(step.Own? && step.n == n) && !PrevAt(c.prev, n).Unqueued?
    ensures !PrevAt(Next(c, step).prev, n).Unqueued?
  {
    match step
    case Rem(a) => RemovalPrev(c, g, n, a);
    case Drain(a) => DrainPrev(c, n, a);
    case _ =>
  }

  /** A rejected conditional enqueue leaves the node unqueued, unlinked and reusable. */
  lemma RejectLeavesNoTrace(c: Config, g: Ghost, n: Id)
    requires Inv(c, g) && OwnEnabled(c, n, Reject)
    ensures var d := OwnNext(c, n, Reject);
      && !AQ.Present(g.q, n) && PrevAt(d.prev, n).Unqueued? && MemAt(d.mem, NextOf(n)) == Null
      && OwnEnabled(d, n, LoadTail) && d.tail == c.tail && d.mem == c.mem
  {
    assert OwnerOk(c, g, n);
    PresentLinked(g, n);
  }

  /** A node that its owner resets is as good as a new one, and nobody else notices. */
  lemma ResetMakesFresh(c: Config, g: Ghost, n: Id)
    requires Inv(c, g) && OwnEnabled(c, n, Reset)
    ensures var d := OwnNext(c, n, Reset);
      && !AQ.Present(g.q, n) && PrevAt(d.prev, n).Unqueued? && MemAt(d.mem, NextOf(n)) == Null
      && OwnEnabled(d, n, LoadTail) && d.tail == c.tail && d.pc == c.pc
      && (forall m :: m != n ==> PrevAt(d.prev, m) == PrevAt(c.prev, m) && EnqAt(d.enq, m) == EnqAt(c.enq, m))
      && (forall s :: s != NextOf(n) ==> MemAt(d.mem, s) == MemAt(c.mem, s))
  {
    assert OwnerOk(c, g, n);
    PresentLinked(g, n);
    if n in g.at { LinkedQueued(c, g, n); }
  }

  // -------------------------------------------------------------------- drain

  /** Removing a node that has been drained never touches the live queue: its tail exchange
      fails, and it writes neither `head` nor `tail`. */
  lemma DrainedRemovalIsolated(c: Config, g: Ghost, a: RemoveAct)
    requires Inv(c, g) && RemoveEnabled(c, a)
    requires c.pc.ReadingNext? || c.pc.Clearing? || c.pc.SwingingTail? || c.pc.Relinking?
    requires c.pc.n !in g.q.live
    ensures var d, q := RemoveNext(c, a), GhostNext(c, g, Rem(a)).q;
      && d.tail == c.tail && MemAt(d.mem, HeadSlot) == MemAt(c.mem, HeadSlot)
      && q.live == g.q.live && q.state == g.q.state
  {
    NotHead(c, g, c.pc.n, c.pc.p);
    RemovalElsewhere(c, a);
    AQ.KeepAll(g.q.live, {c.pc.n});
  }

  /** Away from the queue's two ends a removal writes neither `head` nor `tail`. */
  lemma RemovalElsewhere(c: Config, a: RemoveAct)
    requires RemoveEnabled(c, a)
    requires c.pc.ReadingNext? || c.pc.Clearing? || c.pc.SwingingTail? || c.pc.Relinking?
    requires SlotOf(c.pc.p) != HeadSlot && c.tail != Last(c.pc.n)
    ensures var d := RemoveNext(c, a);
      d.tail == c.tail && MemAt(d.mem, HeadSlot) == MemAt(c.mem, HeadSlot)
    ensures OpOf(c, Rem(a)) == AQ.Stutter || OpOf(c, Rem(a)) == AQ.Remove(c.pc.n, 0)
  {
  }

  lemma NotHead(c: Config, g: Ghost, n: Id, p: Prev)
    requires Chain(g) && TailOk(c, g) && Removing(c, g, n, p) && n !in g.q.live
    ensures SlotOf(p) != HeadSlot && c.tail != Last(n)
  {
    assert SlotAt(HeadSlot, g.q.live, 0) == HeadSlot;
  }

  // ------------------------------------------------------------------ wake-ups

  /** How many steps the publisher still has to take before it has woken the sleeper. */
  function StepsLeft(e: Enq): nat {
    match e
    case Linking(_) => 3
    case Checking(_) => 2
    case Unparking => 1
    case _ => 0
  }

  /** The owner's next step on the way to the wake-up. */
  function Publishing(e: Enq): OwnAct {
    match e
    case Linking(_) => Publish
    case Checking(_) => CheckParked
    case _ => Unpark
  }

  /** No lost wake-up, for both handshakes: while the holder sleeps on slot `s` without a
      token, the node that belongs in `s` is about to publish, to check or to unpark; that
      step is enabled; and taking it brings the wake-up nearer or delivers the token. */
  lemma NoLostWakeup(c: Config, g: Ghost)
    requires Inv(c, g) && c.pc.Getting? && c.pc.w.Asleep? && !c.token
    ensures var n := g.succ[c.pc.slot];
      var a := Publishing(EnqAt(c.enq, n));
      && c.pc.slot in g.succ && OwnEnabled(c, n, a)
      && (OwnNext(c, n, a).token || 0 < StepsLeft(EnqAt(OwnNext(c, n, a).enq, n)) < StepsLeft(EnqAt(c.enq, n)))
  {
    SlotValue(c, g);
    PublisherStep(c, g, c.pc.slot);
  }

  lemma PublisherStep(c: Config, g: Ghost, s: Slot)
    requires s in g.succ && Owed(c, g, s) && !c.token
    ensures var n := g.succ[s];
      var a := Publishing(EnqAt(c.enq, n));
      && OwnEnabled(c, n, a)
      && (OwnNext(c, n, a).token || 0 < StepsLeft(EnqAt(OwnNext(c, n, a).enq, n)) < StepsLeft(EnqAt(c.enq, n)))
  {
  }

  /** The slot in which the next enqueuer will publish is nobody's yet. */
  lemma EndIsFree(c: Config, g: Ghost)
    requires LiveChain(g) && TailOk(c, g)
    ensures TailSlot(c.tail) !in g.succ
  {
  }

  /** A step of an outsider gives a linked slot to nobody else. */
  lemma SlotKeptByOutsider(c: Config, g: Ghost, step: Step, s: Slot)
    requires Enabled(c, step) && Outsider(step) && s in g.succ && TailSlot(c.tail) !in g.succ
    ensures s in GhostNext(c, g, step).succ && GhostNext(c, g, step).succ[s] == g.succ[s]
  {
  }

  /** No step of anybody else delays it. */
  lemma WakeupNotDelayed(c: Config, g: Ghost, step: Step)
    requires Inv(c, g) && c.pc.Getting? && c.pc.w.Asleep? && Enabled(c, step) && Outsider(step)
    requires !(step.Own? && step.n == g.succ[c.pc.slot])
    ensures var d, h := Next(c, step), GhostNext(c, g, step);
      && d.pc == c.pc && c.pc.slot in h.succ && h.succ[c.pc.slot] == g.succ[c.pc.slot] && (c.token ==> d.token)
      && EnqAt(d.enq, g.succ[c.pc.slot]) == EnqAt(c.enq, g.succ[c.pc.slot])
  {
    OwnerAlone(c, g.succ[c.pc.slot], step);
    OutsiderFrame(c, step);
    EndIsFree(c, g);
    SlotKeptByOutsider(c, g, step, c.pc.slot);
  }

  /** `get_next` returns the real successor, never null and never the parked marker. */
  lemma GetReturnsSuccessor(c: Config, g: Ghost, a: GetAct)
    requires Inv(c, g) && GetEnabled(c, a) && !GetNext(c, a).pc.Getting?
    ensures c.pc.slot in g.succ && GetNext(c, a).pc == Resume(c.pc.k, To(g.succ[c.pc.slot]))
  {
    SlotValue(c, g);
    ReturnedValue(c, g, a);
  }

  lemma ReturnedValue(c: Config, g: Ghost, a: GetAct)
    requires HolderOk(c, g) && GetEnabled(c, a) && !GetNext(c, a).pc.Getting?
    requires MemAt(c.mem, c.pc.slot).To? ==> MemAt(c.mem, c.pc.slot) == To(g.succ[c.pc.slot])
    requires MemAt(c.mem, c.pc.slot) == Parked ==> Sleeping(c, c.pc.slot)
    ensures GetNext(c, a).pc == Resume(c.pc.k, To(g.succ[c.pc.slot]))
  {
  }
}
