/** The theorems about every run of the queue protocol. */
module ProtocolTheorems {
  import opened Options
  import opened Protocol
  import opened ProtocolInvariant
  import opened ProtocolChain
  import opened ProtocolDrainChain
  import opened ProtocolOwners
  import opened ProtocolGetNext
  import opened ProtocolRemoval
  import opened ProtocolDraining
  import AQ = AbstractQueue

  // ------------------------------------------------------------ the invariant

  lemma DrainOp(c: Config, g: Ghost, a: DrainAct)
    requires DrainEnabled(c, a)
    ensures OpOf(c, Drain(a)) ==
      (match a
       case Open(z, st) => if c.tail.Empty? then AQ.OpenDrain(z, st) else AQ.Stutter
       case SwapTail(z) => AQ.OpenDrain(z, c.pc.st)
       case Advance => AQ.Yield(c.pc.z)
       case Close => AQ.CloseDrain(c.pc.z)
       case _ => AQ.Stutter)
    ensures OpOf(c, Drain(a)).Stutter? ==> AQ.Enabled(g.q, OpOf(c, Drain(a)))
  {
  }

  predicate DrainMoves(a: DrainAct) { a.Open? || a.SwapTail? || a.Advance? || a.LinkTail? || a.AfterRelock? || a.Close? }

  lemma QuietDrainKeepsInv(c: Config, g: Ghost, a: DrainAct)
    requires Inv(c, g) && DrainEnabled(c, a) && !DrainMoves(a)
    ensures Inv(DrainNext(c, a), g)
  {
    match a
    case ClearHead => ClearHeadKeepsInv(c, g);
    case Yield => YieldKeepsInv(c, g);
    case FinishYield => FinishYieldKeepsInv(c, g);
    case BeginUnlocked => BeginUnlockedKeepsInv(c, g);
    case LinkHead => LinkHeadKeepsInv(c, g);
    case Release => ReleaseKeepsInv(c, g);
    case Relock(z) => RelockKeepsInv(c, g, z);
  }

  lemma OpenStep(c: Config, g: Ghost, z: nat, st: nat)
    requires Inv(c, g) && DrainEnabled(c, Open(z, st))
    ensures AQ.Enabled(g.q, OpOf(c, Drain(Open(z, st))))
    ensures Inv(DrainNext(c, Open(z, st)), GhostNext(c, g, Drain(Open(z, st))))
  {
    DrainOp(c, g, Open(z, st));
    if c.tail.Empty? {
      OpenKeepsInv(c, g, z, st);
      assert GhostNext(c, g, Drain(Open(z, st))) == g.(q := AQ.Apply(g.q, AQ.OpenDrain(z, st)));
    } else {
      OpenWaitKeepsInv(c, g, z, st);
      assert GhostNext(c, g, Drain(Open(z, st))) == g;
    }
  }

  lemma SwapGhost(c: Config, g: Ghost, z: nat)
    requires DrainEnabled(c, SwapTail(z)) && g.q.live != [] && z !in g.q.lists && c.pc.h == g.q.live[0]
    ensures GhostNext(c, g, Drain(SwapTail(z))) == Taken(g, z, c.pc.st)
  {
  }

  lemma SwapStep(c: Config, g: Ghost, z: nat)
    requires Inv(c, g) && DrainEnabled(c, SwapTail(z))
    ensures AQ.Enabled(g.q, OpOf(c, Drain(SwapTail(z))))
    ensures Inv(DrainNext(c, SwapTail(z)), GhostNext(c, g, Drain(SwapTail(z))))
  {
    DrainOp(c, g, SwapTail(z));
    SwapAtHead(c, g);
    SwapKeepsInv(c, g, z);
    SwapGhost(c, g, z);
  }

  lemma AdvanceGhost(c: Config, g: Ghost)
    requires DrainEnabled(c, Advance) && HolderOk(c, g) && AQ.Enabled(g.q, AQ.Yield(c.pc.z))
    ensures GhostNext(c, g, Drain(Advance)) == Yielded(g, c.pc.z)
  {
  }

  lemma AdvanceStep(c: Config, g: Ghost)
    requires Inv(c, g) && DrainEnabled(c, Advance)
    ensures AQ.Enabled(g.q, OpOf(c, Drain(Advance)))
    ensures Inv(DrainNext(c, Advance), GhostNext(c, g, Drain(Advance)))
  {
    DrainOp(c, g, Advance);
    AdvanceKeepsInv(c, g);
    AdvanceGhost(c, g);
  }

  lemma LinkTailStep(c: Config, g: Ghost)
    requires Inv(c, g) && DrainEnabled(c, LinkTail)
    ensures AQ.Enabled(g.q, OpOf(c, Drain(LinkTail)))
    ensures Inv(DrainNext(c, LinkTail), GhostNext(c, g, Drain(LinkTail)))
  {
    DrainOp(c, g, LinkTail);
    LinkTailKeepsInv(c, g);
    assert GhostNext(c, g, Drain(LinkTail)) == Closed(g, c.pc.z, SlotOf(PrevAt(c.prev, Sentinel(c.pc.z))));
  }

  lemma AfterRelockStep(c: Config, g: Ghost)
    requires Inv(c, g) && DrainEnabled(c, AfterRelock)
    ensures AQ.Enabled(g.q, OpOf(c, Drain(AfterRelock)))
    ensures Inv(DrainNext(c, AfterRelock), GhostNext(c, g, Drain(AfterRelock)))
  {
    DrainOp(c, g, AfterRelock);
    if c.pc.z in g.ring {
      AfterRelockKeepsInv(c, g);
      assert GhostNext(c, g, Drain(AfterRelock)) == Reopened(g, c.pc.z, g.at[Sentinel(c.pc.z)]);
    } else {
      AfterRelockEmptyKeepsInv(c, g);
      assert GhostNext(c, g, Drain(AfterRelock)) == g;
    }
  }

  lemma CloseStep(c: Config, g: Ghost)
    requires Inv(c, g) && DrainEnabled(c, Close)
    ensures AQ.Enabled(g.q, OpOf(c, Drain(Close)))
    ensures Inv(DrainNext(c, Close), GhostNext(c, g, Drain(Close)))
  {
    DrainOp(c, g, Close);
    CloseKeepsInv(c, g);
    assert GhostNext(c, g, Drain(Close)) == g.(q := AQ.Apply(g.q, AQ.CloseDrain(c.pc.z)));
  }

  lemma QuietDrainGhost(c: Config, g: Ghost, a: DrainAct)
    requires DrainEnabled(c, a) && !DrainMoves(a)
    ensures AQ.Enabled(g.q, OpOf(c, Drain(a))) && GhostNext(c, g, Drain(a)) == g
  {
  }

  lemma DrainKeepsInv(c: Config, g: Ghost, a: DrainAct)
    requires Inv(c, g) && DrainEnabled(c, a)
    ensures AQ.Enabled(g.q, OpOf(c, Drain(a)))
    ensures Inv(DrainNext(c, a), GhostNext(c, g, Drain(a)))
  {
    match a
    case Open(z, st) => OpenStep(c, g, z, st);
    case SwapTail(z) => SwapStep(c, g, z);
    case Advance => AdvanceStep(c, g);
    case LinkTail => LinkTailStep(c, g);
    case AfterRelock => AfterRelockStep(c, g);
    case Close => CloseStep(c, g);
    case _ =>
      QuietDrainGhost(c, g, a);
      QuietDrainKeepsInv(c, g, a);
  }

  /** Every step of anybody keeps the invariant, and is an enabled operation of the
      atomic queue (or no operation at all). */
  lemma StepKeepsInv(c: Config, g: Ghost, step: Step)
    requires Inv(c, g) && Enabled(c, step)
    ensures AQ.Enabled(g.q, OpOf(c, step))
    ensures Inv(Next(c, step), GhostNext(c, g, step))
  {
    match step
    case Own(n, a) => OwnersKeepInv(c, g, n, a);
    case UpdateState(s) => UpdateStateKeepsInv(c, g, s);
    case Guard(a) => GuardKeepsInv(c, g, a);
    case Get(a) => GetKeepsInv(c, g, a);
    case Rem(a) => RemovalKeepsInv(c, g, a);
    case Drain(a) => DrainKeepsInv(c, g, a);
  }

  // --------------------------------------------------------------------- runs

  /** The auxiliary state at the end of a run. */
  ghost function Track(c: Config, g: Ghost, steps: seq<Step>): Ghost
    requires IsRun(c, steps)
    decreases |steps|
  {
    if steps == [] then g
    else
      var front := steps[..|steps| - 1];
      GhostNext(Exec(c, front), Track(c, g, front), steps[|steps| - 1])
  }

  /** The atomic queue that a run of the protocol is seen as. */
  ghost function Seen(platform: Platform, state: nat, steps: seq<Step>): AQ.Queue<Id>
    requires IsRun(Init(platform, state), steps)
  {
    Track(Init(platform, state), InitGhost(state), steps).q
  }

  lemma {:induction false} RunKeepsInv(c: Config, g: Ghost, steps: seq<Step>)
    requires Inv(c, g) && IsRun(c, steps)
    ensures Inv(Exec(c, steps), Track(c, g, steps))
    decreases |steps|
  {
    if steps != [] {
      var front := steps[..|steps| - 1];
      RunKeepsInv(c, g, front);
      StepKeepsInv(Exec(c, front), Track(c, g, front), steps[|steps| - 1]);
    }
  }

  lemma ReachableInv(platform: Platform, state: nat, steps: seq<Step>)
    requires IsRun(Init(platform, state), steps)
    ensures Inv(Exec(Init(platform, state), steps), Track(Init(platform, state), InitGhost(state), steps))
  {
    InitOk(platform, state);
    RunKeepsInv(Init(platform, state), InitGhost(state), steps);
  }

  // --------------------------------------------- the queue is the atomic object

  /** `q` lists, front to back, what the tail word and the `prev` fields say: the chain of
      `prev` pointers from the tail to the head marker. */
  ghost predicate PrevChain(c: Config, q: seq<Id>) {
    && TailSlot(c.tail) == SlotAt(HeadSlot, q, |q|)
    && BackChain(c.prev, q)
  }

  ghost predicate BackChain(prev: map<Id, Prev>, q: seq<Id>) {
    forall i {:trigger SlotAt(HeadSlot, q, i)} :: 0 <= i < |q| ==> PrevAt(prev, q[i]) == PrevOf(SlotAt(HeadSlot, q, i))
  }

  /** The content is a function of memory alone. */
  lemma {:induction false} PrevChainUnique(prev: map<Id, Prev>, q: seq<Id>, r: seq<Id>)
    requires BackChain(prev, q) && BackChain(prev, r)
    requires SlotAt(HeadSlot, q, |q|) == SlotAt(HeadSlot, r, |r|)
    ensures q == r
    decreases |q|
  {
    if q != [] && r != [] {
      var q', r' := q[..|q| - 1], r[..|r| - 1];
      assert SlotAt(HeadSlot, q, |q| - 1) == SlotAt(HeadSlot, q', |q'|);
      assert SlotAt(HeadSlot, r, |r| - 1) == SlotAt(HeadSlot, r', |r'|);
      assert BackChain(prev, q') by {
        forall i | 0 <= i < |q'| ensures PrevAt(prev, q'[i]) == PrevOf(SlotAt(HeadSlot, q', i)) {
          assert SlotAt(HeadSlot, q', i) == SlotAt(HeadSlot, q, i);
        }
      }
      assert BackChain(prev, r') by {
        forall i | 0 <= i < |r'| ensures PrevAt(prev, r'[i]) == PrevOf(SlotAt(HeadSlot, r', i)) {
          assert SlotAt(HeadSlot, r', i) == SlotAt(HeadSlot, r, i);
        }
      }
      PrevChainUnique(prev, q', r');
      assert q == q' + [q[|q| - 1]] && r == r' + [r[|r| - 1]];
    }
  }

  lemma LiveIsPrevChain(c: Config, g: Ghost)
    requires Inv(c, g)
    ensures PrevChain(c, g.q.live)
  {
    forall i | 0 <= i < |g.q.live|
      ensures PrevAt(c.prev, g.q.live[i]) == PrevOf(SlotAt(HeadSlot, g.q.live, i))
    {
      LivePrev(c, g, i);
    }
  }

  /** The tail word says whether the queue is empty, and then its state. */
  lemma TailWord(c: Config, g: Ghost)
    requires TailOk(c, g) && LiveChain(g)
    ensures (c.tail.Empty? <==> g.q.live == []) && (c.tail.Empty? ==> c.tail.state == g.q.state)
  {
  }

  /** `rest` is what memory says of the list behind the sentinel of drain `z`: its slots, front
      to back, but for outstanding publications and the slot the remover has claimed, and its
      `prev` fields, back to front, but for that of the first node. */
  ghost predicate DrainSpelled(c: Config, z: nat, rest: seq<Id>) {
    && (forall i {:trigger SlotAt(SentinelSlot(z), rest, i)} :: 0 <= i < |rest| ==>
          var s := SlotAt(SentinelSlot(z), rest, i);
          MemAt(c.mem, s) == To(rest[i]) || EnqAt(c.enq, rest[i]) == Linking(s) || Claimed(c.pc) == Some(s))
    && (rest != [] ==> PrevAt(c.prev, Sentinel(z)) == At(rest[|rest| - 1]))
    && (forall i {:trigger SlotAt(SentinelSlot(z), rest, i)} :: 1 <= i < |rest| ==>
          PrevAt(c.prev, rest[i]) == PrevOf(SlotAt(SentinelSlot(z), rest, i)))
    && (rest == [] ==> MemAt(c.mem, SentinelSlot(z)) in {Null, To(Sentinel(z))} || Claimed(c.pc) == Some(SentinelSlot(z)))
  }

  /** The drained nodes are where the slots of their predecessors say. */
  lemma DrainSlot(c: Config, g: Ghost, z: nat, i: nat)
    requires Inverse(g) && NextOk(c, g) && PrevOk(c, g) && z in g.q.lists && DrainChain(g, z)
    requires i < |ListOf(g, z)|
    ensures var n, s := ListOf(g, z)[i], SlotAt(SentinelSlot(z), ListOf(g, z), i);
      && n in g.at && g.at[n] == s
      && (MemAt(c.mem, s) == To(n) || EnqAt(c.enq, n) == Linking(s) || Claimed(c.pc) == Some(s))
      && (i > 0 && i <= |g.q.lists[z].rest| ==> PrevAt(c.prev, n) == PrevOf(s))
  {
    var l := ListOf(g, z);
    assert SlotAt(SentinelSlot(z), l, i) in g.succ && g.succ[SlotAt(SentinelSlot(z), l, i)] == l[i];
    if i > 0 && i <= |g.q.lists[z].rest| {
      var p := g.q.lists[z].rest[i - 1];
      assert l[i - 1] == p && p in g.q.lists[z].rest;
    }
  }

  lemma DrainsSpelled(c: Config, g: Ghost, z: nat)
    requires Inverse(g) && NextOk(c, g) && PrevOk(c, g) && DrainsOk(c, g) && OwnersOk(c, g)
    requires z in g.q.lists && DrainChain(g, z)
    ensures DrainSpelled(c, z, g.q.lists[z].rest)
  {
    var rest, l := g.q.lists[z].rest, ListOf(g, z);
    forall i | 0 <= i < |l| ensures l[i] in g.at { DrainSlot(c, g, z, i); }
    forall i {:trigger SlotAt(SentinelSlot(z), rest, i)} | 0 <= i < |rest|
      ensures var s := SlotAt(SentinelSlot(z), rest, i);
        && (MemAt(c.mem, s) == To(rest[i]) || EnqAt(c.enq, rest[i]) == Linking(s) || Claimed(c.pc) == Some(s))
        && (i > 0 ==> PrevAt(c.prev, rest[i]) == PrevOf(s))
    {
      DrainSlot(c, g, z, i);
      assert l[i] == rest[i] && SlotAt(SentinelSlot(z), l, i) == SlotAt(SentinelSlot(z), rest, i);
    }
    assert DrainOk(c, g, z);
    if z in g.ring {
      DrainSlot(c, g, z, |rest|);
      assert OwnerOk(c, g, Sentinel(z));
    }
  }

  /** Refinement: at every point of every run the memory holds exactly the atomic queue
      (the unique chain of `prev` pointers, the state when that chain is empty, and behind the
      sentinel of each drain what it still holds), and the next step, whoever takes it, is one
      enabled operation of that queue. */
  lemma Refinement(platform: Platform, state: nat, steps: seq<Step>, step: Step)
    requires IsRun(Init(platform, state), steps + [step])
    ensures IsRun(Init(platform, state), steps)
    ensures var c, q := Exec(Init(platform, state), steps), Seen(platform, state, steps);
      && PrevChain(c, q.live) && (forall r :: PrevChain(c, r) ==> r == q.live)
      && (c.tail.Empty? <==> q.live == []) && (c.tail.Empty? ==> c.tail.state == q.state)
      && c.drains == q.lists.Keys && (forall z :: z in q.lists ==> DrainSpelled(c, z, q.lists[z].rest))
      && AQ.Enabled(q, OpOf(c, step))
      && Seen(platform, state, steps + [step]) == AQ.Apply(q, OpOf(c, step))
  {
    var c0, all := Init(platform, state), steps + [step];
    assert all[..|all| - 1] == steps;
    var c, g := Exec(c0, steps), Track(c0, InitGhost(state), steps);
    ReachableInv(platform, state, steps);
    StepKeepsInv(c, g, step);
    MemoryIsQueue(c, g);
  }

  lemma MemoryIsQueue(c: Config, g: Ghost)
    requires Inv(c, g)
    ensures PrevChain(c, g.q.live) && (forall r :: PrevChain(c, r) ==> r == g.q.live)
    ensures (c.tail.Empty? <==> g.q.live == []) && (c.tail.Empty? ==> c.tail.state == g.q.state)
    ensures c.drains == g.q.lists.Keys && forall z :: z in g.q.lists ==> DrainSpelled(c, z, g.q.lists[z].rest)
  {
    LiveIsPrevChain(c, g);
    forall r | PrevChain(c, r) ensures r == g.q.live { PrevChainUnique(c.prev, r, g.q.live); }
    TailWord(c, g);
    forall z | z in g.q.lists ensures DrainSpelled(c, z, g.q.lists[z].rest) { DrainsSpelled(c, g, z); }
  }

  /** The node that a drain hands out is the head of its list: the step yields exactly it, and
      leaves the drain about to mark it. */
  lemma HandsOutHead(platform: Platform, state: nat, steps: seq<Step>)
    requires IsRun(Init(platform, state), steps + [Drain(Advance)])
    ensures IsRun(Init(platform, state), steps)
    ensures var c, q := Exec(Init(platform, state), steps), Seen(platform, state, steps);
      var d, r := Exec(Init(platform, state), steps + [Drain(Advance)]), Seen(platform, state, steps + [Drain(Advance)]);
      && c.pc.Advancing? && c.pc.z in q.lists && q.lists[c.pc.z].rest != [] && c.pc.n == q.lists[c.pc.z].rest[0]
      && c.pc.z in r.lists && r.lists[c.pc.z].yielded == q.lists[c.pc.z].yielded + [c.pc.n]
      && d.pc == FinishingYield(c.pc.z, c.pc.n)
  {
    Refinement(platform, state, steps, Drain(Advance));
    ReachableInv(platform, state, steps);
    assert (steps + [Drain(Advance)])[..|steps|] == steps;
    AdvancesHead(Exec(Init(platform, state), steps), Track(Init(platform, state), InitGhost(state), steps));
  }

  lemma AdvancesHead(c: Config, g: Ghost)
    requires HolderOk(c, g) && c.pc.Advancing?
    ensures c.pc.z in g.q.lists && g.q.lists[c.pc.z].rest != [] && c.pc.n == g.q.lists[c.pc.z].rest[0]
    ensures DrainNext(c, Advance).pc == FinishingYield(c.pc.z, c.pc.n)
  {
  }

  /** Until then nothing else happens to the drain: the next step of the lock holder marks that
      very node Dequeued. */
  lemma HandedOutIsMarked(c: Config, step: Step)
    requires c.pc.FinishingYield? && Enabled(c, step)
    ensures if step == Drain(FinishYield) then PrevAt(Next(c, step).prev, c.pc.n).Dequeued? && Next(c, step).pc == Draining(c.pc.z)
      else Next(c, step).pc == c.pc && !OpOf(c, step).Yield?
  {
  }

  /** No run ever dereferences a null or marker pointer or fails the debug assertion. */
  lemma NeverCrashes(platform: Platform, state: nat, steps: seq<Step>)
    requires IsRun(Init(platform, state), steps)
    ensures !Exec(Init(platform, state), steps).pc.Crash?
  {
    ReachableInv(platform, state, steps);
    NotCrashed(Exec(Init(platform, state), steps), Track(Init(platform, state), InitGhost(state), steps));
  }

  lemma NotCrashed(c: Config, g: Ghost)
    requires HolderOk(c, g)
    ensures !c.pc.Crash?
  {
  }

  lemma SeenApart(platform: Platform, state: nat, steps: seq<Step>)
    requires IsRun(Init(platform, state), steps)
    ensures AQ.Inv(Seen(platform, state, steps))
  {
    ReachableInv(platform, state, steps);
  }

  /** Along every run each drain has yielded, in FIFO order and once each, what it took minus
      what removed itself, followed by what it still holds. */
  lemma {:induction false} DrainHistory(platform: Platform, state: nat, steps: seq<Step>)
    requires IsRun(Init(platform, state), steps)
    ensures AQ.History(Seen(platform, state, steps))
    decreases |steps|
  {
    if steps != [] {
      var front, step := steps[..|steps| - 1], steps[|steps| - 1];
      DrainHistory(platform, state, front);
      SeenApart(platform, state, front);
      assert front + [step] == steps;
      Refinement(platform, state, front, step);
      AQ.HistoryKept(Seen(platform, state, front), OpOf(Exec(Init(platform, state), front), step));
    }
  }
}
