/** The drain and its unlocked windows keep the invariant. */
module ProtocolDraining {
  import opened Options
  import opened Protocol
  import opened ProtocolInvariant
  import opened ProtocolChain
  import opened ProtocolDrainChain
  import opened ProtocolGetNext
  import opened ProtocolRemoval
  import AQ = AbstractQueue

  // ------------------------------------------------------------------- facts

  /** What the first pointer of an open drained list holds. */
  lemma OpenValue(c: Config, g: Ghost, z: nat)
    requires HasChain(g, z) && NextOk(c, g) && OwnersOk(c, g) && DrainsOk(c, g)
    requires Opened(g, z) && Claimed(c.pc).None?
    ensures var rest := g.q.lists[z].rest;
      MemAt(c.mem, SentinelSlot(z)) == if rest == [] then Null else To(rest[0])
  {
    assert DrainOk(c, g, z);
    if g.q.lists[z].rest != [] {
      OpenHead(g, z);
      assert OwnerOk(c, g, g.q.lists[z].rest[0]);
    }
  }

  ghost predicate HasChain(g: Ghost, z: nat) { z in g.q.lists && DrainChain(g, z) }

  lemma OpenPrev(c: Config, g: Ghost, z: nat)
    requires AQ.Inv(g.q) && DrainsOk(c, g) && Opened(g, z) && g.q.lists[z].rest != []
    ensures var rest := g.q.lists[z].rest;
      PrevAt(c.prev, Sentinel(z)) == At(rest[|rest| - 1]) && (rest[0] == rest[|rest| - 1] <==> |rest| == 1)
  {
    assert DrainOk(c, g, z);
  }

  /** All that an owner of the open drain `z` can see of its list. */
  ghost predicate OpenState(c: Config, g: Ghost, z: nat) {
    && Opened(g, z)
    && var rest := g.q.lists[z].rest;
    if rest == [] then MemAt(c.mem, SentinelSlot(z)) == Null else
    && rest[0].Node? && MemAt(c.mem, SentinelSlot(z)) == To(rest[0])
    && SentinelSlot(z) in g.succ && g.succ[SentinelSlot(z)] == rest[0]
    && PrevAt(c.prev, Sentinel(z)) == At(rest[|rest| - 1]) && (rest[0] == rest[|rest| - 1] <==> |rest| == 1)
    && (|rest| > 1 ==> NextOf(rest[0]) in g.succ)
  }

  lemma OpenStateOk(c: Config, g: Ghost, z: nat)
    requires AQ.Inv(g.q) && HasChain(g, z) && NextOk(c, g) && OwnersOk(c, g) && DrainsOk(c, g)
    requires Opened(g, z) && Claimed(c.pc).None?
    ensures OpenState(c, g, z)
  {
    OpenValue(c, g, z);
    if g.q.lists[z].rest != [] {
      OpenHead(g, z);
      OpenPrev(c, g, z);
    }
  }

  /** Steps of a drain owner that move only its program counter. */
  lemma OwnerMoves(c: Config, g: Ghost, d: Config)
    requires Links(c, g) && !c.pc.Getting? && d == c.(pc := d.pc)
    requires Claimed(c.pc).None? && Claimed(d.pc).None? && Leaving(c.pc).None?
    requires OpenedDrain(c.pc).Some? ==>
      || OpenedDrain(d.pc) == OpenedDrain(c.pc)
      || (OpenedDrain(c.pc).value in g.q.lists && g.q.lists[OpenedDrain(c.pc).value].rest == [])
    ensures Links(d, g)
  {
    NoneParked(c, g);
    HandoverLinks(c, g, d);
  }

  // ----------------------------------------------------------------- opening

  lemma OpenLinks(c: Config, g: Ghost, z: nat, st: nat)
    requires Links(c, g) && g.q.live == [] && DrainEnabled(c, Open(z, st)) && c.tail.Empty?
    requires SentinelSlot(z) !in g.succ
    ensures Links(DrainNext(c, Open(z, st)), g.(q := AQ.Apply(g.q, AQ.OpenDrain(z, st))))
  {
    var d, h := DrainNext(c, Open(z, st)), g.(q := AQ.Apply(g.q, AQ.OpenDrain(z, st)));
    WriteOwners(c, g, d, SentinelSlot(z), Null);
    forall m ensures OwnerOk(d, h, m) { assert OwnerOk(d, g, m); }
    WriteNext(c, g, d, SentinelSlot(z), Null);
    forall y ensures DrainOk(d, h, y) { assert DrainOk(c, g, y); }
  }

  lemma OpenKeepsInv(c: Config, g: Ghost, z: nat, st: nat)
    requires Inv(c, g) && DrainEnabled(c, Open(z, st)) && c.tail.Empty?
    ensures AQ.Enabled(g.q, AQ.OpenDrain(z, st))
    ensures Inv(DrainNext(c, Open(z, st)), g.(q := AQ.Apply(g.q, AQ.OpenDrain(z, st))))
  {
    assert g.q.live == [];
    FreshSentinel(g, z);
    ChainOpenEmpty(g, z, st);
    AQ.InvKept(g.q, AQ.OpenDrain(z, st));
    OpenLinks(c, g, z, st);
  }

  lemma OpenWaitKeepsInv(c: Config, g: Ghost, z: nat, st: nat)
    requires Inv(c, g) && DrainEnabled(c, Open(z, st)) && c.tail.Last?
    ensures Inv(DrainNext(c, Open(z, st)), g)
  {
    NoneParked(c, g);
    HandoverLinks(c, g, DrainNext(c, Open(z, st)));
    assert SlotAt(HeadSlot, g.q.live, 0) == HeadSlot;
  }

  lemma ClearHeadHolder(c: Config, g: Ghost)
    requires Inverse(g) && HolderOk(c, g) && DrainEnabled(c, ClearHead) && OwnerOk(c, g, c.pc.h)
    ensures HolderOk(DrainNext(c, ClearHead), g)
  {
  }

  lemma ClearHeadStep(c: Config, g: Ghost)
    requires Inverse(g) && Links(c, g) && HolderOk(c, g) && DrainEnabled(c, ClearHead)
    ensures Links(DrainNext(c, ClearHead), g) && HolderOk(DrainNext(c, ClearHead), g)
  {
    assert OwnerOk(c, g, c.pc.h);
    ClearHeadLinks(c, g);
    ClearHeadHolder(c, g);
  }

  lemma ClearHeadKeepsInv(c: Config, g: Ghost)
    requires Inv(c, g) && DrainEnabled(c, ClearHead)
    ensures Inv(DrainNext(c, ClearHead), g)
  {
    ClearHeadStep(c, g);
  }

  lemma ClearHeadLinks(c: Config, g: Ghost)
    requires Inverse(g) && Links(c, g) && HolderOk(c, g) && DrainEnabled(c, ClearHead)
    ensures Links(DrainNext(c, ClearHead), g)
  {
    var d := DrainNext(c, ClearHead);
    assert OwnerOk(c, g, c.pc.h);
    WriteOwners(c, g, d, HeadSlot, Null);
    WriteNext(c, g, d, HeadSlot, Null);
    forall z ensures DrainOk(d, g, z) { assert DrainOk(c, g, z); }
  }

  // ---------------------------------------------------------- swapping the tail

  lemma SwapAtHead(c: Config, g: Ghost)
    requires Chain(g) && TailOk(c, g) && HolderOk(c, g) && c.pc.SwappingTail?
    ensures g.q.live != [] && c.tail == Last(g.q.live[|g.q.live| - 1]) && c.pc.h == g.q.live[0] && c.pc.h.Node?
  {
    assert SlotAt(HeadSlot, [], 0) == HeadSlot;
    assert SlotAt(HeadSlot, g.q.live, 0) == HeadSlot;
    assert g.q.live[0] in g.q.live;
  }

  lemma SwapOwners(c: Config, g: Ghost, z: nat, h: Ghost)
    requires Inverse(g) && OwnersOk(c, g) && HolderOk(c, g) && DrainEnabled(c, SwapTail(z)) && c.tail.Last?
    requires h.succ == (g.succ - {HeadSlot})[SentinelSlot(z) := c.pc.h] && h.at == g.at[c.pc.h := SentinelSlot(z)]
    ensures OwnersOk(DrainNext(c, SwapTail(z)), h)
  {
    var d := DrainNext(c, SwapTail(z));
    forall m ensures OwnerOk(d, h, m) { assert OwnerOk(c, g, m); }
  }

  lemma SwapPrev(c: Config, g: Ghost, z: nat, h: Ghost)
    requires Inverse(g) && PrevOk(c, g) && HolderOk(c, g) && DrainEnabled(c, SwapTail(z)) && c.tail.Last?
    requires h.at == g.at[c.pc.h := SentinelSlot(z)] && h.ring == g.ring
    requires z !in g.ring && Sentinel(z) !in g.at && c.pc.h.Node?
    ensures PrevOk(DrainNext(c, SwapTail(z)), h)
  {
  }

  lemma SwapNext(c: Config, g: Ghost, z: nat, h: Ghost)
    requires Inverse(g) && NextOk(c, g) && HolderOk(c, g) && DrainEnabled(c, SwapTail(z)) && c.tail.Last?
    requires h.succ == (g.succ - {HeadSlot})[SentinelSlot(z) := c.pc.h] && SentinelSlot(z) !in g.succ
    ensures NextOk(DrainNext(c, SwapTail(z)), h)
  {
    var d := DrainNext(c, SwapTail(z));
    NoneParked(c, g);
    forall t ensures MemAt(d.mem, t) != Parked { assert MemAt(c.mem, t) != Parked; }
  }

  lemma SwapDrains(c: Config, g: Ghost, z: nat)
    requires TailOk(c, g) && DrainsOk(c, g) && DrainEnabled(c, SwapTail(z)) && HolderOk(c, g)
    requires g.q.live != [] && c.tail == Last(g.q.live[|g.q.live| - 1]) && z !in g.q.lists
    ensures TailOk(DrainNext(c, SwapTail(z)), Taken(g, z, c.pc.st))
    ensures DrainsOk(DrainNext(c, SwapTail(z)), Taken(g, z, c.pc.st))
  {
    forall y ensures DrainOk(DrainNext(c, SwapTail(z)), Taken(g, z, c.pc.st), y) { assert DrainOk(c, g, y); }
  }

  lemma SwapKeepsInv(c: Config, g: Ghost, z: nat)
    requires Inv(c, g) && DrainEnabled(c, SwapTail(z))
    ensures g.q.live != [] && z !in g.q.lists
    ensures Inv(DrainNext(c, SwapTail(z)), Taken(g, z, c.pc.st))
  {
    SwapAtHead(c, g);
    FreshSentinel(g, z);
    var h := Taken(g, z, c.pc.st);
    ChainTake(g, z, c.pc.st);
    AQ.InvKept(g.q, AQ.OpenDrain(z, c.pc.st));
    SwapOwners(c, g, z, h);
    SwapPrev(c, g, z, h);
    SwapNext(c, g, z, h);
    SwapDrains(c, g, z);
    assert Links(DrainNext(c, SwapTail(z)), h);
  }

  // ------------------------------------------------------------------- yielding

  lemma YieldMoves(c: Config, g: Ghost)
    requires DrainEnabled(c, Yield) && OpenState(c, g, c.pc.z)
    ensures var d := DrainNext(c, Yield);
      && HolderOk(d, g) && OpenedDrain(d.pc) == Some(c.pc.z)
      && d == c.(pc := d.pc) && Claimed(d.pc).None?
  {
  }

  /** While a drain owner is at work, its list is open. */
  lemma OwnDrainOpen(c: Config, g: Ghost)
    requires Inv(c, g) && c.pc.Draining?
    ensures OpenState(c, g, c.pc.z)
  {
    DrainingIsOpen(c, g);
    OpenStateOk(c, g, c.pc.z);
  }

  lemma DrainingIsOpen(c: Config, g: Ghost)
    requires HolderOk(c, g) && c.pc.Draining?
    ensures Opened(g, c.pc.z) && Claimed(c.pc).None?
  {
  }

  lemma YieldKeepsInv(c: Config, g: Ghost)
    requires Inv(c, g) && DrainEnabled(c, Yield)
    ensures Inv(DrainNext(c, Yield), g)
  {
    OwnDrainOpen(c, g);
    YieldStep(c, g);
  }

  lemma YieldStep(c: Config, g: Ghost)
    requires Links(c, g) && DrainEnabled(c, Yield) && OpenState(c, g, c.pc.z)
    ensures Links(DrainNext(c, Yield), g) && HolderOk(DrainNext(c, Yield), g)
  {
    YieldMoves(c, g);
    OwnerMoves(c, g, DrainNext(c, Yield));
  }

  /** `h` is `g` after the first node of the open list `z` was handed out. */
  ghost predicate HandedOut(c: Config, g: Ghost, h: Ghost) {
    && c.pc.Advancing? && AQ.Enabled(g.q, AQ.Yield(c.pc.z)) && h == Yielded(g, c.pc.z)
    && Opened(g, c.pc.z) && c.pc.n == g.q.lists[c.pc.z].rest[0] && c.pc.n.Node?
    && SentinelSlot(c.pc.z) in g.succ && g.succ[SentinelSlot(c.pc.z)] == c.pc.n
    && (if |g.q.lists[c.pc.z].rest| == 1 then NextOf(c.pc.n) !in g.succ
        else NextOf(c.pc.n) in g.succ && g.succ[NextOf(c.pc.n)] == g.q.lists[c.pc.z].rest[1])
  }

  lemma AdvanceOwners(c: Config, g: Ghost, h: Ghost)
    requires Inverse(g) && OwnersOk(c, g) && HolderOk(c, g) && HandedOut(c, g, h)
    ensures OwnersOk(DrainNext(c, Advance), h)
  {
    var d := DrainNext(c, Advance);
    forall m ensures OwnerOk(d, h, m) { assert OwnerOk(c, g, m); }
  }

  lemma AdvancePrevNext(c: Config, g: Ghost, h: Ghost)
    requires Inverse(g) && PrevOk(c, g) && NextOk(c, g) && HolderOk(c, g) && HandedOut(c, g, h)
    ensures PrevOk(DrainNext(c, Advance), h) && NextOk(DrainNext(c, Advance), h)
  {
    var d := DrainNext(c, Advance);
    NoneParked(c, g);
    forall t ensures MemAt(d.mem, t) != Parked { assert MemAt(c.mem, t) != Parked; }
  }

  lemma AdvanceDrains(c: Config, g: Ghost, h: Ghost)
    requires TailOk(c, g) && DrainsOk(c, g) && HolderOk(c, g) && HandedOut(c, g, h)
    requires TailSlot(c.tail) !in g.succ
    ensures TailOk(DrainNext(c, Advance), h) && DrainsOk(DrainNext(c, Advance), h)
  {
    var d := DrainNext(c, Advance);
    forall z ensures DrainOk(d, h, z) { assert DrainOk(c, g, z); }
  }

  lemma AdvanceHolder(c: Config, g: Ghost, h: Ghost)
    requires Inverse(g) && HolderOk(c, g) && PrevOk(c, g) && HandedOut(c, g, h) && OwnerOk(c, g, c.pc.n)
    ensures HolderOk(DrainNext(c, Advance), h)
  {
  }

  lemma AdvanceEffects(c: Config, g: Ghost, h: Ghost)
    requires Inverse(g) && Links(c, g) && HolderOk(c, g) && HandedOut(c, g, h) && TailSlot(c.tail) !in g.succ
    ensures Links(DrainNext(c, Advance), h) && HolderOk(DrainNext(c, Advance), h)
  {
    assert OwnerOk(c, g, c.pc.n);
    AdvanceOwners(c, g, h);
    AdvancePrevNext(c, g, h);
    AdvanceDrains(c, g, h);
    AdvanceHolder(c, g, h);
  }

  lemma AdvanceKeepsInv(c: Config, g: Ghost)
    requires Inv(c, g) && DrainEnabled(c, Advance)
    ensures AQ.Enabled(g.q, AQ.Yield(c.pc.z)) && Inv(DrainNext(c, Advance), Yielded(g, c.pc.z))
  {
    var z := c.pc.z;
    OpenHead(g, z);
    ChainYield(g, z);
    AQ.InvKept(g.q, AQ.Yield(z));
    AdvanceEffects(c, g, Yielded(g, z));
  }

  lemma FinishYieldKeepsInv(c: Config, g: Ghost)
    requires Inv(c, g) && DrainEnabled(c, FinishYield)
    ensures Inv(DrainNext(c, FinishYield), g)
  {
    FinishLinks(c, DrainNext(c, FinishYield), g, c.pc.n);
  }

  // ------------------------------------------------------- the unlocked window

  lemma BeginMoves(c: Config, g: Ghost)
    requires DrainEnabled(c, BeginUnlocked) && OpenState(c, g, c.pc.z)
    ensures var d := DrainNext(c, BeginUnlocked);
      && HolderOk(d, g) && d == c.(pc := d.pc) && Claimed(d.pc).None?
      && (OpenedDrain(d.pc) == Some(c.pc.z) || g.q.lists[c.pc.z].rest == [])
  {
  }

  lemma BeginUnlockedKeepsInv(c: Config, g: Ghost)
    requires Inv(c, g) && DrainEnabled(c, BeginUnlocked)
    ensures Inv(DrainNext(c, BeginUnlocked), g)
  {
    OwnDrainOpen(c, g);
    BeginStep(c, g);
  }

  lemma BeginStep(c: Config, g: Ghost)
    requires Links(c, g) && DrainEnabled(c, BeginUnlocked) && OpenState(c, g, c.pc.z)
    ensures Links(DrainNext(c, BeginUnlocked), g) && HolderOk(DrainNext(c, BeginUnlocked), g)
  {
    BeginMoves(c, g);
    OwnerMoves(c, g, DrainNext(c, BeginUnlocked));
  }

  lemma LinkHeadOwners(c: Config, g: Ghost)
    requires OwnersOk(c, g) && DrainEnabled(c, LinkHead) && c.pc.h in g.at && c.pc.h.Node?
    ensures OwnersOk(DrainNext(c, LinkHead), g)
  {
    var d := DrainNext(c, LinkHead);
    forall m ensures OwnerOk(d, g, m) { assert OwnerOk(c, g, m); }
  }

  lemma LinkHeadNext(c: Config, g: Ghost)
    requires NextOk(c, g) && DrainEnabled(c, LinkHead)
    ensures NextOk(DrainNext(c, LinkHead), g)
  {
    NoneParked(c, g);
  }

  lemma LinkHeadLinks(c: Config, g: Ghost)
    requires Inverse(g) && Links(c, g) && DrainEnabled(c, LinkHead) && OpenState(c, g, c.pc.z)
    requires g.q.lists[c.pc.z].rest != [] && c.pc.h == g.q.lists[c.pc.z].rest[0]
    ensures Links(DrainNext(c, LinkHead), g)
  {
    var d := DrainNext(c, LinkHead);
    LinkHeadNext(c, g);
    LinkHeadOwners(c, g);
    forall z ensures DrainOk(d, g, z) { assert DrainOk(c, g, z); }
  }

  lemma LinkHeadHolder(c: Config, g: Ghost)
    requires DrainEnabled(c, LinkHead) && OpenState(c, g, c.pc.z)
    requires g.q.lists[c.pc.z].rest != [] && c.pc.h == g.q.lists[c.pc.z].rest[0]
    ensures HolderOk(DrainNext(c, LinkHead), g)
  {
  }

  lemma LinkHeadKeepsInv(c: Config, g: Ghost)
    requires Inv(c, g) && DrainEnabled(c, LinkHead)
    ensures Inv(DrainNext(c, LinkHead), g)
  {
    OpenStateOk(c, g, c.pc.z);
    LinkHeadLinks(c, g);
    LinkHeadHolder(c, g);
  }

  /** `s` is the free slot at the end of the open list that is being closed. */
  ghost predicate Closing(c: Config, g: Ghost, s: Slot) {
    && c.pc.LinkingTail? && Opened(g, c.pc.z) && g.q.lists[c.pc.z].rest != []
    && var rest := g.q.lists[c.pc.z].rest;
    && s == NextOf(rest[|rest| - 1]) && rest[|rest| - 1].Node? && rest[|rest| - 1] in g.at
    && s !in g.succ && Sentinel(c.pc.z) !in g.at && s != TailSlot(c.tail)
    && PrevAt(c.prev, Sentinel(c.pc.z)) == At(rest[|rest| - 1])
  }

  lemma ClosingOk(c: Config, g: Ghost)
    requires AQ.Inv(g.q) && Chain(g) && TailOk(c, g) && c.pc.LinkingTail? && OpenState(c, g, c.pc.z)
    requires g.q.lists[c.pc.z].rest != []
    ensures Closing(c, g, SlotOf(PrevAt(c.prev, Sentinel(c.pc.z))))
  {
    var rest := g.q.lists[c.pc.z].rest;
    assert DrainChain(g, c.pc.z);
    RestLinked(g, c.pc.z, |rest| - 1);
    EndsDifferOk(g);
    assert rest[|rest| - 1] in rest;
  }

  lemma LinkTailOwners(c: Config, g: Ghost, s: Slot)
    requires OwnersOk(c, g) && Closing(c, g, s)
    ensures OwnersOk(DrainNext(c, LinkTail), Closed(g, c.pc.z, s))
  {
    var d, h := DrainNext(c, LinkTail), Closed(g, c.pc.z, s);
    WriteOwners(c, g, d, s, To(Sentinel(c.pc.z)));
    forall m ensures OwnerOk(d, h, m) { assert OwnerOk(d, g, m); }
  }

  lemma LinkTailLinks(c: Config, g: Ghost, s: Slot)
    requires Inverse(g) && Links(c, g) && HolderOk(c, g) && Closing(c, g, s)
    ensures Links(DrainNext(c, LinkTail), Closed(g, c.pc.z, s))
  {
    var d, h := DrainNext(c, LinkTail), Closed(g, c.pc.z, s);
    LinkTailOwners(c, g, s);
    LinkTailNext(c, g, s);
    LinkTailPrev(c, g, s);
    forall z ensures DrainOk(d, h, z) { assert DrainOk(c, g, z); }
  }

  lemma LinkTailPrev(c: Config, g: Ghost, s: Slot)
    requires Inverse(g) && PrevOk(c, g) && TailOk(c, g) && HolderOk(c, g) && Closing(c, g, s)
    ensures PrevOk(DrainNext(c, LinkTail), Closed(g, c.pc.z, s))
    ensures TailOk(DrainNext(c, LinkTail), Closed(g, c.pc.z, s))
  {
  }

  lemma LinkTailNext(c: Config, g: Ghost, s: Slot)
    requires NextOk(c, g) && Closing(c, g, s)
    ensures NextOk(DrainNext(c, LinkTail), Closed(g, c.pc.z, s))
  {
    WriteNext(c, g, DrainNext(c, LinkTail), s, To(Sentinel(c.pc.z)));
  }

  lemma LinkTailHolder(c: Config, g: Ghost, s: Slot)
    requires Closing(c, g, s)
    ensures HolderOk(DrainNext(c, LinkTail), Closed(g, c.pc.z, s))
  {
  }

  lemma LinkTailKeepsInv(c: Config, g: Ghost)
    requires Inv(c, g) && DrainEnabled(c, LinkTail)
    ensures Inv(DrainNext(c, LinkTail), Closed(g, c.pc.z, SlotOf(PrevAt(c.prev, Sentinel(c.pc.z)))))
  {
    var s := SlotOf(PrevAt(c.prev, Sentinel(c.pc.z)));
    OpenStateOk(c, g, c.pc.z);
    ClosingOk(c, g);
    LinkTailLinks(c, g, s);
    LinkTailHolder(c, g, s);
    ChainClose(g, c.pc.z, s);
  }

  lemma ReleaseKeepsInv(c: Config, g: Ghost)
    requires Inv(c, g) && DrainEnabled(c, Release)
    ensures Inv(DrainNext(c, Release), g)
  {
    NoneParked(c, g);
    HandoverLinks(c, g, DrainNext(c, Release));
  }

  lemma RelockKeepsInv(c: Config, g: Ghost, z: nat)
    requires Inv(c, g) && DrainEnabled(c, Relock(z))
    ensures Inv(DrainNext(c, Relock(z)), g)
  {
    NoneParked(c, g);
    assert DrainOk(c, g, z);
    HandoverLinks(c, g, DrainNext(c, Relock(z)));
  }

  // ----------------------------------------------------------------- relocking

  /** What the first pointer of a ring holds. */
  lemma RingValue(c: Config, g: Ghost, z: nat)
    requires HasChain(g, z) && NextOk(c, g) && OwnersOk(c, g) && z in g.ring && Claimed(c.pc).None?
    ensures var rest := g.q.lists[z].rest;
      && SentinelSlot(z) in g.succ
      && MemAt(c.mem, SentinelSlot(z)) == To(g.succ[SentinelSlot(z)])
      && g.succ[SentinelSlot(z)] == (if rest == [] then Sentinel(z) else rest[0])
      && (rest != [] ==> rest[0].Node?)
  {
    var rest := g.q.lists[z].rest;
    assert SlotAt(SentinelSlot(z), ListOf(g, z), 0) == SentinelSlot(z);
    assert rest != [] ==> rest[0] in rest;
    assert OwnerOk(c, g, g.succ[SentinelSlot(z)]);
  }

  /** `s` is the slot through which the ring of the relocking drain closes. */
  ghost predicate Reopening(c: Config, g: Ghost, s: Slot) {
    && c.pc.Reacquired? && c.pc.z in g.q.lists && c.pc.z in g.ring
    && var rest := g.q.lists[c.pc.z].rest;
    && s in g.succ && g.succ[s] == Sentinel(c.pc.z)
    && s == SlotAt(SentinelSlot(c.pc.z), rest, |rest|)
    && (rest != [] ==> rest[|rest| - 1].Node?)
    && MemAt(c.mem, SentinelSlot(c.pc.z)) == To(if rest == [] then Sentinel(c.pc.z) else rest[0])
    && (rest != [] ==> rest[0].Node?)
    && SentinelSlot(c.pc.z) in g.succ && SentinelSlot(c.pc.z) != TailSlot(c.tail)
  }

  lemma ReopeningOk(c: Config, g: Ghost)
    requires Inv(c, g) && c.pc.Reacquired? && c.pc.z in g.ring
    ensures Sentinel(c.pc.z) in g.at && Reopening(c, g, g.at[Sentinel(c.pc.z)])
  {
    var rest := g.q.lists[c.pc.z].rest;
    RingEnd(g, c.pc.z);
    RingValue(c, g, c.pc.z);
    assert rest != [] ==> rest[|rest| - 1] in rest;
  }

  lemma ReopenOwners(c: Config, g: Ghost, s: Slot)
    requires Inverse(g) && OwnersOk(c, g) && Reopening(c, g, s)
    ensures OwnersOk(DrainNext(c, AfterRelock), Reopened(g, c.pc.z, s))
  {
    var d, h := DrainNext(c, AfterRelock), Reopened(g, c.pc.z, s);
    forall m ensures OwnerOk(d, h, m) { assert OwnerOk(c, g, m); }
  }

  lemma ReopenPrev(c: Config, g: Ghost, s: Slot)
    requires Inverse(g) && PrevOk(c, g) && Reopening(c, g, s)
    ensures PrevOk(DrainNext(c, AfterRelock), Reopened(g, c.pc.z, s))
  {
  }

  /** Opening the ring clears at most the sentinel's slot, and only if nothing is left. */
  lemma ReopenedMemory(c: Config, g: Ghost, s: Slot, t: Slot)
    requires Reopening(c, g, s)
    ensures MemAt(DrainNext(c, AfterRelock).mem, t) == if t == s && t == SentinelSlot(c.pc.z) then Null else MemAt(c.mem, t)
  {
  }

  lemma ReopenNext(c: Config, g: Ghost, s: Slot)
    requires Inverse(g) && NextOk(c, g) && Reopening(c, g, s)
    ensures NextOk(DrainNext(c, AfterRelock), Reopened(g, c.pc.z, s))
  {
    var d, h := DrainNext(c, AfterRelock), Reopened(g, c.pc.z, s);
    NoneParked(c, g);
    assert d.enq == c.enq;
    forall t ensures MemAt(d.mem, t) != Parked { ReopenedMemory(c, g, s, t); }
    forall t | t in h.succ ensures MemAt(d.mem, t) == To(h.succ[t]) || EnqAt(d.enq, h.succ[t]) == Linking(t) {
      assert t in g.succ && t != s;
      ReopenedMemory(c, g, s, t);
    }
  }

  lemma ReopenLinks(c: Config, g: Ghost, s: Slot)
    requires Inverse(g) && Links(c, g) && Reopening(c, g, s)
    ensures Links(DrainNext(c, AfterRelock), Reopened(g, c.pc.z, s))
  {
    ReopenOwners(c, g, s);
    ReopenPrev(c, g, s);
    ReopenNext(c, g, s);
    ReopenDrains(c, g, s);
  }

  lemma ReopenDrains(c: Config, g: Ghost, s: Slot)
    requires Inverse(g) && TailOk(c, g) && PrevOk(c, g) && DrainsOk(c, g) && Reopening(c, g, s)
    ensures TailOk(DrainNext(c, AfterRelock), Reopened(g, c.pc.z, s))
    ensures DrainsOk(DrainNext(c, AfterRelock), Reopened(g, c.pc.z, s))
  {
    var d, h := DrainNext(c, AfterRelock), Reopened(g, c.pc.z, s);
    forall z ensures DrainOk(d, h, z) { assert DrainOk(c, g, z); }
  }

  lemma AfterRelockKeepsInv(c: Config, g: Ghost)
    requires Inv(c, g) && DrainEnabled(c, AfterRelock) && c.pc.z in g.ring
    ensures Sentinel(c.pc.z) in g.at
    ensures Inv(DrainNext(c, AfterRelock), Reopened(g, c.pc.z, g.at[Sentinel(c.pc.z)]))
  {
    ReopeningOk(c, g);
    ChainReopen(g, c.pc.z);
    ReopenLinks(c, g, g.at[Sentinel(c.pc.z)]);
  }

  lemma EmptyRelock(c: Config)
    requires DrainEnabled(c, AfterRelock) && MemAt(c.mem, SentinelSlot(c.pc.z)) == Null
    ensures DrainNext(c, AfterRelock) == c.(pc := Draining(c.pc.z))
  {
  }

  lemma EmptyRelockOk(c: Config, g: Ghost)
    requires DrainsOk(c, g) && HolderOk(c, g) && DrainEnabled(c, AfterRelock) && c.pc.z !in g.ring
    ensures DrainNext(c, AfterRelock) == c.(pc := Draining(c.pc.z))
    ensures Opened(g, c.pc.z)
  {
    assert DrainOk(c, g, c.pc.z);
    EmptyRelock(c);
  }

  lemma EmptyRelockStep(c: Config, g: Ghost)
    requires Links(c, g) && HolderOk(c, g) && DrainEnabled(c, AfterRelock) && c.pc.z !in g.ring
    ensures Links(DrainNext(c, AfterRelock), g) && HolderOk(DrainNext(c, AfterRelock), g)
  {
    EmptyRelockOk(c, g);
    OwnerMoves(c, g, DrainNext(c, AfterRelock));
  }

  lemma AfterRelockEmptyKeepsInv(c: Config, g: Ghost)
    requires Inv(c, g) && DrainEnabled(c, AfterRelock) && c.pc.z !in g.ring
    ensures Sentinel(c.pc.z) !in g.at
    ensures Inv(DrainNext(c, AfterRelock), g)
  {
    EmptyRelockStep(c, g);
  }

  lemma CloseLinks(c: Config, g: Ghost)
    requires Links(c, g) && DrainEnabled(c, Close) && Opened(g, c.pc.z) && g.q.lists[c.pc.z].rest == []
    ensures Links(DrainNext(c, Close), g.(q := AQ.Apply(g.q, AQ.CloseDrain(c.pc.z))))
  {
    var d, h := DrainNext(c, Close), g.(q := AQ.Apply(g.q, AQ.CloseDrain(c.pc.z)));
    NoneParked(c, g);
    forall m ensures OwnerOk(d, h, m) { assert OwnerOk(c, g, m); }
    forall z ensures DrainOk(d, h, z) { assert DrainOk(c, g, z); }
  }

  lemma CloseKeepsInv(c: Config, g: Ghost)
    requires Inv(c, g) && DrainEnabled(c, Close)
    ensures AQ.Enabled(g.q, AQ.CloseDrain(c.pc.z))
    ensures Inv(DrainNext(c, Close), g.(q := AQ.Apply(g.q, AQ.CloseDrain(c.pc.z))))
  {
    OwnDrainOpen(c, g);
    ChainDrop(g, c.pc.z);
    AQ.InvKept(g.q, AQ.CloseDrain(c.pc.z));
    CloseLinks(c, g);
  }
}
