/** The guard operations and `get_next` keep the invariant. */
module ProtocolGetNext {
  import opened Options
  import opened Protocol
  import opened ProtocolInvariant
  import opened ProtocolChain
  import opened ProtocolDrainChain
  import AQ = AbstractQueue

  /** `d` is `c` with only the lock holder's own words changed. */
  ghost predicate OnlyHolder(c: Config, d: Config) {
    d == c.(pc := d.pc, token := d.token, parkedNext := d.parkedNext)
  }

  /** The new program counter of the holder takes over all that the old one answered for. */
  ghost predicate Handover(c: Config, g: Ghost, d: Config) {
    && (Claimed(c.pc).Some? ==>
          || Claimed(d.pc) == Claimed(c.pc)
          || Claimed(c.pc).value !in g.succ
          || MemAt(c.mem, Claimed(c.pc).value) == To(g.succ[Claimed(c.pc).value]))
    && (Claimed(d.pc).Some? && Claimed(d.pc) != Claimed(c.pc) ==>
          Claimed(d.pc).value in g.succ && !EnqAt(c.enq, g.succ[Claimed(d.pc).value]).Linking?)
    && (Leaving(c.pc).Some? ==> Leaving(d.pc) == Leaving(c.pc))
    && (OpenedDrain(c.pc).Some? ==>
          || OpenedDrain(d.pc) == OpenedDrain(c.pc)
          || (OpenedDrain(c.pc).value in g.q.lists && g.q.lists[OpenedDrain(c.pc).value].rest == [])
          || OpenedDrain(c.pc).value in g.ring)
    && (forall s :: MemAt(c.mem, s) == Parked ==> Sleeping(d, s))
  }

  lemma HandoverOwners(c: Config, g: Ghost, d: Config)
    requires OwnersOk(c, g) && OnlyHolder(c, d) && Handover(c, g, d)
    ensures OwnersOk(d, g)
  {
    forall m ensures OwnerOk(d, g, m) { assert OwnerOk(c, g, m); }
  }

  lemma HandoverLinks(c: Config, g: Ghost, d: Config)
    requires Links(c, g) && OnlyHolder(c, d) && Handover(c, g, d)
    ensures Links(d, g)
  {
    HandoverOwners(c, g, d);
    forall z ensures DrainOk(d, g, z) { assert DrainOk(c, g, z); }
  }

  /** The parked marker exists only while the holder sleeps on it. */
  lemma NoneParked(c: Config, g: Ghost)
    requires NextOk(c, g) && !c.pc.Getting?
    ensures forall s :: MemAt(c.mem, s) != Parked
  {
  }

  /** `d` is `c` after the holder, not inside `get_next`, wrote `v` into slot `s`. */
  ghost predicate Wrote(c: Config, d: Config, s: Slot, v: Ptr) {
    d == c.(mem := c.mem[s := v], pc := d.pc, drains := d.drains) && !c.pc.Getting? && v != Parked
  }

  /** The slot belongs to the holder: no enqueuer still has to publish in it or relies on it. */
  ghost predicate Writable(c: Config, g: Ghost, s: Slot) {
    && (s in g.succ || (s.NextOf? && (s.id in g.at || s.id.Sentinel?)))
    && (s in g.succ ==> !EnqAt(c.enq, g.succ[s]).Linking?)
  }

  lemma WriteOwners(c: Config, g: Ghost, d: Config, s: Slot, v: Ptr)
    requires OwnersOk(c, g) && Wrote(c, d, s, v) && Writable(c, g, s)
    requires Leaving(c.pc).Some? ==> Leaving(d.pc) == Leaving(c.pc)
    requires Claimed(d.pc).Some? ==>
      Claimed(d.pc).value in g.succ && !EnqAt(c.enq, g.succ[Claimed(d.pc).value]).Linking?
    ensures OwnersOk(d, g)
  {
    forall m ensures OwnerOk(d, g, m) { assert OwnerOk(c, g, m); }
  }

  lemma WriteNext(c: Config, g: Ghost, d: Config, s: Slot, v: Ptr)
    requires NextOk(c, g) && Wrote(c, d, s, v)
    requires s in g.succ ==> v == To(g.succ[s]) || Claimed(d.pc) == Some(s)
    requires Claimed(c.pc).Some? ==> Claimed(c.pc) == Some(s) || Claimed(d.pc) == Claimed(c.pc)
    ensures NextOk(d, g)
  {
    NoneParked(c, g);
    forall t ensures MemAt(d.mem, t) != Parked { assert MemAt(c.mem, t) != Parked; }
  }

  // ------------------------------------------------------------------- guards

  lemma GuardKeepsInv(c: Config, g: Ghost, a: GuardAct)
    requires Inv(c, g) && GuardEnabled(c, a)
    ensures Inv(GuardNext(c, a), g)
  {
    var d := GuardNext(c, a);
    NoneParked(c, g);
    HandoverLinks(c, g, d);
    if a.Dequeue? || a.Pop? {
      assert SlotAt(HeadSlot, g.q.live, 0) == HeadSlot;
    }
  }

  // ----------------------------------------------------------------- get_next

  /** While the holder waits for a slot, nothing but its successor can appear there. */
  lemma SlotValue(c: Config, g: Ghost)
    requires Inverse(g) && Links(c, g) && HolderOk(c, g) && c.pc.Getting?
    ensures var s := c.pc.slot;
      && s in g.succ
      && (MemAt(c.mem, s).To? ==> MemAt(c.mem, s) == To(g.succ[s]) && !EnqAt(c.enq, g.succ[s]).Linking?)
      && (!MemAt(c.mem, s).To? ==> EnqAt(c.enq, g.succ[s]) == Linking(s))
      && (MemAt(c.mem, s) == Parked ==> Sleeping(c, s))
  {
    assert OwnerOk(c, g, g.succ[c.pc.slot]);
  }

  lemma ResumeHolder(c: Config, g: Ghost, d: Config)
    requires Inverse(g) && HolderOk(c, g) && c.pc.Getting? && OnlyHolder(c, d)
    requires forall z :: z in g.q.lists ==> DrainChain(g, z)
    requires var s := c.pc.slot;
      && MemAt(c.mem, s) == To(g.succ[s])
      && (forall t :: EnqAt(c.enq, g.succ[s]) == Linking(t) ==> t == s && !MemAt(c.mem, s).To?)
      && d.pc == Resume(c.pc.k, To(g.succ[s]))
    ensures HolderOk(d, g)
  {
    match c.pc.k
    case ForYield(z, n) => OpenHead(g, z);
    case _ =>
  }

  lemma ResumeLinks(c: Config, g: Ghost, d: Config)
    requires Links(c, g) && HolderOk(c, g) && c.pc.Getting? && OnlyHolder(c, d)
    requires MemAt(c.mem, c.pc.slot) == To(g.succ[c.pc.slot]) && d.pc == Resume(c.pc.k, To(g.succ[c.pc.slot]))
    ensures Links(d, g)
  {
    forall s | MemAt(c.mem, s) == Parked ensures Sleeping(d, s) { assert Sleeping(c, s); }
    HandoverLinks(c, g, d);
  }

  lemma ResumeKeepsInv(c: Config, g: Ghost, d: Config)
    requires Inv(c, g) && c.pc.Getting? && OnlyHolder(c, d)
    requires MemAt(c.mem, c.pc.slot).To? && d.pc == Resume(c.pc.k, MemAt(c.mem, c.pc.slot))
    ensures Inv(d, g)
  {
    SlotValue(c, g);
    var n := g.succ[c.pc.slot];
    assert OwnerOk(c, g, n);
    ResumeHolder(c, g, d);
    ResumeLinks(c, g, d);
  }

  /** Falling asleep, waking up and looking again. */
  lemma WaitKeepsInv(c: Config, g: Ghost, d: Config)
    requires Inv(c, g) && c.pc.Getting? && OnlyHolder(c, d)
    requires d.pc.Getting? && d.pc.slot == c.pc.slot && d.pc.k == c.pc.k
    requires WaitOk(d, g, c.pc.slot, d.pc.w)
    requires MemAt(c.mem, c.pc.slot) == Parked ==> Sleeping(d, c.pc.slot)
    ensures Inv(d, g)
  {
    forall s | MemAt(c.mem, s) == Parked ensures Sleeping(d, s) { assert Sleeping(c, s); }
    HandoverLinks(c, g, d);
  }

  /** Replacing null by the parked marker in the awaited slot. */
  lemma RegisterLinks(c: Config, g: Ghost)
    requires Links(c, g) && HolderOk(c, g) && GetEnabled(c, Register) && c.platform.Swap?
    requires MemAt(c.mem, c.pc.slot) == Null && c.pc.slot != TailSlot(c.tail)
    requires forall z :: Opened(g, z) && g.q.lists[z].rest == [] ==> SentinelSlot(z) !in g.succ
    requires EnqAt(c.enq, g.succ[c.pc.slot]) == Linking(c.pc.slot)
    ensures Links(GetNext(c, Register), g)
  {
    var d := GetNext(c, Register);
    forall s | MemAt(d.mem, s) == Parked ensures Sleeping(d, s) {
      if s != c.pc.slot { assert Sleeping(c, s); }
    }
    RegisterOwners(c, g);
    forall z ensures DrainOk(d, g, z) { assert DrainOk(c, g, z); }
  }

  lemma RegisterOwners(c: Config, g: Ghost)
    requires OwnersOk(c, g) && HolderOk(c, g) && GetEnabled(c, Register) && c.platform.Swap?
    requires MemAt(c.mem, c.pc.slot) == Null
    ensures OwnersOk(GetNext(c, Register), g)
  {
    var d := GetNext(c, Register);
    forall m ensures OwnerOk(d, g, m) { assert OwnerOk(c, g, m); }
  }

  lemma RegisterHolder(c: Config, g: Ghost)
    requires HolderOk(c, g) && GetEnabled(c, Register) && c.platform.Swap? && MemAt(c.mem, c.pc.slot) == Null
    requires EnqAt(c.enq, g.succ[c.pc.slot]) == Linking(c.pc.slot)
    ensures HolderOk(GetNext(c, Register), g)
  {
  }

  lemma RegisterKeepsInv(c: Config, g: Ghost)
    requires Inv(c, g) && GetEnabled(c, Register)
    ensures Inv(GetNext(c, Register), g)
  {
    var d := GetNext(c, Register);
    SlotValue(c, g);
    if c.platform.Dekker? {
      WaitKeepsInv(c, g, d);
    } else if MemAt(c.mem, c.pc.slot) == Null {
      EmptyOpen(g);
      RegisterLinks(c, g);
      RegisterHolder(c, g);
    } else {
      ResumeKeepsInv(c, g, d);
    }
  }

  lemma GetKeepsInv(c: Config, g: Ghost, a: GetAct)
    requires Inv(c, g) && GetEnabled(c, a)
    ensures Inv(GetNext(c, a), g)
  {
    var d := GetNext(c, a);
    SlotValue(c, g);
    match a
    case Load => if MemAt(c.mem, c.pc.slot) != Null { ResumeKeepsInv(c, g, d); }
    case Register => RegisterKeepsInv(c, g);
    case Park => WaitKeepsInv(c, g, d);
    case LoadAgain =>
      if MemAt(c.mem, c.pc.slot).To? && !c.platform.Dekker? {
        ResumeKeepsInv(c, g, d);
      } else {
        WaitKeepsInv(c, g, d);
      }
    case Forget => ResumeKeepsInv(c, g, d);
  }
}
