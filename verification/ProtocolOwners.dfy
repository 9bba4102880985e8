/**
 * Every step of an enqueuer, of a node owner and of a lock-free state update keeps the
 * invariant. What such a step may do to the lock holder is stated once, as `Rely`.
 */
module ProtocolOwners {
  import opened Options
  import opened Protocol
  import opened ProtocolInvariant
  import opened ProtocolChain
  import AQ = AbstractQueue

  // -------------------------------------------------------------- interference

  /** What the lock holder may assume of a step of anybody else. */
  ghost predicate Rely(c: Config, g: Ghost, d: Config, h: Ghost) {
    && d.pc == c.pc && d.platform == c.platform && d.parkedNext == c.parkedNext
    && h.ring == g.ring && h.q.lists == g.q.lists
    && (forall n :: n in g.q.live ==> n in h.q.live)
    && (forall s :: s in g.succ ==> RelySlot(c, g, d, h, s))
    && (forall n :: Left(c, g, n) ==> Left(d, h, n))
  }

  ghost predicate RelySlot(c: Config, g: Ghost, d: Config, h: Ghost, s: Slot)
    requires s in g.succ
  {
    var n := g.succ[s];
    && s in h.succ && h.succ[s] == n
    && PrevAt(d.prev, n) == PrevAt(c.prev, n)
    && (EnqAt(d.enq, n).Linking? ==> EnqAt(c.enq, n).Linking?)
    && (MemAt(d.mem, s) == MemAt(c.mem, s) ||
        (!MemAt(c.mem, s).To? && MemAt(d.mem, s).To? && Claimed(c.pc) != Some(s)))
    && (Owed(c, g, s) ==> Owed(d, h, s))
  }

  lemma HolderStable(c: Config, g: Ghost, d: Config, h: Ghost)
    requires Rely(c, g, d, h) && HolderOk(c, g)
    ensures HolderOk(d, h)
  {
  }

  // ------------------------------------------------------------- quiet steps

  /** `d` differs from `c` only in the program counter and `prev` of `n`, and in the token. */
  ghost predicate OnlyOwner(c: Config, d: Config, n: Id) {
    && d == c.(enq := d.enq, prev := d.prev, token := d.token)
    && (forall m :: m != n ==> EnqAt(d.enq, m) == EnqAt(c.enq, m) && PrevAt(d.prev, m) == PrevAt(c.prev, m))
  }

  lemma QuietLinks(c: Config, g: Ghost, d: Config, n: Id)
    requires Links(c, g) && OnlyOwner(c, d, n) && n.Node?
    requires n in g.at ==> PrevAt(d.prev, n) == PrevAt(c.prev, n)
    requires !EnqAt(c.enq, n).Linking? && !EnqAt(d.enq, n).Linking?
    requires OwnerOk(d, g, n)
    ensures Links(d, g)
  {
    forall m ensures OwnerOk(d, g, m) { assert OwnerOk(c, g, m); }
    forall z ensures DrainOk(d, g, z) { assert DrainOk(c, g, z); }
  }

  lemma QuietHolder(c: Config, g: Ghost, d: Config, n: Id)
    requires Inverse(g) && HolderOk(c, g) && OnlyOwner(c, d, n) && n.Node?
    requires n in g.at ==> PrevAt(d.prev, n) == PrevAt(c.prev, n)
    requires !EnqAt(c.enq, n).Linking? && !EnqAt(d.enq, n).Linking?
    requires Left(c, g, n) ==> Left(d, g, n)
    requires c.token ==> d.token
    requires EnqAt(c.enq, n).Unparking? ==> d.token
    requires EnqAt(c.enq, n).Checking? ==>
      EnqAt(d.enq, n).Unparking? || c.parkedNext != Some(EnqAt(c.enq, n).slot)
    ensures HolderOk(d, g)
  {
    forall s | s in g.succ ensures RelySlot(c, g, d, g, s) { }
    HolderStable(c, g, d, g);
  }

  predicate Quiet(a: OwnAct) { !a.CasOk? && !a.Publish? && !a.Reset? }

  lemma QuietOwner(c: Config, g: Ghost, n: Id, a: OwnAct)
    requires OwnerOk(c, g, n) && OwnEnabled(c, n, a) && Quiet(a)
    ensures var d := OwnNext(c, n, a);
      && n.Node? && OnlyOwner(c, d, n) && OwnerOk(d, g, n)
      && (n in g.at ==> PrevAt(d.prev, n) == PrevAt(c.prev, n))
      && !EnqAt(c.enq, n).Linking? && !EnqAt(d.enq, n).Linking?
  {
  }

  lemma QuietOk(c: Config, g: Ghost, n: Id, a: OwnAct)
    requires Inverse(g) && Links(c, g) && HolderOk(c, g) && OwnEnabled(c, n, a) && Quiet(a)
    ensures Links(OwnNext(c, n, a), g) && HolderOk(OwnNext(c, n, a), g)
  {
    assert OwnerOk(c, g, n);
    QuietOwner(c, g, n, a);
    QuietLinks(c, g, OwnNext(c, n, a), n);
    QuietHolder(c, g, OwnNext(c, n, a), n);
  }

  // ------------------------------------------------------ publish and reset

  lemma PublishOwners(c: Config, g: Ghost, n: Id)
    requires Inverse(g) && OwnersOk(c, g) && OwnEnabled(c, n, Publish)
    ensures OwnersOk(OwnNext(c, n, Publish), g)
  {
    var d := OwnNext(c, n, Publish);
    assert OwnerOk(c, g, n);
    forall m ensures OwnerOk(d, g, m) { assert OwnerOk(c, g, m); }
  }

  lemma PublishDrains(c: Config, g: Ghost, n: Id)
    requires OwnerOk(c, g, n) && DrainsOk(c, g) && OwnEnabled(c, n, Publish)
    ensures DrainsOk(OwnNext(c, n, Publish), g)
  {
    var d := OwnNext(c, n, Publish);
    forall z ensures DrainOk(d, g, z) { assert DrainOk(c, g, z); }
  }

  lemma PublishLinks(c: Config, g: Ghost, n: Id)
    requires Inverse(g) && Links(c, g) && TailSlot(c.tail) !in g.succ && OwnEnabled(c, n, Publish)
    ensures Links(OwnNext(c, n, Publish), g)
  {
    var d := OwnNext(c, n, Publish);
    assert OwnerOk(c, g, n);
    forall s | MemAt(d.mem, s) == Parked ensures Sleeping(d, s) { assert MemAt(c.mem, s) == Parked; }
    PublishOwners(c, g, n);
    PublishDrains(c, g, n);
  }

  lemma PublishHolder(c: Config, g: Ghost, n: Id)
    requires Inverse(g) && HolderOk(c, g) && OwnerOk(c, g, n) && OwnEnabled(c, n, Publish)
    ensures HolderOk(OwnNext(c, n, Publish), g)
  {
    var d := OwnNext(c, n, Publish);
    forall s | s in g.succ ensures RelySlot(c, g, d, g, s) { }
    HolderStable(c, g, d, g);
  }

  lemma ResetOwners(c: Config, g: Ghost, n: Id)
    requires Inverse(g) && OwnersOk(c, g) && OwnEnabled(c, n, Reset)
    ensures OwnersOk(OwnNext(c, n, Reset), g)
  {
    var d := OwnNext(c, n, Reset);
    assert OwnerOk(c, g, n);
    forall m ensures OwnerOk(d, g, m) { assert OwnerOk(c, g, m); }
  }

  lemma ResetLinks(c: Config, g: Ghost, n: Id)
    requires Inverse(g) && Links(c, g) && OwnEnabled(c, n, Reset)
    ensures Links(OwnNext(c, n, Reset), g)
  {
    var d := OwnNext(c, n, Reset);
    assert OwnerOk(c, g, n);
    forall s | MemAt(d.mem, s) == Parked ensures Sleeping(d, s) { assert MemAt(c.mem, s) == Parked; }
    ResetOwners(c, g, n);
    forall z ensures DrainOk(d, g, z) { assert DrainOk(c, g, z); }
  }

  lemma ResetHolder(c: Config, g: Ghost, n: Id)
    requires Inverse(g) && HolderOk(c, g) && OwnerOk(c, g, n) && OwnEnabled(c, n, Reset)
    ensures HolderOk(OwnNext(c, n, Reset), g)
  {
    var d := OwnNext(c, n, Reset);
    forall s | s in g.succ ensures RelySlot(c, g, d, g, s) { }
    HolderStable(c, g, d, g);
  }

  // ---------------------------------------------------- the tail exchange

  lemma ClaimedLinked(c: Config, g: Ghost)
    requires HolderOk(c, g)
    ensures Claimed(c.pc).Some? ==> Claimed(c.pc).value in g.succ
  {
  }

  /** The facts about the end of the live queue that the tail exchange relies on. */
  ghost predicate AtEnd(c: Config, g: Ghost, n: Id, e: Slot) {
    && n.Node? && EnqAt(c.enq, n) == Armed(c.tail) && e == TailSlot(c.tail)
    && e !in g.succ && (e.NextOf? ==> e.id.Node? && e.id in g.at) && e != NextOf(n)
    && AQ.Enabled(g.q, AQ.Enqueue(n))
  }

  lemma AtEndOk(c: Config, g: Ghost, n: Id)
    requires Chain(g) && TailOk(c, g) && OwnerOk(c, g, n) && OwnEnabled(c, n, CasOk)
    ensures AtEnd(c, g, n, TailSlot(c.tail))
  {
    PresentLinked(g, n);
    var L := g.q.live;
    if L != [] {
      LiveLinked(g, |L| - 1);
      assert L[|L| - 1] in L;
    }
  }

  lemma CasOkOwners(c: Config, g: Ghost, n: Id, e: Slot)
    requires OwnersOk(c, g) && AtEnd(c, g, n, e) && Claimed(c.pc) != Some(e) && MemAt(c.mem, e) == Null
    ensures OwnersOk(OwnNext(c, n, CasOk), Appended(g, n, e))
  {
    var d, h := OwnNext(c, n, CasOk), Appended(g, n, e);
    assert OwnerOk(c, g, n);
    forall m ensures OwnerOk(d, h, m) { assert OwnerOk(c, g, m); }
  }

  lemma CasOkLinks(c: Config, g: Ghost, n: Id, e: Slot)
    requires Links(c, g) && AtEnd(c, g, n, e) && Claimed(c.pc) != Some(e)
    ensures Links(OwnNext(c, n, CasOk), Appended(g, n, e))
  {
    var d, h := OwnNext(c, n, CasOk), Appended(g, n, e);
    assert OwnerOk(c, g, n);
    CasOkOwners(c, g, n, e);
    forall z ensures DrainOk(d, h, z) { assert DrainOk(c, g, z); }
  }

  lemma CasOkHolder(c: Config, g: Ghost, n: Id, e: Slot)
    requires Inverse(g) && HolderOk(c, g) && OwnerOk(c, g, n) && AtEnd(c, g, n, e)
    ensures HolderOk(OwnNext(c, n, CasOk), Appended(g, n, e))
  {
    var d, h := OwnNext(c, n, CasOk), Appended(g, n, e);
    forall s | s in g.succ ensures RelySlot(c, g, d, h, s) { }
    HolderStable(c, g, d, h);
  }

  // -------------------------------------------------------------- all of them

  lemma OwnersKeepInv(c: Config, g: Ghost, n: Id, a: OwnAct)
    requires Inv(c, g) && OwnEnabled(c, n, a)
    ensures AQ.Enabled(g.q, OpOf(c, Own(n, a)))
    ensures Inv(OwnNext(c, n, a), GhostNext(c, g, Own(n, a)))
  {
    assert OwnerOk(c, g, n);
    match a
    case CasOk =>
      var e := TailSlot(c.tail);
      AtEndOk(c, g, n);
      ClaimedLinked(c, g);
      EndsDifferOk(g);
      ChainAppend(g, n, e);
      AQ.InvKept(g.q, AQ.Enqueue(n));
      CasOkLinks(c, g, n, e);
      CasOkHolder(c, g, n, e);
      assert GhostNext(c, g, Own(n, a)) == Appended(g, n, e);
    case Publish =>
      PublishLinks(c, g, n);
      PublishHolder(c, g, n);
    case Reset =>
      ResetLinks(c, g, n);
      ResetHolder(c, g, n);
    case LoadTail => QuietOk(c, g, n, a);
    case Reject => QuietOk(c, g, n, a);
    case Arm => QuietOk(c, g, n, a);
    case CasFail => QuietOk(c, g, n, a);
    case CheckParked => QuietOk(c, g, n, a);
    case Unpark => QuietOk(c, g, n, a);
  }

  lemma UpdateStateChain(g: Ghost, s: nat)
    requires AQ.Inv(g.q) && Chain(g)
    ensures AQ.Inv(g.q.(state := s)) && Chain(g.(q := g.q.(state := s)))
  {
    var h := g.(q := g.q.(state := s));
    forall z | z in h.q.lists ensures DrainChain(h, z) { assert DrainChain(g, z); }
    forall z, x | AQ.InRest(h.q, z, x) ensures AQ.InRest(g.q, z, x) { }
    forall m | m in h.at && m.Node? ensures AQ.Present(h.q, m) { PresentSame(g.q, h.q, m); }
  }

  lemma UpdateStateLinks(c: Config, g: Ghost, s: nat)
    requires Links(c, g) && c.tail.Empty?
    ensures Links(c.(tail := Empty(s)), g.(q := g.q.(state := s)))
  {
    var d, h := c.(tail := Empty(s)), g.(q := g.q.(state := s));
    forall m ensures OwnerOk(d, h, m) { assert OwnerOk(c, g, m); }
    forall z ensures DrainOk(d, h, z) { assert DrainOk(c, g, z); }
  }

  lemma UpdateStateHolder(c: Config, g: Ghost, st: nat)
    requires HolderOk(c, g)
    ensures HolderOk(c.(tail := Empty(st)), g.(q := g.q.(state := st)))
  {
    var d, h := c.(tail := Empty(st)), g.(q := g.q.(state := st));
    forall s | s in g.succ ensures RelySlot(c, g, d, h, s) { }
    HolderStable(c, g, d, h);
  }

  lemma UpdateStateKeepsInv(c: Config, g: Ghost, s: nat)
    requires Inv(c, g) && c.tail.Empty?
    ensures AQ.Enabled(g.q, AQ.SetState(s))
    ensures Inv(c.(tail := Empty(s)), GhostNext(c, g, UpdateState(s)))
  {
    assert g.q.live == [];
    UpdateStateChain(g, s);
    UpdateStateLinks(c, g, s);
    UpdateStateHolder(c, g, s);
    assert GhostNext(c, g, UpdateState(s)) == g.(q := g.q.(state := s));
  }
}
