/** `remove_with_prev`, from each of its three callers, keeps the invariant. */
module ProtocolRemoval {
  import opened Options
  import opened Protocol
  import opened ProtocolInvariant
  import opened ProtocolChain
  import opened ProtocolDrainChain
  import opened ProtocolGetNext
  import AQ = AbstractQueue

  // ------------------------------------------------------------------- facts

  /** Outside a drain owner's critical section a linked node is the tail or has a successor. */
  lemma TailOrInner(c: Config, g: Ghost, n: Id)
    requires Chain(g) && TailOk(c, g) && DrainsOk(c, g) && OpenedDrain(c.pc).None?
    requires n.Node? && n in g.at
    ensures NextOf(n) in g.succ || (c.tail == Last(n) && n in g.q.live)
  {
    PresentLinked(g, n);
    if n in g.q.live {
      var i :| 0 <= i < |g.q.live| && g.q.live[i] == n;
      assert SlotAt(HeadSlot, g.q.live, i + 1) == NextOf(n);
    } else {
      var z :| AQ.InRest(g.q, z, n);
      assert DrainChain(g, z) && DrainOk(c, g, z);
      var i :| 0 <= i < |g.q.lists[z].rest| && g.q.lists[z].rest[i] == n;
      assert SlotAt(SentinelSlot(z), ListOf(g, z), i + 1) == NextOf(n);
    }
  }

  /** Outside a drain owner's critical section `prev` of a linked node is exact. */
  lemma PrevExact(c: Config, g: Ghost, n: Id)
    requires Chain(g) && PrevOk(c, g) && DrainsOk(c, g) && OpenedDrain(c.pc).None? && n in g.at
    ensures PrevAt(c.prev, n) == PrevOf(g.at[n])
  {
    var s := g.at[n];
    if s.NextOf? && s.id.Sentinel? {
      assert s.id in g.at || s.id.z in g.q.lists;
      assert s.id.z in g.q.lists ==> DrainChain(g, s.id.z);
      assert DrainOk(c, g, s.id.z);
    }
  }

  lemma LivePrev(c: Config, g: Ghost, i: nat)
    requires Chain(g) && PrevOk(c, g) && i < |g.q.live|
    ensures var n := g.q.live[i];
      n.Node? && n in g.at && g.at[n] == SlotAt(HeadSlot, g.q.live, i) && PrevAt(c.prev, n) == PrevOf(g.at[n])
  {
    LiveLinked(g, i);
    assert g.q.live[i] in g.q.live;
    assert i > 0 ==> g.q.live[i - 1] in g.q.live;
  }

  // --------------------------------------------------------------- beginnings

  lemma RemoveHeadKeepsInv(c: Config, g: Ghost, st: nat)
    requires Inv(c, g) && RemoveEnabled(c, RemoveHead(st))
    ensures Inv(RemoveNext(c, RemoveHead(st)), g)
  {
    var d := RemoveNext(c, RemoveHead(st));
    NoneParked(c, g);
    HandoverLinks(c, g, d);
    assert g.q.live != [] by { assert SlotAt(HeadSlot, [], 0) == HeadSlot; }
    LivePrev(c, g, 0);
    assert OwnerOk(c, g, c.pc.n);
  }

  lemma RemoveTailKeepsInv(c: Config, g: Ghost, st: nat)
    requires Inv(c, g) && RemoveEnabled(c, RemoveTail(st))
    ensures Inv(RemoveNext(c, RemoveTail(st)), g)
  {
    var d := RemoveNext(c, RemoveTail(st));
    NoneParked(c, g);
    var i :| 0 <= i < |g.q.live| && g.q.live[i] == c.pc.n;
    LivePrev(c, g, i);
    RemoveTailHolder(c, g, st);
    HandoverLinks(c, g, d);
  }

  lemma RemoveTailHolder(c: Config, g: Ghost, st: nat)
    requires Inverse(g) && RemoveEnabled(c, RemoveTail(st))
    requires c.pc.n.Node? && c.pc.n in g.at && PrevAt(c.prev, c.pc.n) == PrevOf(g.at[c.pc.n])
    ensures HolderOk(RemoveNext(c, RemoveTail(st)), g)
    ensures RemoveNext(c, RemoveTail(st)).pc.Getting? && RemoveNext(c, RemoveTail(st)).pc.k.ForPop?
  {
  }

  lemma RemoveSelfKeepsInv(c: Config, g: Ghost, n: Id, st: nat)
    requires Inv(c, g) && RemoveEnabled(c, RemoveSelf(n, st))
    ensures Inv(RemoveNext(c, RemoveSelf(n, st)), g)
  {
    var d := RemoveNext(c, RemoveSelf(n, st));
    NoneParked(c, g);
    assert OwnerOk(c, g, n);
    PrevExact(c, g, n);
    HandoverLinks(c, g, d);
  }

  lemma ReadNextKeepsInv(c: Config, g: Ghost)
    requires Inv(c, g) && RemoveEnabled(c, ReadNext)
    ensures Inv(RemoveNext(c, ReadNext), g)
  {
    var d := RemoveNext(c, ReadNext);
    NoneParked(c, g);
    var n := c.pc.n;
    TailOrInner(c, g, n);
    if NextOf(n) in g.succ { assert OwnerOk(c, g, g.succ[NextOf(n)]); }
    HandoverLinks(c, g, d);
  }

  // --------------------------------------------------------- clearing the slot

  lemma ClearPrevLinks(c: Config, g: Ghost)
    requires Inverse(g) && Links(c, g) && HolderOk(c, g) && RemoveEnabled(c, ClearPrev)
    ensures Links(RemoveNext(c, ClearPrev), g)
  {
    var d := RemoveNext(c, ClearPrev);
    WriteOwners(c, g, d, SlotOf(c.pc.p), Null);
    WriteNext(c, g, d, SlotOf(c.pc.p), Null);
    forall z ensures DrainOk(d, g, z) { assert DrainOk(c, g, z); }
  }

  lemma ClearPrevKeepsInv(c: Config, g: Ghost)
    requires Inv(c, g) && RemoveEnabled(c, ClearPrev)
    ensures Inv(RemoveNext(c, ClearPrev), g)
  {
    ClearPrevLinks(c, g);
  }

  // --------------------------------------------------- the tail exchange fails

  lemma SwingFailStep(c: Config, g: Ghost)
    requires Inverse(g) && Links(c, g) && HolderOk(c, g) && RemoveEnabled(c, SwingTail) && c.tail != Last(c.pc.n)
    requires NextOf(c.pc.n) in g.succ && NextOf(c.pc.n) != SlotOf(c.pc.p)
    ensures Links(RemoveNext(c, SwingTail), g) && HolderOk(RemoveNext(c, SwingTail), g)
  {
    NoneParked(c, g);
    HandoverLinks(c, g, RemoveNext(c, SwingTail));
  }

  lemma SwingFailKeepsInv(c: Config, g: Ghost)
    requires Inv(c, g) && RemoveEnabled(c, SwingTail) && c.tail != Last(c.pc.n)
    ensures Inv(RemoveNext(c, SwingTail), g)
  {
    TailOrInner(c, g, c.pc.n);
    NoSelfLoop(g, c.pc.n);
    SwingFailStep(c, g);
  }

  // ------------------------------------------------------------------ marking

  lemma FinishLinks(c: Config, d: Config, g: Ghost, n: Id)
    requires Links(c, g) && Left(c, g, n) && !c.pc.Getting? && Leaving(c.pc) == Some(n)
    requires d == c.(prev := c.prev[n := Dequeued], pc := d.pc)
    requires Claimed(c.pc).None? && Claimed(d.pc).None? && Leaving(d.pc).None? && OpenedDrain(d.pc) == OpenedDrain(c.pc)
    ensures Links(d, g)
  {
    NoneParked(c, g);
    forall m ensures OwnerOk(d, g, m) { assert OwnerOk(c, g, m); }
    forall z ensures DrainOk(d, g, z) { assert DrainOk(c, g, z); }
  }

  lemma FinishKeepsInv(c: Config, g: Ghost)
    requires Inv(c, g) && RemoveEnabled(c, Finish)
    ensures Inv(RemoveNext(c, Finish), g)
  {
    FinishLinks(c, RemoveNext(c, Finish), g, c.pc.n);
  }

  // ----------------------------------------------------------------- splicing

  lemma SpliceLinks(c: Config, g: Ghost)
    requires Inverse(g) && Links(c, g) && HolderOk(c, g) && RemoveEnabled(c, Splice)
    requires TailSlot(c.tail) !in g.succ
    requires forall z :: Opened(g, z) && g.q.lists[z].rest == [] ==> SentinelSlot(z) !in g.succ
    ensures Links(RemoveNext(c, Splice), g)
  {
    var d := RemoveNext(c, Splice);
    WriteOwners(c, g, d, SlotOf(c.pc.p), To(c.pc.x));
    WriteNext(c, g, d, SlotOf(c.pc.p), To(c.pc.x));
    forall z ensures DrainOk(d, g, z) { assert DrainOk(c, g, z); }
  }

  lemma SpliceHolder(c: Config, g: Ghost)
    requires HolderOk(c, g) && RemoveEnabled(c, Splice)
    ensures HolderOk(RemoveNext(c, Splice), g)
  {
  }

  lemma SpliceKeepsInv(c: Config, g: Ghost)
    requires Inv(c, g) && RemoveEnabled(c, Splice)
    ensures Inv(RemoveNext(c, Splice), g)
  {
    EmptyOpen(g);
    SpliceLinks(c, g);
    SpliceHolder(c, g);
  }

  // ------------------------------------------------ the tail exchange succeeds

  lemma SwingAtEnd(c: Config, g: Ghost)
    requires Chain(g) && TailOk(c, g) && HolderOk(c, g) && RemoveEnabled(c, SwingTail) && c.tail == Last(c.pc.n)
    ensures var L := g.q.live;
      && L != [] && c.pc.n == L[|L| - 1] && SlotOf(c.pc.p) == SlotAt(HeadSlot, L, |L| - 1)
      && NextOf(c.pc.n) !in g.succ && NextOf(c.pc.n) != SlotOf(c.pc.p)
  {
    LiveLinked(g, |g.q.live| - 1);
  }

  /** `h` is `g` without the end `n` of the live queue, which hung on `s`. */
  ghost predicate LostTail(g: Ghost, h: Ghost, n: Id, s: Slot) {
    && h == Cut(g, n, s).(q := h.q) && h.q.lists == g.q.lists
    && n.Node? && s in g.succ && g.succ[s] == n && NextOf(n) !in g.succ && NextOf(n) != s
  }

  lemma SwingOwners(c: Config, g: Ghost, h: Ghost)
    requires Inverse(g) && OwnersOk(c, g) && HolderOk(c, g)
    requires RemoveEnabled(c, SwingTail) && c.tail == Last(c.pc.n) && LostTail(g, h, c.pc.n, SlotOf(c.pc.p))
    ensures OwnersOk(RemoveNext(c, SwingTail), h)
  {
    var d := RemoveNext(c, SwingTail);
    forall m ensures OwnerOk(d, h, m) { assert OwnerOk(c, g, m); }
  }

  lemma SwingTailOk(c: Config, g: Ghost, h: Ghost)
    requires TailOk(c, g) && HolderOk(c, g) && RemoveEnabled(c, SwingTail) && c.tail == Last(c.pc.n)
    requires LostTail(g, h, c.pc.n, SlotOf(c.pc.p))
    requires g.q.live != [] && SlotOf(c.pc.p) == SlotAt(HeadSlot, g.q.live, |g.q.live| - 1)
    requires h.q.live == g.q.live[..|g.q.live| - 1] && (h.q.live == [] ==> h.q.state == c.pc.st)
    ensures TailOk(RemoveNext(c, SwingTail), h)
  {
  }

  lemma SwingLinks(c: Config, g: Ghost, h: Ghost)
    requires Inverse(g) && Links(c, g) && HolderOk(c, g)
    requires RemoveEnabled(c, SwingTail) && c.tail == Last(c.pc.n) && LostTail(g, h, c.pc.n, SlotOf(c.pc.p))
    requires TailOk(RemoveNext(c, SwingTail), h)
    ensures Links(RemoveNext(c, SwingTail), h)
  {
    var d := RemoveNext(c, SwingTail);
    NoneParked(c, g);
    SwingOwners(c, g, h);
    forall z ensures DrainOk(d, h, z) { assert DrainOk(c, g, z); }
  }

  lemma SwingHolder(c: Config, g: Ghost, h: Ghost)
    requires HolderOk(c, g) && Inverse(g) && RemoveEnabled(c, SwingTail) && OwnerOk(c, g, c.pc.n)
    requires c.tail == Last(c.pc.n) && LostTail(g, h, c.pc.n, SlotOf(c.pc.p))
    ensures HolderOk(RemoveNext(c, SwingTail), h)
  {
  }

  lemma SwingOkKeepsInv(c: Config, g: Ghost)
    requires Inv(c, g) && RemoveEnabled(c, SwingTail) && c.tail == Last(c.pc.n)
    ensures AQ.Enabled(g.q, AQ.Remove(c.pc.n, c.pc.st))
    ensures Inv(RemoveNext(c, SwingTail), CutTail(g, c.pc.n, SlotOf(c.pc.p), c.pc.st))
  {
    var n, s, st := c.pc.n, SlotOf(c.pc.p), c.pc.st;
    var k := |g.q.live| - 1;
    SwingAtEnd(c, g);
    ChainCutTail(g, st);
    var h := CutTail(g, n, s, st);
    AQ.InvKept(g.q, AQ.Remove(n, st));
    RemoveAbsent(g.q, n, st);
    AQ.KeepCut(g.q.live, k);
    assert h.q.live == g.q.live[..k];
    assert OwnerOk(c, g, n);
    SwingTailOk(c, g, h);
    SwingLinks(c, g, h);
    SwingHolder(c, g, h);
  }

  // -------------------------------------------------------------- relinking

  /** `h` is `g` with `x` moved up to `s` in place of `n`. */
  ghost predicate Bypassed(g: Ghost, h: Ghost, n: Id, s: Slot, x: Id) {
    && h == Unlink(g, n, s, x).(q := h.q) && Inner(g, n, s, x)
    && n.Node? && x != n && s != NextOf(n)
  }

  lemma RelinkOwners(c: Config, g: Ghost, h: Ghost)
    requires Inverse(g) && OwnersOk(c, g) && HolderOk(c, g) && RemoveEnabled(c, Relink)
    requires Bypassed(g, h, c.pc.n, SlotOf(c.pc.p), c.pc.x)
    ensures OwnersOk(RemoveNext(c, Relink), h)
  {
    var d := RemoveNext(c, Relink);
    forall m ensures OwnerOk(d, h, m) { assert OwnerOk(c, g, m); }
  }

  lemma RelinkPrevNext(c: Config, g: Ghost, h: Ghost)
    requires Inverse(g) && PrevOk(c, g) && NextOk(c, g) && HolderOk(c, g) && RemoveEnabled(c, Relink)
    requires Bypassed(g, h, c.pc.n, SlotOf(c.pc.p), c.pc.x)
    ensures PrevOk(RemoveNext(c, Relink), h) && NextOk(RemoveNext(c, Relink), h)
  {
    RelinkPrev(c, g, h);
    RelinkNext(c, g, h);
  }

  lemma RelinkPrev(c: Config, g: Ghost, h: Ghost)
    requires Inverse(g) && PrevOk(c, g) && HolderOk(c, g) && RemoveEnabled(c, Relink)
    requires Bypassed(g, h, c.pc.n, SlotOf(c.pc.p), c.pc.x)
    ensures PrevOk(RemoveNext(c, Relink), h)
  {
  }

  lemma RelinkNext(c: Config, g: Ghost, h: Ghost)
    requires Inverse(g) && NextOk(c, g) && HolderOk(c, g) && RemoveEnabled(c, Relink)
    requires Bypassed(g, h, c.pc.n, SlotOf(c.pc.p), c.pc.x)
    ensures NextOk(RemoveNext(c, Relink), h)
  {
    var d := RemoveNext(c, Relink);
    NoneParked(c, g);
    assert d.mem == c.mem && d.enq == c.enq;
    forall s | s in h.succ
      ensures MemAt(d.mem, s) == To(h.succ[s]) || EnqAt(d.enq, h.succ[s]) == Linking(s) || Claimed(d.pc) == Some(s)
    {
      if s != SlotOf(c.pc.p) { assert s in g.succ && h.succ[s] == g.succ[s]; }
    }
  }

  lemma RelinkTail(c: Config, g: Ghost, n: Id, st: nat)
    requires TailOk(c, g) && LiveChain(g) && AQ.Enabled(g.q, AQ.Remove(n, st)) && NextOf(n) in g.succ
    ensures var q := AQ.Apply(g.q, AQ.Remove(n, st));
      && q.state == g.q.state && q.lists.Keys == g.q.lists.Keys
      && TailSlot(c.tail) == SlotAt(HeadSlot, q.live, |q.live|)
  {
    var q := AQ.Apply(g.q, AQ.Remove(n, st));
    KeepEnd(HeadSlot, g.q.live, n);
    if g.q.live != [] { assert g.q.live[|g.q.live| - 1] in q.live; }
  }

  lemma RelinkDrains(c: Config, g: Ghost, h: Ghost)
    requires DrainsOk(c, g) && HolderOk(c, g) && RemoveEnabled(c, Relink) && Homed(g) && Inverse(g)
    requires AQ.Enabled(g.q, AQ.Remove(c.pc.n, 0)) && h.ring == g.ring
    requires h.q == AQ.Apply(g.q, AQ.Remove(c.pc.n, 0))
    ensures DrainsOk(RemoveNext(c, Relink), h)
  {
    var d := RemoveNext(c, Relink);
    forall z ensures DrainOk(d, h, z) { assert DrainOk(c, g, z); }
  }

  lemma RelinkHolder(c: Config, g: Ghost, h: Ghost)
    requires Inverse(g) && HolderOk(c, g) && OwnersOk(c, g) && RemoveEnabled(c, Relink)
    requires Bypassed(g, h, c.pc.n, SlotOf(c.pc.p), c.pc.x)
    ensures HolderOk(RemoveNext(c, Relink), h)
  {
    assert OwnerOk(c, g, c.pc.n);
    assert OwnerOk(c, g, c.pc.x);
  }

  lemma RelinkKeepsInv(c: Config, g: Ghost)
    requires Inv(c, g) && RemoveEnabled(c, Relink)
    ensures AQ.Enabled(g.q, AQ.Remove(c.pc.n, 0))
    ensures Inv(RemoveNext(c, Relink), UnlinkedQ(g, c.pc.n, SlotOf(c.pc.p), c.pc.x, 0))
  {
    var n, s, x := c.pc.n, SlotOf(c.pc.p), c.pc.x;
    ChainUnlink(g, n, s, x, 0);
    var h := UnlinkedQ(g, n, s, x, 0);
    AQ.InvKept(g.q, AQ.Remove(n, 0));
    RelinkOwners(c, g, h);
    RelinkPrevNext(c, g, h);
    RelinkTail(c, g, n, 0);
    RelinkDrains(c, g, h);
    RelinkHolder(c, g, h);
    var d := RemoveNext(c, Relink);
    assert TailOk(d, h);
    assert Links(d, h);
  }

  // -------------------------------------------------------------- all of them

  lemma RemovalGhost(c: Config, g: Ghost, a: RemoveAct)
    requires RemoveEnabled(c, a) && AQ.Enabled(g.q, OpOf(c, Rem(a)))
    ensures GhostNext(c, g, Rem(a)) ==
      if a.SwingTail? && c.tail == Last(c.pc.n) then CutTail(g, c.pc.n, SlotOf(c.pc.p), c.pc.st)
      else if a.Relink? then UnlinkedQ(g, c.pc.n, SlotOf(c.pc.p), c.pc.x, 0)
      else g
  {
  }

  lemma QuietRemovalKeepsInv(c: Config, g: Ghost, a: RemoveAct)
    requires Inv(c, g) && RemoveEnabled(c, a)
    requires !a.Relink? && !(a.SwingTail? && c.tail == Last(c.pc.n))
    ensures Inv(RemoveNext(c, a), g)
  {
    match a
    case RemoveHead(st) => RemoveHeadKeepsInv(c, g, st);
    case RemoveTail(st) => RemoveTailKeepsInv(c, g, st);
    case RemoveSelf(n, st) => RemoveSelfKeepsInv(c, g, n, st);
    case ReadNext => ReadNextKeepsInv(c, g);
    case ClearPrev => ClearPrevKeepsInv(c, g);
    case SwingTail => SwingFailKeepsInv(c, g);
    case Splice => SpliceKeepsInv(c, g);
    case Finish => FinishKeepsInv(c, g);
  }

  lemma RemovalOp(c: Config, g: Ghost, a: RemoveAct)
    requires RemoveEnabled(c, a)
    ensures OpOf(c, Rem(a)) ==
      if a.SwingTail? && c.tail == Last(c.pc.n) then AQ.Remove(c.pc.n, c.pc.st)
      else if a.Relink? then AQ.Remove(c.pc.n, 0)
      else AQ.Stutter
    ensures OpOf(c, Rem(a)).Stutter? ==> AQ.Enabled(g.q, OpOf(c, Rem(a)))
  {
  }

  lemma RemovalKeepsInv(c: Config, g: Ghost, a: RemoveAct)
    requires Inv(c, g) && RemoveEnabled(c, a)
    ensures AQ.Enabled(g.q, OpOf(c, Rem(a)))
    ensures Inv(RemoveNext(c, a), GhostNext(c, g, Rem(a)))
  {
    RemovalOp(c, g, a);
    if a.Relink? {
      RelinkKeepsInv(c, g);
    } else if a.SwingTail? && c.tail == Last(c.pc.n) {
      SwingOkKeepsInv(c, g);
    } else {
      QuietRemovalKeepsInv(c, g, a);
    }
    RemovalGhost(c, g, a);
  }
}
