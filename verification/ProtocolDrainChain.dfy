/** The chain lemmas of the drain: taking, yielding, closing into a ring, reopening. */
module ProtocolDrainChain {
  import opened Protocol
  import opened ProtocolInvariant
  import opened ProtocolChain
  import AQ = AbstractQueue

  /** A sentinel that is not in use is not linked anywhere. */
  lemma FreshSentinel(g: Ghost, z: nat)
    requires Homed(g) && z !in g.q.lists
    ensures SentinelSlot(z) !in g.succ && Sentinel(z) !in g.at
  {
  }

  /** An empty open list has nothing hanging on its sentinel. */
  lemma EmptyOpen(g: Ghost)
    requires Chain(g)
    ensures forall z :: Opened(g, z) && g.q.lists[z].rest == [] ==> SentinelSlot(z) !in g.succ
  {
    forall z | Opened(g, z) && g.q.lists[z].rest == [] ensures SentinelSlot(z) !in g.succ {
      assert DrainChain(g, z);
    }
  }

  // ----------------------------------------------------- taking the whole queue

  ghost function Taken(g: Ghost, z: nat, st: nat): Ghost
    requires g.q.live != [] && z !in g.q.lists
  {
    var h := g.q.live[0];
    g.(succ := (g.succ - {HeadSlot})[SentinelSlot(z) := h], at := g.at[h := SentinelSlot(z)],
       q := AQ.Apply(g.q, AQ.OpenDrain(z, st)))
  }

  lemma TakeInverse(g: Ghost, z: nat, st: nat)
    requires Inverse(g) && LiveChain(g) && g.q.live != [] && z !in g.q.lists
    requires SentinelSlot(z) !in g.succ
    ensures Inverse(Taken(g, z, st))
  {
    assert SlotAt(HeadSlot, g.q.live, 0) == HeadSlot;
  }

  lemma TakeOwn(g: Ghost, z: nat, st: nat)
    requires LiveChain(g) && g.q.live != [] && z !in g.q.lists && z !in g.ring
    ensures DrainChain(Taken(g, z, st), z)
  {
    var h := Taken(g, z, st);
    var L := g.q.live;
    assert forall i :: 0 <= i < |L| ==> L[i] in L;
    forall i | 0 <= i < |L|
      ensures SlotAt(SentinelSlot(z), L, i) in h.succ && h.succ[SlotAt(SentinelSlot(z), L, i)] == L[i]
    {
      if i > 0 { assert SlotAt(SentinelSlot(z), L, i) == SlotAt(HeadSlot, L, i); }
    }
  }

  lemma TakeOther(g: Ghost, z: nat, st: nat, y: nat)
    requires g.q.live != [] && z !in g.q.lists && SentinelSlot(z) !in g.succ
    requires y in g.q.lists && DrainChain(g, y)
    ensures DrainChain(Taken(g, z, st), y)
  {
    var rest := g.q.lists[y].rest;
    assert rest != [] ==> rest[|rest| - 1] in rest;
    PathFrame(g.succ, Taken(g, z, st).succ, SentinelSlot(y), ListOf(g, y));
  }

  lemma TakeHomed(g: Ghost, z: nat, st: nat)
    requires Homed(g) && LiveChain(g) && g.q.live != [] && z !in g.q.lists
    ensures Homed(Taken(g, z, st))
  {
    var h := Taken(g, z, st);
    assert g.q.live[0] in g.q.live;
    forall m | m in h.at && m.Node? ensures AQ.Present(h.q, m) {
      if m in g.q.live {
        assert AQ.InRest(h.q, z, m);
      } else {
        assert m in g.at;
        var y :| AQ.InRest(g.q, y, m);
        assert AQ.InRest(h.q, y, m);
      }
    }
  }

  lemma ChainTake(g: Ghost, z: nat, st: nat)
    requires Chain(g) && g.q.live != [] && z !in g.q.lists
    ensures Chain(Taken(g, z, st))
  {
    FreshSentinel(g, z);
    TakeInverse(g, z, st);
    TakeOwn(g, z, st);
    TakeHomed(g, z, st);
    forall y | y in Taken(g, z, st).q.lists && y != z ensures DrainChain(Taken(g, z, st), y) {
      TakeOther(g, z, st, y);
    }
  }

  // ------------------------------------------------------------------- yielding

  ghost function Yielded(g: Ghost, z: nat): Ghost
    requires AQ.Enabled(g.q, AQ.Yield(z))
  {
    var rest := g.q.lists[z].rest;
    (if |rest| == 1 then Cut(g, rest[0], SentinelSlot(z)) else Unlink(g, rest[0], SentinelSlot(z), rest[1]))
      .(q := AQ.Apply(g.q, AQ.Yield(z)))
  }

  /** In an open list the head hangs on the sentinel and is followed by the second node. */
  lemma OpenHead(g: Ghost, z: nat)
    requires Opened(g, z) && DrainChain(g, z) && g.q.lists[z].rest != []
    ensures var rest := g.q.lists[z].rest;
      && rest[0].Node? && SentinelSlot(z) in g.succ && g.succ[SentinelSlot(z)] == rest[0]
      && (if |rest| > 1 then NextOf(rest[0]) in g.succ && g.succ[NextOf(rest[0])] == rest[1]
          else NextOf(rest[0]) !in g.succ)
  {
    var rest := g.q.lists[z].rest;
    assert rest[0] in rest;
    assert SlotAt(SentinelSlot(z), rest, 0) == SentinelSlot(z);
    assert SlotAt(SentinelSlot(z), rest, 1) == NextOf(rest[0]);
  }

  lemma YieldHomed(g: Ghost, z: nat)
    requires Inverse(g) && Homed(g) && Opened(g, z) && DrainChain(g, z) && AQ.Enabled(g.q, AQ.Yield(z))
    ensures Homed(Yielded(g, z))
  {
    OpenHead(g, z);
    var h := Yielded(g, z);
    var rest := g.q.lists[z].rest;
    forall m | m in h.at && m.Node? ensures AQ.Present(h.q, m) {
      assert m in g.at && m != rest[0];
      if m !in g.q.live {
        var y :| AQ.InRest(g.q, y, m);
        assert rest == [rest[0]] + rest[1..];
        assert AQ.InRest(h.q, y, m);
      }
    }
  }

  /** Paths that do not hold the yielded node are untouched. */
  lemma YieldPath(g: Ghost, z: nat, a: Slot, q: seq<Id>)
    requires Inverse(g) && Opened(g, z) && DrainChain(g, z) && AQ.Enabled(g.q, AQ.Yield(z))
    requires Path(g.succ, a, q) && g.q.lists[z].rest[0] !in q && a != NextOf(g.q.lists[z].rest[0])
    ensures Path(Yielded(g, z).succ, a, q)
    ensures forall s :: s in Yielded(g, z).succ ==> s in g.succ
  {
    OpenHead(g, z);
    var rest := g.q.lists[z].rest;
    if |rest| == 1 {
      CutOther(g, rest[0], SentinelSlot(z), a, q);
    } else {
      UnlinkOther(g, rest[0], SentinelSlot(z), rest[1], a, q);
    }
  }

  lemma YieldOwnLast(g: Ghost, z: nat)
    requires Inverse(g) && Opened(g, z) && DrainChain(g, z) && |g.q.lists[z].rest| == 1
    ensures DrainChain(Yielded(g, z), z)
  {
    var rest := g.q.lists[z].rest;
    CutOwn(g, SentinelSlot(z), rest);
    assert rest[1..] == [];
  }

  lemma ShorterPath(a: Slot, rest: seq<Id>)
    requires |rest| > 1 && AQ.NoDup(rest)
    ensures AQ.Keep(rest, {rest[0]}) == rest[1..]
    ensures SlotAt(a, rest[1..], |rest[1..]|) == SlotAt(a, rest, |rest|)
  {
    AQ.KeepCut(rest, 0);
    assert rest[..0] + rest[1..] == rest[1..];
  }

  lemma YieldOwnMore(g: Ghost, z: nat)
    requires Inverse(g) && Opened(g, z) && DrainChain(g, z) && |g.q.lists[z].rest| > 1
    requires AQ.NoDup(g.q.lists[z].rest)
    ensures DrainChain(Yielded(g, z), z)
  {
    OpenHead(g, z);
    var rest := g.q.lists[z].rest;
    UnlinkOwn(g, rest[0], SentinelSlot(z), rest[1], SentinelSlot(z), rest, 0);
    ShorterPath(SentinelSlot(z), rest);
    assert Yielded(g, z).q.lists[z].rest == rest[1..] && ListOf(Yielded(g, z), z) == rest[1..];
  }

  lemma ChainYield(g: Ghost, z: nat)
    requires AQ.Inv(g.q) && Chain(g) && Opened(g, z) && AQ.Enabled(g.q, AQ.Yield(z))
    ensures Chain(Yielded(g, z))
  {
    var h := Yielded(g, z);
    var n := g.q.lists[z].rest[0];
    assert AQ.InRest(g.q, z, n);
    OpenHead(g, z);
    if |g.q.lists[z].rest| == 1 {
      CutInverse(g, n, SentinelSlot(z));
    } else {
      UnlinkInverse(g, n, SentinelSlot(z), g.q.lists[z].rest[1]);
    }
    YieldHomed(g, z);
    YieldPath(g, z, HeadSlot, g.q.live);
    if |g.q.lists[z].rest| == 1 { YieldOwnLast(g, z); } else { YieldOwnMore(g, z); }
    forall y | y in h.q.lists && y != z ensures DrainChain(h, y) {
      assert !AQ.InRest(g.q, y, n);
      YieldPath(g, z, SentinelSlot(y), ListOf(g, y));
    }
  }

  // ------------------------------------------------------------ the ring

  function Closed(g: Ghost, z: nat, s: Slot): Ghost {
    g.(succ := g.succ[s := Sentinel(z)], at := g.at[Sentinel(z) := s], ring := g.ring + {z})
  }

  /** Two open drains never end at the same slot. */
  lemma OpenEndsDiffer(g: Ghost, z: nat, y: nat)
    requires AQ.Inv(g.q) && z in g.q.lists && y in g.q.lists && y != z
    requires Nodes(g.q.lists[z].rest) && Nodes(g.q.lists[y].rest) && g.q.lists[z].rest != []
    ensures var r, q := g.q.lists[z].rest, g.q.lists[y].rest;
      SlotAt(SentinelSlot(z), r, |r|) != SlotAt(SentinelSlot(y), q, |q|)
  {
    var r, q := g.q.lists[z].rest, g.q.lists[y].rest;
    assert AQ.InRest(g.q, z, r[|r| - 1]);
    assert q != [] ==> AQ.InRest(g.q, y, q[|q| - 1]);
  }

  lemma CloseInverse(g: Ghost, z: nat, s: Slot)
    requires Inverse(g) && Sentinel(z) !in g.at && s !in g.succ
    ensures Inverse(Closed(g, z, s))
  {
  }

  lemma CloseOwn(g: Ghost, z: nat, s: Slot)
    requires Opened(g, z) && DrainChain(g, z)
    requires s == SlotAt(SentinelSlot(z), g.q.lists[z].rest, |g.q.lists[z].rest|)
    ensures DrainChain(Closed(g, z, s), z)
  {
    var h := Closed(g, z, s);
    var rest, l := g.q.lists[z].rest, ListOf(h, z);
    forall i | 0 <= i < |l|
      ensures SlotAt(SentinelSlot(z), l, i) in h.succ && h.succ[SlotAt(SentinelSlot(z), l, i)] == l[i]
    {
      assert SlotAt(SentinelSlot(z), l, i) == SlotAt(SentinelSlot(z), rest, i);
    }
  }

  lemma CloseLive(g: Ghost, z: nat, s: Slot)
    requires LiveChain(g) && s !in g.succ && s != SlotAt(HeadSlot, g.q.live, |g.q.live|)
    ensures LiveChain(Closed(g, z, s))
  {
    PathFrame(g.succ, Closed(g, z, s).succ, HeadSlot, g.q.live);
  }

  lemma NotRingNotLinked(g: Ghost, z: nat)
    requires Homed(g) && z !in g.ring
    ensures Sentinel(z) !in g.at
  {
  }

  lemma EndNotLive(g: Ghost, z: nat)
    requires AQ.Inv(g.q) && Nodes(g.q.live) && z in g.q.lists && Nodes(g.q.lists[z].rest)
    ensures SlotAt(SentinelSlot(z), g.q.lists[z].rest, |g.q.lists[z].rest|) != SlotAt(HeadSlot, g.q.live, |g.q.live|)
  {
    EndsDifferOk(g);
  }

  /** Where the open list of drain `z` ends. */
  function EndSlot(g: Ghost, z: nat): Slot
    requires z in g.q.lists
  {
    SlotAt(SentinelSlot(z), g.q.lists[z].rest, |g.q.lists[z].rest|)
  }

  /** The open end of a non-empty drained list is the free slot of its last node. */
  lemma EndFree(g: Ghost, z: nat)
    requires Opened(g, z) && Inverse(g) && DrainChain(g, z) && g.q.lists[z].rest != []
    ensures EndSlot(g, z) !in g.succ && EndSlot(g, z).NextOf? && EndSlot(g, z).id in g.at
  {
    var k := |g.q.lists[z].rest| - 1;
    PathLinked(g, SentinelSlot(z), ListOf(g, z), k);
    assert ListOf(g, z)[k] == g.q.lists[z].rest[k];
  }

  lemma ChainClose(g: Ghost, z: nat, s: Slot)
    requires AQ.Inv(g.q) && Chain(g) && Opened(g, z) && g.q.lists[z].rest != []
    requires s == EndSlot(g, z)
    ensures Chain(Closed(g, z, s))
  {
    assert DrainChain(g, z);
    EndFree(g, z);
    EndNotLive(g, z);
    NotRingNotLinked(g, z);
    CloseInverse(g, z, s);
    CloseOwn(g, z, s);
    CloseLive(g, z, s);
    CloseOthers(g, z, s);
    CloseHomed(g, z, s);
  }

  lemma CloseOthers(g: Ghost, z: nat, s: Slot)
    requires AQ.Inv(g.q) && z in g.q.lists && g.q.lists[z].rest != [] && s == EndSlot(g, z) && s !in g.succ
    requires forall y :: y in g.q.lists ==> DrainChain(g, y)
    requires DrainChain(Closed(g, z, s), z)
    ensures forall y :: y in g.q.lists ==> DrainChain(Closed(g, z, s), y)
  {
    forall y | y in g.q.lists && y != z ensures DrainChain(Closed(g, z, s), y) {
      assert DrainChain(g, y);
      OpenEndsDiffer(g, z, y);
      CloseOther(g, z, s, y);
    }
  }

  lemma CloseOther(g: Ghost, z: nat, s: Slot, y: nat)
    requires y in g.q.lists && y != z && DrainChain(g, y) && s !in g.succ
    requires s != SlotAt(SentinelSlot(y), g.q.lists[y].rest, |g.q.lists[y].rest|)
    ensures DrainChain(Closed(g, z, s), y)
  {
    PathFrame(g.succ, Closed(g, z, s).succ, SentinelSlot(y), ListOf(g, y));
  }

  lemma CloseHomed(g: Ghost, z: nat, s: Slot)
    requires Homed(g) && z in g.q.lists && s.NextOf? && s.id in g.at
    ensures Homed(Closed(g, z, s))
  {
  }

  function Reopened(g: Ghost, z: nat, s: Slot): Ghost {
    Cut(g, Sentinel(z), s).(ring := g.ring - {z})
  }

  /** A ring ends, through its sentinel, where the open list would end. */
  lemma RingEnd(g: Ghost, z: nat)
    requires Inverse(g) && z in g.q.lists && z in g.ring && DrainChain(g, z)
    ensures var rest := g.q.lists[z].rest;
      Sentinel(z) in g.at && g.at[Sentinel(z)] == SlotAt(SentinelSlot(z), rest, |rest|)
  {
    var rest, l := g.q.lists[z].rest, ListOf(g, z);
    PathLinked(g, SentinelSlot(z), l, |rest|);
    assert SlotAt(SentinelSlot(z), l, |rest|) == SlotAt(SentinelSlot(z), rest, |rest|);
  }

  lemma ReopenOwn(g: Ghost, z: nat, s: Slot)
    requires Inverse(g) && z in g.q.lists && z in g.ring && DrainChain(g, z) && AQ.NoDup(g.q.lists[z].rest)
    requires s == SlotAt(SentinelSlot(z), g.q.lists[z].rest, |g.q.lists[z].rest|)
    ensures DrainChain(Reopened(g, z, s), z)
  {
    var rest, l := g.q.lists[z].rest, ListOf(g, z);
    ListNoDup(g, z);
    CutOwn(g, SentinelSlot(z), l);
    assert l[..|l| - 1] == rest;
    assert SlotAt(SentinelSlot(z), l, |rest|) == s;
  }

  lemma ReopenHomed(g: Ghost, z: nat, s: Slot)
    requires Homed(g) && z in g.q.lists
    ensures Homed(Reopened(g, z, s))
  {
  }

  lemma ChainReopen(g: Ghost, z: nat)
    requires AQ.Inv(g.q) && Chain(g) && z in g.q.lists && z in g.ring
    ensures Sentinel(z) in g.at && Chain(Reopened(g, z, g.at[Sentinel(z)]))
  {
    RingEnd(g, z);
    var s := g.at[Sentinel(z)];
    var h := Reopened(g, z, s);
    CutInverse(g, Sentinel(z), s);
    CutOther(g, Sentinel(z), s, HeadSlot, g.q.live);
    ReopenOwn(g, z, s);
    ReopenHomed(g, z, s);
    forall y | y in h.q.lists && y != z ensures DrainChain(h, y) {
      assert DrainChain(g, y);
      assert Sentinel(z) !in ListOf(g, y);
      CutOther(g, Sentinel(z), s, SentinelSlot(y), ListOf(g, y));
    }
  }

  // --------------------------------------------------------- opening and closing

  lemma ChainOpenEmpty(g: Ghost, z: nat, st: nat)
    requires Chain(g) && g.q.live == [] && z !in g.q.lists
    ensures Chain(g.(q := AQ.Apply(g.q, AQ.OpenDrain(z, st))))
  {
    var h := g.(q := AQ.Apply(g.q, AQ.OpenDrain(z, st)));
    FreshSentinel(g, z);
    forall y | y in h.q.lists ensures DrainChain(h, y) {
      if y != z { assert DrainChain(g, y); }
    }
    forall m | m in h.at && m.Node? ensures AQ.Present(h.q, m) {
      var y :| AQ.InRest(g.q, y, m);
      assert AQ.InRest(h.q, y, m);
    }
  }

  lemma ChainDrop(g: Ghost, z: nat)
    requires Chain(g) && Opened(g, z) && g.q.lists[z].rest == []
    ensures Chain(g.(q := AQ.Apply(g.q, AQ.CloseDrain(z))))
  {
    var h := g.(q := AQ.Apply(g.q, AQ.CloseDrain(z)));
    assert DrainChain(g, z);
    forall y | y in h.q.lists ensures DrainChain(h, y) { assert DrainChain(g, y); }
    forall m | m in h.at && m.Node? ensures AQ.Present(h.q, m) {
      if m !in g.q.live {
        var y :| AQ.InRest(g.q, y, m);
        assert AQ.InRest(h.q, y, m);
      }
    }
  }
}
