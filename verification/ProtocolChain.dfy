/**
 * The chain lemmas: what each linearisation point does to the intended chain. Nothing
 * here mentions memory or program counters.
 */
module ProtocolChain {
  import opened Protocol
  import opened ProtocolInvariant
  import AQ = AbstractQueue

  // -------------------------------------------------------------------- paths

  /** A path survives any change outside its own slots. */
  lemma PathFrame(succ: map<Slot, Id>, succ': map<Slot, Id>, a: Slot, q: seq<Id>)
    requires Path(succ, a, q)
    requires forall i :: 0 <= i < |q| ==>
      SlotAt(a, q, i) in succ' && succ'[SlotAt(a, q, i)] == succ[SlotAt(a, q, i)]
    ensures Path(succ', a, q)
  {
  }

  /** Letting an inner element's successor take its place cuts it out of the path. */
  lemma PathSplice(succ: map<Slot, Id>, a: Slot, q: seq<Id>, k: nat)
    requires Path(succ, a, q) && AQ.NoDup(q) && k + 1 < |q|
    requires a != NextOf(q[k])
    ensures Path((succ - {NextOf(q[k])})[SlotAt(a, q, k) := q[k + 1]], a, q[..k] + q[k + 1..])
  {
    var succ' := (succ - {NextOf(q[k])})[SlotAt(a, q, k) := q[k + 1]];
    var r := q[..k] + q[k + 1..];
    forall i | 0 <= i < |r|
      ensures SlotAt(a, r, i) in succ' && succ'[SlotAt(a, r, i)] == r[i]
    {
      if i < k {
        assert SlotAt(a, r, i) == SlotAt(a, q, i);
        assert SlotAt(a, q, i) != SlotAt(a, q, k);
        assert SlotAt(a, q, k + 1) == NextOf(q[k]);
      } else if i == k {
        assert SlotAt(a, r, i) == SlotAt(a, q, k);
      } else {
        assert r[i] == q[i + 1] && r[i - 1] == q[i];
        assert SlotAt(a, r, i) == SlotAt(a, q, i + 1);
        assert SlotAt(a, q, k + 1) == NextOf(q[k]);
        assert SlotAt(a, q, i + 1) != SlotAt(a, q, k);
      }
    }
  }

  /** Every member of a path is linked, at its own slot. */
  lemma PathLinked(g: Ghost, a: Slot, q: seq<Id>, i: nat)
    requires Inverse(g) && Path(g.succ, a, q) && i < |q|
    ensures q[i] in g.at && g.at[q[i]] == SlotAt(a, q, i)
  {
    assert g.succ[SlotAt(a, q, i)] == q[i];
  }

  lemma LiveLinked(g: Ghost, i: nat)
    requires Chain(g) && i < |g.q.live|
    ensures g.q.live[i] in g.at && g.at[g.q.live[i]] == SlotAt(HeadSlot, g.q.live, i)
  {
    PathLinked(g, HeadSlot, g.q.live, i);
  }

  lemma RestLinked(g: Ghost, z: nat, i: nat)
    requires Chain(g) && z in g.q.lists && i < |g.q.lists[z].rest|
    ensures var rest := g.q.lists[z].rest;
      rest[i] in g.at && g.at[rest[i]] == SlotAt(SentinelSlot(z), rest, i)
  {
    var l := ListOf(g, z);
    assert DrainChain(g, z);
    PathLinked(g, SentinelSlot(z), l, i);
    assert l[i] == g.q.lists[z].rest[i];
    assert i > 0 ==> l[i - 1] == g.q.lists[z].rest[i - 1];
  }

  /** Membership in the abstract queue and being linked are the same thing. */
  lemma PresentLinked(g: Ghost, n: Id)
    requires Chain(g) && n.Node?
    ensures n in g.at <==> AQ.Present(g.q, n)
  {
    if n in g.q.live {
      var i :| 0 <= i < |g.q.live| && g.q.live[i] == n;
      LiveLinked(g, i);
    } else if z :| AQ.InRest(g.q, z, n) {
      var i :| 0 <= i < |g.q.lists[z].rest| && g.q.lists[z].rest[i] == n;
      RestLinked(g, z, i);
    }
  }

  /** The live queue and an open drain never end at the same slot. */
  ghost predicate EndsDiffer(g: Ghost) {
    forall z :: z in g.q.lists && Nodes(g.q.lists[z].rest) ==>
      SlotAt(HeadSlot, g.q.live, |g.q.live|) != SlotAt(SentinelSlot(z), g.q.lists[z].rest, |g.q.lists[z].rest|)
  }

  lemma EndsDifferOk(g: Ghost)
    requires AQ.Inv(g.q) && Nodes(g.q.live)
    ensures EndsDiffer(g)
  {
    forall z | z in g.q.lists && Nodes(g.q.lists[z].rest)
      ensures SlotAt(HeadSlot, g.q.live, |g.q.live|) != SlotAt(SentinelSlot(z), g.q.lists[z].rest, |g.q.lists[z].rest|)
    {
      var rest := g.q.lists[z].rest;
      assert rest != [] ==> AQ.InRest(g.q, z, rest[|rest| - 1]);
      assert g.q.live != [] ==> g.q.live[|g.q.live| - 1] in g.q.live;
    }
  }

  /** Operations that keep the lists and the node keep it present. */
  lemma PresentSame(q: AQ.Queue<Id>, r: AQ.Queue<Id>, n: Id)
    requires AQ.Present(q, n) && r.lists == q.lists && (n in q.live ==> n in r.live)
    ensures AQ.Present(r, n)
  {
    if n !in q.live {
      var z :| AQ.InRest(q, z, n);
      assert AQ.InRest(r, z, n);
    }
  }

  // ------------------------------------------------------------------ enqueue

  ghost function Appended(g: Ghost, n: Id, e: Slot): Ghost
    requires AQ.Enabled(g.q, AQ.Enqueue(n))
  {
    g.(succ := g.succ[e := n], at := g.at[n := e], q := AQ.Apply(g.q, AQ.Enqueue(n)))
  }

  lemma AppendInverse(g: Ghost, n: Id, e: Slot)
    requires Inverse(g) && AQ.Enabled(g.q, AQ.Enqueue(n))
    requires n !in g.at && e !in g.succ
    ensures Inverse(Appended(g, n, e))
  {
  }

  lemma AppendLive(g: Ghost, n: Id, e: Slot)
    requires LiveChain(g) && AQ.Enabled(g.q, AQ.Enqueue(n))
    requires n.Node? && Unlinked(g, n) && e == SlotAt(HeadSlot, g.q.live, |g.q.live|) && e != NextOf(n)
    ensures LiveChain(Appended(g, n, e))
  {
    var h := Appended(g, n, e);
    forall i | 0 <= i < |h.q.live|
      ensures SlotAt(HeadSlot, h.q.live, i) in h.succ && h.succ[SlotAt(HeadSlot, h.q.live, i)] == h.q.live[i]
    {
      assert SlotAt(HeadSlot, h.q.live, i) == SlotAt(HeadSlot, g.q.live, i);
    }
  }

  lemma AppendDrain(g: Ghost, n: Id, e: Slot, z: nat)
    requires z in g.q.lists && DrainChain(g, z) && AQ.Enabled(g.q, AQ.Enqueue(n))
    requires e !in g.succ
    requires var rest := g.q.lists[z].rest; e != SlotAt(SentinelSlot(z), rest, |rest|)
    ensures DrainChain(Appended(g, n, e), z)
  {
    PathFrame(g.succ, Appended(g, n, e).succ, SentinelSlot(z), ListOf(g, z));
  }

  lemma AppendHomed(g: Ghost, n: Id, e: Slot)
    requires Homed(g) && AQ.Enabled(g.q, AQ.Enqueue(n)) && n.Node?
    requires e.NextOf? ==> e.id in g.at
    ensures Homed(Appended(g, n, e))
  {
    var h := Appended(g, n, e);
    forall m | m in h.at && m.Node? ensures AQ.Present(h.q, m) {
      if m != n { PresentSame(g.q, h.q, m); }
    }
  }

  lemma ChainAppend(g: Ghost, n: Id, e: Slot)
    requires Chain(g) && n.Node? && Unlinked(g, n) && e == SlotAt(HeadSlot, g.q.live, |g.q.live|)
    requires EndsDiffer(g)
    ensures AQ.Enabled(g.q, AQ.Enqueue(n)) && Chain(Appended(g, n, e))
  {
    PresentLinked(g, n);
    var h := Appended(g, n, e);
    if g.q.live != [] { LiveLinked(g, |g.q.live| - 1); }
    AppendInverse(g, n, e);
    AppendLive(g, n, e);
    AppendHomed(g, n, e);
    forall z | z in h.q.lists ensures DrainChain(h, z) { AppendDrain(g, n, e, z); }
  }

  // -------------------------------------------------- removal of the last node

  /** A chain with its last link cut off is still a chain. */
  lemma CutInverse(g: Ghost, n: Id, s: Slot)
    requires Inverse(g) && s in g.succ && g.succ[s] == n
    ensures Inverse(Cut(g, n, s))
  {
  }

  lemma CutOther(g: Ghost, n: Id, s: Slot, a: Slot, q: seq<Id>)
    requires Inverse(g) && s in g.succ && g.succ[s] == n && Path(g.succ, a, q) && n !in q
    ensures Path(Cut(g, n, s).succ, a, q)
  {
    forall i | 0 <= i < |q| ensures SlotAt(a, q, i) != s { assert g.succ[SlotAt(a, q, i)] == q[i]; }
    PathFrame(g.succ, Cut(g, n, s).succ, a, q);
  }

  lemma CutOwn(g: Ghost, a: Slot, q: seq<Id>)
    requires Inverse(g) && Path(g.succ, a, q) && AQ.NoDup(q) && q != []
    ensures var k := |q| - 1;
      var h := Cut(g, q[k], SlotAt(a, q, k));
      Path(h.succ, a, q[..k]) && SlotAt(a, q[..k], k) !in h.succ
  {
    var k := |q| - 1;
    var h := Cut(g, q[k], SlotAt(a, q, k));
    forall i | 0 <= i < k
      ensures SlotAt(a, q[..k], i) in h.succ && h.succ[SlotAt(a, q[..k], i)] == q[..k][i]
    {
      assert SlotAt(a, q[..k], i) == SlotAt(a, q, i);
      assert SlotAt(a, q, i) != SlotAt(a, q, k) by { assert g.succ[SlotAt(a, q, i)] == q[i] != q[k]; }
    }
  }

  lemma RemoveAbsent(q: AQ.Queue<Id>, n: Id, st: nat)
    requires AQ.Inv(q) && n in q.live
    ensures AQ.Apply(q, AQ.Remove(n, st)).lists == q.lists
  {
    forall z | z in q.lists ensures n !in q.lists[z].rest { assert InRestIff(q, z, n); }
  }

  ghost predicate InRestIff(q: AQ.Queue<Id>, z: nat, n: Id) {
    AQ.InRest(q, z, n) <==> z in q.lists && n in q.lists[z].rest
  }

  ghost function CutTail(g: Ghost, n: Id, s: Slot, st: nat): Ghost
    requires AQ.Enabled(g.q, AQ.Remove(n, st))
  {
    Cut(g, n, s).(q := AQ.Apply(g.q, AQ.Remove(n, st)))
  }

  lemma CutHomed(g: Ghost, h: Ghost, n: Id, s: Slot)
    requires Homed(g) && h == Cut(g, n, s).(q := h.q) && NextOf(n) !in g.succ && n.Node?
    requires h.q.lists.Keys == g.q.lists.Keys
    requires forall m :: m != n && AQ.Present(g.q, m) ==> AQ.Present(h.q, m)
    ensures Homed(h)
  {
  }

  lemma ChainCutTail(g: Ghost, st: nat)
    requires AQ.Inv(g.q) && Chain(g) && g.q.live != []
    ensures var k := |g.q.live| - 1;
      var n := g.q.live[k];
      AQ.Enabled(g.q, AQ.Remove(n, st)) && Chain(CutTail(g, n, SlotAt(HeadSlot, g.q.live, k), st))
  {
    var L := g.q.live;
    var k := |L| - 1;
    var n := L[k];
    var s := SlotAt(HeadSlot, L, k);
    assert n in L;
    var h := CutTail(g, n, s, st);
    RemoveAbsent(g.q, n, st);
    AQ.KeepCut(L, k);
    assert h.q.live == L[..k];
    LiveLinked(g, k);
    CutChain(g, h, n, s);
  }

  /** Drained lists do not notice that the live queue lost its last node. */
  lemma CutDrain(g: Ghost, h: Ghost, n: Id, s: Slot, z: nat)
    requires Inverse(g) && s in g.succ && g.succ[s] == n && n.Node?
    requires h == Cut(g, n, s).(q := h.q) && h.q.lists == g.q.lists && z in g.q.lists
    requires DrainChain(g, z) && n !in g.q.lists[z].rest
    ensures DrainChain(h, z)
  {
    CutOther(g, n, s, SentinelSlot(z), ListOf(g, z));
  }

  /** Assembles the chain after its live queue lost its last node. */
  lemma CutChain(g: Ghost, h: Ghost, n: Id, s: Slot)
    requires Chain(g) && AQ.NoDup(g.q.live) && g.q.live != [] && n == g.q.live[|g.q.live| - 1]
    requires s == SlotAt(HeadSlot, g.q.live, |g.q.live| - 1)
    requires h == Cut(g, n, s).(q := h.q) && h.q.lists == g.q.lists && h.q.live == g.q.live[..|g.q.live| - 1]
    requires forall z :: z in g.q.lists ==> n !in g.q.lists[z].rest
    ensures Chain(h)
  {
    LiveLinked(g, |g.q.live| - 1);
    CutInverse(g, n, s);
    CutOwn(g, HeadSlot, g.q.live);
    assert NextOf(n) == SlotAt(HeadSlot, g.q.live, |g.q.live|);
    assert n in g.q.live;
    forall m | m != n && AQ.Present(g.q, m) ensures AQ.Present(h.q, m) {
      if m !in h.q.live { PresentSame(g.q, h.q, m); }
    }
    CutHomed(g, h, n, s);
    forall z | z in h.q.lists ensures DrainChain(h, z) {
      assert DrainChain(g, z);
      CutDrain(g, h, n, s, z);
    }
  }

  // ------------------------------------------------ removal with a successor

  /** `n` is published at `s` and followed by `x`. */
  ghost predicate Inner(g: Ghost, n: Id, s: Slot, x: Id) {
    s in g.succ && g.succ[s] == n && NextOf(n) in g.succ && g.succ[NextOf(n)] == x
  }

  lemma UnlinkInverse(g: Ghost, n: Id, s: Slot, x: Id)
    requires Inverse(g) && Inner(g, n, s, x)
    requires s != NextOf(n)
    ensures Inverse(Unlink(g, n, s, x))
  {
  }

  lemma UnlinkOwn(g: Ghost, n: Id, s: Slot, x: Id, a: Slot, q: seq<Id>, k: nat)
    requires Inverse(g) && Inner(g, n, s, x) && Path(g.succ, a, q) && AQ.NoDup(q)
    requires a != NextOf(n) && k + 1 < |q| && q[k] == n
    ensures Path(Unlink(g, n, s, x).succ, a, AQ.Keep(q, {n}))
  {
    PathLinked(g, a, q, k);
    PathLinked(g, a, q, k + 1);
    AQ.KeepCut(q, k);
    PathSplice(g.succ, a, q, k);
  }

  lemma UnlinkOther(g: Ghost, n: Id, s: Slot, x: Id, a: Slot, q: seq<Id>)
    requires Inverse(g) && Inner(g, n, s, x) && Path(g.succ, a, q)
    requires a != NextOf(n) && n !in q
    ensures Path(Unlink(g, n, s, x).succ, a, q)
  {
    forall i | 0 <= i < |q| ensures SlotAt(a, q, i) != s && SlotAt(a, q, i) != NextOf(n) {
      assert g.succ[SlotAt(a, q, i)] == q[i];
    }
    PathFrame(g.succ, Unlink(g, n, s, x).succ, a, q);
  }

  /** Unlinking `n` filters it out of every path. */
  lemma UnlinkPath(g: Ghost, n: Id, s: Slot, x: Id, a: Slot, q: seq<Id>)
    requires Inverse(g) && Inner(g, n, s, x) && Path(g.succ, a, q) && AQ.NoDup(q)
    requires a != NextOf(n) && (q != [] ==> q[|q| - 1] != n)
    ensures Path(Unlink(g, n, s, x).succ, a, AQ.Keep(q, {n}))
  {
    if n in q {
      var k :| 0 <= k < |q| && q[k] == n;
      UnlinkOwn(g, n, s, x, a, q, k);
    } else {
      AQ.KeepAll(q, {n});
      UnlinkOther(g, n, s, x, a, q);
    }
  }

  /** Filtering keeps the end of a path where it was. */
  lemma KeepEnd(a: Slot, q: seq<Id>, n: Id)
    requires q != [] ==> q[|q| - 1] != n
    ensures SlotAt(a, AQ.Keep(q, {n}), |AQ.Keep(q, {n})|) == SlotAt(a, q, |q|)
  {
    if q != [] {
      assert q == q[..|q| - 1] + [q[|q| - 1]];
      AQ.KeepConcat(q[..|q| - 1], [q[|q| - 1]], {n});
    }
  }

  ghost function UnlinkedQ(g: Ghost, n: Id, s: Slot, x: Id, st: nat): Ghost
    requires AQ.Enabled(g.q, AQ.Remove(n, st))
  {
    Unlink(g, n, s, x).(q := AQ.Apply(g.q, AQ.Remove(n, st)))
  }

  lemma UnlinkLive(g: Ghost, n: Id, s: Slot, x: Id, st: nat)
    requires Inverse(g) && LiveChain(g) && AQ.NoDup(g.q.live) && AQ.Enabled(g.q, AQ.Remove(n, st))
    requires n.Node? && Inner(g, n, s, x)
    ensures LiveChain(UnlinkedQ(g, n, s, x, st))
  {
    UnlinkPath(g, n, s, x, HeadSlot, g.q.live);
    KeepEnd(HeadSlot, g.q.live, n);
  }

  lemma ListNoDup(g: Ghost, z: nat)
    requires z in g.q.lists && Nodes(g.q.lists[z].rest) && AQ.NoDup(g.q.lists[z].rest)
    ensures AQ.NoDup(ListOf(g, z))
  {
    var rest := g.q.lists[z].rest;
    assert forall i :: 0 <= i < |rest| ==> rest[i] in rest;
  }

  lemma UnlinkList(g: Ghost, n: Id, s: Slot, x: Id, st: nat, z: nat)
    requires z in g.q.lists && AQ.Enabled(g.q, AQ.Remove(n, st)) && n.Node?
    ensures var h := UnlinkedQ(g, n, s, x, st);
      h.q.lists[z].rest == AQ.Keep(g.q.lists[z].rest, {n}) && ListOf(h, z) == AQ.Keep(ListOf(g, z), {n})
  {
    var rest := g.q.lists[z].rest;
    if n !in rest { AQ.KeepAll(rest, {n}); }
    AQ.KeepConcat(rest, [Sentinel(z)], {n});
  }

  lemma UnlinkDrain(g: Ghost, n: Id, s: Slot, x: Id, st: nat, z: nat)
    requires Inverse(g) && z in g.q.lists && DrainChain(g, z) && AQ.NoDup(g.q.lists[z].rest)
    requires AQ.Enabled(g.q, AQ.Remove(n, st))
    requires n.Node? && Inner(g, n, s, x)
    ensures DrainChain(UnlinkedQ(g, n, s, x, st), z)
  {
    var rest := g.q.lists[z].rest;
    UnlinkList(g, n, s, x, st, z);
    ListNoDup(g, z);
    UnlinkPath(g, n, s, x, SentinelSlot(z), ListOf(g, z));
    if z !in g.ring { KeepEnd(SentinelSlot(z), rest, n); }
  }

  lemma UnlinkHomed(g: Ghost, n: Id, s: Slot, x: Id, st: nat)
    requires Inverse(g) && Homed(g) && AQ.Enabled(g.q, AQ.Remove(n, st))
    requires n.Node? && Inner(g, n, s, x) && x != n
    requires s != NextOf(n)
    ensures Homed(UnlinkedQ(g, n, s, x, st))
  {
    var h := UnlinkedQ(g, n, s, x, st);
    forall m | m in h.at && m.Node? ensures AQ.Present(h.q, m) {
      assert m in g.at && m != n;
      if m in g.q.live {
        assert m in h.q.live;
      } else {
        var z :| AQ.InRest(g.q, z, m);
        assert AQ.InRest(h.q, z, m);
      }
    }
  }

  lemma ChainUnlink(g: Ghost, n: Id, s: Slot, x: Id, st: nat)
    requires AQ.Inv(g.q) && Chain(g) && n.Node?
    requires Inner(g, n, s, x)
    ensures AQ.Enabled(g.q, AQ.Remove(n, st)) && Chain(UnlinkedQ(g, n, s, x, st))
    ensures x != n && s != NextOf(n)
  {
    PresentLinked(g, n);
    NoSelfLoop(g, n);
    UnlinkInverse(g, n, s, x);
    UnlinkLive(g, n, s, x, st);
    UnlinkHomed(g, n, s, x, st);
    forall z | z in g.q.lists ensures DrainChain(UnlinkedQ(g, n, s, x, st), z) {
      UnlinkDrain(g, n, s, x, st, z);
    }
  }

  /** No node is its own successor. */
  lemma NoSelfLoop(g: Ghost, n: Id)
    requires AQ.Inv(g.q) && Chain(g) && n.Node? && n in g.at
    ensures g.at[n] != NextOf(n)
  {
    if n in g.q.live {
      var i :| 0 <= i < |g.q.live| && g.q.live[i] == n;
      LiveLinked(g, i);
    } else {
      var z :| AQ.InRest(g.q, z, n);
      var i :| 0 <= i < |g.q.lists[z].rest| && g.q.lists[z].rest[i] == n;
      RestLinked(g, z, i);
    }
  }
}
