/** What the clients of the queue share: how a waiter is seen, and batches of wakers. */
module Waking {
  import opened Options
  import AQ = AbstractQueue

  /** Capacity of a batch of wakers. */
  const BATCH: nat := 32

  datatype NodeState = Unqueued | Queued | Dequeued

  /** The waker: not registered yet, in place, taken by a running call, or woken. */
  datatype Wake = Unset | Armed | Taken(call: nat) | Woken

  /** What an update of the queue's state sees: the state, or that somebody is queued. */
  function View(q: AQ.Queue<nat>): Option<nat> { if q.live == [] then Some(q.state) else None }

  ghost function Do(q: AQ.Queue<nat>, op: AQ.Op<nat>): AQ.Queue<nat> {
    if AQ.Enabled(q, op) then AQ.Apply(q, op) else q
  }

  lemma CutAtKeepsOrder(s: seq<nat>, k: nat)
    requires k < |s|
    ensures var r := s[..k] + s[k + 1..];
      && |r| < |s|
      && (r == [] <==> |s| == 1)
      && (k == 0 ==> r == s[1..])
      && (k > 0 ==> r != [] && r[0] == s[0])
      && (forall j :: 1 <= j < |r| ==> r[j] in s[1..])
  {
    var r := s[..k] + s[k + 1..];
    forall j | 1 <= j < |r| ensures r[j] in s[1..] {
      assert r[j] == s[1..][if j < k then j - 1 else j];
    }
  }

  lemma CutKeepsOrder(s: seq<nat>, w: nat)
    requires AQ.NoDup(s)
    ensures var r := AQ.Keep(s, {w});
      && |r| <= |s|
      && (w !in s ==> r == s)
      && (r == [] <==> s == [] || s == [w])
      && (s != [] && w == s[0] ==> r == s[1..])
      && (s != [] && w != s[0] ==> r != [] && r[0] == s[0])
      && (forall j :: 1 <= j < |r| ==> r[j] in s[1..])
  {
    if w in s {
      var k :| 0 <= k < |s| && s[k] == w;
      AQ.KeepCut(s, k);
      CutAtKeepsOrder(s, k);
    } else {
      AQ.KeepAll(s, {w});
      forall j | 1 <= j < |s| ensures s[j] in s[1..] { assert s[j] == s[1..][j - 1]; }
    }
  }

  /** Cutting a node out of the queue leaves the others in order. */
  lemma RemoveFromLive(q: AQ.Queue<nat>, w: nat, v: nat)
    requires AQ.Inv(q) && AQ.Present(q, w)
    ensures var r := Do(q, AQ.Remove(w, v));
      && r.lists.Keys == q.lists.Keys
      && (forall z :: z in q.lists && q.lists[z].rest == [] ==> r.lists[z].rest == [])
      && (r.live == [] <==> q.live == [] || q.live == [w])
      && (w !in q.live ==> r.live == q.live && r.state == q.state)
      && (q.live == [w] ==> r.state == v)
      && (q.live != [] && w == q.live[0] ==> r.live == q.live[1..])
      && |r.live| <= |q.live|
      && (forall j :: 1 <= j < |r.live| ==> r.live[j] in q.live[1..])
      && (q.live != [] && w != q.live[0] ==> r.live != [] && r.live[0] == q.live[0])
  {
    CutKeepsOrder(q.live, w);
  }

  /** A node leaves a drained list only by being yielded or by being removed. */
  lemma RestAfter(q: AQ.Queue<nat>, op: AQ.Op<nat>, z: nat, w: nat)
    requires AQ.Enabled(q, op) && AQ.InRest(q, z, w)
    ensures AQ.InRest(AQ.Apply(q, op), z, w) || (op.Remove? && op.n == w) || (op.Yield? && op.z == z && q.lists[z].rest[0] == w)
  {
    if op.Yield? && op.z == z {
      var rest := q.lists[z].rest;
      assert rest == [rest[0]] + rest[1..];
    }
  }

  /** Setting the state of an empty queue moves nobody. */
  lemma StateSet(q: AQ.Queue<nat>, v: nat)
    requires AQ.Inv(q) && q.live == []
    ensures var r := Do(q, AQ.SetState(v));
      r == q.(state := v) && AQ.Inv(r) && forall n: nat :: AQ.Present(r, n) <==> AQ.Present(q, n)
  {
    AQ.InvKept(q, AQ.SetState(v));
    forall n: nat ensures AQ.Present(Do(q, AQ.SetState(v)), n) <==> AQ.Present(q, n) {
      AQ.PresentAfter(q, AQ.SetState(v), n);
    }
  }
}

/** Finite sums. */
module Sums {
  function Total(xs: seq<nat>): (r: nat) {
    if xs == [] then 0 else xs[0] + Total(xs[1..])
  }

  lemma {:induction false} TotalUpdate(xs: seq<nat>, i: nat, v: nat)
    requires i < |xs|
    ensures Total(xs[i := v]) == Total(xs) - xs[i] + v
  {
    if i == 0 {
      assert xs[0 := v][1..] == xs[1..];
    } else {
      assert xs[i := v][1..] == xs[1..][i - 1 := v];
      TotalUpdate(xs[1..], i - 1, v);
    }
  }

  lemma {:induction false} TotalAppend(xs: seq<nat>, v: nat)
    ensures Total(xs + [v]) == Total(xs) + v
  {
    if xs == [] {
      assert [] + [v] == [v];
      assert [v][1..] == [];
    } else {
      assert (xs + [v])[1..] == xs[1..] + [v];
      TotalAppend(xs[1..], v);
    }
  }

  lemma TotalAtLeast(xs: seq<nat>, i: nat)
    requires i < |xs|
    ensures xs[i] <= Total(xs)
  {
    TotalUpdate(xs, i, 0);
  }
}
