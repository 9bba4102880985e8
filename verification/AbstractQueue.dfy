/**
 * The atomic object that the lock-free queue is meant to be: a user state or a
 * non-empty sequence of waiting nodes, plus the lists that running drains have
 * taken out of it.
 *
 * `live` is the queue itself, in tail-exchange order; `state` is the user state,
 * meaningful exactly when `live` is empty. Each open drain keeps its history: what
 * it took, what it has yielded, which of its nodes removed themselves meanwhile,
 * and what is left.
 */
module AbstractQueue {

  datatype DrainList<T> = DrainList(orig: seq<T>, yielded: seq<T>, removed: set<T>, rest: seq<T>)

  datatype Queue<T> = Queue(live: seq<T>, state: nat, lists: map<nat, DrainList<T>>)

  datatype Op<T> =
    | Stutter
    | Enqueue(n: T)
    | SetState(s: nat)
    | Remove(n: T, s: nat)
    | OpenDrain(z: nat, s: nat)
    | Yield(z: nat)
    | CloseDrain(z: nat)

  // ---------------------------------------------------------------- sequences

  ghost predicate NoDup<T>(q: seq<T>) {
    forall i, j :: 0 <= i < j < |q| ==> q[i] != q[j]
  }

  /** The elements of `q` outside `gone`, in order. */
  function Keep<T(==,!new)>(q: seq<T>, gone: set<T>): (r: seq<T>)
    ensures forall x :: x in r <==> x in q && x !in gone
  {
    if q == [] then []
    else if q[0] in gone then Keep(q[1..], gone)
    else [q[0]] + Keep(q[1..], gone)
  }

  lemma {:induction false} KeepConcat<T(!new)>(a: seq<T>, b: seq<T>, gone: set<T>)
    ensures Keep(a + b, gone) == Keep(a, gone) + Keep(b, gone)
  {
    if a == [] {
      assert a + b == b;
    } else {
      assert (a + b)[1..] == a[1..] + b;
      KeepConcat(a[1..], b, gone);
    }
  }

  lemma {:induction false} KeepAll<T(!new)>(q: seq<T>, gone: set<T>)
    requires forall x :: x in q ==> x !in gone
    ensures Keep(q, gone) == q
  {
    if q != [] {
      KeepAll(q[1..], gone);
    }
  }

  lemma {:induction false} KeepTwice<T(!new)>(q: seq<T>, a: set<T>, b: set<T>)
    ensures Keep(Keep(q, a), b) == Keep(q, a + b)
  {
    if q != [] {
      KeepTwice(q[1..], a, b);
      if q[0] !in a {
        var t := Keep(q[1..], a);
        assert ([q[0]] + t)[1..] == t;
      }
    }
  }

  lemma {:induction false} KeepNoDup<T(!new)>(q: seq<T>, gone: set<T>)
    requires NoDup(q)
    ensures NoDup(Keep(q, gone))
  {
    if q != [] {
      KeepNoDup(q[1..], gone);
      assert q[0] !in q[1..];
    }
  }

  /** Filtering out one element of a duplicate-free sequence is cutting it out. */
  lemma {:induction false} KeepCut<T(!new)>(q: seq<T>, k: nat)
    requires NoDup(q) && k < |q|
    ensures Keep(q, {q[k]}) == q[..k] + q[k + 1..]
  {
    var t := q[1..];
    if k == 0 {
      KeepAll(t, {q[0]});
    } else {
      KeepCut(t, k - 1);
      assert q[..k] == [q[0]] + t[..k - 1];
      assert q[k + 1..] == t[k..];
    }
  }

  // -------------------------------------------------------------- the object

  ghost predicate InRest<T>(q: Queue<T>, z: nat, n: T) { z in q.lists && n in q.lists[z].rest }

  /** `n` is in the queue or still waits in some drained list. */
  ghost predicate Present<T(!new)>(q: Queue<T>, n: T) {
    n in q.live || exists z :: InRest(q, z, n)
  }

  function DropFrom<T(==,!new)>(d: DrainList<T>, n: T): DrainList<T> {
    if n in d.rest then d.(removed := d.removed + {n}, rest := Keep(d.rest, {n})) else d
  }

  ghost predicate Enabled<T(!new)>(q: Queue<T>, op: Op<T>) {
    match op
    case Stutter => true
    case Enqueue(n) => !Present(q, n)
    case SetState(_) => q.live == []
    case Remove(n, _) => Present(q, n)
    case OpenDrain(z, _) => z !in q.lists
    case Yield(z) => z in q.lists && q.lists[z].rest != []
    case CloseDrain(z) => z in q.lists && q.lists[z].rest == []
  }

  ghost function Apply<T(!new)>(q: Queue<T>, op: Op<T>): Queue<T>
    requires Enabled(q, op)
  {
    match op
    case Stutter => q
    case Enqueue(n) => q.(live := q.live + [n])
    case SetState(s) => q.(state := s)
    case Remove(n, s) =>
      Queue(Keep(q.live, {n}),
            if q.live != [] && Keep(q.live, {n}) == [] then s else q.state,
            map z | z in q.lists :: DropFrom(q.lists[z], n))
    case OpenDrain(z, s) =>
      Queue([], if q.live == [] then q.state else s,
            q.lists[z := DrainList(q.live, [], {}, q.live)])
    case Yield(z) =>
      var d := q.lists[z];
      q.(lists := q.lists[z := d.(yielded := d.yielded + [d.rest[0]], rest := d.rest[1..])])
    case CloseDrain(z) => q.(lists := q.lists - {z})
  }

  /** No node is in two places. */
  ghost predicate Inv<T(!new)>(q: Queue<T>) {
    && NoDup(q.live)
    && (forall z :: z in q.lists ==> NoDup(q.lists[z].rest))
    && (forall z, n :: InRest(q, z, n) ==> n !in q.live)
    && (forall z, y, n :: InRest(q, z, n) && InRest(q, y, n) ==> z == y)
  }

  /** What a drain has yielded, followed by what it still holds, is what it took
      minus the nodes that removed themselves: FIFO, nothing lost, nothing twice. */
  ghost predicate DrainOk<T(!new)>(d: DrainList<T>) {
    NoDup(d.orig) && d.yielded + d.rest == Keep(d.orig, d.removed)
  }

  ghost predicate History<T(!new)>(q: Queue<T>) {
    forall z :: z in q.lists ==> DrainOk(q.lists[z])
  }

  lemma RemoveKeepsInv<T(!new)>(q: Queue<T>, n: T, s: nat)
    requires Inv(q) && Present(q, n)
    ensures Inv(Apply(q, Remove(n, s)))
  {
    var r := Apply(q, Remove(n, s));
    KeepNoDup(q.live, {n});
    forall z | z in r.lists ensures NoDup(r.lists[z].rest) { KeepNoDup(q.lists[z].rest, {n}); }
    forall z, x | InRest(r, z, x) ensures InRest(q, z, x) { }
  }

  /** Every operation of the object keeps its nodes apart. */
  lemma InvKept<T(!new)>(q: Queue<T>, op: Op<T>)
    requires Inv(q) && Enabled(q, op)
    ensures Inv(Apply(q, op))
  {
    var r := Apply(q, op);
    match op
    case Stutter =>
    case Enqueue(n) =>
      forall z, x | InRest(r, z, x) ensures InRest(q, z, x) { }
    case SetState(_) =>
      forall z, x | InRest(r, z, x) ensures InRest(q, z, x) { }
    case Remove(n, s) => RemoveKeepsInv(q, n, s);
    case OpenDrain(z, s) =>
      forall y, x | InRest(r, y, x) ensures if y == z then x in q.live else InRest(q, y, x) { }
    case Yield(z) =>
      var rest := q.lists[z].rest;
      assert forall x :: x in rest[1..] ==> x in rest;
      forall y, x | InRest(r, y, x) ensures InRest(q, y, x) { }
    case CloseDrain(_) =>
      forall y, x | InRest(r, y, x) ensures InRest(q, y, x) { }
  }

  /** Who is present after an operation. */
  lemma PresentAfter<T(!new)>(q: Queue<T>, op: Op<T>, n: T)
    requires Inv(q) && Enabled(q, op)
    ensures Present(Apply(q, op), n) <==>
      match op
      case Enqueue(m) => Present(q, n) || n == m
      case Remove(m, _) => Present(q, n) && n != m
      case Yield(z) => Present(q, n) && n != q.lists[z].rest[0]
      case _ => Present(q, n)
  {
    var r := Apply(q, op);
    match op
    case Stutter =>
    case Enqueue(m) => assert forall z :: InRest(r, z, n) <==> InRest(q, z, n);
    case SetState(_) => assert forall z :: InRest(r, z, n) <==> InRest(q, z, n);
    case Remove(m, _) => assert forall z :: InRest(r, z, n) <==> InRest(q, z, n) && n != m;
    case OpenDrain(z, _) =>
      assert forall y :: InRest(r, y, n) <==> if y == z then n in q.live else InRest(q, y, n);
      assert InRest(r, z, n) <==> n in q.live;
    case Yield(z) =>
      var rest := q.lists[z].rest;
      assert rest == [rest[0]] + rest[1..];
      assert n in rest[1..] <==> n in rest && n != rest[0];
      assert InRest(q, z, rest[0]);
      assert InRest(r, z, n) <==> n in rest[1..];
      assert forall y :: y != z ==> (InRest(r, y, n) <==> InRest(q, y, n));
      if n == rest[0] {
        assert forall y :: InRest(q, y, n) ==> y == z;
      }
      assert forall y :: InRest(r, y, n) <==> InRest(q, y, n) && n != rest[0];
    case CloseDrain(_) => assert forall y :: InRest(r, y, n) <==> InRest(q, y, n);
  }

  /** Removing a node and appending another commute, but for the state that a non-empty queue
      does not have. */
  lemma EnqueueCommutes<T(!new)>(q: Queue<T>, m: T, n: T, s: nat)
    requires Inv(q) && Enabled(q, Enqueue(m)) && Enabled(q, Remove(n, s))
    ensures Enabled(Apply(q, Enqueue(m)), Remove(n, s)) && Enabled(Apply(q, Remove(n, s)), Enqueue(m))
    ensures var a, b := Apply(Apply(q, Enqueue(m)), Remove(n, s)), Apply(Apply(q, Remove(n, s)), Enqueue(m));
      a.live != [] && a.(state := b.state) == b
  {
    PresentAfter(q, Enqueue(m), n);
    PresentAfter(q, Remove(n, s), m);
    KeepConcat(q.live, [m], {n});
    KeepAll([m], {n});
  }

  lemma RemoveKeepsDrain<T(!new)>(d: DrainList<T>, n: T)
    requires DrainOk(d) && n in d.rest
    ensures DrainOk(DropFrom(d, n))
  {
    var all := d.yielded + d.rest;
    KeepNoDup(d.orig, d.removed);
    var k :| 0 <= k < |d.rest| && d.rest[k] == n;
    assert all[|d.yielded| + k] == n;
    forall x | x in d.yielded ensures x != n {
      var i :| 0 <= i < |d.yielded| && d.yielded[i] == x;
      assert all[i] == x;
    }
    KeepConcat(d.yielded, d.rest, {n});
    KeepAll(d.yielded, {n});
    KeepTwice(d.orig, d.removed, {n});
  }

  /** Every operation of the object keeps the history of every drain exact. */
  lemma HistoryKept<T(!new)>(q: Queue<T>, op: Op<T>)
    requires Inv(q) && History(q) && Enabled(q, op)
    ensures History(Apply(q, op))
  {
    var r := Apply(q, op);
    match op
    case Stutter =>
    case Enqueue(n) =>
    case SetState(_) =>
    case Remove(n, s) =>
      forall z | z in r.lists ensures DrainOk(r.lists[z]) {
        if n in q.lists[z].rest { RemoveKeepsDrain(q.lists[z], n); }
      }
    case OpenDrain(z, s) =>
      KeepAll(q.live, {});
      assert [] + q.live == q.live;
    case Yield(z) =>
      var d := q.lists[z];
      assert (d.yielded + [d.rest[0]]) + d.rest[1..] == d.yielded + d.rest;
    case CloseDrain(_) =>
  }

  /** A finished drain yielded, in FIFO order and once each, exactly the nodes it took
      that did not remove themselves. */
  lemma FinishedDrain<T(!new)>(q: Queue<T>, z: nat)
    requires History(q) && Enabled(q, CloseDrain(z))
    ensures q.lists[z].yielded == Keep(q.lists[z].orig, q.lists[z].removed)
    ensures NoDup(q.lists[z].yielded)
    ensures forall n :: n in q.lists[z].orig ==> n in q.lists[z].yielded || n in q.lists[z].removed
  {
    var d := q.lists[z];
    assert d.yielded + d.rest == d.yielded;
    KeepNoDup(d.orig, d.removed);
  }
}
