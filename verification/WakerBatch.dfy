/**
 * Waking in batches: the 32-slot `WakerList` of `src/wait_queue.rs`, the `for_each` of a
 * drain that fills and empties it, and `notify_many`.
 */
module WakerBatch {
  import opened Waking
  import AQ = AbstractQueue

  /** A fixed buffer of wakers. */
  class WakerList {
    const wakers: array<nat>
    var len: nat

    ghost predicate Valid()
      reads this
    {
      wakers.Length == BATCH && len <= wakers.Length
    }

    ghost function Contents(): (r: seq<nat>)
      requires Valid()
      reads this, wakers
      ensures |r| == len
    {
      wakers[..len]
    }

    constructor ()
      ensures Valid() && Contents() == [] && fresh(wakers)
    {
      wakers := new nat[BATCH];
      len := 0;
    }

    /** Writes past the end if the list is full. */
    method Push(waker: nat)
      requires Valid() && len < BATCH
      modifies this, wakers
      ensures Valid() && Contents() == old(Contents()) + [waker]
    {
      wakers[len] := waker;
      len := len + 1;
    }

    method IsFull() returns (full: bool)
      requires Valid()
      ensures full <==> |Contents()| == BATCH
    {
      full := len == wakers.Length;
    }

    /** Hands out every waker once: the list is empty before the first is used. */
    method Drain() returns (out: seq<nat>)
      requires Valid()
      modifies this
      ensures Valid() && Contents() == [] && out == old(Contents())
    {
      out := wakers[..len];
      len := 0;
    }
  }

  /** A queue as its lock holder sees it; `woken` is the trace of wake-ups. */
  class Line {
    var live: seq<nat>
    var state: nat
    var drained: seq<nat>
    var locked: bool
    var woken: seq<nat>

    constructor (live: seq<nat>, state: nat)
      ensures this.live == live && this.state == state && drained == [] && !locked && woken == []
    {
      this.live, this.state, drained, locked, woken := live, state, [], false, [];
    }

    /** Wakers run user code: never under the lock. */
    method Wake(batch: WakerList)
      requires batch.Valid() && !locked
      modifies this`woken, batch
      ensures batch.Valid() && batch.Contents() == []
      ensures woken == old(woken) + old(batch.Contents())
    {
      var out := batch.Drain();
      woken := woken + out;
    }

    /** The unlocked window of a drain: wake the batch; meanwhile the nodes in `gone` may
        unlink themselves from the drained list. */
    method ExecuteUnlocked(batch: WakerList, gone: set<nat>)
      requires batch.Valid() && locked
      modifies this`woken, this`locked, this`drained, batch
      ensures locked && batch.Valid() && batch.Contents() == []
      ensures woken == old(woken) + old(batch.Contents())
      ensures drained == AQ.Keep(old(drained), gone)
    {
      locked := false;
      Wake(batch);
      drained := AQ.Keep(drained, gone);
      locked := true;
    }

    /** `on_next`: the first drained node is yielded and its waker, if any, collected. */
    method TakeFirst(batch: WakerList, unarmed: set<nat>) returns (full: bool)
      requires locked && drained != [] && batch.Valid() && |batch.Contents()| < BATCH
      modifies this`drained, batch, batch.wakers
      ensures drained == old(drained)[1..]
      ensures batch.Valid() && batch.Contents() == old(batch.Contents()) + AQ.Keep([old(drained)[0]], unarmed)
      ensures full <==> |batch.Contents()| == BATCH
    {
      if drained[0] !in unarmed { batch.Push(drained[0]); }
      drained := drained[1..];
      full := batch.IsFull();
    }

    /** The loop of `Drain::for_each` with the callbacks of `drain_queue` and `notify_waiters`:
        take the waker, if there is one, and ask for a window when the batch is full.
        `unarmed` are the nodes without a waker; `gone[k]` leave during the k-th window. There
        are no more windows than full batches. */
    method ForEach(unarmed: set<nat>, gone: seq<set<nat>>) returns (removed: set<nat>)
      requires locked && AQ.NoDup(drained)
      modifies this`woken, this`locked, this`drained
      ensures !locked && drained == []
      ensures woken == old(woken) + AQ.Keep(old(drained), removed + unarmed)
      ensures forall n :: n in removed ==> n in old(drained) && LeftDuring(gone, (|woken| - |old(woken)|) / BATCH, n)
    {
      ghost var orig := drained;
      ghost var yielded: seq<nat> := [];
      removed := {};
      var window := 0;
      var batch := new WakerList();
      AllAtFirst(orig);
      while drained != []
        invariant batch.Valid() && fresh(batch) && fresh(batch.wakers) && locked
        invariant Split(orig, removed, yielded, drained)
        invariant |batch.Contents()| < BATCH || drained == []
        invariant Traced(old(woken), woken, batch.Contents(), yielded, unarmed)
        invariant AllLeft(orig, gone, window, removed) && |woken| == |old(woken)| + BATCH * window
        decreases |drained|
      {
        YieldOne(orig, removed, yielded, drained);
        TraceOne(old(woken), woken, batch.Contents(), yielded, unarmed, drained[0]);
        yielded := yielded + [drained[0]];
        var full := TakeFirst(batch, unarmed);
        if full && drained != [] {
          TraceWoken(old(woken), woken, batch.Contents(), yielded, unarmed);
          removed := Window(batch, gone, window, orig, removed, yielded);
          window := window + 1;
        }
      }
      AllYielded(orig, removed, yielded, unarmed);
      locked := false;
      Wake(batch);
      assert window <= (|woken| - |old(woken)|) / BATCH;
    }

    /** One window of the loop; `now` also counts those who left in it. */
    method Window(batch: WakerList, gone: seq<set<nat>>, window: nat, ghost orig: seq<nat>, removed: set<nat>, ghost yielded: seq<nat>)
      returns (now: set<nat>)
      requires batch.Valid() && locked
      requires Split(orig, removed, yielded, drained) && AllLeft(orig, gone, window, removed)
      modifies this`woken, this`locked, this`drained, batch
      ensures locked && batch.Valid() && batch.Contents() == []
      ensures woken == old(woken) + old(batch.Contents())
      ensures Split(orig, now, yielded, drained) && AllLeft(orig, gone, window + 1, now)
      ensures |drained| <= |old(drained)|
    {
      var leaving := if window < |gone| then gone[window] else {};
      var left := Leavers(drained, leaving);
      Leave(orig, removed, yielded, drained, left);
      KeepShorter(drained, leaving);
      MoreLeft(orig, gone, removed, left, window, yielded, drained);
      ExecuteUnlocked(batch, leaving);
      now := removed + left;
    }

    /** `drain_queue`: everybody in line is taken out, the state is installed, and everybody
        who does not leave by itself is woken, in order and once. */
    method DrainQueue(newState: nat, gone: seq<set<nat>>) returns (removed: set<nat>)
      requires locked && live != [] && AQ.NoDup(live)
      modifies this
      ensures !locked && live == [] && drained == [] && state == newState
      ensures woken == old(woken) + AQ.Keep(old(live), removed)
      ensures forall n :: n in removed ==> n in old(live) && LeftDuring(gone, (|woken| - |old(woken)|) / BATCH, n)
    {
      drained, live, state := live, [], newState;
      removed := ForEach({}, gone);
      assert removed + {} == removed;
    }

    /** Dequeue the first in line and collect its waker; an emptied queue is in state zero. */
    method DequeueFirst(batch: WakerList) returns (full: bool)
      requires locked && live != [] && batch.Valid() && |batch.Contents()| < BATCH
      modifies this`live, this`state, batch, batch.wakers
      ensures live == old(live)[1..] && state == if live == [] then 0 else old(state)
      ensures batch.Valid() && batch.Contents() == old(batch.Contents()) + [old(live)[0]]
      ensures full <==> |batch.Contents()| == BATCH
    {
      batch.Push(live[0]);
      live := live[1..];
      if live == [] { state := 0; }
      full := batch.IsFull();
    }

    /** The wake-up at the end of `notify_many`, whose guard is still alive there. */
    method WakeUnderLock(batch: WakerList) returns (out: seq<nat>)
      requires batch.Valid() && locked
      modifies this`woken, batch
      ensures batch.Valid() && batch.Contents() == [] && out == old(batch.Contents())
      ensures woken == old(woken) + out
    {
      out := batch.Drain();
      woken := woken + out;
    }

    /** The window after a full batch: wake it, while `arriving` enqueue themselves. */
    method WakeAndArrive(batch: WakerList, arriving: seq<nat>)
      requires batch.Valid() && locked
      modifies this`woken, this`locked, this`live, batch
      ensures !locked && batch.Valid() && batch.Contents() == []
      ensures woken == old(woken) + old(batch.Contents()) && live == old(live) + arriving
    {
      locked := false;
      Wake(batch);
      live := live + arriving;
    }

    /** One turn of `notify_many`, with a window if it fills the batch. */
    method NotifyTurn(batch: WakerList, arriving: seq<nat>, ghost before: seq<nat>, ghost all: seq<nat>, ghost n: nat)
      returns (full: bool)
      requires locked && live != [] && batch.Valid() && |batch.Contents()| < BATCH
      requires Served(before, all, woken, batch.Contents(), live, n)
      modifies this`live, this`state, this`woken, this`locked, batch, batch.wakers
      ensures batch.Valid() && (full <==> |old(batch.Contents())| + 1 == BATCH)
      ensures locked <==> !full
      ensures |batch.Contents()| == if full then 0 else |old(batch.Contents())| + 1
      ensures Served(before, if full then all + arriving else all, woken, batch.Contents(), live, n + 1)
      ensures live == [] ==> state == 0
    {
      ServeOne(before, all, woken, batch.Contents(), live, n);
      full := DequeueFirst(batch);
      if full {
        ServeWindow(before, all, woken, batch.Contents(), live, n + 1, arriving);
        WakeAndArrive(batch, arriving);
      }
    }

    /** `notify_many`, with `arrivals[k]` enqueueing themselves in its k-th window: of those in
        line and those who arrived in time, the first `served` are dequeued and woken, in order;
        it stops short of `count` only on an empty line. Whoever filled a batch is woken in a
        window; the rest, when the count ends the loop, with the guard still alive. */
    method NotifyMany(count: nat, arrivals: seq<seq<nat>>) returns (served: nat, underLock: seq<nat>)
      requires locked
      modifies this
      ensures !locked
      ensures var all := old(live) + Flat(arrivals, served / BATCH);
        && served <= count && served <= |all| && (served < count ==> served == |all|)
        && live == all[served..]
        && woken == old(woken) + all[..served]
        && underLock == if served == count then all[served - served % BATCH..served] else []
      ensures live == [] ==> state == if served == 0 then old(state) else 0
    {
      var batch := new WakerList();
      var window := 0;
      ghost var all := live;
      served := 0;
      underLock := [];
      while served < count
        invariant batch.Valid() && fresh(batch) && fresh(batch.wakers) && locked
        invariant served <= count && |batch.Contents()| < BATCH && served == BATCH * window + |batch.Contents()|
        invariant all == old(live) + Flat(arrivals, window)
        invariant Served(old(woken), all, woken, batch.Contents(), live, served)
        invariant live == [] ==> state == if served == 0 then old(state) else 0
      {
        if live == [] { break; }
        var arriving := if window < |arrivals| then arrivals[window] else [];
        var full := NotifyTurn(batch, arriving, old(woken), all, served);
        served := served + 1;
        if full {
          FlatNext(arrivals, window, old(live));
          all := all + arriving;
          window := window + 1;
          if live == [] { break; }
          locked := true;
        }
      }
      Batches(served, window, |batch.Contents()|);
      ServeEnd(old(woken), all, woken, batch.Contents(), live, served);
      if locked && served == count {
        ServeLast(old(woken), all, woken, batch.Contents(), served);
        underLock := WakeUnderLock(batch);
        locked := false;
      } else {
        locked := false;
        Wake(batch);
      }
    }
  }

  lemma Batches(served: nat, windows: nat, left: nat)
    requires served == BATCH * windows + left && left < BATCH
    ensures served / BATCH == windows && served % BATCH == left
  {
  }

  /** The first `k` of `parts`, one after the other. */
  function Flat(parts: seq<seq<nat>>, k: nat): seq<nat> {
    if k == 0 then [] else Flat(parts, k - 1) + (if k <= |parts| then parts[k - 1] else [])
  }

  lemma FlatNext(parts: seq<seq<nat>>, k: nat, line: seq<nat>)
    ensures line + Flat(parts, k + 1) == (line + Flat(parts, k)) + (if k + 1 <= |parts| then parts[k] else [])
  {
  }

  /** The first `n` of `all` have been woken or sit in the batch; the others wait. */
  ghost predicate Served(before: seq<nat>, all: seq<nat>, woken: seq<nat>, batch: seq<nat>, live: seq<nat>, n: nat) {
    n <= |all| && live == all[n..] && woken + batch == before + all[..n]
  }

  lemma ServeOne(before: seq<nat>, all: seq<nat>, woken: seq<nat>, batch: seq<nat>, live: seq<nat>, n: nat)
    requires Served(before, all, woken, batch, live, n) && live != []
    ensures Served(before, all, woken, batch + [live[0]], live[1..], n + 1)
  {
    assert all[..n + 1] == all[..n] + [live[0]];
    Extend(woken, batch, before, all[..n], [live[0]]);
  }

  /** In a window the batch is woken and newcomers line up. */
  lemma ServeWindow(before: seq<nat>, all: seq<nat>, woken: seq<nat>, batch: seq<nat>, live: seq<nat>, n: nat, more: seq<nat>)
    requires Served(before, all, woken, batch, live, n)
    ensures Served(before, all + more, woken + batch, [], live + more, n)
  {
    assert (woken + batch) + [] == woken + batch;
    assert (all + more)[..n] == all[..n] && (all + more)[n..] == all[n..] + more;
  }

  lemma ServeEnd(before: seq<nat>, all: seq<nat>, woken: seq<nat>, batch: seq<nat>, live: seq<nat>, n: nat)
    requires Served(before, all, woken, batch, live, n)
    ensures live == [] ==> n == |all| && all[n..] == [] && all[..n] == all
    ensures woken + batch == before + all[..n]
  {
  }

  /** The batch holds the last of those served. */
  lemma ServeLast(before: seq<nat>, all: seq<nat>, woken: seq<nat>, batch: seq<nat>, n: nat)
    requires n <= |all| && woken + batch == before + all[..n] && |batch| <= n
    ensures batch == all[n - |batch|..n]
  {
    var whole := woken + batch;
    assert batch == whole[|whole| - |batch|..];
    assert whole[|whole| - |batch|..] == all[..n][n - |batch|..];
  }

  lemma Extend(woken: seq<nat>, batch: seq<nat>, before: seq<nat>, done: seq<nat>, x: seq<nat>)
    requires woken + batch == before + done
    ensures woken + (batch + x) == before + (done + x)
  {
    assert woken + (batch + x) == (woken + batch) + x;
    assert before + (done + x) == (before + done) + x;
  }

  /** `n` is among those who leave in one of the first windows. */
  predicate LeftDuring(gone: seq<set<nat>>, windows: nat, n: nat) {
    exists k :: 0 <= k < |gone| && k < windows && n in gone[k]
  }

  function Leavers(drained: seq<nat>, leaving: set<nat>): (r: set<nat>)
    ensures forall x :: x in r <==> x in drained && x in leaving
    ensures AQ.Keep(drained, r) == AQ.Keep(drained, leaving)
  {
    var r := set x | x in drained && x in leaving;
    KeepSame(drained, r, leaving);
    r
  }

  lemma {:induction false} KeepShorter(q: seq<nat>, a: set<nat>)
    ensures |AQ.Keep(q, a)| <= |q|
  {
    if q != [] { KeepShorter(q[1..], a); }
  }

  lemma {:induction false} KeepSame(q: seq<nat>, a: set<nat>, b: set<nat>)
    requires forall x :: x in q ==> (x in a <==> x in b)
    ensures AQ.Keep(q, a) == AQ.Keep(q, b)
  {
    if q != [] { KeepSame(q[1..], a, b); }
  }

  /** What was yielded and what is left are what was taken, without those who left. */
  ghost predicate Split(orig: seq<nat>, removed: set<nat>, yielded: seq<nat>, rest: seq<nat>) {
    AQ.NoDup(orig) && yielded + rest == AQ.Keep(orig, removed)
  }

  predicate AllLeft(orig: seq<nat>, gone: seq<set<nat>>, windows: nat, removed: set<nat>) {
    forall n :: n in removed ==> n in orig && LeftDuring(gone, windows, n)
  }

  lemma YieldOne(orig: seq<nat>, removed: set<nat>, yielded: seq<nat>, rest: seq<nat>)
    requires Split(orig, removed, yielded, rest) && rest != []
    ensures Split(orig, removed, yielded + [rest[0]], rest[1..])
  {
    assert (yielded + [rest[0]]) + rest[1..] == yielded + rest;
  }

  lemma AllAtFirst(orig: seq<nat>)
    requires AQ.NoDup(orig)
    ensures Split(orig, {}, [], orig)
  {
    AQ.KeepAll(orig, {});
    assert [] + orig == orig;
  }

  /** The wakers of what was yielded have been woken or sit in the batch. */
  ghost predicate Traced(before: seq<nat>, woken: seq<nat>, batch: seq<nat>, yielded: seq<nat>, unarmed: set<nat>) {
    woken + batch == before + AQ.Keep(yielded, unarmed)
  }

  lemma TraceOne(before: seq<nat>, woken: seq<nat>, batch: seq<nat>, yielded: seq<nat>, unarmed: set<nat>, n: nat)
    requires Traced(before, woken, batch, yielded, unarmed)
    ensures Traced(before, woken, batch + AQ.Keep([n], unarmed), yielded + [n], unarmed)
  {
    AQ.KeepConcat(yielded, [n], unarmed);
    Extend(woken, batch, before, AQ.Keep(yielded, unarmed), AQ.Keep([n], unarmed));
  }

  lemma TraceWoken(before: seq<nat>, woken: seq<nat>, batch: seq<nat>, yielded: seq<nat>, unarmed: set<nat>)
    requires Traced(before, woken, batch, yielded, unarmed)
    ensures Traced(before, woken + batch, [], yielded, unarmed)
  {
    assert (woken + batch) + [] == woken + batch;
  }

  lemma AllYielded(orig: seq<nat>, removed: set<nat>, yielded: seq<nat>, unarmed: set<nat>)
    requires Split(orig, removed, yielded, [])
    ensures AQ.Keep(yielded, unarmed) == AQ.Keep(orig, removed + unarmed)
  {
    assert yielded + [] == yielded;
    AQ.KeepTwice(orig, removed, unarmed);
  }

  lemma MoreLeft(orig: seq<nat>, gone: seq<set<nat>>, removed: set<nat>, left: set<nat>, window: nat, yielded: seq<nat>, rest: seq<nat>)
    requires AllLeft(orig, gone, window, removed) && Split(orig, removed, yielded, rest)
    requires forall x :: x in left ==> x in rest && window < |gone| && x in gone[window]
    ensures AllLeft(orig, gone, window + 1, removed + left)
  {
    forall n | n in removed ensures LeftDuring(gone, window + 1, n) { assert LeftDuring(gone, window, n); }
    forall n | n in left ensures n in orig && LeftDuring(gone, window + 1, n) {
      assert n in yielded + rest;
      assert n in AQ.Keep(orig, removed);
      assert n in gone[window];
    }
  }

  /** Nodes that leave a drained list leave only what has not been yielded. */
  lemma Leave(orig: seq<nat>, removed: set<nat>, yielded: seq<nat>, rest: seq<nat>, left: set<nat>)
    requires Split(orig, removed, yielded, rest)
    requires forall x :: x in left ==> x in rest
    ensures Split(orig, removed + left, yielded, AQ.Keep(rest, left))
  {
    AQ.KeepNoDup(orig, removed);
    var all := yielded + rest;
    forall i, j | 0 <= i < |yielded| && 0 <= j < |rest| ensures yielded[i] != rest[j] {
      assert all[i] != all[|yielded| + j];
    }
    AQ.KeepConcat(yielded, rest, left);
    AQ.KeepAll(yielded, left);
    AQ.KeepTwice(orig, removed, left);
  }
}
