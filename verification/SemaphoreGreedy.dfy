/**
 * `add_permits` when nobody interferes: the batched loop of the source against a greedy
 * rule, the greedy rule against a description of what it picks, and one turn of the
 * concurrent machine's loop against one turn of the rule.
 */
module SemaphoreGreedy {
  import opened Options
  import opened Waking
  import opened SemaphoreModel
  import opened SemaphoreInvariant
  import opened SemaphoreSteps
  import opened SemaphoreCalls
  import opened SemaphoreLedger
  import AQ = AbstractQueue

  datatype Asker = Asker(id: nat, missing: nat)

  datatype Outcome = Outcome(served: seq<nat>, line: seq<Asker>, left: nat)

  /** Serve from the front; stop when a waiter cannot be served in full (it keeps what is
      left), when nothing is left, or when nobody waits. */
  function Greedy(line: seq<Asker>, permits: nat): Outcome {
    if line == [] then Outcome([], [], permits)
    else if line[0].missing > permits then
      Outcome([], [line[0].(missing := line[0].missing - permits)] + line[1..], 0)
    else if line[0].missing == permits then Outcome([line[0].id], line[1..], 0)
    else
      var r := Greedy(line[1..], permits - line[0].missing);
      r.(served := [line[0].id] + r.served)
  }

  // ------------------------------------------------------ what greedy picks

  /** What the first `k` in line are missing together. */
  function Cost(line: seq<Asker>, k: nat): nat
    requires k <= |line|
  {
    if k == 0 then 0 else line[0].missing + Cost(line[1..], k - 1)
  }

  function Ids(line: seq<Asker>): (r: seq<nat>)
    ensures |r| == |line| && forall j :: 0 <= j < |line| ==> r[j] == line[j].id
  {
    seq(|line|, j requires 0 <= j < |line| => line[j].id)
  }

  lemma {:induction false} CostGrows(line: seq<Asker>, j: nat, k: nat)
    requires j <= k <= |line|
    ensures Cost(line, j) <= Cost(line, k)
  {
    if j > 0 { CostGrows(line[1..], j - 1, k - 1); }
  }

  lemma {:induction false} CostNext(line: seq<Asker>, k: nat)
    requires k < |line|
    ensures Cost(line, k + 1) == Cost(line, k) + line[k].missing
  {
    if k > 0 { CostNext(line[1..], k - 1); }
  }

  /** Who is served, who gets the remainder, and what is left over. */
  lemma {:induction false} GreedyOutcome(line: seq<Asker>, permits: nat)
    ensures |Greedy(line, permits).served| <= |line|
    ensures Picked(line, permits, |Greedy(line, permits).served|, Greedy(line, permits))
  {
    if line != [] && line[0].missing < permits {
      GreedyOutcome(line[1..], permits - line[0].missing);
      var rest := Greedy(line[1..], permits - line[0].missing);
      PickedOneMore(line, permits, |rest.served|, rest);
    } else if line != [] && line[0].missing == permits {
      assert Cost(line[1..], 0) == 0;
      assert Ids(line[..1]) == [line[0].id];
      if |line| > 1 { assert line[1..] == [line[1].(missing := line[1].missing - 0)] + line[2..]; }
    } else if line != [] {
      assert line[..0] == [] && line[0 + 1..] == line[1..];
    }
  }

  /** The first `k` are served; the next one gets the remainder; what nobody takes is left. */
  ghost predicate Picked(line: seq<Asker>, permits: nat, k: nat, r: Outcome)
    requires k <= |line|
  {
    && r.served == Ids(line[..k])
    && Cost(line, k) <= permits
    && (k == |line| ==> r.line == [] && r.left == permits - Cost(line, k))
    && (k < |line| ==>
        && r.left == 0
        && permits - Cost(line, k) <= line[k].missing
        && r.line == [line[k].(missing := line[k].missing - (permits - Cost(line, k)))] + line[k + 1..])
  }

  lemma PickedOneMore(line: seq<Asker>, permits: nat, k: nat, r: Outcome)
    requires line != [] && line[0].missing <= permits && k < |line|
    requires Picked(line[1..], permits - line[0].missing, k, r)
    ensures Picked(line, permits, k + 1, r.(served := [line[0].id] + r.served))
  {
    assert line[..k + 1] == [line[0]] + line[1..][..k];
    assert Ids(line[..k + 1]) == [line[0].id] + Ids(line[1..][..k]);
    if k + 1 < |line| {
      assert line[1..][k] == line[k + 1];
      assert line[1..][k + 1..] == line[k + 2..];
    }
  }

  /** `k` is where the loop stops: it could afford everyone so far, it had something left
      before each of them but the first, and now nobody waits, nothing is left, or the next
      one costs too much. */
  predicate Stops(line: seq<Asker>, permits: nat, k: nat) {
    && k <= |line|
    && Cost(line, k) <= permits
    && (forall j :: 0 < j < k ==> Cost(line, j) < permits)
    && (k == |line| || (k > 0 && Cost(line, k) == permits) || Cost(line, k + 1) > permits)
  }

  lemma {:induction false} GreedyStops(line: seq<Asker>, permits: nat)
    ensures |Greedy(line, permits).served| <= |line|
    ensures Stops(line, permits, |Greedy(line, permits).served|)
  {
    if line != [] && line[0].missing < permits {
      var p := permits - line[0].missing;
      GreedyStops(line[1..], p);
      var k := |Greedy(line[1..], p).served|;
      forall j | 0 < j < k + 1 ensures Cost(line, j) < permits {
        if j > 1 { assert Cost(line[1..], j - 1) < p; }
      }
    } else if line != [] && line[0].missing == permits {
      assert Cost(line, 1) == permits;
    }
  }

  function Min(a: nat, b: nat): nat { if a < b then a else b }

  /** The number served is the only place where the loop can stop. */
  lemma ServedIff(line: seq<Asker>, permits: nat, k: nat)
    ensures Stops(line, permits, k) <==> k == |Greedy(line, permits).served|
  {
    GreedyStops(line, permits);
    if Stops(line, permits, k) {
      var g := |Greedy(line, permits).served|;
      CostGrows(line, Min(k + 1, g), g);
      CostGrows(line, Min(g + 1, k), k);
    }
  }

  predicate Longest(line: seq<Asker>, permits: nat, k: nat) {
    k <= |line| && Cost(line, k) <= permits && forall j :: k < j <= |line| ==> Cost(line, j) > permits
  }

  /** It is the longest affordable prefix exactly when the loop does not stop, with nothing
      left, in front of somebody who needs nothing; so always if everyone needs a permit. */
  lemma LongestIff(line: seq<Asker>, permits: nat)
    ensures var k := |Greedy(line, permits).served|;
      k <= |line| && (Longest(line, permits, k) <==> !(0 < k < |line| && Cost(line, k) == permits && line[k].missing == 0))
  {
    GreedyStops(line, permits);
    var k := |Greedy(line, permits).served|;
    if k < |line| {
      CostNext(line, k);
      if Cost(line, k + 1) > permits {
        forall j | k < j <= |line| ensures Cost(line, j) > permits { CostGrows(line, k + 1, j); }
      }
    }
  }

  lemma {:induction false} CostAtLeast(line: seq<Asker>, k: nat)
    requires k <= |line| && forall j :: 0 <= j < |line| ==> line[j].missing > 0
    ensures Cost(line, k) >= k
  {
    if k > 0 { CostAtLeast(line[1..], k - 1); }
  }

  /** If everyone needs a permit, at most `permits` are served, and no longer prefix could be. */
  lemma ServedWithinMeans(line: seq<Asker>, permits: nat)
    requires forall j :: 0 <= j < |line| ==> line[j].missing > 0
    ensures |Greedy(line, permits).served| <= permits
    ensures Longest(line, permits, |Greedy(line, permits).served|)
  {
    GreedyOutcome(line, permits);
    CostAtLeast(line, |Greedy(line, permits).served|);
    LongestIff(line, permits);
  }

  /** Permits are conserved: what nobody lacks any more, plus what is left, is what came in. */
  lemma {:induction false} GreedyConserves(line: seq<Asker>, permits: nat)
    ensures var r := Greedy(line, permits); Cost(r.line, |r.line|) + permits == Cost(line, |line|) + r.left
  {
    if line != [] {
      if line[0].missing < permits {
        GreedyConserves(line[1..], permits - line[0].missing);
      } else if line[0].missing > permits {
        var r := Greedy(line, permits);
        assert r.line[1..] == line[1..];
      }
    }
  }

  /** What remains to be done leads to the goal. */
  ghost predicate OnCourse(goal: Outcome, before: seq<nat>, woken: seq<nat>, line: seq<Asker>, permits: nat) {
    var r := Greedy(line, permits);
    goal.line == r.line && goal.left == r.left && before + goal.served == woken + r.served
  }

  /** Serving the first in line leads closer, or is the end of it. */
  lemma ServeOnCourse(goal: Outcome, before: seq<nat>, woken: seq<nat>, line: seq<Asker>, permits: nat)
    requires OnCourse(goal, before, woken, line, permits) && line != []
    ensures line[0].missing > permits ==>
      && goal.line == [line[0].(missing := line[0].missing - permits)] + line[1..]
      && goal.left == 0 && woken == before + goal.served
    ensures line[0].missing <= permits ==>
      var left := permits - line[0].missing;
      && (left == 0 || line[1..] == [] ==>
          goal.line == line[1..] && goal.left == left && woken + [line[0].id] == before + goal.served)
      && (left > 0 ==> OnCourse(goal, before, woken + [line[0].id], line[1..], left))
  {
    if line[0].missing < permits {
      var r := Greedy(line[1..], permits - line[0].missing);
      assert (woken + [line[0].id]) + r.served == woken + ([line[0].id] + r.served);
    }
  }

  // --------------------------------------------------- the word for what is left

  /** At some waiter that is served the word for what is left does not fit the tail. */
  predicate Overflowing(line: seq<Asker>, permits: nat) {
    line != [] && line[0].missing <= permits &&
    var left := permits - line[0].missing;
    StateWord(left).None? || (left > 0 && Overflowing(line[1..], left))
  }

  /** The same without the loop. */
  lemma {:induction false} OverflowingIff(line: seq<Asker>, permits: nat)
    ensures |Greedy(line, permits).served| <= |line|
    ensures Overflowing(line, permits) <==>
      exists k :: 1 <= k <= |Greedy(line, permits).served| && Remains(line, permits, k).None?
  {
    GreedyStops(line, permits);
    if line != [] && line[0].missing <= permits {
      assert Cost(line, 1) == line[0].missing + Cost(line[1..], 0);
      assert Remains(line, permits, 1) == StateWord(permits - line[0].missing);
      if line[0].missing < permits {
        var p := permits - line[0].missing;
        OverflowingIff(line[1..], p);
        var n := |Greedy(line[1..], p).served|;
        assert |Greedy(line, permits).served| == n + 1;
        forall k | 1 <= k <= n ensures Remains(line, permits, k + 1) == Remains(line[1..], p, k) {
          RemainsNext(line, permits, k);
        }
        if exists k :: 1 <= k <= n && Remains(line[1..], p, k).None? {
          var k :| 1 <= k <= n && Remains(line[1..], p, k).None?;
          assert Remains(line, permits, k + 1).None?;
        }
        if exists k :: 2 <= k <= n + 1 && Remains(line, permits, k).None? {
          var k :| 2 <= k <= n + 1 && Remains(line, permits, k).None?;
          assert Remains(line[1..], p, k - 1) == Remains(line, permits, (k - 1) + 1);
        }
      }
    }
  }

  /** The word for what is left after the first `k`. */
  function Remains(line: seq<Asker>, permits: nat, k: int): Option<nat> {
    if 0 <= k <= |line| && Cost(line, k) <= permits then StateWord(permits - Cost(line, k)) else Some(0)
  }

  lemma RemainsNext(line: seq<Asker>, permits: nat, k: nat)
    requires line != [] && line[0].missing <= permits
    ensures Remains(line, permits, k + 1) == Remains(line[1..], permits - line[0].missing, k)
  {
  }

  /** Below 2^62 the word never overflows, and it is exact. */
  lemma {:induction false} SmallIsExact(line: seq<Asker>, permits: nat)
    requires permits < U63 / 2
    ensures !Overflowing(line, permits)
    ensures StateWord(Greedy(line, permits).left) == Some(2 * Greedy(line, permits).left)
  {
    WordHalf(permits);
    if line != [] && line[0].missing <= permits {
      WordHalf(permits - line[0].missing);
      if line[0].missing < permits { SmallIsExact(line[1..], permits - line[0].missing); }
    }
    WordHalf(Greedy(line, permits).left);
  }

  // -------------------------------------------------------- the source's loop

  datatype Stored = InState | Overflow | MustServe

  /** A semaphore that one caller has for itself. `woken` is the trace of wake-ups. */
  class Semaphore {
    var line: seq<Asker>
    var state: nat
    var locked: bool
    var woken: seq<nat>
    ghost var unlocks: nat

    constructor (line: seq<Asker>, state: nat)
      ensures this.line == line && this.state == state && !locked && woken == [] && unlocks == 0
    {
      this.line, this.state, this.locked, this.woken, this.unlocks := line, state, false, [], 0;
    }

    method Lock()
      requires !locked
      modifies this`locked
      ensures locked
    {
      locked := true;
    }

    method Unlock()
      requires locked
      modifies this`locked, this`unlocks
      ensures !locked && unlocks == old(unlocks) + 1
    {
      locked, unlocks := false, unlocks + 1;
    }

    /** Wakers run user code: never under the lock. */
    method Wake(wakers: seq<nat>)
      requires !locked
      modifies this`woken
      ensures woken == old(woken) + wakers
    {
      woken := woken + wakers;
    }

    /** `fetch_update_state_or_lock`: the permits become state, unless that overflows, or the
        lock is taken. */
    method StoreOrLock(permits: nat) returns (outcome: Stored)
      requires !locked
      modifies this`state, this`locked
      ensures outcome.MustServe? <==> line != []
      ensures outcome.Overflow? <==> line == [] && CheckAdd(old(state), permits).None?
      ensures locked <==> outcome.MustServe?
      ensures state == if outcome.InState? then old(state) + 2 * permits else old(state)
    {
      if line != [] {
        Lock();
        return MustServe;
      }
      var sum := CheckAdd(state, permits);
      if sum.None? { return Overflow; }
      state := sum.value;
      outcome := InState;
    }

    /** The first waiter either takes all of `permits` and stays, or is served and leaves; when
        it was the last one, what is left becomes the state. The word for that is computed in
        any case, before the waiter leaves: if it overflows, the waiter stays. */
    method ServeFirst(permits: nat) returns (served: bool, left: nat, installed: bool, overflow: bool)
      requires locked && line != []
      modifies this`line, this`state
      ensures served <==> old(line)[0].missing <= permits && !overflow
      ensures overflow <==> old(line)[0].missing <= permits && StateWord(permits - old(line)[0].missing).None?
      ensures !served ==> left == 0 && !installed && state == old(state)
      ensures !served && !overflow ==>
        line == [old(line)[0].(missing := old(line)[0].missing - permits)] + old(line)[1..]
      ensures overflow ==> line == [old(line)[0].(missing := 0)] + old(line)[1..]
      ensures served ==>
        && left == permits - old(line)[0].missing && line == old(line)[1..]
        && (installed <==> line == [])
        && state == if installed then StateWord(left).value else old(state)
    {
      var first := line[0];
      if first.missing > permits {
        line := [first.(missing := first.missing - permits)] + line[1..];
        return false, 0, false, false;
      }
      left := permits - first.missing;
      line := [first.(missing := 0)] + line[1..];
      var word := StateWord(left);
      if word.None? { return false, 0, false, true; }
      line := line[1..];
      installed := line == [];
      if installed { state := word.value; }
      served, overflow := true, false;
    }

    /** The loop over batches of at most 32 wakers is the greedy rule, unless the word for what
        is left overflows at some waiter: then it panics there, with that waiter still in line.
        Before it is done it gives up the lock only for a full batch. */
    method AddPermitsLocked(n: nat) returns (overflow: bool)
      requires locked && line != []
      modifies this
      ensures !locked
      ensures overflow <==> Overflowing(old(line), n)
      ensures BATCH * (unlocks - old(unlocks) - 1) <= |woken| - |old(woken)|
      ensures overflow ==> line != [] && line[0].missing == 0 && state == old(state) && old(woken) <= woken
      ensures !overflow ==>
        && line == Greedy(old(line), n).line
        && woken == old(woken) + Greedy(old(line), n).served
        && if line == [] then StateWord(Greedy(old(line), n).left) == Some(state) else state == old(state)
    {
      var permits := n;
      var wakers: seq<nat> := [];
      ghost var goal := Greedy(line, n);
      label outer: while true
        invariant locked && line != [] && wakers == [] && state == old(state)
        invariant OnCourse(goal, old(woken), woken, line, permits)
        invariant |woken| == |old(woken)| + BATCH * (unlocks - old(unlocks))
        invariant old(woken) <= woken && (Overflowing(old(line), n) <==> Overflowing(line, permits))
        decreases |line|
      {
        ghost var before := |line|;
        while true
          invariant locked && line != [] && |wakers| < BATCH && state == old(state)
          invariant OnCourse(goal, old(woken), woken + wakers, line, permits)
          invariant |woken| == |old(woken)| + BATCH * (unlocks - old(unlocks))
          invariant old(woken) <= woken && (Overflowing(old(line), n) <==> Overflowing(line, permits))
          invariant if wakers == [] then |line| == before else |line| < before
          decreases |line|
        {
          var id := line[0].id;
          ServeOnCourse(goal, old(woken), woken + wakers, line, permits);
          var served, left, installed, panic := ServeFirst(permits);
          if panic {
            Unlock();
            return true;
          }
          permits := left;
          if !served { break outer; }
          assert (woken + wakers) + [id] == woken + (wakers + [id]);
          wakers := wakers + [id];
          if installed || permits == 0 { break outer; }
          if |wakers| == BATCH { break; }
        }
        Unlock();
        Wake(wakers);
        wakers := [];
        var outcome := StoreOrLock(permits);
        if !outcome.MustServe? { return false; }
      }
      Unlock();
      Wake(wakers);
      overflow := false;
    }

    /** `add_permits`: nothing for zero; otherwise greedy, or the state grows. The result is
        whether it panics: "permits overflow" on an empty line, "queue state overflow" in the loop. */
    method AddPermits(n: nat) returns (overflow: bool)
      requires !locked && n < U64
      modifies this
      ensures !locked
      ensures overflow <==>
        n > 0 && if old(line) == [] then old(state) / 2 + n > MAX_PERMITS else Overflowing(old(line), n)
      ensures n == 0 || (overflow && old(line) == []) ==>
        line == old(line) && woken == old(woken) && state == old(state)
      ensures n > 0 && old(line) != [] && !overflow ==>
        && line == Greedy(old(line), n).line
        && woken == old(woken) + Greedy(old(line), n).served
        && if line == [] then StateWord(Greedy(old(line), n).left) == Some(state) else state == old(state)
      ensures n > 0 && old(line) == [] && !overflow ==>
        line == [] && woken == old(woken) && state == old(state) + 2 * n
    {
      if n == 0 { return false; }
      var outcome := StoreOrLock(n);
      overflow := outcome.Overflow?;
      if outcome.MustServe? { overflow := AddPermitsLocked(n); }
    }
  }

  // ------------------------------------------------- the concurrent machine's loop

  /** What everyone in the machine's queue still needs. */
  ghost function LineOf(s: Sem): (r: seq<Asker>)
    requires forall j :: 0 <= j < |s.q.live| ==> s.q.live[j] < |s.waiters|
    ensures |r| == |s.q.live|
    ensures forall j :: 0 <= j < |r| ==> r[j] == Asker(s.q.live[j], s.waiters[s.q.live[j]].remaining)
  {
    seq(|s.q.live|, j requires 0 <= j < |s.q.live| => Asker(s.q.live[j], s.waiters[s.q.live[j]].remaining))
  }

  lemma LineIsThere(s: Sem)
    requires Shape(s)
    ensures forall j :: 0 <= j < |s.q.live| ==> s.q.live[j] < |s.waiters|
  {
    forall j | 0 <= j < |s.q.live| ensures s.q.live[j] < |s.waiters| { assert AQ.Present(s.q, s.q.live[j]); }
  }

  /** What one turn of the loop does to the call, the head waiter and the queue. */
  lemma GrantEffect(s: Sem, i: nat)
    requires Shape(s) && Enabled(s, Grant(i))
    ensures s.q.live != [] && s.q.live[0] < |s.waiters|
    ensures var t, w := GrantNext(s, i), s.q.live[0];
      var c, missing := s.calls[i], s.waiters[w].remaining;
      && |t.waiters| == |s.waiters| && i < |t.calls|
      && (t.panicked <==> missing <= c.amount && StateWord(c.amount - missing).None?)
      && (forall k :: 0 <= k < |s.waiters| && k != w ==> t.waiters[k] == s.waiters[k])
      && (if t.panicked then true
          else if missing > c.amount then
            && t.q == s.q && t.waiters[w].remaining == missing - c.amount && t.calls[i].pc == Unlocking(true)
          else
            && t.q.live == s.q.live[1..]
            && (t.q.live == [] ==> StateWord(c.amount - missing) == Some(t.q.state))
            && (if t.q.live == [] || c.amount == missing then t.calls[i].pc == Unlocking(true)
                else t.calls[i].pc != Unlocking(true) && t.calls[i].amount == c.amount - missing))
  {
    GrantHasWaiter(s, i);
    var w := s.q.live[0];
    assert AQ.Present(s.q, w);
    if Serves(s, i) && StateWord(LeftOver(s, i)).Some? {
      RemoveFromLive(s.q, w, StateWord(LeftOver(s, i)).value);
    }
  }

  /** The lines before and after. */
  lemma GrantLine(s: Sem, t: Sem, w: nat)
    requires AQ.NoDup(s.q.live) && s.q.live != [] && w == s.q.live[0]
    requires forall j :: 0 <= j < |s.q.live| ==> s.q.live[j] < |s.waiters|
    requires |t.waiters| == |s.waiters| && forall k :: 0 <= k < |s.waiters| && k != w ==> t.waiters[k] == s.waiters[k]
    requires t.q.live == s.q.live || t.q.live == s.q.live[1..]
    ensures forall j :: 0 <= j < |t.q.live| ==> t.q.live[j] < |t.waiters|
    ensures LineOf(t) ==
      if t.q.live == s.q.live then [LineOf(s)[0].(missing := t.waiters[w].remaining)] + LineOf(s)[1..] else LineOf(s)[1..]
  {
  }

  /** One turn of the rule: `after` is the line that is left, and the loop stops if `last`. */
  lemma GreedyTurn(line: seq<Asker>, permits: nat, after: seq<Asker>, last: bool, left: nat, state: nat)
    requires line != []
    requires
      if line[0].missing > permits then
        last && after == [line[0].(missing := line[0].missing - permits)] + line[1..]
      else
        && after == line[1..]
        && (after == [] ==> StateWord(permits - line[0].missing) == Some(state))
        && (if after == [] || permits == line[0].missing then last else !last && left == permits - line[0].missing)
    ensures var whole := Greedy(line, permits);
      if last then
        && whole.line == after
        && (whole.line == [] ==> StateWord(whole.left) == Some(state))
        && whole.served == if |after| == |line| then [] else [line[0].id]
      else
        && var next := Greedy(after, left);
        whole.line == next.line && whole.left == next.left && whole.served == [line[0].id] + next.served
  {
  }

  lemma GrantTurn(s: Sem, i: nat)
    requires Shape(s) && Enabled(s, Grant(i)) && !GrantNext(s, i).panicked
    requires forall j :: 0 <= j < |s.q.live| ==> s.q.live[j] < |s.waiters|
    ensures forall j :: 0 <= j < |GrantNext(s, i).q.live| ==> GrantNext(s, i).q.live[j] < |GrantNext(s, i).waiters|
    ensures i < |GrantNext(s, i).calls| && s.q.live != []
    ensures Turned(LineOf(s), s.calls[i].amount, LineOf(GrantNext(s, i)), GrantNext(s, i).calls[i], GrantNext(s, i).q.state)
  {
    var t := GrantNext(s, i);
    GrantEffect(s, i);
    GrantLine(s, t, s.q.live[0]);
    GreedyTurn(LineOf(s), s.calls[i].amount, LineOf(t), t.calls[i].pc == Unlocking(true), t.calls[i].amount, t.q.state);
  }

  /** From one line to the next as the rule does: the outcome, or where the rule goes on. */
  predicate Turned(line: seq<Asker>, permits: nat, after: seq<Asker>, c: Call, state: nat)
    requires line != []
  {
    var whole := Greedy(line, permits);
    if c.pc == Unlocking(true) then
      && whole.line == after
      && (whole.line == [] ==> StateWord(whole.left) == Some(state))
      && whole.served == if |after| == |line| then [] else [line[0].id]
    else
      && var next := Greedy(after, c.amount);
      whole.line == next.line && whole.left == next.left && whole.served == [line[0].id] + next.served
  }

  /** Under any interference, each turn of a call's loop is one turn of the greedy rule on the
      line as it then is: it panics where the rule's left-over overflows, ends with the rule's
      outcome, or goes on where the rule goes on. */
  lemma GrantIsGreedy(s: Sem, i: nat)
    requires Inv(s) && Enabled(s, Grant(i))
    ensures forall j :: 0 <= j < |s.q.live| ==> s.q.live[j] < |s.waiters|
    ensures forall j :: 0 <= j < |GrantNext(s, i).q.live| ==> GrantNext(s, i).q.live[j] < |GrantNext(s, i).waiters|
    ensures i < |GrantNext(s, i).calls| && LineOf(s) != []
    ensures GrantNext(s, i).panicked <==>
      LineOf(s)[0].missing <= s.calls[i].amount && StateWord(s.calls[i].amount - LineOf(s)[0].missing).None?
    ensures !GrantNext(s, i).panicked ==>
      Turned(LineOf(s), s.calls[i].amount, LineOf(GrantNext(s, i)), GrantNext(s, i).calls[i], GrantNext(s, i).q.state)
  {
    LineIsThere(s);
    GrantEffect(s, i);
    if !GrantNext(s, i).panicked { GrantTurn(s, i); }
  }
}
