/**
 * What the clients rely on: a removal under a guard takes many accesses, with enqueuers in
 * between, and is yet one removal from the atomic queue.
 */
module ProtocolGuard {
  import opened Options
  import opened Protocol
  import opened ProtocolInvariant
  import opened ProtocolChain
  import opened ProtocolTheorems
  import opened ProtocolSafety
  import opened ProtocolNodes
  import AQ = AbstractQueue

  /** A dequeue that still waits for the first node to show up. */
  predicate Seeking(pc: Holder) { pc.Getting? && pc.k.ForDequeue? }

  /** The removal of `n` is under way and has not happened yet. */
  predicate Chasing(pc: Holder, n: Id) { (pc.HeadFound? && pc.n == n) || Popping(pc, n) }

  /** The removal of `n` has happened, and what is left is to tidy up. */
  predicate Behind(pc: Holder, n: Id) { (pc.Splicing? || pc.Finishing?) && pc.n == n }

  predicate Passive(op: AQ.Op<Id>) { op.Stutter? || op.Enqueue? || op.SetState? }

  lemma NotDraining(c: Config, a: DrainAct, n: Id)
    requires Seeking(c.pc) || Chasing(c.pc, n) || Behind(c.pc, n)
    ensures !DrainEnabled(c, a)
  {
  }

  lemma SeekGet(c: Config, a: GetAct)
    requires GetEnabled(c, a) && Seeking(c.pc) && !GetNext(c, a).pc.Crash?
    ensures Seeking(GetNext(c, a).pc) || GetNext(c, a).pc.HeadFound?
  {
    GetResumes(c, a);
  }

  /** Waiting for the first node ends by finding one. */
  lemma SeekMoves(c: Config, step: Step, n: Id)
    requires Enabled(c, step) && Seeking(c.pc) && !Next(c, step).pc.Crash?
    ensures Passive(OpOf(c, step)) && (Seeking(Next(c, step).pc) || Next(c, step).pc.HeadFound?)
  {
    match step
    case Own(_, _) => OutsiderFrame(c, step);
    case UpdateState(_) => OutsiderFrame(c, step);
    case Guard(_) =>
    case Get(a) => SeekGet(c, a);
    case Rem(_) =>
    case Drain(a) => NotDraining(c, a, n);
  }

  lemma ChaseRemoval(c: Config, a: RemoveAct, n: Id)
    requires RemoveEnabled(c, a) && Chasing(c.pc, n) && !RemoveNext(c, a).pc.Crash?
    ensures var d, op := RemoveNext(c, a).pc, OpOf(c, Rem(a));
      (op == AQ.Stutter && Popping(d, n)) || (op.Remove? && op.n == n && Behind(d, n))
  {
  }

  /** A step keeps the removal under way, or removes exactly `n`. */
  lemma ChaseMoves(c: Config, step: Step, n: Id)
    requires Enabled(c, step) && Chasing(c.pc, n) && step != Guard(Requeue) && !Next(c, step).pc.Crash?
    ensures var d, op := Next(c, step).pc, OpOf(c, step);
      (Passive(op) && Chasing(d, n)) || (op.Remove? && op.n == n && Behind(d, n))
  {
    match step
    case Own(_, _) => OutsiderFrame(c, step);
    case UpdateState(_) => OutsiderFrame(c, step);
    case Guard(_) =>
    case Get(a) => PopGetMoves(c, a, n);
    case Rem(a) => ChaseRemoval(c, a, n);
    case Drain(a) => NotDraining(c, a, n);
  }

  lemma BehindRemoval(c: Config, a: RemoveAct, n: Id)
    requires RemoveEnabled(c, a) && Behind(c.pc, n) && !RemoveNext(c, a).pc.Crash?
    ensures OpOf(c, Rem(a)) == AQ.Stutter && (Behind(RemoveNext(c, a).pc, n) || RemoveNext(c, a).pc.Held?)
  {
  }

  /** Afterwards a step of the holder removes nothing more, and the last returns the guard. */
  lemma BehindMoves(c: Config, step: Step, n: Id)
    requires Enabled(c, step) && Behind(c.pc, n) && !Next(c, step).pc.Crash?
    ensures Passive(OpOf(c, step)) && (Behind(Next(c, step).pc, n) || Next(c, step).pc.Held?)
  {
    match step
    case Own(_, _) => OutsiderFrame(c, step);
    case UpdateState(_) => OutsiderFrame(c, step);
    case Guard(_) =>
    case Get(_) =>
    case Rem(a) => BehindRemoval(c, a, n);
    case Drain(a) => NotDraining(c, a, n);
  }

  // ---------------------------------------------------------------- whole runs

  /** The nodes that a run removes from the atomic queue, in order. */
  ghost function Removed(c: Config, steps: seq<Step>): seq<Id>
    requires IsRun(c, steps)
    decreases |steps|
  {
    if steps == [] then []
    else
      var front := steps[..|steps| - 1];
      var op := OpOf(Exec(c, front), steps[|steps| - 1]);
      Removed(c, front) + (if op.Remove? then [op.n] else [])
  }

  /** The guard is not back before the end of the run, and the node is not given back. */
  ghost predicate Busy(c: Config, steps: seq<Step>)
    requires IsRun(c, steps)
    decreases |steps|
  {
    steps == [] ||
    var front := steps[..|steps| - 1];
    Busy(c, front) && !Exec(c, front).pc.Held? && steps[|steps| - 1] != Guard(Requeue)
  }

  /** `live` is what the atomic queue held at the start, without `n` once it is removed,
      followed by whoever came meanwhile. */
  ghost predicate Phase(pc: Holder, n: Id, live: seq<Id>, now: seq<Id>, removed: seq<Id>) {
    if Seeking(pc) || Chasing(pc, n) then removed == [] && live <= now && (Seeking(pc) ==> live != [] && n == live[0])
    else (Behind(pc, n) || pc.Held?) && removed == [n] && AQ.Keep(live, {n}) <= now
  }

  lemma PassiveKeepsLine(q: AQ.Queue<Id>, op: AQ.Op<Id>, live: seq<Id>)
    requires AQ.Enabled(q, op) && Passive(op) && live <= q.live
    ensures live <= AQ.Apply(q, op).live && AQ.Apply(q, op).lists == q.lists
  {
  }

  lemma LiveIsNotDrained(q: AQ.Queue<Id>, n: Id)
    requires AQ.Inv(q) && n in q.live
    ensures forall z :: z in q.lists ==> n !in q.lists[z].rest
  {
    forall z | z in q.lists ensures n !in q.lists[z].rest { assert !AQ.InRest(q, z, n); }
  }

  lemma RemoveLists(q: AQ.Queue<Id>, n: Id, st: nat)
    requires AQ.Enabled(q, AQ.Remove(n, st)) && forall z :: z in q.lists ==> n !in q.lists[z].rest
    ensures AQ.Apply(q, AQ.Remove(n, st)).lists == q.lists
  {
  }

  lemma RemoveShortensLine(q: AQ.Queue<Id>, n: Id, st: nat, live: seq<Id>)
    requires AQ.Inv(q) && AQ.Enabled(q, AQ.Remove(n, st)) && live <= q.live && n in live
    ensures AQ.Keep(live, {n}) <= AQ.Apply(q, AQ.Remove(n, st)).live && AQ.Apply(q, AQ.Remove(n, st)).lists == q.lists
  {
    var more := q.live[|live|..];
    assert q.live == live + more;
    AQ.KeepConcat(live, more, {n});
    LiveIsNotDrained(q, n);
    RemoveLists(q, n, st);
  }

  /** A step of a run does not crash, is its operation on the atomic queue, and finds at the
      head only the first in line. */
  lemma StepFacts(c: Config, g: Ghost, step: Step)
    requires Inv(c, g) && Enabled(c, step)
    ensures StepIs(c, step, g.q, GhostNext(c, g, step).q)
  {
    StepKeepsInv(c, g, step);
    NotCrashed(Next(c, step), GhostNext(c, g, step));
    HandedOutNode(Next(c, step), GhostNext(c, g, step));
  }

  ghost predicate StepIs(c: Config, step: Step, q: AQ.Queue<Id>, r: AQ.Queue<Id>)
    requires Enabled(c, step)
  {
    var d := Next(c, step).pc;
    && !d.Crash? && AQ.Inv(q) && AQ.Enabled(q, OpOf(c, step)) && r == AQ.Apply(q, OpOf(c, step))
    && (d.HeadFound? ==> r.live != [] && d.n == r.live[0])
  }

  lemma SeekPhase(c: Config, step: Step, q: AQ.Queue<Id>, r: AQ.Queue<Id>, n: Id, live: seq<Id>)
    requires Enabled(c, step) && StepIs(c, step, q, r) && Seeking(c.pc) && Phase(c.pc, n, live, q.live, [])
    ensures !OpOf(c, step).Remove? && Phase(Next(c, step).pc, n, live, r.live, []) && r.lists == q.lists
  {
    SeekMoves(c, step, n);
    PassiveKeepsLine(q, OpOf(c, step), live);
  }

  lemma ChasePhase(c: Config, step: Step, q: AQ.Queue<Id>, r: AQ.Queue<Id>, n: Id, live: seq<Id>)
    requires Enabled(c, step) && StepIs(c, step, q, r) && step != Guard(Requeue) && n in live
    requires Chasing(c.pc, n) && Phase(c.pc, n, live, q.live, [])
    ensures var op := OpOf(c, step);
      Phase(Next(c, step).pc, n, live, r.live, if op.Remove? then [op.n] else []) && r.lists == q.lists
  {
    var op := OpOf(c, step);
    ChaseMoves(c, step, n);
    if op.Remove? { RemoveShortensLine(q, n, op.s, live); } else { PassiveKeepsLine(q, op, live); }
  }

  lemma BehindPhase(c: Config, step: Step, q: AQ.Queue<Id>, r: AQ.Queue<Id>, n: Id, live: seq<Id>)
    requires Enabled(c, step) && StepIs(c, step, q, r) && Behind(c.pc, n) && Phase(c.pc, n, live, q.live, [n])
    ensures !OpOf(c, step).Remove? && Phase(Next(c, step).pc, n, live, r.live, [n]) && r.lists == q.lists
  {
    BehindMoves(c, step, n);
    PassiveKeepsLine(q, OpOf(c, step), AQ.Keep(live, {n}));
  }

  lemma PhaseStep(c: Config, step: Step, q: AQ.Queue<Id>, r: AQ.Queue<Id>, n: Id, live: seq<Id>, removed: seq<Id>)
    requires Enabled(c, step) && StepIs(c, step, q, r) && step != Guard(Requeue) && n in live && !c.pc.Held?
    requires Phase(c.pc, n, live, q.live, removed)
    ensures var op := OpOf(c, step);
      Phase(Next(c, step).pc, n, live, r.live, removed + if op.Remove? then [op.n] else []) && r.lists == q.lists
  {
    if Seeking(c.pc) {
      SeekPhase(c, step, q, r, n, live);
    } else if Chasing(c.pc, n) {
      ChasePhase(c, step, q, r, n, live);
    } else {
      BehindPhase(c, step, q, r, n, live);
    }
  }

  lemma {:induction false} PhaseRun(c: Config, g: Ghost, n: Id, steps: seq<Step>)
    requires Inv(c, g) && n in g.q.live && Phase(c.pc, n, g.q.live, g.q.live, []) && IsRun(c, steps) && Busy(c, steps)
    ensures Phase(Exec(c, steps).pc, n, g.q.live, Track(c, g, steps).q.live, Removed(c, steps))
    ensures Track(c, g, steps).q.lists == g.q.lists
    decreases |steps|
  {
    if steps != [] {
      var front, step := steps[..|steps| - 1], steps[|steps| - 1];
      PhaseRun(c, g, n, front);
      RunKeepsInv(c, g, front);
      var d, h := Exec(c, front), Track(c, g, front);
      StepFacts(d, h, step);
      PhaseStep(d, step, h.q, GhostNext(d, h, step).q, n, g.q.live, Removed(c, front));
    }
  }

  /** A dequeue or a pop, from the operation of the guard to the moment when the guard is back,
      whatever enqueuers and state updates do in between: exactly one removal from the atomic
      queue, of the node that was first (last) when it started. What was behind it is still
      there, followed by whoever came meanwhile, and no drained list changed. */
  lemma RemovalIsOneStep(c: Config, g: Ghost, a: GuardAct, steps: seq<Step>)
    requires Inv(c, g) && GuardEnabled(c, a) && (a.Dequeue? || a.Pop?)
    requires IsRun(GuardNext(c, a), steps) && Busy(GuardNext(c, a), steps) && Exec(GuardNext(c, a), steps).pc.Held?
    ensures g.q.live != []
    ensures var n, h := if a.Dequeue? then g.q.live[0] else g.q.live[|g.q.live| - 1], Track(GuardNext(c, a), g, steps);
      && Removed(GuardNext(c, a), steps) == [n]
      && AQ.Keep(g.q.live, {n}) <= h.q.live
      && h.q.lists == g.q.lists
  {
    HandedOutNode(c, g);
    StepKeepsInv(c, g, Guard(a));
    var n := if a.Dequeue? then g.q.live[0] else g.q.live[|g.q.live| - 1];
    PhaseRun(GuardNext(c, a), g, n, steps);
  }
}
