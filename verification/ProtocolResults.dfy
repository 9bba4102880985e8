/**
 * What the operations of a guard report and install: the flag of a removal, the state offered
 * to it, and the state offered to a drain, each from the call to the answer and under any steps
 * of enqueuers and state updates in between.
 */
module ProtocolResults {
  import opened Options
  import opened Protocol
  import opened ProtocolInvariant
  import opened ProtocolChain
  import opened ProtocolRemoval
  import opened ProtocolTheorems
  import opened ProtocolSafety
  import opened ProtocolNodes
  import opened ProtocolGuard
  import AQ = AbstractQueue

  /** The atomic queue right before and right after an operation on it. */
  datatype Change = Change(op: AQ.Op<Id>, before: AQ.Queue<Id>, after: AQ.Queue<Id>)

  /** The operations of a run other than those of enqueuers and state updates, in order. */
  ghost function Changes(c: Config, g: Ghost, steps: seq<Step>): seq<Change>
    requires IsRun(c, steps)
    decreases |steps|
  {
    if steps == [] then []
    else
      var front, step := steps[..|steps| - 1], steps[|steps| - 1];
      var d, h := Exec(c, front), Track(c, g, front);
      Changes(c, g, front) +
      (if Passive(OpOf(d, step)) then [] else [Change(OpOf(d, step), h.q, GhostNext(d, h, step).q)])
  }

  /** The lock holder reaches `Held` or `Draining` only at the end of the run. */
  ghost predicate Unanswered(c: Config, steps: seq<Step>)
    requires IsRun(c, steps)
    decreases |steps|
  {
    steps == [] ||
    var pc := Exec(c, steps[..|steps| - 1]).pc;
    Unanswered(c, steps[..|steps| - 1]) && !pc.Held? && !pc.Draining?
  }

  // ---------------------------------------------------------------- removals

  /** The three ways to start a removal. */
  predicate Starts(a: RemoveAct) { a.RemoveHead? || a.RemoveTail? || a.RemoveSelf? }

  function Target(c: Config, a: RemoveAct): Id
    requires RemoveEnabled(c, a) && Starts(a)
  {
    if a.RemoveSelf? then a.n else c.pc.n
  }

  predicate IsLast(q: AQ.Queue<Id>, n: Id) { q.live != [] && q.live[|q.live| - 1] == n }

  /** A removal under way that was given the state `st`; past its tail exchange it has no more
      use for it. */
  predicate Offers(pc: Holder, st: nat) {
    match pc
    case Getting(_, _, ForPop(_, _, s)) => s == st
    case Getting(_, _, ForRemove(_, _)) => true
    case ReadingNext(_, _, s) => s == st
    case Clearing(_, _, s) => s == st
    case SwingingTail(_, _, s) => s == st
    case Relinking(_, _, _) => true
    case _ => false
  }

  /** What a removal that has happened is going to report. */
  predicate Says(pc: Holder, last: bool) {
    match pc
    case Splicing(_, _, _) => !last
    case Finishing(_, e) => e == last
    case _ => false
  }

  lemma StartOffers(c: Config, a: RemoveAct)
    requires RemoveEnabled(c, a) && Starts(a) && !RemoveNext(c, a).pc.Crash?
    ensures Popping(RemoveNext(c, a).pc, Target(c, a)) && Offers(RemoveNext(c, a).pc, a.st)
    ensures OpOf(c, Rem(a)) == AQ.Stutter
  {
  }

  lemma OfferGet(c: Config, a: GetAct, n: Id, st: nat)
    requires GetEnabled(c, a) && Popping(c.pc, n) && Offers(c.pc, st) && !GetNext(c, a).pc.Crash?
    ensures Popping(GetNext(c, a).pc, n) && Offers(GetNext(c, a).pc, st)
  {
    var d := GetNext(c, a).pc;
    GetResumes(c, a);
    PopGetMoves(c, a, n);
    if !(d.Getting? && d.k == c.pc.k) {
      var x :| d == Resume(c.pc.k, x);
      assert Offers(d, st);
    }
  }

  /** A removal happens at one of two accesses: the tail exchange, which installs what was
      offered, or the relinking of a successor. */
  lemma OfferRemoval(c: Config, a: RemoveAct, n: Id, st: nat)
    requires RemoveEnabled(c, a) && Popping(c.pc, n) && Offers(c.pc, st) && !RemoveNext(c, a).pc.Crash?
    ensures var d, op := RemoveNext(c, a).pc, OpOf(c, Rem(a));
      || (op == AQ.Stutter && Popping(d, n) && Offers(d, st))
      || (op == AQ.Remove(n, st) && a.SwingTail? && c.pc.SwingingTail? && c.tail == Last(n) && d == Finishing(n, true))
      || (op == AQ.Remove(n, 0) && a.Relink? && c.pc.Relinking? && c.pc.n == n && d.Splicing? && d.n == n)
  {
  }

  lemma OfferMoves(c: Config, step: Step, n: Id, st: nat)
    requires Enabled(c, step) && Popping(c.pc, n) && Offers(c.pc, st) && !Next(c, step).pc.Crash?
    ensures Passive(OpOf(c, step)) ==> Popping(Next(c, step).pc, n) && Offers(Next(c, step).pc, st)
    ensures !Passive(OpOf(c, step)) ==>
      || (OpOf(c, step) == AQ.Remove(n, st) && step == Rem(SwingTail) && c.pc.SwingingTail? && c.tail == Last(n)
          && Next(c, step).pc == Finishing(n, true))
      || (OpOf(c, step) == AQ.Remove(n, 0) && c.pc.Relinking? && c.pc.n == n
          && Next(c, step).pc.Splicing? && Next(c, step).pc.n == n)
  {
    match step
    case Own(_, _) => OutsiderFrame(c, step);
    case UpdateState(_) => OutsiderFrame(c, step);
    case Guard(_) =>
    case Get(a) => OfferGet(c, a, n, st);
    case Rem(a) => OfferRemoval(c, a, n, st);
    case Drain(a) => NotDraining(c, a, n);
  }

  lemma SaysRemoval(c: Config, a: RemoveAct, n: Id, last: bool)
    requires RemoveEnabled(c, a) && Behind(c.pc, n) && Says(c.pc, last) && !RemoveNext(c, a).pc.Crash?
    ensures RemoveNext(c, a).pc.Held? || (Behind(RemoveNext(c, a).pc, n) && Says(RemoveNext(c, a).pc, last))
  {
  }

  lemma SaysMoves(c: Config, step: Step, n: Id, last: bool)
    requires Enabled(c, step) && Behind(c.pc, n) && Says(c.pc, last) && !Next(c, step).pc.Crash?
    ensures Passive(OpOf(c, step))
    ensures Next(c, step).pc.Held? || (Behind(Next(c, step).pc, n) && Says(Next(c, step).pc, last))
  {
    BehindMoves(c, step, n);
    match step
    case Own(_, _) => OutsiderFrame(c, step);
    case UpdateState(_) => OutsiderFrame(c, step);
    case Guard(_) =>
    case Get(_) =>
    case Rem(a) => SaysRemoval(c, a, n, last);
    case Drain(a) => NotDraining(c, a, n);
  }

  /** A node with a successor is not the last in line. */
  lemma SuccessorNotLast(g: Ghost, n: Id)
    requires LiveChain(g) && NextOf(n) in g.succ
    ensures !IsLast(g.q, n)
  {
  }

  lemma RelinksInner(c: Config, g: Ghost)
    requires HolderOk(c, g) && c.pc.Relinking?
    ensures NextOf(c.pc.n) in g.succ
  {
  }

  /** Only a removal that empties the queue has a say in the state. */
  lemma StateUnused(q: AQ.Queue<Id>, n: Id, s: nat, t: nat)
    requires AQ.Enabled(q, AQ.Remove(n, s)) && !IsLast(q, n)
    ensures AQ.Apply(q, AQ.Remove(n, s)) == AQ.Apply(q, AQ.Remove(n, t))
  {
    if q.live != [] { assert q.live[|q.live| - 1] in AQ.Keep(q.live, {n}); }
  }

  /** Where a removal can happen, the access tells whether the node is last in line. */
  ghost predicate Telling(c: Config, q: AQ.Queue<Id>) {
    && (c.pc.Relinking? ==> !IsLast(q, c.pc.n))
    && (c.pc.SwingingTail? && c.tail == Last(c.pc.n) ==> IsLast(q, c.pc.n))
  }

  lemma AccessTells(c: Config, g: Ghost)
    requires Inv(c, g)
    ensures Telling(c, g.q)
  {
    if c.pc.Relinking? {
      RelinksInner(c, g);
      SuccessorNotLast(g, c.pc.n);
    } else if c.pc.SwingingTail? && c.tail == Last(c.pc.n) {
      SwingAtEnd(c, g);
    }
  }

  /** The removal, when it happens: with the state offered, and a verdict that is right. */
  lemma RemovalSettles(c: Config, step: Step, q: AQ.Queue<Id>, r: AQ.Queue<Id>, n: Id, st: nat)
    requires Enabled(c, step) && StepIs(c, step, q, r) && Telling(c, q)
    requires Popping(c.pc, n) && Offers(c.pc, st) && !Passive(OpOf(c, step))
    ensures OpOf(c, step).Remove? && AQ.Enabled(q, AQ.Remove(n, st)) && r == AQ.Apply(q, AQ.Remove(n, st))
    ensures Behind(Next(c, step).pc, n) && Says(Next(c, step).pc, IsLast(q, n))
  {
    OfferMoves(c, step, n, st);
    if c.pc.Relinking? { StateUnused(q, n, OpOf(c, step).s, st); }
  }

  /** So far nothing is removed, or exactly `n`, with the state offered and the right verdict. */
  ghost predicate Told(pc: Holder, n: Id, st: nat, live: seq<Id>, now: seq<Id>, changes: seq<Change>) {
    if Popping(pc, n) then changes == [] && Offers(pc, st) && live <= now
    else
      && |changes| == 1 && Settled(changes[0], n, st) && live <= changes[0].before.live
      && (pc.Held? || (Behind(pc, n) && Says(pc, IsLast(changes[0].before, n))))
  }

  ghost predicate Settled(ch: Change, n: Id, st: nat) {
    AQ.Inv(ch.before) && AQ.Enabled(ch.before, AQ.Remove(n, st)) && ch.after == AQ.Apply(ch.before, AQ.Remove(n, st))
  }

  lemma ToldStep(c: Config, step: Step, q: AQ.Queue<Id>, r: AQ.Queue<Id>, n: Id, st: nat, live: seq<Id>, changes: seq<Change>)
    requires Enabled(c, step) && StepIs(c, step, q, r) && Telling(c, q)
    requires !c.pc.Held? && Told(c.pc, n, st, live, q.live, changes)
    ensures var op := OpOf(c, step);
      Told(Next(c, step).pc, n, st, live, r.live, changes + if Passive(op) then [] else [Change(op, q, r)])
  {
    if Popping(c.pc, n) {
      if Passive(OpOf(c, step)) {
        OfferMoves(c, step, n, st);
        PassiveKeepsLine(q, OpOf(c, step), live);
      } else {
        RemovalSettles(c, step, q, r, n, st);
      }
    } else {
      SaysMoves(c, step, n, IsLast(changes[0].before, n));
    }
  }

  lemma {:induction false} ToldRun(c: Config, g: Ghost, n: Id, st: nat, steps: seq<Step>)
    requires Inv(c, g) && Popping(c.pc, n) && Offers(c.pc, st) && IsRun(c, steps) && Unanswered(c, steps)
    ensures Told(Exec(c, steps).pc, n, st, g.q.live, Track(c, g, steps).q.live, Changes(c, g, steps))
    decreases |steps|
  {
    if steps != [] {
      var front := steps[..|steps| - 1];
      ToldRun(c, g, n, st, front);
      RunKeepsInv(c, g, front);
      var d, h, step := Exec(c, front), Track(c, g, front), steps[|steps| - 1];
      StepFacts(d, h, step);
      AccessTells(d, h);
      ToldStep(d, step, h.q, GhostNext(d, h, step).q, n, st, g.q.live, Changes(c, g, front));
    }
  }

  /** The first of a line that is also its last is alone in it. */
  lemma AloneIffEmptied(q: AQ.Queue<Id>, n: Id, st: nat)
    requires AQ.Inv(q) && AQ.Enabled(q, AQ.Remove(n, st)) && q.live != [] && n == q.live[0]
    ensures IsLast(q, n) <==> AQ.Apply(q, AQ.Remove(n, st)).live == []
  {
    AQ.KeepCut(q.live, 0);
    assert q.live[..0] + q.live[1..] == q.live[1..];
  }

  /** What a removal that is about to answer has done, and what it reports. */
  ghost predicate Reported(pc: Holder, n: Id, st: nat, live: seq<Id>, changes: seq<Change>, head: bool) {
    && pc.Finishing? && |changes| == 1 && AQ.Enabled(changes[0].before, AQ.Remove(n, st))
    && changes[0].after == AQ.Apply(changes[0].before, AQ.Remove(n, st))
    && live <= changes[0].before.live
    && pc.n == n && (pc.emptied <==> IsLast(changes[0].before, n))
    && (head ==> (pc.emptied <==> changes[0].after.live == []))
  }

  lemma ToldIsReported(pc: Holder, n: Id, st: nat, live: seq<Id>, now: seq<Id>, changes: seq<Change>, head: bool)
    requires Told(pc, n, st, live, now, changes) && pc.Finishing? && (head ==> live != [] && n == live[0])
    ensures Reported(pc, n, st, live, changes, head)
  {
    if head { AloneIffEmptied(changes[0].before, n, st); }
  }

  lemma RemovalStart(c: Config, g: Ghost, a: RemoveAct)
    requires Inv(c, g) && RemoveEnabled(c, a) && Starts(a)
    ensures Inv(RemoveNext(c, a), g)
    ensures Popping(RemoveNext(c, a).pc, Target(c, a)) && Offers(RemoveNext(c, a).pc, a.st)
    ensures a.RemoveHead? ==> g.q.live != [] && Target(c, a) == g.q.live[0]
  {
    StepFacts(c, g, Rem(a));
    StepKeepsInv(c, g, Rem(a));
    StartOffers(c, a);
    StutterIsQuiet(c, g, a);
    HandedOutNode(c, g);
  }

  /** From the start of a removal to its answer, by a dequeue, a pop or a node's own doing, of a
      queued or of a drained node, whatever happens in between: it removes that node from the
      atomic queue and does nothing else; if this empties the queue, the state is the one it was
      given; and it reports true if and only if the node was the last in line at that moment,
      which for a dequeue means that the queue was empty right afterwards. */
  lemma RemovalReports(c: Config, g: Ghost, a: RemoveAct, steps: seq<Step>)
    requires Inv(c, g) && RemoveEnabled(c, a) && Starts(a)
    requires IsRun(RemoveNext(c, a), steps) && Unanswered(RemoveNext(c, a), steps)
    requires Exec(RemoveNext(c, a), steps).pc.Finishing?
    ensures Reported(Exec(RemoveNext(c, a), steps).pc, Target(c, a), a.st, g.q.live,
                     Changes(RemoveNext(c, a), g, steps), a.RemoveHead?)
  {
    var d, n := RemoveNext(c, a), Target(c, a);
    RemovalStart(c, g, a);
    ToldRun(d, g, n, a.st, steps);
    ToldIsReported(Exec(d, steps).pc, n, a.st, g.q.live, Track(d, g, steps).q.live, Changes(d, g, steps), a.RemoveHead?);
  }

  lemma StutterIsQuiet(c: Config, g: Ghost, a: RemoveAct)
    requires RemoveEnabled(c, a) && Starts(a)
    ensures GhostNext(c, g, Rem(a)) == g
  {
  }

  /** And that is what it answers: the step that returns the guard is the one after. */
  lemma AnswerIsLast(c: Config, step: Step)
    requires c.pc.Finishing? && Enabled(c, step)
    ensures if step == Rem(Finish) then Next(c, step).pc.Held? && PrevAt(Next(c, step).prev, c.pc.n).Dequeued?
      else Next(c, step).pc == c.pc
  {
    if step.Own? || step.UpdateState? { OutsiderFrame(c, step); }
  }

  // ------------------------------------------------------------------- drains

  /** A drain on its way to the swap, given the state `st`. */
  predicate Opening(pc: Holder, st: nat) {
    match pc
    case Getting(_, _, ForDrain(s)) => s == st
    case ClearingHead(_, s) => s == st
    case SwappingTail(_, s) => s == st
    case _ => false
  }

  lemma OpeningGet(c: Config, a: GetAct, st: nat)
    requires GetEnabled(c, a) && Opening(c.pc, st) && !GetNext(c, a).pc.Crash?
    ensures Opening(GetNext(c, a).pc, st)
  {
    GetResumes(c, a);
  }

  lemma OpeningDrain(c: Config, a: DrainAct, st: nat)
    requires DrainEnabled(c, a) && Opening(c.pc, st) && !DrainNext(c, a).pc.Crash?
    ensures var d, op := DrainNext(c, a).pc, OpOf(c, Drain(a));
      || (op == AQ.Stutter && Opening(d, st))
      || (a.SwapTail? && op == AQ.OpenDrain(a.z, st) && d == Draining(a.z) && c.tail.Last?)
  {
  }

  lemma OpeningMoves(c: Config, step: Step, st: nat)
    requires Enabled(c, step) && Opening(c.pc, st) && !Next(c, step).pc.Crash?
    ensures var d, op := Next(c, step).pc, OpOf(c, step);
      || (Passive(op) && Opening(d, st))
      || (op.OpenDrain? && op == AQ.OpenDrain(op.z, st) && d == Draining(op.z) && c.tail.Last?)
  {
    match step
    case Own(_, _) => OutsiderFrame(c, step);
    case UpdateState(_) => OutsiderFrame(c, step);
    case Guard(_) =>
    case Get(a) => OpeningGet(c, a, st);
    case Rem(_) =>
    case Drain(a) => OpeningDrain(c, a, st);
  }

  /** The swap: the line, among it `live`, becomes the list of `z`, and the state is `st`. */
  ghost predicate Taken(ch: Change, z: nat, st: nat, live: seq<Id>) {
    && ch.before.live != [] && live <= ch.before.live
    && ch.after.live == [] && ch.after.state == st && z in ch.after.lists
    && ch.after.lists[z] == AQ.DrainList(ch.before.live, [], {}, ch.before.live)
  }

  lemma OpeningStep(c: Config, g: Ghost, step: Step, st: nat, live: seq<Id>)
    requires Inv(c, g) && Enabled(c, step) && Opening(c.pc, st) && live <= g.q.live
    ensures var d, h, op := Next(c, step).pc, GhostNext(c, g, step), OpOf(c, step);
      if Passive(op) then Opening(d, st) && live <= h.q.live
      else d.Draining? && Taken(Change(op, g.q, h.q), d.z, st, live)
  {
    StepFacts(c, g, step);
    TailWord(c, g);
    OpeningMoves(c, step, st);
    if Passive(OpOf(c, step)) { PassiveKeepsLine(g.q, OpOf(c, step), live); }
  }

  lemma {:induction false} OpeningRun(c: Config, g: Ghost, st: nat, steps: seq<Step>)
    requires Inv(c, g) && Opening(c.pc, st) && IsRun(c, steps) && Unanswered(c, steps)
    ensures var pc, changes := Exec(c, steps).pc, Changes(c, g, steps);
      if pc.Draining? then |changes| == 1 && Taken(changes[0], pc.z, st, g.q.live)
      else changes == [] && Opening(pc, st) && g.q.live <= Track(c, g, steps).q.live
    decreases |steps|
  {
    if steps != [] {
      var front := steps[..|steps| - 1];
      OpeningRun(c, g, st, front);
      RunKeepsInv(c, g, front);
      OpeningStep(Exec(c, front), Track(c, g, front), steps[|steps| - 1], st, g.q.live);
    }
  }

  /** From the start of a drain on a non-empty queue to the moment when its list is there,
      whatever happens in between: one operation, by which the queue becomes empty with exactly
      the state that the drain was given, and the list takes everybody in line at that moment,
      among them all who were there at the start. */
  lemma DrainTakesLine(c: Config, g: Ghost, z: nat, st: nat, steps: seq<Step>)
    requires Inv(c, g) && DrainEnabled(c, Open(z, st)) && c.tail.Last?
    requires IsRun(DrainNext(c, Open(z, st)), steps) && Unanswered(DrainNext(c, Open(z, st)), steps)
    requires Exec(DrainNext(c, Open(z, st)), steps).pc.Draining?
    ensures var pc, changes := Exec(DrainNext(c, Open(z, st)), steps).pc, Changes(DrainNext(c, Open(z, st)), g, steps);
      |changes| == 1 && Taken(changes[0], pc.z, st, g.q.live)
  {
    var d := DrainNext(c, Open(z, st));
    OpeningStarts(c, g, z, st);
    OpeningRun(d, g, st, steps);
  }

  lemma OpeningStarts(c: Config, g: Ghost, z: nat, st: nat)
    requires Inv(c, g) && DrainEnabled(c, Open(z, st)) && c.tail.Last?
    ensures Inv(DrainNext(c, Open(z, st)), g) && Opening(DrainNext(c, Open(z, st)).pc, st)
  {
    StepKeepsInv(c, g, Drain(Open(z, st)));
    OpeningGhost(c, g, z, st);
  }

  lemma OpeningGhost(c: Config, g: Ghost, z: nat, st: nat)
    requires DrainEnabled(c, Open(z, st)) && c.tail.Last?
    ensures Opening(DrainNext(c, Open(z, st)).pc, st) && GhostNext(c, g, Drain(Open(z, st))) == g
  {
  }

  /** On an empty queue the drain gets an empty list at once, and the state stays. */
  lemma DrainOfNothing(c: Config, g: Ghost, z: nat, st: nat)
    requires Inv(c, g) && DrainEnabled(c, Open(z, st)) && c.tail.Empty?
    ensures DrainNext(c, Open(z, st)).pc == Draining(z) && DrainNext(c, Open(z, st)).tail == c.tail
    ensures GhostNext(c, g, Drain(Open(z, st))).q == g.q.(lists := g.q.lists[z := AQ.DrainList([], [], {}, [])])
  {
    StepFacts(c, g, Drain(Open(z, st)));
    TailWord(c, g);
  }

  // -------------------------------------------------------------------- lock

  /** The lock is given back by dropping the guard, at a drain's unlocked window, and at the end
      of a drain, and nowhere else; it is taken by a guard, and by a drain coming back. */
  lemma LockChangesHands(c: Config, step: Step)
    requires Enabled(c, step)
    ensures var d := Next(c, step);
      && (!c.pc.Free? ==> (Enabled(d, Guard(Lock)) <==> step in {Guard(Unlock), Drain(Release), Drain(Close)}))
      && (c.pc.Free? ==> (!Enabled(d, Guard(Lock)) <==> step == Guard(Lock) || (step.Drain? && step.drain.Relock?)))
  {
    match step
    case Own(_, _) => OutsiderFrame(c, step);
    case UpdateState(_) => OutsiderFrame(c, step);
    case Guard(_) =>
    case Get(a) => GetKeepsLock(c, a);
    case Rem(a) => RemovalKeepsLock(c, a);
    case Drain(a) => DrainLock(c, a);
  }

  lemma GetKeepsLock(c: Config, a: GetAct)
    requires GetEnabled(c, a)
    ensures !GetNext(c, a).pc.Free?
  {
    GetResumes(c, a);
  }

  lemma RemovalKeepsLock(c: Config, a: RemoveAct)
    requires RemoveEnabled(c, a)
    ensures !c.pc.Free? && !RemoveNext(c, a).pc.Free?
  {
  }

  lemma DrainLock(c: Config, a: DrainAct)
    requires DrainEnabled(c, a)
    ensures c.pc.Free? <==> a.Relock?
    ensures DrainNext(c, a).pc.Free? <==> a.Release? || a.Close?
  {
  }
}
