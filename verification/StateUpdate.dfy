/**
 * The lock-free state updates of `src/queue.rs`, access by access, on top of the protocol:
 * `fetch_update_state`, `fetch_update_state_or_lock` and `is_empty_or_lock`.
 *
 * A call loads the tail word, computes, and tries to exchange; the exchange is the protocol's
 * `UpdateState` step and compares with what was loaded. The two `_or_lock` forms take the
 * lock when they see a node, look again, and either undo the lock or hand the guard out.
 * Every other thread is a step of the protocol. `log` records the exchanges; nobody reads it.
 */
module StateUpdate {
  import opened Options
  import P = Protocol
  import PI = ProtocolInvariant
  import PT = ProtocolTheorems
  import PS = ProtocolSafety
  import AQ = AbstractQueue

  /** `fetch_update_state`, `fetch_update_state_or_lock` (whose function always yields a
      state) and `is_empty_or_lock` (which has none). */
  datatype Kind = Plain | OrLock | EmptyOrLock

  /** `Ok(old)`, `Err(Some(old))`, `Err(None)`, "it is empty", and the guard. */
  datatype Result = Updated(was: nat) | Rejected(was: nat) | SawNode | WasEmpty(was: nat) | Guard

  datatype Pc =
    | Start
    | Loaded(t: P.Tail)
    | Ready(was: nat, now: nat)
    | Wanting
    | Unlocking(r: Result)
    | Finished(r: Result)

  datatype Call = Call(kind: Kind, f: nat -> Option<nat>, locked: bool, pc: Pc)

  datatype Exchanged = Exchanged(u: nat, was: nat, now: nat)

  /** `owner` is the call that holds the lock for its second look. */
  datatype System = System(c: P.Config, calls: seq<Call>, owner: Option<nat>, log: seq<Exchanged>)

  datatype Step =
    | Other(step: P.Step)
    | New(kind: Kind, f: nat -> Option<nat>)
    | Load(u: nat) | Decide(u: nat) | Exchange(u: nat) | Spurious(u: nat)
    | Lock(u: nat) | Unlock(u: nat)

  ghost predicate Enabled(s: System, step: Step) {
    match step
    case Other(x) => P.Enabled(s.c, x) && !x.UpdateState? && (s.owner.Some? ==> PS.Outsider(x))
    case New(kind, f) => kind.OrLock? ==> forall v :: f(v).Some?
    case Load(u) => u < |s.calls| && s.calls[u].pc.Start?
    case Decide(u) => u < |s.calls| && s.calls[u].pc.Loaded?
    case Exchange(u) => u < |s.calls| && s.calls[u].pc.Ready?
    case Spurious(u) => u < |s.calls| && s.calls[u].pc.Ready?
    case Lock(u) => u < |s.calls| && s.calls[u].pc.Wanting? && P.GuardEnabled(s.c, P.Lock)
    case Unlock(u) => u < |s.calls| && s.calls[u].pc.Unlocking? && P.GuardEnabled(s.c, P.Unlock)
  }

  ghost function SetPc(s: System, u: nat, pc: Pc): System
    requires u < |s.calls|
  {
    s.(calls := s.calls[u := s.calls[u].(pc := pc)])
  }

  /** What the call makes of the tail word it has seen. */
  ghost function Decided(x: Call): Pc
    requires x.pc.Loaded?
  {
    match x.pc.t
    case Last(_) => if x.kind.Plain? then Finished(SawNode) else if x.locked then Finished(Guard) else Wanting
    case Empty(v) =>
      if x.kind.EmptyOrLock? then (if x.locked then Unlocking(WasEmpty(v)) else Finished(WasEmpty(v)))
      else if x.f(v).None? then (if x.locked then Unlocking(Rejected(v)) else Finished(Rejected(v)))
      else Ready(v, x.f(v).value)
  }

  ghost predicate Succeeds(s: System, step: Step) {
    step.Exchange? && step.u < |s.calls| && s.calls[step.u].pc.Ready? && s.c.tail == P.Empty(s.calls[step.u].pc.was)
  }

  ghost function Next(s: System, step: Step): System
    requires Enabled(s, step)
  {
    match step
    case Other(x) => s.(c := P.Next(s.c, x))
    case New(kind, f) => s.(calls := s.calls + [Call(kind, f, false, Start)])
    case Load(u) => SetPc(s, u, Loaded(s.c.tail))
    case Decide(u) =>
      var pc := Decided(s.calls[u]);
      SetPc(s, u, pc).(owner := if pc == Finished(Guard) then None else s.owner)
    case Exchange(u) =>
      var x := s.calls[u];
      if !Succeeds(s, step) then SetPc(s, u, Loaded(s.c.tail))
      else
        SetPc(s, u, if x.locked then Unlocking(Updated(x.pc.was)) else Finished(Updated(x.pc.was))).(
          c := P.Next(s.c, P.UpdateState(x.pc.now)),
          log := s.log + [Exchanged(u, x.pc.was, x.pc.now)])
    case Spurious(u) => SetPc(s, u, Loaded(s.c.tail))
    case Lock(u) =>
      s.(c := P.Next(s.c, P.Guard(P.Lock)), owner := Some(u), calls := s.calls[u := s.calls[u].(locked := true, pc := Start)])
    case Unlock(u) =>
      SetPc(s, u, Finished(s.calls[u].pc.r)).(c := P.Next(s.c, P.Guard(P.Unlock)), owner := None)
  }

  ghost function Init(platform: P.Platform, state: nat): System {
    System(P.Init(platform, state), [], None, [])
  }

  ghost predicate IsRun(s: System, steps: seq<Step>)
    decreases |steps|, 0
  {
    steps == [] ||
    (IsRun(s, steps[..|steps| - 1]) && Enabled(Exec(s, steps[..|steps| - 1]), steps[|steps| - 1]))
  }

  ghost function Exec(s: System, steps: seq<Step>): System
    requires IsRun(s, steps)
    decreases |steps|, 1
  {
    if steps == [] then s
    else Next(Exec(s, steps[..|steps| - 1]), steps[|steps| - 1])
  }

  // ------------------------------------------------- a run of the protocol

  /** The access to shared memory, if any, that a step makes as a step of the protocol. */
  ghost function BaseStep(s: System, step: Step): Option<P.Step>
    requires Enabled(s, step)
  {
    match step
    case Other(x) => Some(x)
    case Exchange(u) => if Succeeds(s, step) then Some(P.UpdateState(s.calls[u].pc.now)) else None
    case Lock(_) => Some(P.Guard(P.Lock))
    case Unlock(_) => Some(P.Guard(P.Unlock))
    case _ => None
  }

  ghost function BaseRun(s: System, steps: seq<Step>): seq<P.Step>
    requires IsRun(s, steps)
    decreases |steps|
  {
    if steps == [] then []
    else
      var front := steps[..|steps| - 1];
      var x := BaseStep(Exec(s, front), steps[|steps| - 1]);
      BaseRun(s, front) + (if x.Some? then [x.value] else [])
  }

  lemma BaseStepOk(s: System, step: Step)
    requires Enabled(s, step)
    ensures var x := BaseStep(s, step);
      if x.Some? then P.Enabled(s.c, x.value) && Next(s, step).c == P.Next(s.c, x.value) else Next(s, step).c == s.c
  {
  }

  lemma BaseExtends(c: P.Config, steps: seq<P.Step>, step: P.Step)
    requires P.IsRun(c, steps) && P.Enabled(P.Exec(c, steps), step)
    ensures P.IsRun(c, steps + [step]) && P.Exec(c, steps + [step]) == P.Next(P.Exec(c, steps), step)
  {
    assert (steps + [step])[..|steps|] == steps;
  }

  /** Every run with its updating calls is a run of the protocol, so all that is proved of
      the protocol holds of it. */
  lemma {:induction false} RunsAreProtocolRuns(s: System, steps: seq<Step>)
    requires IsRun(s, steps)
    ensures P.IsRun(s.c, BaseRun(s, steps)) && P.Exec(s.c, BaseRun(s, steps)) == Exec(s, steps).c
    decreases |steps|
  {
    if steps != [] {
      var front, step := steps[..|steps| - 1], steps[|steps| - 1];
      RunsAreProtocolRuns(s, front);
      BaseStepOk(Exec(s, front), step);
      var x := BaseStep(Exec(s, front), step);
      if x.Some? {
        BaseExtends(s.c, BaseRun(s, front), x.value);
      } else {
        assert BaseRun(s, front) + [] == BaseRun(s, front);
      }
    }
  }

  /** The atomic queue at the end of a run. */
  ghost function Seen(platform: P.Platform, state: nat, steps: seq<Step>): AQ.Queue<P.Id>
    requires IsRun(Init(platform, state), steps)
  {
    RunsAreProtocolRuns(Init(platform, state), steps);
    PT.Seen(platform, state, BaseRun(Init(platform, state), steps))
  }

  // -------------------------------------------------------------- invariant

  /** A call against the tail word and the lock. */
  ghost predicate CallOk(c: P.Config, owner: Option<nat>, x: Call, u: nat) {
    && (owner == Some(u) <==> x.locked && !x.pc.Finished?)
    && (x.kind.Plain? ==> !x.locked)
    && (x.kind.OrLock? ==> forall v :: x.f(v).Some?)
    && (x.kind.EmptyOrLock? ==> !x.pc.Ready?)
    && (x.pc.Wanting? ==> !x.locked && !x.kind.Plain?)
    && (x.pc.Unlocking? ==> x.locked && !x.pc.r.Guard?)
    && (x.pc.Ready? ==> x.f(x.pc.was) == Some(x.pc.now))
    && (x.locked && x.pc.Loaded? && x.pc.t.Last? ==> c.tail.Last?)
    && (x.pc.Finished? || x.pc.Unlocking? ==>
          match x.pc.r
          case Updated(was) => !x.kind.EmptyOrLock? && x.f(was).Some?
          case Rejected(was) => x.kind.Plain? && x.f(was).None?
          case SawNode => x.kind.Plain?
          case WasEmpty(_) => x.kind.EmptyOrLock?
          case Guard => x.locked && !x.kind.Plain?)
  }

  /** An exchange against the call that made it. */
  predicate EntryOk(calls: seq<Call>, e: Exchanged) {
    && e.u < |calls|
    && calls[e.u].f(e.was) == Some(e.now)
    && (calls[e.u].pc == Finished(Updated(e.was)) || calls[e.u].pc == Unlocking(Updated(e.was)))
  }

  ghost predicate Inv(s: System) {
    && (s.owner.Some? ==> s.owner.value < |s.calls| && s.c.pc.Held?)
    && (forall u :: 0 <= u < |s.calls| ==> CallOk(s.c, s.owner, s.calls[u], u))
    && (forall k :: 0 <= k < |s.log| ==> EntryOk(s.calls, s.log[k]))
    && (forall j, k :: 0 <= j < k < |s.log| ==> s.log[j].u != s.log[k].u)
    && (forall u :: 0 <= u < |s.calls| && Exchanging(s.calls[u].pc) ==> exists k :: 0 <= k < |s.log| && s.log[k].u == u)
  }

  predicate Exchanging(pc: Pc) { (pc.Finished? || pc.Unlocking?) && pc.r.Updated? }

  /** While a call holds the lock, the others cannot empty the queue, nor take the lock. */
  lemma OtherKeepsTail(s: System, x: P.Step)
    requires s.owner.Some? ==> s.c.pc.Held?
    requires Enabled(s, Other(x))
    ensures s.owner.Some? ==> P.Next(s.c, x).pc == s.c.pc && (s.c.tail.Last? ==> P.Next(s.c, x).tail.Last?)
  {
    if s.owner.Some? { PS.OutsiderFrame(s.c, x); }
  }

  /** A call moves without exchanging. */
  lemma MoveKeepsInv(s: System, u: nat, x: Call, owner: Option<nat>, c: P.Config)
    requires Inv(s) && u < |s.calls| && !Exchanging(s.calls[u].pc) && x.f == s.calls[u].f && x.kind == s.calls[u].kind
    requires CallOk(c, owner, x, u) && !Exchanging(x.pc)
    requires owner == s.owner || (s.owner == None && owner == Some(u)) || (s.owner == Some(u) && owner == None)
    requires c == s.c.(pc := c.pc) && (owner.Some? ==> c.pc.Held?)
    ensures Inv(s.(calls := s.calls[u := x], owner := owner, c := c))
  {
    var t := s.(calls := s.calls[u := x], owner := owner, c := c);
    forall k | 0 <= k < |t.log| ensures EntryOk(t.calls, t.log[k]) { assert EntryOk(s.calls, s.log[k]); }
    forall v | 0 <= v < |t.calls| ensures CallOk(t.c, t.owner, t.calls[v], v) {
      assert CallOk(s.c, s.owner, s.calls[v], v);
    }
    forall v | 0 <= v < |t.calls| && Exchanging(t.calls[v].pc) ensures exists k :: 0 <= k < |t.log| && t.log[k].u == v {
      assert Exchanging(s.calls[v].pc);
    }
  }

  lemma OtherKeepsInv(s: System, x: P.Step)
    requires Inv(s) && Enabled(s, Other(x))
    ensures Inv(Next(s, Other(x)))
  {
    var t := Next(s, Other(x));
    OtherKeepsTail(s, x);
    forall v | 0 <= v < |t.calls| ensures CallOk(t.c, t.owner, t.calls[v], v) {
      assert CallOk(s.c, s.owner, s.calls[v], v);
    }
  }

  lemma NewKeepsInv(s: System, kind: Kind, f: nat -> Option<nat>)
    requires Inv(s) && Enabled(s, New(kind, f))
    ensures Inv(Next(s, New(kind, f)))
  {
    var t := Next(s, New(kind, f));
    forall v | 0 <= v < |t.calls| ensures CallOk(t.c, t.owner, t.calls[v], v) {
      if v < |s.calls| { assert CallOk(s.c, s.owner, s.calls[v], v); }
    }
    forall k | 0 <= k < |t.log| ensures EntryOk(t.calls, t.log[k]) { assert EntryOk(s.calls, s.log[k]); }
    forall v | 0 <= v < |t.calls| && Exchanging(t.calls[v].pc) ensures exists k :: 0 <= k < |t.log| && t.log[k].u == v {
      assert Exchanging(s.calls[v].pc);
    }
  }

  lemma ExchangeKeepsInv(s: System, u: nat)
    requires Inv(s) && Enabled(s, Exchange(u)) && Succeeds(s, Exchange(u))
    ensures Inv(Next(s, Exchange(u)))
  {
    var t, x := Next(s, Exchange(u)), s.calls[u];
    assert CallOk(s.c, s.owner, x, u);
    forall v | 0 <= v < |t.calls| ensures CallOk(t.c, t.owner, t.calls[v], v) {
      assert CallOk(s.c, s.owner, s.calls[v], v);
    }
    forall k | 0 <= k < |t.log| ensures EntryOk(t.calls, t.log[k]) && (k < |s.log| ==> t.log[k].u != u) {
      if k < |s.log| { assert EntryOk(s.calls, s.log[k]); }
    }
    forall v | 0 <= v < |t.calls| && Exchanging(t.calls[v].pc) ensures exists k :: 0 <= k < |t.log| && t.log[k].u == v {
      if v == u {
        assert t.log[|s.log|].u == u;
      } else {
        assert Exchanging(s.calls[v].pc);
        var k :| 0 <= k < |s.log| && s.log[k].u == v;
        assert t.log[k].u == v;
      }
    }
  }

  lemma UnlockKeepsInv(s: System, u: nat)
    requires Inv(s) && Enabled(s, Unlock(u))
    ensures Inv(Next(s, Unlock(u)))
  {
    var t := Next(s, Unlock(u));
    assert CallOk(s.c, s.owner, s.calls[u], u);
    forall v | 0 <= v < |t.calls| ensures CallOk(t.c, t.owner, t.calls[v], v) {
      assert CallOk(s.c, s.owner, s.calls[v], v);
    }
    forall k | 0 <= k < |t.log| ensures EntryOk(t.calls, t.log[k]) { assert EntryOk(s.calls, s.log[k]); }
    forall v | 0 <= v < |t.calls| && Exchanging(t.calls[v].pc) ensures exists k :: 0 <= k < |t.log| && t.log[k].u == v {
      assert Exchanging(s.calls[v].pc);
    }
  }

  lemma LocalKeepsInv(s: System, step: Step)
    requires Inv(s) && Enabled(s, step)
    requires step.Load? || step.Decide? || step.Spurious? || step.Lock? || (step.Exchange? && !Succeeds(s, step))
    ensures Inv(Next(s, step))
  {
    var u := step.u;
    assert CallOk(s.c, s.owner, s.calls[u], u);
    assert step.Lock? ==> s.owner.None?;
    var t := Next(s, step);
    MoveKeepsInv(s, u, t.calls[u], t.owner, t.c);
    assert t == s.(calls := s.calls[u := t.calls[u]], owner := t.owner, c := t.c);
  }

  lemma StepKeepsInv(s: System, step: Step)
    requires Inv(s) && Enabled(s, step)
    ensures Inv(Next(s, step))
  {
    match step
    case Other(x) => OtherKeepsInv(s, x);
    case New(kind, f) => NewKeepsInv(s, kind, f);
    case Exchange(u) => if Succeeds(s, step) { ExchangeKeepsInv(s, u); } else { LocalKeepsInv(s, step); }
    case Unlock(u) => UnlockKeepsInv(s, u);
    case _ => LocalKeepsInv(s, step);
  }

  lemma {:induction false} RunKeepsInv(s: System, steps: seq<Step>)
    requires Inv(s) && IsRun(s, steps)
    ensures Inv(Exec(s, steps))
    decreases |steps|
  {
    if steps != [] {
      var front := steps[..|steps| - 1];
      RunKeepsInv(s, front);
      StepKeepsInv(Exec(s, front), steps[|steps| - 1]);
    }
  }

  // ----------------------------------------------------------------- theorems

  /** What the tail word says is what the atomic queue is, at the end of every run. */
  lemma TailIsQueue(platform: P.Platform, state: nat, steps: seq<Step>)
    requires IsRun(Init(platform, state), steps)
    ensures var c, q := Exec(Init(platform, state), steps).c, Seen(platform, state, steps);
      && (c.tail.Empty? <==> q.live == []) && (c.tail.Empty? ==> c.tail.state == q.state)
  {
    var base := BaseRun(Init(platform, state), steps);
    RunsAreProtocolRuns(Init(platform, state), steps);
    PT.ReachableInv(platform, state, base);
    PT.TailWord(P.Exec(P.Init(platform, state), base), PT.Track(P.Init(platform, state), PI.InitGhost(state), base));
  }

  /** A successful exchange is one atomic update of the queue: nobody is in it, its state is
      the one to which the function was applied, and the result of that becomes the state. */
  lemma ExchangeIsAtomic(platform: P.Platform, state: nat, steps: seq<Step>, u: nat)
    requires IsRun(Init(platform, state), steps + [Exchange(u)])
    ensures IsRun(Init(platform, state), steps)
    ensures var s, q := Exec(Init(platform, state), steps), Seen(platform, state, steps);
      Succeeds(s, Exchange(u)) ==>
        && q.live == []
        && s.calls[u].f(q.state).Some?
        && Seen(platform, state, steps + [Exchange(u)]) == q.(state := s.calls[u].f(q.state).value)
  {
    var start, all := Init(platform, state), steps + [Exchange(u)];
    assert all[..|all| - 1] == steps;
    var s := Exec(start, steps);
    if Succeeds(s, Exchange(u)) {
      RunKeepsInv(start, steps);
      assert CallOk(s.c, s.owner, s.calls[u], u);
      var base := BaseRun(start, steps);
      assert BaseRun(start, all) == base + [P.UpdateState(s.calls[u].pc.now)];
      RunsAreProtocolRuns(start, steps);
      RunsAreProtocolRuns(start, all);
      PT.Refinement(platform, state, base, P.UpdateState(s.calls[u].pc.now));
    }
  }

  /** Each call exchanges at most once, and exactly once if it reports the old state; then
      what it installed is its function of what it reports. Over every run. */
  lemma AppliedOnce(platform: P.Platform, state: nat, steps: seq<Step>, u: nat)
    requires IsRun(Init(platform, state), steps) && u < |Exec(Init(platform, state), steps).calls|
    ensures var s := Exec(Init(platform, state), steps);
      && (forall j, k :: 0 <= j < |s.log| && 0 <= k < |s.log| && s.log[j].u == u && s.log[k].u == u ==> j == k)
      && ((exists k :: 0 <= k < |s.log| && s.log[k].u == u) <==> Exchanging(s.calls[u].pc))
      && (forall k :: 0 <= k < |s.log| && s.log[k].u == u ==>
            s.calls[u].pc.r == Updated(s.log[k].was) && s.calls[u].f(s.log[k].was) == Some(s.log[k].now))
  {
    RunKeepsInv(Init(platform, state), steps);
    var s := Exec(Init(platform, state), steps);
    forall k | 0 <= k < |s.log| && s.log[k].u == u
      ensures Exchanging(s.calls[u].pc) && s.calls[u].pc.r == Updated(s.log[k].was)
      ensures s.calls[u].f(s.log[k].was) == Some(s.log[k].now)
    {
      assert EntryOk(s.calls, s.log[k]);
    }
  }

  /** `fetch_update_state_or_lock` and `is_empty_or_lock` never give up: they report an update
      (or an empty queue), or hand out the guard, and then they have exchanged nothing. */
  lemma OneOrTheOther(platform: P.Platform, state: nat, steps: seq<Step>, u: nat)
    requires IsRun(Init(platform, state), steps) && u < |Exec(Init(platform, state), steps).calls|
    requires Exec(Init(platform, state), steps).calls[u].pc.Finished?
    ensures var s := Exec(Init(platform, state), steps);
      var r := s.calls[u].pc.r;
      && (s.calls[u].kind.OrLock? ==> r.Updated? || r.Guard?)
      && (s.calls[u].kind.EmptyOrLock? ==> r.WasEmpty? || r.Guard?)
      && (s.calls[u].kind.Plain? ==> r.Updated? || r.Rejected? || r.SawNode?)
      && (r.Guard? ==> forall k :: 0 <= k < |s.log| ==> s.log[k].u != u)
  {
    RunKeepsInv(Init(platform, state), steps);
    var s := Exec(Init(platform, state), steps);
    assert CallOk(s.c, s.owner, s.calls[u], u);
    forall k | 0 <= k < |s.log| ensures EntryOk(s.calls, s.log[k]) { }
  }

  /** The guard is handed out only with the lock held on a non-empty queue. */
  lemma GuardMeansNonEmpty(platform: P.Platform, state: nat, steps: seq<Step>, u: nat)
    requires IsRun(Init(platform, state), steps) && Enabled(Exec(Init(platform, state), steps), Decide(u))
    requires Decided(Exec(Init(platform, state), steps).calls[u]) == Finished(Guard)
    ensures Seen(platform, state, steps).live != []
    ensures var t := Next(Exec(Init(platform, state), steps), Decide(u));
      t.owner.None? && t.c.pc.Held? && t.c.tail.Last?
  {
    RunKeepsInv(Init(platform, state), steps);
    TailIsQueue(platform, state, steps);
    var s := Exec(Init(platform, state), steps);
    assert CallOk(s.c, s.owner, s.calls[u], u);
  }

  predicate NoHolderStep(steps: seq<Step>) {
    forall k :: 0 <= k < |steps| && steps[k].Other? ==> PS.Outsider(steps[k].step)
  }

  lemma GuardStep(s: System, step: Step)
    requires Inv(s) && Enabled(s, step) && s.owner.None? && s.c.pc.Held? && s.c.tail.Last?
    requires step.Other? ==> PS.Outsider(step.step)
    ensures Next(s, step).owner.None? && Next(s, step).c.pc.Held? && Next(s, step).c.tail.Last?
  {
    if step.Other? { PS.OutsiderFrame(s.c, step.step); }
  }

  /** And until its owner acts the queue stays so, whatever enqueuers and other updating calls
      do: `dequeue` and `pop` will find a node. */
  lemma {:induction false} GuardStays(s: System, steps: seq<Step>)
    requires Inv(s) && s.owner.None? && s.c.pc.Held? && s.c.tail.Last? && IsRun(s, steps) && NoHolderStep(steps)
    ensures var t := Exec(s, steps);
      && t.owner.None? && t.c.pc.Held? && t.c.tail.Last?
      && P.GuardEnabled(t.c, P.Dequeue) && P.GuardEnabled(t.c, P.Pop)
    decreases |steps|
  {
    if steps != [] {
      var front := steps[..|steps| - 1];
      assert forall k :: 0 <= k < |front| ==> front[k] == steps[k];
      GuardStays(s, front);
      RunKeepsInv(s, front);
      GuardStep(Exec(s, front), steps[|steps| - 1]);
    }
  }

  /** Some access of call `u` read the tail word as `t`. */
  ghost predicate Read(s: System, steps: seq<Step>, u: nat, t: P.Tail)
    requires IsRun(s, steps)
    decreases |steps|
  {
    steps != [] &&
    var front, step := steps[..|steps| - 1], steps[|steps| - 1];
    Read(s, front, u, t) || (Accesses(step, u) && Exec(s, front).c.tail == t)
  }

  predicate Accesses(step: Step, u: nat) { step == Load(u) || step == Exchange(u) || step == Spurious(u) }

  ghost predicate Justified(s: System, steps: seq<Step>, x: Call, u: nat)
    requires IsRun(s, steps)
  {
    match x.pc
    case Loaded(t) => Read(s, steps, u, t)
    case Ready(was, _) => Read(s, steps, u, P.Empty(was))
    case Unlocking(r) => ResultRead(s, steps, u, r)
    case Finished(r) => ResultRead(s, steps, u, r)
    case _ => true
  }

  ghost predicate ResultRead(s: System, steps: seq<Step>, u: nat, r: Result)
    requires IsRun(s, steps)
  {
    match r
    case Updated(was) => Read(s, steps, u, P.Empty(was))
    case Rejected(was) => Read(s, steps, u, P.Empty(was))
    case WasEmpty(was) => Read(s, steps, u, P.Empty(was))
    case SawNode => exists n :: Read(s, steps, u, P.Last(n))
    case Guard => exists n :: Read(s, steps, u, P.Last(n))
  }

  lemma JustifiedLonger(s: System, steps: seq<Step>, step: Step, x: Call, u: nat)
    requires IsRun(s, steps + [step]) && IsRun(s, steps) && Justified(s, steps, x, u)
    ensures Justified(s, steps + [step], x, u)
  {
    assert (steps + [step])[..|steps|] == steps;
    forall t | Read(s, steps, u, t) ensures Read(s, steps + [step], u, t) { }
  }

  /** One more step of a call is justified by what it saw before or sees now. */
  lemma JustifiedStep(s: System, steps: seq<Step>, step: Step, u: nat)
    requires IsRun(s, steps) && IsRun(s, steps + [step]) && Enabled(Exec(s, steps), step)
    requires u < |Exec(s, steps).calls| && Justified(s, steps + [step], Exec(s, steps).calls[u], u)
    requires Exec(s, steps + [step]) == Next(Exec(s, steps), step)
    ensures Justified(s, steps + [step], Exec(s, steps + [step]).calls[u], u)
  {
    assert (steps + [step])[..|steps|] == steps;
    var p := Exec(s, steps);
    if Accesses(step, u) {
      assert Read(s, steps + [step], u, p.c.tail);
    } else if step == Decide(u) && p.calls[u].pc.t.Last? {
      assert Read(s, steps + [step], u, P.Last(p.calls[u].pc.t.id));
    }
  }

  /** Every result reports what some access of the call really saw: `Err(None)` and the guard
      mean that it read a node, `Err(Some(v))` and the others that it read the state `v`. */
  lemma {:induction false} ResultsAreRead(s: System, steps: seq<Step>, u: nat)
    requires s.calls == [] && Inv(s) && IsRun(s, steps) && u < |Exec(s, steps).calls|
    ensures Justified(s, steps, Exec(s, steps).calls[u], u)
    decreases |steps|
  {
    if steps != [] {
      var front, step := steps[..|steps| - 1], steps[|steps| - 1];
      assert steps == front + [step];
      var p := Exec(s, front);
      RunKeepsInv(s, front);
      if u < |p.calls| {
        ResultsAreRead(s, front, u);
        JustifiedLonger(s, front, step, p.calls[u], u);
        JustifiedStep(s, front, step, u);
      }
    }
  }
}
