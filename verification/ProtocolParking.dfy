/**
 * How the lock holder waits for a publisher: it registers, sleeps, and looks again once for
 * each wake-up; publishers wake it only while it waits for them.
 */
module ProtocolParking {
  import opened Options
  import opened Protocol
  import opened ProtocolInvariant
  import opened ProtocolTheorems
  import opened ProtocolSafety

  // ------------------------------------------------------- the registration

  /** `parked_next` names a slot only while the holder waits for that slot, past its start. */
  predicate Registered(c: Config) {
    c.parkedNext.Some? ==>
      c.platform.Dekker? && c.pc.Getting? && c.parkedNext == Some(c.pc.slot) && !c.pc.w.First?
  }

  lemma OthersKeepRegistration(c: Config, step: Step)
    requires Registered(c) && Enabled(c, step) && !step.Get?
    ensures Registered(Next(c, step))
  {
    match step
    case Own(_, _) => OutsiderFrame(c, step); OwnKeepsParked(c, step.n, step.own);
    case UpdateState(_) =>
    case Guard(_) =>
    case Rem(a) => RemovalKeepsParked(c, a);
    case Drain(a) => DrainKeepsParked(c, a);
  }

  lemma OwnKeepsParked(c: Config, n: Id, a: OwnAct)
    requires OwnEnabled(c, n, a)
    ensures OwnNext(c, n, a).parkedNext == c.parkedNext && OwnNext(c, n, a).platform == c.platform
    ensures OwnNext(c, n, a).token <==> c.token || a.Unpark?
  {
  }

  lemma RemovalKeepsParked(c: Config, a: RemoveAct)
    requires RemoveEnabled(c, a)
    ensures RemoveNext(c, a).parkedNext == c.parkedNext && RemoveNext(c, a).token == c.token
    ensures !c.pc.Getting? && (RemoveNext(c, a).pc.Getting? ==> RemoveNext(c, a).pc.w.First?)
  {
  }

  lemma DrainKeepsParked(c: Config, a: DrainAct)
    requires DrainEnabled(c, a)
    ensures DrainNext(c, a).parkedNext == c.parkedNext && DrainNext(c, a).token == c.token
    ensures !c.pc.Getting? && (DrainNext(c, a).pc.Getting? ==> DrainNext(c, a).pc.w.First?)
  {
    match a
    case Open(_, _) =>
    case Yield =>
    case AfterRelock =>
    case _ =>
  }

  lemma GetKeepsRegistration(c: Config, a: GetAct)
    requires Registered(c) && GetEnabled(c, a)
    ensures Registered(GetNext(c, a))
  {
    match a
    case Load =>
    case Register =>
    case Park =>
    case LoadAgain =>
    case Forget =>
  }

  /** So nothing is left behind in `parked_next` when the wait is over, in any run. */
  lemma {:induction false} NothingLeftRegistered(c: Config, steps: seq<Step>)
    requires Registered(c) && IsRun(c, steps)
    ensures Registered(Exec(c, steps))
    decreases |steps|
  {
    if steps != [] {
      var front, step := steps[..|steps| - 1], steps[|steps| - 1];
      NothingLeftRegistered(c, front);
      if step.Get? { GetKeepsRegistration(Exec(c, front), step.get); } else { OthersKeepRegistration(Exec(c, front), step); }
    }
  }

  /** A publisher turns to waking the holder only while the holder waits for its very slot. */
  lemma WokenOnlyIfWaiting(c: Config, g: Ghost, n: Id, a: OwnAct)
    requires Inv(c, g) && Registered(c) && OwnEnabled(c, n, a)
    requires !EnqAt(c.enq, n).Unparking? && EnqAt(OwnNext(c, n, a).enq, n).Unparking?
    ensures (a.Publish? || a.CheckParked?) && c.pc.Getting? && !c.pc.w.First? && c.pc.slot == EnqAt(c.enq, n).slot
  {
    if a.Publish? {
      PublishesParked(c, g, n);
    }
  }

  lemma PublishesParked(c: Config, g: Ghost, n: Id)
    requires Inv(c, g) && OwnEnabled(c, n, Publish) && EnqAt(OwnNext(c, n, Publish).enq, n).Unparking?
    ensures Sleeping(c, EnqAt(c.enq, n).slot)
  {
    var s := EnqAt(c.enq, n).slot;
    assert OwnerOk(c, g, n);
    assert MemAt(c.mem, s) == Parked;
  }

  // ---------------------------------------------------------- no busy waiting

  function Looks(steps: seq<Step>): nat {
    if steps == [] then 0 else Looks(steps[..|steps| - 1]) + if steps[|steps| - 1] == Get(LoadAgain) then 1 else 0
  }

  /** Reasons to look: a registration, or the wake-up of a publisher. */
  predicate IsReason(step: Step) { step == Get(Register) || (step.Own? && step.own.Unpark?) }

  function Reasons(steps: seq<Step>): nat {
    if steps == [] then 0 else Reasons(steps[..|steps| - 1]) + if IsReason(steps[|steps| - 1]) then 1 else 0
  }

  /** What the holder may still look at without a new reason. */
  function Credit(c: Config): nat {
    (if c.token then 1 else 0) + if c.pc.Getting? && c.pc.w.Recheck? then 1 else 0
  }

  lemma GetSpends(c: Config, a: GetAct)
    requires GetEnabled(c, a)
    ensures Credit(GetNext(c, a)) + (if a.LoadAgain? then 1 else 0) <= Credit(c) + if a.Register? then 1 else 0
  {
    match a
    case Load =>
    case Register =>
    case Park =>
    case LoadAgain =>
    case Forget =>
  }

  lemma OthersSpendNothing(c: Config, step: Step)
    requires Enabled(c, step) && !step.Get?
    ensures Credit(Next(c, step)) <= Credit(c) + if IsReason(step) then 1 else 0
  {
    match step
    case Own(_, _) => OutsiderFrame(c, step); OwnKeepsParked(c, step.n, step.own);
    case UpdateState(_) =>
    case Guard(_) =>
    case Rem(a) => RemovalKeepsParked(c, a);
    case Drain(a) => DrainKeepsParked(c, a);
  }

  /** Over every run, once it has registered the holder looks at the slot at most once for each
      registration and each wake-up it was sent: it sleeps in between, and uses each up. */
  lemma {:induction false} NoBusyWaiting(c: Config, steps: seq<Step>)
    requires IsRun(c, steps)
    ensures Looks(steps) + Credit(Exec(c, steps)) <= Reasons(steps) + Credit(c)
    decreases |steps|
  {
    if steps != [] {
      var front, step := steps[..|steps| - 1], steps[|steps| - 1];
      NoBusyWaiting(c, front);
      if step.Get? { GetSpends(Exec(c, front), step.get); } else { OthersSpendNothing(Exec(c, front), step); }
    }
  }
}
