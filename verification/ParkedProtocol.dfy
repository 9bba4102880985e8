/**
 * The queue protocol with its parker opened up: instead of one step that takes the token, the
 * lock holder enters `park`, waits, and leaves; `unpark` is the parker's own step. Both parkers
 * of `src/sync` are such token parkers (`RefinesToken`).
 */
module ParkedProtocol {
  import opened Options
  import P = Protocol
  import PS = ProtocolSafety
  import T = TokenParker

  datatype System = System(c: P.Config, p: T.Config)

  /** `Proto` is a step that has nothing to do with the parker; `Inner` one of the parker that
      the protocol does not see. */
  datatype Step = Proto(x: P.Step) | Enter | Return(s: T.Step) | Unpark(n: P.Id) | Inner

  predicate Waits(c: P.Config) { c.pc.Getting? && c.pc.w.Asleep? }

  predicate Enabled(s: System, step: Step) {
    match step
    case Proto(x) => P.Enabled(s.c, x) && x != P.Get(P.Park) && !(x.Own? && x.own.Unpark?)
    case Enter => Waits(s.c) && T.Enabled(s.p, T.Enter)
    case Return(t) => Waits(s.c) && (t.Pass? || t.Leave?) && T.Enabled(s.p, t)
    case Unpark(n) => P.OwnEnabled(s.c, n, P.Unpark)
    case Inner => true
  }

  /** The return from `park` and the first step of `unpark` are the two moments at which the
      protocol sees the token change. */
  predicate Agree(s: System) { s.p.token == s.c.token && (s.p.inside ==> Waits(s.c)) }

  function Next(s: System, step: Step): System
    requires Agree(s) && Enabled(s, step)
  {
    match step
    case Proto(x) => s.(c := P.Next(s.c, x))
    case Enter => s.(p := T.Next(s.p, T.Enter))
    case Return(t) => System(P.Next(s.c, P.Get(P.Park)), T.Next(s.p, t))
    case Unpark(n) => System(P.Next(s.c, P.Own(n, P.Unpark)), T.Next(s.p, T.Set))
    case Inner => s
  }

  /** The step of the protocol that it is, if any. */
  function BaseStep(step: Step): Option<P.Step> {
    match step
    case Proto(x) => Some(x)
    case Return(_) => Some(P.Get(P.Park))
    case Unpark(n) => Some(P.Own(n, P.Unpark))
    case _ => None
  }

  lemma RemovalToken(c: P.Config, a: P.RemoveAct)
    requires P.RemoveEnabled(c, a)
    ensures P.RemoveNext(c, a).token == c.token && !Waits(c)
  {
  }

  lemma DrainToken(c: P.Config, a: P.DrainAct)
    requires P.DrainEnabled(c, a)
    ensures P.DrainNext(c, a).token == c.token && (Waits(c) ==> P.DrainNext(c, a).pc == c.pc)
  {
  }

  lemma GetToken(c: P.Config, a: P.GetAct)
    requires P.GetEnabled(c, a) && !a.Park?
    ensures P.GetNext(c, a).token == c.token && !Waits(c)
  {
  }

  lemma OwnToken(c: P.Config, n: P.Id, a: P.OwnAct)
    requires P.OwnEnabled(c, n, a) && !a.Unpark?
    ensures P.OwnNext(c, n, a).token == c.token && P.OwnNext(c, n, a).pc == c.pc
  {
  }

  /** Nothing else touches the token, and the holder that waits inside `park` does nothing else. */
  lemma TokenUntouched(c: P.Config, x: P.Step)
    requires P.Enabled(c, x) && x != P.Get(P.Park) && !(x.Own? && x.own.Unpark?)
    ensures P.Next(c, x).token == c.token && (Waits(c) ==> P.Next(c, x).pc == c.pc)
  {
    match x
    case Own(n, a) => OwnToken(c, n, a);
    case UpdateState(_) =>
    case Guard(_) =>
    case Get(a) => GetToken(c, a);
    case Rem(a) => RemovalToken(c, a);
    case Drain(a) => DrainToken(c, a);
  }

  /** The parker's token and the protocol's are the same at every moment, and whatever the
      parker lets through is a step that the protocol allows. */
  lemma StepAgrees(s: System, step: Step)
    requires Agree(s) && Enabled(s, step)
    ensures Agree(Next(s, step))
    ensures var x := BaseStep(step);
      if x.Some? then P.Enabled(s.c, x.value) && Next(s, step).c == P.Next(s.c, x.value) else Next(s, step).c == s.c
  {
    if step.Proto? { TokenUntouched(s.c, step.x); }
  }

  ghost predicate IsRun(s: System, steps: seq<Step>)
    requires Agree(s)
    decreases |steps|
  {
    steps == [] ||
    (Enabled(s, steps[0]) && (StepAgrees(s, steps[0]); IsRun(Next(s, steps[0]), steps[1..])))
  }

  ghost function Exec(s: System, steps: seq<Step>): System
    requires Agree(s) && IsRun(s, steps)
    decreases |steps|
  {
    if steps == [] then s else (StepAgrees(s, steps[0]); Exec(Next(s, steps[0]), steps[1..]))
  }

  function BaseRun(steps: seq<Step>): seq<P.Step> {
    if steps == [] then []
    else (if BaseStep(steps[0]).Some? then [BaseStep(steps[0]).value] else []) + BaseRun(steps[1..])
  }

  lemma {:induction false} RunPrepends(c: P.Config, x: P.Step, steps: seq<P.Step>)
    requires P.Enabled(c, x) && P.IsRun(P.Next(c, x), steps)
    ensures P.IsRun(c, [x] + steps) && P.Exec(c, [x] + steps) == P.Exec(P.Next(c, x), steps)
    decreases |steps|
  {
    if steps == [] {
      assert [x] + steps == [] + [x];
      PS.RunExtends(c, [], x);
    } else {
      var front, last := steps[..|steps| - 1], steps[|steps| - 1];
      RunPrepends(c, x, front);
      assert [x] + steps == ([x] + front) + [last];
      PS.RunExtends(c, [x] + front, last);
    }
  }

  /** Every run with a parker underneath is a run of the protocol with its one-step token. */
  lemma {:induction false} RunsAreProtocolRuns(s: System, steps: seq<Step>)
    requires Agree(s) && IsRun(s, steps)
    ensures P.IsRun(s.c, BaseRun(steps)) && P.Exec(s.c, BaseRun(steps)) == Exec(s, steps).c && Agree(Exec(s, steps))
    decreases |steps|
  {
    if steps != [] {
      StepAgrees(s, steps[0]);
      var t := Next(s, steps[0]);
      RunsAreProtocolRuns(t, steps[1..]);
      if BaseStep(steps[0]).Some? {
        RunPrepends(s.c, BaseStep(steps[0]).value, BaseRun(steps[1..]));
      } else {
        assert [] + BaseRun(steps[1..]) == BaseRun(steps[1..]);
      }
    }
  }

  /** From the start, with nobody inside `park` and no token. */
  lemma StartAgrees(platform: P.Platform, state: nat)
    ensures Agree(System(P.Init(platform, state), T.Config(false, false)))
  {
  }
}
