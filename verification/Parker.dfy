/**
 * The one-token parkers below `get_next`: `StdParker` (mutex and condition variable) and
 * `AtomicParker` (futex), as interleaved machines with one parking thread and any number
 * of unparkers. The queue protocol uses them as a single token: `unpark` sets it, `park`
 * returns only by consuming it.
 */
module ParkerWord {
  const EMPTY: nat := 0
  const NOTIFIED: nat := 1

  /** `fetch_sub(1)` on a word of `size` values wraps around. */
  function FetchSub(size: nat, w: nat): nat
    requires w < size
  {
    if w == 0 then size - 1 else w - 1
  }
}

/** The parker as the queue protocol sees it: one token, and a thread that waits for it. */
module TokenParker {
  datatype Config = Config(token: bool, inside: bool)

  /** `Pass` is a `park` that returns at once, `Leave` the end of one that had to wait. */
  datatype Step = Enter | Pass | Leave | Set | Quiet

  predicate Enabled(c: Config, s: Step) {
    match s
    case Enter => !c.inside && !c.token
    case Pass => !c.inside && c.token
    case Leave => c.inside && c.token
    case _ => true
  }

  function Next(c: Config, s: Step): Config
    requires Enabled(c, s)
  {
    match s
    case Enter => c.(inside := true)
    case Pass => c.(token := false)
    case Leave => Config(false, false)
    case Set => c.(token := true)
    case Quiet => c
  }
}

module StdParkerModel {
  import opened ParkerWord
  import T = TokenParker

  /** `fetch_sub(1)` turns EMPTY into PARKED. */
  const WORD: nat := 0x1_0000_0000_0000_0000
  const PARKED: nat := WORD - 1

  datatype ParkPc = Away | Locking | Testing | Yielding | Waiting | Waking

  datatype UnparkPc = Idle | Relocking | Unlocking | Notifying

  datatype MutexHolder = NoOne | ParkingThread | Unparker(u: nat)

  datatype Config = Config(word: nat, mutex: MutexHolder, park: ParkPc, unparkers: map<nat, UnparkPc>)

  function PcOf(c: Config, u: nat): UnparkPc { if u in c.unparkers then c.unparkers[u] else Idle }

  datatype Step =
    | Park                       // fetch_sub; returns at once on NOTIFIED
    | ParkLock | ParkTest        // lock; compare_exchange(NOTIFIED, EMPTY)
    | ParkWait                   // condvar.wait: release the mutex and enter the wait set
    | Spurious                   // a wake-up nobody sent
    | Unpark(u: nat)             // swap(NOTIFIED)
    | UnparkLock(u: nat) | UnparkUnlock(u: nat) | Notify(u: nat)

  predicate Enabled(c: Config, s: Step) {
    match s
    case Park => c.park.Away? && c.word < WORD
    case ParkLock => (c.park.Locking? || c.park.Waking?) && c.mutex.NoOne?
    case ParkTest => c.park.Testing?
    case ParkWait => c.park.Yielding?
    case Spurious => c.park.Waiting?
    case Unpark(u) => PcOf(c, u).Idle?
    case UnparkLock(u) => PcOf(c, u).Relocking? && c.mutex.NoOne?
    case UnparkUnlock(u) => PcOf(c, u).Unlocking?
    case Notify(u) => PcOf(c, u).Notifying?
  }

  function Next(c: Config, s: Step): Config
    requires Enabled(c, s)
  {
    match s
    case Park => c.(word := FetchSub(WORD, c.word), park := if c.word == NOTIFIED then Away else Locking)
    case ParkLock => c.(mutex := ParkingThread, park := Testing)
    case ParkTest =>
      if c.word == NOTIFIED then c.(word := EMPTY, mutex := NoOne, park := Away) else c.(park := Yielding)
    case ParkWait => c.(mutex := NoOne, park := Waiting)
    case Spurious => c.(park := Waking)
    case Unpark(u) =>
      c.(word := NOTIFIED, unparkers := c.unparkers[u := if c.word == PARKED then Relocking else Idle])
    case UnparkLock(u) => c.(mutex := Unparker(u), unparkers := c.unparkers[u := Unlocking])
    case UnparkUnlock(u) => c.(mutex := NoOne, unparkers := c.unparkers[u := Notifying])
    case Notify(u) =>
      c.(park := if c.park.Waiting? then Waking else c.park, unparkers := c.unparkers[u := Idle])
  }

  /** The auxiliary `waker` is the unparker that turned PARKED into NOTIFIED last. */
  function WakerNext(c: Config, waker: nat, s: Step): nat {
    if s.Unpark? && c.word == PARKED then s.u else waker
  }

  ghost predicate Inv(c: Config, waker: nat) {
    && (if c.park.Away? then c.word == EMPTY || c.word == NOTIFIED else c.word == PARKED || c.word == NOTIFIED)
    && (c.mutex.ParkingThread? <==> c.park.Testing? || c.park.Yielding?)
    && (forall u :: PcOf(c, u).Unlocking? <==> c.mutex == Unparker(u))
    && (c.park.Yielding? && c.word == NOTIFIED ==> PcOf(c, waker).Relocking?)
    && (c.park.Waiting? && c.word == NOTIFIED ==> !PcOf(c, waker).Idle?)
  }

  const INIT := Config(EMPTY, NoOne, Away, map[])

  lemma StepKeepsInv(c: Config, waker: nat, s: Step)
    requires Inv(c, waker) && Enabled(c, s)
    ensures Inv(Next(c, s), WakerNext(c, waker, s))
  {
    var d := Next(c, s);
    forall u ensures PcOf(d, u).Unlocking? <==> d.mutex == Unparker(u) {
      assert PcOf(c, u).Unlocking? <==> c.mutex == Unparker(u);
    }
  }

  predicate IsRun(steps: seq<Step>)
    decreases |steps|, 0
  {
    steps == [] || (IsRun(steps[..|steps| - 1]) && Enabled(Exec(steps[..|steps| - 1]), steps[|steps| - 1]))
  }

  function Exec(steps: seq<Step>): Config
    requires IsRun(steps)
    decreases |steps|, 1
  {
    if steps == [] then INIT else Next(Exec(steps[..|steps| - 1]), steps[|steps| - 1])
  }

  function Waker(steps: seq<Step>): nat
    requires IsRun(steps)
    decreases |steps|
  {
    if steps == [] then 0
    else WakerNext(Exec(steps[..|steps| - 1]), Waker(steps[..|steps| - 1]), steps[|steps| - 1])
  }

  lemma {:induction false} RunKeepsInv(steps: seq<Step>)
    requires IsRun(steps)
    ensures Inv(Exec(steps), Waker(steps))
    decreases |steps|
  {
    if steps != [] {
      var front := steps[..|steps| - 1];
      RunKeepsInv(front);
      StepKeepsInv(Exec(front), Waker(front), steps[|steps| - 1]);
    }
  }

  // ------------------------------------------------------------------ theorems

  predicate Token(c: Config) { c.word == NOTIFIED }

  predicate Returns(c: Config, s: Step)
    requires Enabled(c, s)
  {
    (s.Park? || s.ParkTest?) && Next(c, s).park.Away?
  }

  /** In every run the word is one of the three values, and the parker is exactly a token:
      `unpark` sets it, `park` returns if and only if it can take it, nothing else changes it. */
  lemma ParkerIsToken(steps: seq<Step>, s: Step)
    requires IsRun(steps) && Enabled(Exec(steps), s)
    ensures var c := Exec(steps);
      var d := Next(c, s);
      && c.word in {EMPTY, NOTIFIED, PARKED}
      && (s.Unpark? ==> Token(d))
      && (Returns(c, s) ==> Token(c) && !Token(d))
      && ((s.Park? || s.ParkTest?) && Token(c) ==> Returns(c, s))
      && (!s.Unpark? && !Returns(c, s) ==> Token(d) == Token(c))
  {
    RunKeepsInv(steps);
  }

  /** The step that brings a parked thread with a token closer to returning. */
  function Helpful(c: Config, waker: nat): Step {
    match c.park
    case Away => Park
    case Testing => ParkTest
    case Yielding => ParkWait
    case Locking => if c.mutex.Unparker? then UnparkUnlock(c.mutex.u) else ParkLock
    case Waking => if c.mutex.Unparker? then UnparkUnlock(c.mutex.u) else ParkLock
    case Waiting =>
      if PcOf(c, waker).Notifying? then Notify(waker)
      else if PcOf(c, waker).Unlocking? then UnparkUnlock(waker)
      else if c.mutex.Unparker? then UnparkUnlock(c.mutex.u)
      else UnparkLock(waker)
  }

  function Distance(c: Config, waker: nat): nat {
    match c.park
    case Away => 0
    case Testing => 1
    case Locking => if c.mutex.Unparker? then 3 else 2
    case Waking => if c.mutex.Unparker? then 3 else 2
    case Waiting =>
      (match PcOf(c, waker)
       case Notifying => 4
       case Unlocking => 5
       case _ => if c.mutex.Unparker? then 7 else 6)
    case Yielding => 8
  }

  /** No lost wake-up: once the token is there, a thread inside `park` is never stuck. The
      helpful step is enabled and strictly shortens the way out; in particular a thread in
      the wait set of the condition variable still has an unparker between its swap and its
      `notify_one`. */
  lemma ParkedThreadGetsOut(steps: seq<Step>)
    requires IsRun(steps) && !Exec(steps).park.Away? && Token(Exec(steps))
    ensures var c, w := Exec(steps), Waker(steps);
      && Enabled(c, Helpful(c, w))
      && Distance(Next(c, Helpful(c, w)), w) < Distance(c, w)
      && (c.park.Waiting? ==> exists u :: !PcOf(c, u).Idle?)
  {
    RunKeepsInv(steps);
    var c, w := Exec(steps), Waker(steps);
    if c.mutex.Unparker? { assert PcOf(c, c.mutex.u).Unlocking?; }
  }

  // ------------------------------------------------------- how long it can take

  function Pending(c: Config, pc: UnparkPc): set<nat> { set u | u in c.unparkers && c.unparkers[u] == pc }

  function Rank(pc: ParkPc): nat {
    match pc
    case Away => 0
    case Testing => 1
    case Locking => 2
    case Waking => 2
    case Waiting => 3
    case Yielding => 4
  }

  /** The steps that the parked thread and the unparkers under way can still take. */
  function Work(c: Config): nat {
    Rank(c.park) + 3 * |Pending(c, Relocking)| + 2 * |Pending(c, Unlocking)| + |Pending(c, Notifying)|
  }

  lemma UnparkerMoves(c: Config, d: Config, u: nat, from: UnparkPc, to: UnparkPc)
    requires u in c.unparkers && c.unparkers[u] == from && from != to && d.unparkers == c.unparkers[u := to]
    ensures |Pending(d, from)| == |Pending(c, from)| - 1
    ensures !to.Idle? ==> |Pending(d, to)| == |Pending(c, to)| + 1
    ensures forall pc :: pc != from && pc != to ==> Pending(d, pc) == Pending(c, pc)
  {
    assert Pending(d, from) == Pending(c, from) - {u};
    assert Pending(d, to) == Pending(c, to) + {u};
  }

  /** With the token there every step of anybody but a new `unpark` uses up some of it, and a
      new `unpark` adds none. */
  lemma WorkShrinks(c: Config, waker: nat, s: Step)
    requires Inv(c, waker) && Enabled(c, s) && Token(c) && !c.park.Away?
    ensures if s.Unpark? then Work(Next(c, s)) == Work(c) else Work(Next(c, s)) < Work(c)
    ensures !Next(c, s).park.Away? ==> Token(Next(c, s))
  {
    var d := Next(c, s);
    match s
    case Unpark(u) => assert forall pc: UnparkPc :: !pc.Idle? ==> Pending(d, pc) == Pending(c, pc);
    case UnparkLock(u) => UnparkerMoves(c, d, u, Relocking, Unlocking);
    case UnparkUnlock(u) => UnparkerMoves(c, d, u, Unlocking, Notifying);
    case Notify(u) => UnparkerMoves(c, d, u, Notifying, Idle);
    case Park =>
    case ParkLock => assert d.unparkers == c.unparkers;
    case ParkTest => assert d.unparkers == c.unparkers;
    case ParkWait => assert d.unparkers == c.unparkers;
    case Spurious => assert d.unparkers == c.unparkers;
  }

  /** `more` are steps from `c` on, and the parked thread is inside `park` all along. */
  ghost predicate StaysInside(c: Config, more: seq<Step>)
    decreases |more|
  {
    !c.park.Away? && (more == [] || (Enabled(c, more[0]) && StaysInside(Next(c, more[0]), more[1..])))
  }

  /** How many of them are not the first step of an `unpark`. */
  function Taken(more: seq<Step>): nat {
    if more == [] then 0 else (if more[0].Unpark? then 0 else 1) + Taken(more[1..])
  }

  lemma {:induction false} StaysWithin(c: Config, waker: nat, more: seq<Step>)
    requires Inv(c, waker) && Token(c) && StaysInside(c, more)
    ensures Taken(more) <= Work(c)
    decreases |more|
  {
    if more != [] {
      StepKeepsInv(c, waker, more[0]);
      WorkShrinks(c, waker, more[0]);
      StaysWithin(Next(c, more[0]), WakerNext(c, waker, more[0]), more[1..]);
    }
  }

  /** However the others interfere, once the token is there a thread cannot stay inside `park`
      for more than `Work` further steps, not counting new calls of `unpark`. With
      `ParkedThreadGetsOut`, which always has one of those steps enabled, it gets out. */
  lemma OutWithinWork(steps: seq<Step>, more: seq<Step>)
    requires IsRun(steps) && Token(Exec(steps)) && StaysInside(Exec(steps), more)
    ensures Taken(more) <= Work(Exec(steps))
  {
    RunKeepsInv(steps);
    StaysWithin(Exec(steps), Waker(steps), more);
  }

  // ----------------------------------------------------------------- refinement

  /** What the queue protocol sees of the parker. */
  function Abs(c: Config): T.Config { T.Config(Token(c), !c.park.Away?) }

  function AbsStep(c: Config, s: Step): T.Step
    requires Enabled(c, s)
  {
    match s
    case Park => if Token(c) then T.Pass else T.Enter
    case ParkTest => if Token(c) then T.Leave else T.Quiet
    case Unpark(_) => T.Set
    case _ => T.Quiet
  }

  /** In every run each step is one step of the token. */
  lemma RefinesToken(steps: seq<Step>, s: Step)
    requires IsRun(steps) && Enabled(Exec(steps), s)
    ensures var c := Exec(steps);
      T.Enabled(Abs(c), AbsStep(c, s)) && Abs(Next(c, s)) == T.Next(Abs(c), AbsStep(c, s))
  {
    RunKeepsInv(steps);
  }
}

module FutexParkerModel {
  import opened ParkerWord
  import T = TokenParker

  const WORD: nat := 0x1_0000_0000
  const PARKED: nat := WORD - 1

  datatype ParkPc = Away | Calling | Sleeping | Testing

  datatype Config = Config(word: nat, park: ParkPc, waking: set<nat>)

  datatype Step =
    | Park              // fetch_sub
    | FutexWait         // sleeps only while the word is PARKED, checked atomically
    | Spurious
    | ParkTest          // compare_exchange(NOTIFIED, EMPTY)
    | Unpark(u: nat)    // swap(NOTIFIED)
    | WakeOne(u: nat)

  predicate Enabled(c: Config, s: Step) {
    match s
    case Park => c.park.Away? && c.word < WORD
    case FutexWait => c.park.Calling?
    case Spurious => c.park.Sleeping?
    case ParkTest => c.park.Testing?
    case Unpark(u) => u !in c.waking
    case WakeOne(u) => u in c.waking
  }

  function Next(c: Config, s: Step): Config
    requires Enabled(c, s)
  {
    match s
    case Park => c.(word := FetchSub(WORD, c.word), park := if c.word == NOTIFIED then Away else Calling)
    case FutexWait => c.(park := if c.word == PARKED then Sleeping else Testing)
    case Spurious => c.(park := Testing)
    case ParkTest => if c.word == NOTIFIED then c.(word := EMPTY, park := Away) else c.(park := Calling)
    case Unpark(u) => c.(word := NOTIFIED, waking := if c.word == PARKED then c.waking + {u} else c.waking)
    case WakeOne(u) => c.(park := if c.park.Sleeping? then Testing else c.park, waking := c.waking - {u})
  }

  ghost predicate Inv(c: Config) {
    && (if c.park.Away? then c.word == EMPTY || c.word == NOTIFIED else c.word == PARKED || c.word == NOTIFIED)
    && (c.park.Sleeping? && c.word == NOTIFIED ==> c.waking != {})
  }

  const INIT := Config(EMPTY, Away, {})

  predicate IsRun(steps: seq<Step>)
    decreases |steps|, 0
  {
    steps == [] || (IsRun(steps[..|steps| - 1]) && Enabled(Exec(steps[..|steps| - 1]), steps[|steps| - 1]))
  }

  function Exec(steps: seq<Step>): Config
    requires IsRun(steps)
    decreases |steps|, 1
  {
    if steps == [] then INIT else Next(Exec(steps[..|steps| - 1]), steps[|steps| - 1])
  }

  lemma {:induction false} RunKeepsInv(steps: seq<Step>)
    requires IsRun(steps)
    ensures Inv(Exec(steps))
    decreases |steps|
  {
    if steps != [] { RunKeepsInv(steps[..|steps| - 1]); }
  }

  predicate Token(c: Config) { c.word == NOTIFIED }

  predicate Returns(c: Config, s: Step)
    requires Enabled(c, s)
  {
    (s.Park? || s.ParkTest?) && Next(c, s).park.Away?
  }

  /** In every run the word is one of the three values, and the parker is exactly a token:
      `unpark` sets it, `park` returns if and only if it can take it, nothing else changes it. */
  lemma FutexParkerIsToken(steps: seq<Step>, s: Step)
    requires IsRun(steps) && Enabled(Exec(steps), s)
    ensures var c := Exec(steps);
      var d := Next(c, s);
      && c.word in {EMPTY, NOTIFIED, PARKED}
      && (s.Unpark? ==> Token(d))
      && (Returns(c, s) ==> Token(c) && !Token(d))
      && ((s.Park? || s.ParkTest?) && Token(c) ==> Returns(c, s))
      && (!s.Unpark? && !Returns(c, s) ==> Token(d) == Token(c))
  {
    RunKeepsInv(steps);
  }

  function Distance(c: Config): nat {
    match c.park
    case Away => 0
    case Testing => 1
    case Calling => 2
    case Sleeping => 3
  }

  /** Taking `s` brings the parked thread closer to returning. */
  predicate Helps(c: Config, s: Step) { Enabled(c, s) && Distance(Next(c, s)) < Distance(c) }

  /** No lost wake-up: once the token is there, a thread inside `park` always has an enabled
      step that shortens its way out; asleep in the futex, an unparker still has to wake it. */
  lemma ParkedThreadGetsOut(steps: seq<Step>)
    requires IsRun(steps) && !Exec(steps).park.Away? && Token(Exec(steps))
    ensures exists s :: Helps(Exec(steps), s)
    ensures Exec(steps).park.Sleeping? ==> Exec(steps).waking != {}
  {
    RunKeepsInv(steps);
    var c := Exec(steps);
    match c.park
    case Testing => assert Helps(c, ParkTest);
    case Calling => assert Helps(c, FutexWait);
    case Sleeping =>
      var u :| u in c.waking;
      assert Helps(c, WakeOne(u));
  }

  // ------------------------------------------------------- how long it can take

  /** The steps that the parked thread and the unparkers under way can still take. */
  function Work(c: Config): nat { Distance(c) + |c.waking| }

  /** With the token there every step of anybody but a new `unpark` uses up some of it, and a
      new `unpark` adds none. */
  lemma WorkShrinks(c: Config, s: Step)
    requires Inv(c) && Enabled(c, s) && Token(c) && !c.park.Away?
    ensures if s.Unpark? then Work(Next(c, s)) == Work(c) else Work(Next(c, s)) < Work(c)
    ensures Inv(Next(c, s)) && (!Next(c, s).park.Away? ==> Token(Next(c, s)))
  {
  }

  /** `more` are steps from `c` on, and the parked thread is inside `park` all along. */
  ghost predicate StaysInside(c: Config, more: seq<Step>)
    decreases |more|
  {
    !c.park.Away? && (more == [] || (Enabled(c, more[0]) && StaysInside(Next(c, more[0]), more[1..])))
  }

  /** How many of them are not the first step of an `unpark`. */
  function Taken(more: seq<Step>): nat {
    if more == [] then 0 else (if more[0].Unpark? then 0 else 1) + Taken(more[1..])
  }

  lemma {:induction false} StaysWithin(c: Config, more: seq<Step>)
    requires Inv(c) && Token(c) && StaysInside(c, more)
    ensures Taken(more) <= Work(c)
    decreases |more|
  {
    if more != [] {
      WorkShrinks(c, more[0]);
      StaysWithin(Next(c, more[0]), more[1..]);
    }
  }

  /** However the others interfere, once the token is there a thread cannot stay inside `park`
      for more than `Work` further steps, not counting new calls of `unpark`. */
  lemma OutWithinWork(steps: seq<Step>, more: seq<Step>)
    requires IsRun(steps) && Token(Exec(steps)) && StaysInside(Exec(steps), more)
    ensures Taken(more) <= Work(Exec(steps))
  {
    RunKeepsInv(steps);
    StaysWithin(Exec(steps), more);
  }

  // ----------------------------------------------------------------- refinement

  /** What the queue protocol sees of the parker. */
  function Abs(c: Config): T.Config { T.Config(Token(c), !c.park.Away?) }

  function AbsStep(c: Config, s: Step): T.Step
    requires Enabled(c, s)
  {
    match s
    case Park => if Token(c) then T.Pass else T.Enter
    case ParkTest => if Token(c) then T.Leave else T.Quiet
    case Unpark(_) => T.Set
    case _ => T.Quiet
  }

  /** In every run each step is one step of the token. */
  lemma RefinesToken(steps: seq<Step>, s: Step)
    requires IsRun(steps) && Enabled(Exec(steps), s)
    ensures var c := Exec(steps);
      T.Enabled(Abs(c), AbsStep(c, s)) && Abs(Next(c, s)) == T.Next(Abs(c), AbsStep(c, s))
  {
    RunKeepsInv(steps);
  }
}
