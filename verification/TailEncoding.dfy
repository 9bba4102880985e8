/**
 * The words the queue is made of, bit by bit, on a 64-bit machine: the tail, which holds a
 * user state or the last node's address, and `prev`, which holds an address or one of three
 * small values.
 */
module TailEncoding {
  import opened Options
  import opened Waking

  datatype StateOrPtr<S> = State(state: S) | Ptr(ptr: bv64)

  const MAX_STATE: bv64 := 0x7FFF_FFFF_FFFF_FFFF

  /** `NodeLink` is aligned to 4, and a node is never at address zero. */
  predicate IsNode(addr: bv64) { addr != 0 && addr & 3 == 0 }

  // -------------------------------------------------------- integer states

  /** `None` is the panic "queue state overflow". */
  function EncodeUsize(x: StateOrPtr<bv64>): Option<bv64> {
    match x
    case State(s) => if s > MAX_STATE then None else Some(s << 1)
    case Ptr(p) => Some(p | 1)
  }

  function DecodeUsize(tail: bv64): StateOrPtr<bv64> {
    if tail & 1 != 0 then Ptr(tail & 0xFFFF_FFFF_FFFF_FFFE) else State(tail >> 1)
  }

  lemma ShiftBack(s: bv64)
    ensures (s << 1) & 1 == 0
    ensures (s << 1) >> 1 == s <==> s <= MAX_STATE
  {
  }

  lemma FlagOff(p: bv64)
    ensures (p | 1) & 1 == 1
    ensures (p | 1) & 0xFFFF_FFFF_FFFF_FFFE == p <==> p & 1 == 0
  {
  }

  /** Decoding undoes encoding exactly for states that fit and for even addresses: a larger
      state panics, an odd address would come back as another one. */
  lemma UsizeRoundTrip(x: StateOrPtr<bv64>)
    ensures (EncodeUsize(x).Some? && DecodeUsize(EncodeUsize(x).value) == x) <==>
      match x { case State(s) => s <= MAX_STATE case Ptr(p) => p & 1 == 0 }
  {
    match x
    case State(s) => ShiftBack(s);
    case Ptr(p) => FlagOff(p);
  }

  /** In particular for every node. */
  lemma NodeRoundTrip(p: bv64)
    requires IsNode(p)
    ensures EncodeUsize(Ptr(p)).Some? && DecodeUsize(EncodeUsize(Ptr(p)).value) == Ptr(p)
  {
    assert p & 3 == 0 ==> p & 1 == 0;
    UsizeRoundTrip(Ptr(p));
  }

  lemma FlagOnAgain(tail: bv64)
    requires tail & 1 != 0
    ensures (tail & 0xFFFF_FFFF_FFFF_FFFE) | 1 == tail
    ensures tail & 0xFFFF_FFFF_FFFF_FFFE == 0 ==> tail == 1
  {
  }

  lemma ShiftAgain(tail: bv64)
    requires tail & 1 == 0
    ensures tail >> 1 <= MAX_STATE && (tail >> 1) << 1 == tail
  {
  }

  /** Every tail word but the flag alone is the encoding of what it decodes to. */
  lemma UsizeTailRoundTrip(tail: bv64)
    ensures EncodeUsize(DecodeUsize(tail)) == Some(tail)
    ensures tail != 1 ==> DecodeUsize(tail) != Ptr(0)
  {
    if tail & 1 != 0 { FlagOnAgain(tail); } else { ShiftAgain(tail); }
  }

  /** Two things that the queue may hold never share a tail word. */
  lemma UsizeInjective(x: StateOrPtr<bv64>, y: StateOrPtr<bv64>)
    requires x.State? ==> x.state <= MAX_STATE
    requires x.Ptr? ==> IsNode(x.ptr)
    requires y.State? ==> y.state <= MAX_STATE
    requires y.Ptr? ==> IsNode(y.ptr)
    ensures EncodeUsize(x) == EncodeUsize(y) <==> x == y
  {
    if x.Ptr? { NodeRoundTrip(x.ptr); } else { UsizeRoundTrip(x); }
    if y.Ptr? { NodeRoundTrip(y.ptr); } else { UsizeRoundTrip(y); }
  }

  // ------------------------------------------------------------ no state

  function EncodeUnit(x: StateOrPtr<()>): bv64 {
    match x
    case State(_) => 0
    case Ptr(p) => p
  }

  function DecodeUnit(tail: bv64): StateOrPtr<()> {
    if tail == 0 then State(()) else Ptr(tail)
  }

  /** Without states every non-null address is its own tail word. */
  lemma UnitRoundTrip(x: StateOrPtr<()>)
    ensures DecodeUnit(EncodeUnit(x)) == x <==> x != Ptr(0)
    ensures EncodeUnit(DecodeUnit(EncodeUnit(x))) == EncodeUnit(x)
  {
    if x.State? { assert x.state == (); }
  }

  /** The null tail that plain removals install is the zero state, for both kinds. */
  lemma NullIsZeroState()
    ensures DecodeUnit(0) == State(()) && DecodeUsize(0) == State(0)
    ensures EncodeUsize(State(0)) == Some(0) && EncodeUnit(State(())) == 0
  {
  }

  // ----------------------------------------------------------------- prev

  function RawState(prev: bv64): NodeState {
    if prev == 0 then Unqueued else if prev == 1 then Dequeued else Queued
  }

  function IntoPtr(state: NodeState): bv64 {
    match state
    case Unqueued => 0
    case Dequeued => 1
    case Queued => 2
  }

  /** The three marks are read back as themselves, no node sits at one of them, and a `prev`
      that holds a node, or the head marker, reads as queued. */
  lemma PrevWords(state: NodeState, prev: bv64)
    ensures RawState(IntoPtr(state)) == state
    ensures IsNode(prev) ==> prev != IntoPtr(state) && RawState(prev) == Queued
    ensures RawState(prev) != Queued ==> prev == IntoPtr(RawState(prev))
  {
    assert (0 as bv64) & 3 == 0 && (1 as bv64) & 3 == 1 && (2 as bv64) & 3 == 2;
  }
}
