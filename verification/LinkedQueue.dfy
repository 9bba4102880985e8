/**
 * The list surgery that the lock holder performs, on the heap: the intrusive doubly linked
 * queue of `src/queue.rs` and the sentinel ring of `src/queue/drain.rs`, in the moments when
 * no enqueuer is half-linked.
 */
module LinkedQueue {
  import opened Options
  import opened Waking
  import AQ = AbstractQueue

  /** The word `prev` of a node. */
  datatype Link = Free | Out | HeadMarker | At(node: NodeLink)

  /** The word `tail` of a queue. */
  datatype Tail = State(state: nat) | Last(node: NodeLink)

  class NodeLink {
    var prev: Link
    var next: NodeLink?

    constructor ()
      ensures prev == Free && next == null
    {
      prev, next := Free, null;
    }
  }

  /** Consecutive nodes point at each other. */
  ghost predicate Linked(s: seq<NodeLink>, i: int)
    reads s
  {
    0 <= i && i + 1 < |s| ==> s[i].next == s[i + 1] && s[i + 1].prev == At(s[i])
  }

  ghost predicate Chain(s: seq<NodeLink>)
    reads s
  {
    AQ.NoDup(s) && forall i :: Linked(s, i)
  }

  ghost function Without(s: seq<NodeLink>, k: nat): seq<NodeLink>
    requires k < |s|
  {
    s[..k] + s[k + 1..]
  }

  class Queue {
    var head: NodeLink?
    var tail: Tail
    ghost var nodes: seq<NodeLink>

    ghost predicate Valid()
      reads this, nodes
    {
      && Chain(nodes)
      && (nodes == [] ==> head == null && tail.State?)
      && (nodes != [] ==>
          && head == nodes[0] && nodes[0].prev == HeadMarker
          && tail == Last(nodes[|nodes| - 1]) && nodes[|nodes| - 1].next == null)
    }

    constructor (state: nat)
      ensures Valid() && nodes == [] && tail == State(state)
    {
      head, tail, nodes := null, State(state), [];
    }

    /** What a conditional enqueue or a state update sees. */
    function View(): Option<nat>
      reads this
    {
      match tail { case State(s) => Some(s) case Last(_) => None }
    }

    /** The node is appended if the condition holds; otherwise nothing happens to it. */
    method Enqueue(node: NodeLink, accept: Option<nat> -> bool) returns (ok: bool)
      requires Valid() && node !in nodes && node.prev == Free && node.next == null
      modifies this, node, nodes
      ensures Valid()
      ensures ok <==> accept(old(View()))
      ensures nodes == if ok then old(nodes) + [node] else old(nodes)
      ensures !ok ==> node.prev == Free && node.next == null && tail == old(tail)
    {
      if !accept(View()) { return false; }
      ghost var before := nodes;
      match tail {
        case State(_) =>
          node.prev := HeadMarker;
          head := node;
        case Last(p) =>
          node.prev := At(p);
          p.next := node;
      }
      tail := Last(node);
      nodes := nodes + [node];
      ok := true;
      forall i ensures Linked(nodes, i) { assert old(Linked(before, i)); }
    }

    /** `remove_with_prev`: the splice itself, on whatever list the node is in. A node without
        successor must be the queue's last one: then the tail moves back to `prev`, or to the
        new state when `prev` is the head marker. */
    method Splice(node: NodeLink, newState: nat, prev: Link) returns (tailMoved: bool)
      requires prev.HeadMarker? || (prev.At? && prev.node != node)
      requires node.next != node && (node.next == null ==> tail == Last(node))
      modifies this`head, this`tail, node`prev
      modifies if prev.At? then {prev.node} else {}
      modifies if node.next != null then {node.next} else {}
      ensures tailMoved <==> old(node.next) == null
      ensures node.prev == Out
      ensures prev.At? ==> head == old(head) && prev.node.next == old(node.next)
      ensures prev.HeadMarker? ==> head == old(node.next)
      ensures tail ==
        if !tailMoved then old(tail) else if prev.At? then Last(prev.node) else State(newState)
      ensures prev.At? && prev.node != old(node.next) ==> prev.node.prev == old(prev.node.prev)
      ensures var n := old(node.next);
        n != null ==> n.prev == prev && (prev != At(n) ==> n.next == old(if node.next != null then node.next.next else null))
    {
      tailMoved := false;
      var next := node.next;
      if next == null {
        if prev.At? { prev.node.next := null; } else { head := null; }
        tail := if prev.At? then Last(prev.node) else State(newState);
        tailMoved := true;
      } else {
        next.prev := prev;
        if prev.At? { prev.node.next := next; } else { head := next; }
      }
      node.prev := Out;
    }

    /** Removing any queued node takes out exactly that node. The result is true when it was
        the last one, which is not to say that the queue is now empty. */
    method Remove(node: NodeLink, newState: nat, ghost k: nat) returns (tailMoved: bool)
      requires Valid() && k < |nodes| && nodes[k] == node
      modifies this, nodes
      ensures Valid() && nodes == Without(old(nodes), k) && node.prev == Out
      ensures tailMoved <==> k == |old(nodes)| - 1
      ensures nodes == [] ==> tail == State(newState)
    {
      ghost var before := nodes;
      assert Linked(before, k) && Linked(before, k - 1);
      tailMoved := Splice(node, newState, node.prev);
      nodes := Without(nodes, k);
      forall i ensures Linked(nodes, i) {
        assert old(Linked(before, i)) && old(Linked(before, i + 1));
      }
    }

    /** `Dequeue`: the first node; true exactly when the queue is then empty, in that state. */
    method Dequeue(newState: nat) returns (node: NodeLink?, emptied: bool)
      requires Valid()
      modifies this, nodes
      ensures Valid()
      ensures old(nodes) == [] ==> node == null && !emptied && nodes == [] && tail == old(tail)
      ensures old(nodes) != [] ==>
        && node == old(nodes)[0] && node.prev == Out && nodes == old(nodes)[1..]
        && (emptied <==> nodes == []) && (emptied ==> tail == State(newState))
    {
      if tail.State? { return null, false; }
      node := head;
      emptied := Remove(node, newState, 0);
    }

    /** `Pop`: the last node. */
    method Pop(newState: nat) returns (node: NodeLink?)
      requires Valid()
      modifies this, nodes
      ensures Valid()
      ensures old(nodes) == [] ==> node == null && nodes == [] && tail == old(tail)
      ensures old(nodes) != [] ==>
        && node == old(nodes)[|old(nodes)| - 1] && node.prev == Out && nodes == old(nodes)[..|old(nodes)| - 1]
        && (nodes == [] ==> tail == State(newState))
    {
      match tail
      case State(_) => return null;
      case Last(last) =>
        node := last;
        var moved := Remove(last, newState, |nodes| - 1);
    }
  }

  /** A drain: the list it took hangs on its own sentinel. While the lock is held the list is
      open at both ends; before the lock is released it is tied into a ring, so that its
      nodes can remove themselves without ever reaching the queue. */
  class Drain {
    const queue: Queue
    const sentinel: NodeLink
    ghost var rest: seq<NodeLink>

    /** Links, ends and separation that hold throughout. */
    ghost predicate Apart()
      reads this, queue
    {
      sentinel !in rest && sentinel !in queue.nodes && forall i :: 0 <= i < |rest| ==> rest[i] !in queue.nodes
    }

    ghost predicate Open()
      reads this, sentinel, rest
    {
      && Chain(rest) && sentinel !in rest
      && (rest == [] ==> sentinel.next == null)
      && (rest != [] ==> sentinel.next == rest[0] && sentinel.prev == At(rest[|rest| - 1]))
    }

    ghost predicate Ring()
      reads this, sentinel, rest
    {
      && Chain(rest) && sentinel !in rest
      && (rest == [] ==> sentinel.next == null || (sentinel.next == sentinel && sentinel.prev == At(sentinel)))
      && (rest != [] ==>
          && sentinel.next == rest[0] && rest[0].prev == At(sentinel)
          && sentinel.prev == At(rest[|rest| - 1]) && rest[|rest| - 1].next == sentinel)
    }

    /** The swap: everything in the queue moves to the drain, and the state is installed if
        there was anything. */
    constructor (queue: Queue, newState: nat)
      requires queue.Valid()
      modifies queue
      ensures this.queue == queue && fresh(sentinel)
      ensures queue.Valid() && queue.nodes == [] && rest == old(queue.nodes)
      ensures queue.tail == if rest == [] then old(queue.tail) else State(newState)
      ensures Open() && Apart()
    {
      var sent := new NodeLink();
      this.queue, this.sentinel, this.rest := queue, sent, queue.nodes;
      if queue.tail.Last? {
        sent.next, sent.prev := queue.head, At(queue.tail.node);
        queue.head, queue.tail, queue.nodes := null, State(newState), [];
      }
    }

    /** `next` and the drop of what it returns: the first drained node is handed out. */
    method Next() returns (node: NodeLink?)
      requires Open() && Apart()
      modifies this, sentinel, rest
      ensures Open() && Apart()
      ensures old(rest) == [] ==> node == null && rest == []
      ensures old(rest) != [] ==> node == old(rest)[0] && node.prev == Out && rest == old(rest)[1..]
    {
      node := sentinel.next;
      if node != null {
        ghost var before := rest;
        assert Linked(before, 0);
        sentinel.next := if At(node) == sentinel.prev then null else node.next;
        node.prev := Out;
        rest := rest[1..];
        forall i ensures Linked(rest, i) { assert old(Linked(before, i + 1)); }
      }
    }

    /** First half of `execute_unlocked`. */
    method Tie()
      requires Open() && Apart()
      modifies sentinel, rest
      ensures Ring() && Apart()
    {
      if sentinel.next != null {
        ghost var s := rest;
        sentinel.next.prev := At(sentinel);
        sentinel.prev.node.next := sentinel;
        forall i ensures Linked(rest, i) { assert old(Linked(s, i)); }
      }
    }

    /** Second half, with the lock taken again. */
    method Untie()
      requires Ring() && Apart()
      modifies sentinel
      ensures Open() && Apart()
    {
      if sentinel.next == sentinel { sentinel.next := null; }
    }

    /** A drained node removes itself while the ring is tied: exactly that node goes, the ring
        stays whole, and the queue is not touched, whatever state the caller offers. */
    method RemoveDrained(node: NodeLink, newState: nat, ghost k: nat) returns (tailMoved: bool)
      requires Ring() && Apart() && queue.Valid() && k < |rest| && rest[k] == node
      modifies this, sentinel, rest, queue`head, queue`tail
      ensures Ring() && Apart() && queue.Valid()
      ensures rest == Without(old(rest), k) && node.prev == Out && !tailMoved
      ensures queue.head == old(queue.head) && queue.tail == old(queue.tail) && queue.nodes == old(queue.nodes)
    {
      ghost var live := queue.nodes;
      tailMoved := CutFromRing(node, newState, k);
      forall i ensures Linked(live, i) { assert old(Linked(live, i)); }
    }

    method CutFromRing(node: NodeLink, newState: nat, ghost k: nat) returns (tailMoved: bool)
      requires Ring() && k < |rest| && rest[k] == node
      modifies this, sentinel, rest, queue`head, queue`tail
      ensures Ring() && rest == Without(old(rest), k) && node.prev == Out && !tailMoved
      ensures queue.head == old(queue.head) && queue.tail == old(queue.tail)
    {
      ghost var before := rest;
      assert Linked(before, k) && Linked(before, k - 1);
      tailMoved := queue.Splice(node, newState, node.prev);
      rest := Without(rest, k);
      forall i ensures Linked(rest, i) {
        assert old(Linked(before, i)) && old(Linked(before, i + 1));
      }
    }

    /** While the ring is tied the queue goes on living: what happens there leaves the ring
        alone, and a node that was drained cannot be enqueued again before it is out. */
    method EnqueueMeanwhile(node: NodeLink) returns (ok: bool)
      requires Ring() && Apart() && queue.Valid() && node != sentinel
      requires node !in queue.nodes && node.prev == Free && node.next == null
      modifies queue, node, queue.nodes
      ensures Ring() && Apart() && queue.Valid() && ok
      ensures rest == old(rest) && queue.nodes == old(queue.nodes) + [node]
    {
      assert node !in rest by {
        forall i | 0 <= i < |rest| ensures rest[i] != node { assert Linked(rest, i - 1); }
      }
      ok := queue.Enqueue(node, _ => true);
      forall i ensures Linked(rest, i) { assert old(Linked(rest, i)); }
    }

    method DequeueMeanwhile(newState: nat) returns (node: NodeLink?, emptied: bool)
      requires Ring() && Apart() && queue.Valid()
      modifies queue, queue.nodes
      ensures Ring() && Apart() && queue.Valid() && rest == old(rest)
      ensures old(queue.nodes) != [] ==> node == old(queue.nodes)[0] && queue.nodes == old(queue.nodes)[1..]
      ensures old(queue.nodes) == [] ==> node == null && queue.nodes == []
    {
      node, emptied := queue.Dequeue(newState);
      forall i ensures Linked(rest, i) { assert old(Linked(rest, i)); }
    }
  }

  /** `Drop for Drain`: whatever is left is handed out to nobody, in order, and is free to go. */
  method Finish(d: Drain)
    requires d.Open() && d.Apart()
    modifies d, d.sentinel, d.rest
    ensures d.Open() && d.Apart() && d.rest == []
    ensures forall n :: n in old(d.rest) ==> n.prev == Out
  {
    ghost var all := d.rest;
    ghost var k := 0;
    while d.sentinel.next != null
      invariant d.Open() && d.Apart()
      invariant k <= |all| && d.rest == all[k..]
      invariant AQ.NoDup(all) && forall i :: 0 <= i < k ==> all[i].prev == Out
      decreases |d.rest|
    {
      var n := d.Next();
      k := k + 1;
    }
  }
}
