/** The linked wait queue itself: head, tail and next pointers, refining a sequence of waiters. */
module WaitQueue {
  import opened Policy
  import opened Selection
  import opened Chooser
  import opened Scheduler

  class Node {
    var waiter: Waiter
    var next: Node?

    constructor (w: Waiter)
      ensures waiter == w && next == null
    {
      waiter := w;
      next := null;
    }
  }

  /** `nodes` chains from its first element to a last element without successor. */
  ghost predicate Chain(nodes: seq<Node>)
    reads nodes
  {
    && (forall i, j :: 0 <= i < j < |nodes| ==> nodes[i] != nodes[j])
    && (forall i :: 0 <= i < |nodes| - 1 ==> nodes[i].next == nodes[i+1])
    && (nodes != [] ==> nodes[|nodes|-1].next == null)
  }

  ghost function Waiters(nodes: seq<Node>): (q: seq<Waiter>)
    reads nodes
    ensures |q| == |nodes| && forall i :: 0 <= i < |nodes| ==> q[i] == nodes[i].waiter
  {
    seq(|nodes|, i requires 0 <= i < |nodes| reads nodes => nodes[i].waiter)
  }

  /** The position of a node, or the length when it is not queued. */
  ghost function Place(nodes: seq<Node>, target: Node?): (k: nat)
    ensures k <= |nodes| && (k < |nodes| ==> nodes[k] == target) && forall j :: 0 <= j < k ==> nodes[j] != target
  {
    if nodes == [] || nodes[0] == target then 0 else 1 + Place(nodes[1..], target)
  }

  method Servable(v: View, now: int, w: Waiter) returns (could: bool)
    requires Sane(v) && Shaped(v)
    ensures could <==> !w.cancelled && Choose(v, w.query, now).best >= 0
  {
    hide Choose, Sane, Shaped;
    if w.cancelled {
      return false;
    }
    var best, _ := ChooseTarget(v, w.query, now);
    could := best >= 0;
  }

  method MustWake(v: View, now: int, w: Waiter) returns (wake: bool)
    requires Sane(v) && Shaped(v)
    ensures wake <==> Actionable(v, now, w)
  {
    hide Choose, Sane, Shaped;
    var best, eligible := ChooseTarget(v, w.query, now);
    wake := w.cancelled || best >= 0 || !eligible;
  }

  class Queue {
    var head: Node?
    var tail: Node?
    var waiting: nat
    ghost var nodes: seq<Node>

    ghost predicate Valid()
      reads this, nodes
    {
      && Chain(nodes) && waiting == |nodes|
      && head == (if nodes == [] then null else nodes[0])
      && tail == (if nodes == [] then null else nodes[|nodes|-1])
    }

    constructor ()
      ensures Valid() && nodes == []
    {
      head, tail, waiting, nodes := null, null, 0, [];
    }

    method Enqueue(w: Waiter) returns (n: Node)
      requires Valid()
      modifies this, nodes
      ensures Valid() && fresh(n) && nodes == old(nodes) + [n]
      ensures Waiters(nodes) == old(Waiters(nodes)) + [w]
    {
      n := new Node(w);
      if tail == null {
        head := n;
      } else {
        tail.next := n;
      }
      tail, waiting, nodes := n, waiting + 1, nodes + [n];
    }

    /** Unlink the node at position `k`, whose predecessor is known. */
    method Unlink(previous: Node?, w: Node, ghost k: nat)
      requires Valid() && k < |nodes| && w == nodes[k] && previous == (if k == 0 then null else nodes[k-1])
      modifies this, nodes
      ensures Valid() && nodes == Without(old(nodes), k)
      ensures forall n :: n in old(nodes) ==> n.waiter == old(n.waiter)
    {
      if previous == null {
        head := w.next;
      } else {
        previous.next := w.next;
      }
      if tail == w {
        tail := previous;
      }
      waiting := waiting - 1;
      nodes := Without(nodes, k);
    }

    /** The node's predecessor, when it is queued. */
    method Find(target: Node) returns (previous: Node?, found: bool)
      requires Valid()
      ensures var k := Place(nodes, target);
        (found <==> k < |nodes|) && (found ==> previous == if k == 0 then null else nodes[k-1])
    {
      var w := head;
      previous, found := null, false;
      ghost var k := 0;
      while w != null
        invariant k <= |nodes| && w == (if k < |nodes| then nodes[k] else null)
        invariant previous == (if k == 0 then null else nodes[k-1])
        invariant forall j :: 0 <= j < k ==> nodes[j] != target
        decreases |nodes| - k
      {
        if w == target {
          return previous, true;
        }
        previous, w, k := w, w.next, k + 1;
      }
    }

    /** Unlinks exactly its target and keeps the order of the rest; a node that is not queued
        changes nothing. */
    method RemoveWaiter(target: Node)
      requires Valid()
      modifies this, nodes
      ensures Valid()
      ensures var k := Place(old(nodes), target);
        if k == |old(nodes)| then nodes == old(nodes) && Waiters(nodes) == old(Waiters(nodes))
        else nodes == Without(old(nodes), k) && Waiters(nodes) == Without(old(Waiters(nodes)), k)
    {
      var previous, found := Find(target);
      if found {
        ghost var k, were := Place(nodes, target), Waiters(nodes);
        Unlink(previous, target, k);
        assert forall i :: 0 <= i < |nodes| ==> nodes[i].waiter == Without(were, k)[i];
      }
    }

    /** Whether nobody ahead of `current` could be served; with no `current`, nobody at all. */
    method IsTurn(v: View, now: int, current: Node?) returns (mine: bool)
      requires Valid() && Sane(v) && Shaped(v)
      ensures mine == Turn(v, now, Waiters(nodes), Place(nodes, current))
    {
      hide Choose, Shaped, Sane;
      var w := head;
      ghost var k := 0;
      while w != null && w != current
        invariant k <= |nodes| && w == (if k < |nodes| then nodes[k] else null)
        invariant forall j :: 0 <= j < k ==> nodes[j] != current
        invariant Turn(v, now, Waiters(nodes), k)
        decreases |nodes| - k
      {
        var could := Servable(v, now, w.waiter);
        if could {
          return false;
        }
        w, k := w.next, k + 1;
      }
      return true;
    }

    /** The first waiter that must be woken. */
    method FirstToWake(v: View, now: int) returns (w: Node?, ghost k: nat)
      requires Valid() && Sane(v) && Shaped(v)
      ensures k <= |nodes| && w == (if k < |nodes| then nodes[k] else null)
      ensures forall j :: 0 <= j < k ==> !Actionable(v, now, Waiters(nodes)[j])
      ensures k < |nodes| ==> Actionable(v, now, Waiters(nodes)[k])
    {
      hide Choose, Shaped, Sane, Actionable;
      w, k := head, 0;
      while w != null
        invariant k <= |nodes| && w == (if k < |nodes| then nodes[k] else null)
        invariant forall j :: 0 <= j < k ==> !Actionable(v, now, Waiters(nodes)[j])
        decreases |nodes| - k
      {
        var wake := MustWake(v, now, w.waiter);
        if wake {
          return;
        }
        w, k := w.next, k + 1;
      }
    }

    /** Change what one waiter holds: its token, its timer. */
    method Replace(node: Node, w: Waiter, ghost k: nat)
      requires Valid() && k < |nodes| && node == nodes[k]
      modifies nodes
      ensures Valid() && Waiters(nodes) == old(Waiters(nodes))[k := w]
    {
      node.waiter := w;
    }

    /** Hands the token to the first waiter that must be woken. */
    method Signal(v: View, now: int)
      requires Valid() && Sane(v) && Shaped(v)
      modifies nodes
      ensures Valid() && Waiters(nodes) == SignalQueue(v, now, old(Waiters(nodes)))
    {
      hide Choose, Shaped, Sane, SignalQueue, Actionable;
      ghost var queue := Waiters(nodes);
      var w, k := FirstToWake(v, now);
      assert forall j :: 0 <= j < k ==> !Actionable(v, now, queue[j]) by {
        forall j | 0 <= j < k ensures !Actionable(v, now, queue[j]) { assert queue[j] == Waiters(nodes)[j]; }
      }
      SignalSkips(v, now, queue, k);
      if w != null {
        Replace(w, w.waiter.(token := true), k);
      }
    }

    /** Wakes every waiter of a retired router. */
    method WakeEveryone()
      requires Valid()
      modifies nodes
      ensures Valid() && Waiters(nodes) == WakeAll(old(Waiters(nodes)))
    {
      ghost var queue := Waiters(nodes);
      var w := head;
      ghost var k := 0;
      while w != null
        invariant k <= |nodes| && w == (if k < |nodes| then nodes[k] else null)
        invariant Valid()
        invariant forall j :: 0 <= j < |nodes| ==> nodes[j].waiter == if j < k then queue[j].(token := true) else queue[j]
        decreases |nodes| - k
      {
        w.waiter := w.waiter.(token := true);
        w, k := w.next, k + 1;
      }
    }
  }

  /** The token goes to the first actionable waiter and to nobody else. */
  lemma {:induction false} SignalSkips(v: View, now: int, queue: seq<Waiter>, k: nat)
    requires Shaped(v) && k <= |queue|
    requires forall j :: 0 <= j < k ==> !Actionable(v, now, queue[j])
    ensures k == |queue| ==> SignalQueue(v, now, queue) == queue
    ensures k < |queue| && Actionable(v, now, queue[k]) ==> SignalQueue(v, now, queue) == queue[k := queue[k].(token := true)]
  {
    hide Choose, Shaped, Actionable;
    if k > 0 {
      SignalSkips(v, now, queue[1..], k - 1);
    }
  }
}
