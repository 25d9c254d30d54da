/** The router object: chooser, capacity and wait queue put together into the holds of the mutex that
    the state machine takes as its steps. */
module Acquiring {
  import opened Policy
  import opened Index
  import opened Selection
  import opened Chooser
  import opened Scheduler
  import opened Conservation
  import opened Steps
  import opened Dispatching
  import opened WaitQueue
  import opened HotSwap

  datatype Answer = Leased(lease: Lease) | Refused | QueueFull | Waiting

  /** What the caller is told follows the ruling; a lease is the one that was added. */
  ghost predicate Tells(answer: Answer, ruling: Ruling, full: bool, s: System, s': System) {
    match ruling
    case Granted(_) => answer.Leased? && |s.log| in s'.leases && answer.lease == s'.leases[|s.log|]
    case GiveUp => answer == Refused
    case Stay => answer == if full then QueueFull else Waiting
  }

  class RouterObject {
    const capacity: Capacity
    const queue: Queue
    var link: Link
    var retired: bool
    var cursor: nat

    constructor (capacity: Capacity, link: Link)
      ensures this.capacity == capacity && this.link == link && !retired && cursor == 0
      ensures fresh(queue) && queue.Valid() && queue.nodes == []
    {
      this.capacity, this.link, this.retired, this.cursor := capacity, link, false, 0;
      this.queue := new Queue();
    }

    /** The object is router `r` of a consistent state: its own fields, the counters it points at and
        its queue. */
    ghost predicate Is(s: System, r: nat)
      reads this, capacity, queue, queue.nodes
    {
      && Inv(s) && r < |s.routers| && capacity.Holds(s)
      && link == s.routers[r].link && retired == s.routers[r].retired && cursor == s.routers[r].cursor
      && queue.Valid() && Waiters(queue.nodes) == s.routers[r].queue
    }

    /** Everything the chooser reads, through the pointers. */
    method Snapshot(ghost s: System, ghost r: nat) returns (v: View)
      requires Is(s, r)
      ensures v == At(s, r)
    {
      hide Conserved, Wired, Bounded, Compiled, CellsOk;
      var k, n := link, |link.stateRefs|;
      var states, quotas, accounts := capacity.states, capacity.quotas, capacity.accounts;
      v := View(k.table, retired, cursor, capacity.active,
        seq(n, i requires 0 <= i < n => states[k.stateRefs[i]]),
        seq(n, i requires 0 <= i < n => quotas[k.quotaRefs[i]]),
        seq(n, i requires 0 <= i < n => if k.accountRefs[i].Some? then Some(accounts[k.accountRefs[i].value]) else None));
    }

    /** What one hold decides for a query with the waiters before `node` ahead; without a node, all. */
    method Rule(q: Query, cancelled: bool, node: Node?, now: int, ghost s: System, ghost r: nat) returns (ruling: Ruling)
      requires Is(s, r) && now == s.now
      ensures ruling == Judge(s, r, q, cancelled, Place(queue.nodes, node))
    {
      hide Inv, Choose, Shaped, Sane, Turn, Compiled;
      InvForms(s);
      if cancelled {
        return GiveUp;
      }
      var v := Snapshot(s, r);
      var best, eligible := ChooseTarget(v, q, now);
      if best >= 0 {
        var mine := queue.IsTurn(v, now, node);
        if mine {
          return Granted(best);
        }
      }
      ruling := if eligible then Stay else GiveUp;
    }

    /** Take the chosen target's slots and advance the rotation. */
    method Grab(idx: nat, ghost q: Query, ghost s: System, ghost r: nat) returns (lease: Lease)
      requires Is(s, r) && r == s.current && CanGrant(s, idx) && Grantable(s, s.routers[r].link, idx)
      modifies this`cursor, capacity
      ensures Is(Grant(s, r, idx, q), r) && |s.log| in Grant(s, r, idx, q).leases && lease == Grant(s, r, idx, q).leases[|s.log|]
    {
      hide Inv, Grantable, CanGrant;
      lease := capacity.Take(link, idx, s, r, q);
      cursor := cursor + 1;
      GrantInv(s, idx, q);
      GrantRouter(s, r, idx, q);
    }

    /** Join the tail of the queue. */
    method Park(thread: nat, q: Query, now: int, ghost s: System, ghost r: nat)
      requires Is(s, r) && Inv(SetQueue(s, r, QueueOf(s, r) + [Waiter(thread, q, false, false, false, now + RETRY_MS)]))
      modifies queue, queue.nodes
      ensures Is(SetQueue(s, r, QueueOf(s, r) + [Waiter(thread, q, false, false, false, now + RETRY_MS)]), r)
    {
      hide Inv;
      var node := queue.Enqueue(Waiter(thread, q, false, false, false, now + RETRY_MS));
    }

    /** The first hold of Acquire. */
    method Arrive(thread: nat, q: Query, cancelled: bool, now: int, ghost s: System, ghost r: nat) returns (outcome: Answer)
      requires Is(s, r) && now == s.now && s.current < |s.routers| && Enabled(s, Step.Arrive(r, thread, q, cancelled))
      modifies this`cursor, capacity, queue, queue.nodes
      ensures Is(Arrived(s, r, thread, q, cancelled), r)
      ensures Tells(outcome, Judge(s, r, q, cancelled, |QueueOf(s, r)|),
        |QueueOf(s, r)| >= s.routers[r].link.table.cfg.maxQueued, s, Arrived(s, r, thread, q, cancelled))
    {
      hide Inv, Enabled, Judge, Grant, Grantable, CanGrant, Arrived, SetQueue;
      ArriveKeeps(s, r, thread, q, cancelled);
      ArrivedCases(s, r, thread, q, cancelled);
      NullPlace(queue.nodes);
      var ruling := Rule(q, cancelled, null, now, s, r);
      match ruling {
        case Granted(idx) =>
          JudgedGrantable(s, r, q, cancelled, |QueueOf(s, r)|);
          var lease := Grab(idx, q, s, r);
          return Leased(lease);
        case GiveUp => return Refused;
        case Stay =>
          if queue.waiting >= link.table.cfg.maxQueued {
            return QueueFull;
          }
          Park(thread, q, now, s, r);
          return Waiting;
      }
    }

    /** Hand the token to the first waiter that must be woken. */
    method Pass(now: int, ghost s: System, ghost r: nat)
      requires Is(s, r) && now == s.now
      modifies queue.nodes
      ensures Formed(s) && Is(Signal(s, r), r)
    {
      hide Inv, SignalQueue, Sane, Shaped, Choose, Compiled, LinkOk, CellsOk;
      InvForms(s);
      SignalInv(s, r);
      var v := Snapshot(s, r);
      queue.Signal(v, now);
    }

    method Unqueue(node: Node, ghost s: System, ghost r: nat, ghost k: nat)
      requires Is(s, r) && k < |queue.nodes| && queue.nodes[k] == node && k < |QueueOf(s, r)|
      modifies queue, queue.nodes
      ensures Is(SetQueue(s, r, Without(QueueOf(s, r), k)), r)
      ensures forall i :: 0 <= i < |queue.nodes| ==> queue.nodes[i] in old(queue.nodes)
    {
      hide Inv, Without;
      WithoutKeeps(s, r, k);
      NodePlace(queue.nodes, k);
      WithoutMembers(queue.nodes, k);
      queue.RemoveWaiter(node);
    }

    /** Leave the queue and pass the baton. */
    method Depart(node: Node, now: int, ghost s: System, ghost r: nat, ghost k: nat)
      requires Is(s, r) && now == s.now && k < |queue.nodes| && queue.nodes[k] == node && k < |QueueOf(s, r)|
      modifies queue, queue.nodes
      ensures Is(Leave(s, r, k), r)
    {
      hide Inv, Signal, Without, Is;
      IsInv(s, r);
      Unqueue(node, s, r, k);
      assert forall i :: 0 <= i < |queue.nodes| ==> queue.nodes[i] in old(queue.nodes);
      assert forall i :: 0 <= i < |queue.nodes| ==> exists j :: 0 <= j < |old(queue.nodes)| && queue.nodes[i] == old(queue.nodes)[j];
      Pass(now, SetQueue(s, r, Without(QueueOf(s, r), k)), r);
    }

    lemma IsInv(s: System, r: nat)
      requires Is(s, r)
      ensures Inv(s) && r < |s.routers| && queue.Valid() && |queue.nodes| == |s.routers[r].queue|
    {
      hide Inv;
    }

    /** Go back to sleep with a fresh timer. */
    method Sleep(node: Node, now: int, ghost s: System, ghost r: nat, ghost k: nat)
      requires Is(s, r) && k < |queue.nodes| && queue.nodes[k] == node && k < |QueueOf(s, r)|
      requires Inv(SetWaiter(s, r, k, QueueOf(s, r)[k].(awake := false, deadline := now + RETRY_MS)))
      modifies queue.nodes
      ensures Is(SetWaiter(s, r, k, QueueOf(s, r)[k].(awake := false, deadline := now + RETRY_MS)), r)
    {
      hide Inv;
      queue.Replace(node, node.waiter.(awake := false, deadline := now + RETRY_MS), k);
    }

    method GrabAndDepart(node: Node, idx: nat, now: int, ghost q: Query, ghost s: System, ghost r: nat, ghost k: nat) returns (lease: Lease)
      requires Is(s, r) && now == s.now && k < |queue.nodes| && queue.nodes[k] == node && k < |QueueOf(s, r)|
      requires r == s.current && CanGrant(s, idx) && Grantable(s, s.routers[r].link, idx) && Inv(Grant(s, r, idx, q))
      requires r < |Grant(s, r, idx, q).routers| && k < |QueueOf(Grant(s, r, idx, q), r)|
      modifies this`cursor, capacity, queue, queue.nodes
      ensures Is(Leave(Grant(s, r, idx, q), r, k), r)
      ensures |s.log| in Grant(s, r, idx, q).leases && lease == Grant(s, r, idx, q).leases[|s.log|]
    {
      hide Inv, Grant, Grantable, CanGrant, Leave, Is;
      IsInv(s, r);
      GrantClock(s, r, idx, q);
      lease := Grab(idx, q, s, r);
      Depart(node, now, Grant(s, r, idx, q), r, k);
    }

    /** A later hold of Acquire, for a waiter that left its select. */
    method Resume(node: Node, now: int, ghost s: System, ghost r: nat, ghost k: nat) returns (outcome: Answer)
      requires Is(s, r) && now == s.now && k < |queue.nodes| && queue.nodes[k] == node && k < |QueueOf(s, r)|
      modifies this`cursor, capacity, queue, queue.nodes
      ensures Is(Resumed(s, r, k), r)
      ensures Tells(outcome, Judge(s, r, QueueOf(s, r)[k].query, QueueOf(s, r)[k].cancelled, k), false, s, Resumed(s, r, k))
    {
      hide Inv, Judge, Grant, Grantable, CanGrant, Resumed, SetWaiter, Leave;
      ResumeKeeps(s, r, k);
      ResumedCases(s, r, k);
      NodePlace(queue.nodes, k);
      var w := node.waiter;
      var ruling := Rule(w.query, w.cancelled, node, now, s, r);
      match ruling {
        case Granted(idx) =>
          var lease := GrabAndDepart(node, idx, now, w.query, s, r, k);
          return Leased(lease);
        case GiveUp =>
          Depart(node, now, s, r, k);
          return Refused;
        case Stay =>
          Sleep(node, now, s, r, k);
          return Waiting;
      }
    }

    /** The hold of Release, on the router that is current by then. */
    method Release(lease: Lease, o: Outcome, now: int, ghost s: System, ghost id: nat)
      requires Is(s, s.current) && now == s.now && id in s.leases && s.leases[id] == lease && o.elapsed >= 0.0
      modifies capacity, queue.nodes
      ensures Is(Released(s, id, o), s.current) && Released(s, id, o).current == s.current
    {
      hide Inv, Signal, Returned, Released;
      ReturnedRouter(s, id, o);
      capacity.GiveBack(lease, now, o, s, id);
      Pass(now, Returned(s, id, o), s.current);
    }

    /** The hold of SetEnabled. */
    method SetEnabled(id: string, on: bool, now: int, ghost s: System) returns (found: bool)
      requires Is(s, s.current) && now == s.now
      modifies capacity, queue.nodes
      ensures found <==> id in Ids(link.table.cfg.sources)
      ensures Is(Toggled(s, id, on), s.current)
    {
      hide Inv, Signal, Switched, Toggled;
      ToggledRouter(s, id, on);
      found := capacity.Switch(link, id, on, s);
      if found {
        Pass(now, Switched(s, id, on), s.current);
      }
    }

    /** Hand the counters over, retire and wake the queue. */
    method StepDown(table: Table, ghost s: System) returns (linked: Link)
      requires Is(s, s.current) && Adoptable(s, table)
      modifies this`retired, capacity, queue.nodes
      ensures Is(Swapped(s, table), s.current) && s.current != Swapped(s, table).current
      ensures linked == Swapped(s, table).routers[Swapped(s, table).current].link
    {
      hide Inv, Signal, Swapped, Replaced, Compiled, Conserved, SameCounters, WakeAll, Adoptable;
      ReplacedRouters(s, table);
      Quit();
      linked := capacity.Adopt(table, s);
    }

    method Quit()
      requires queue.Valid()
      modifies this`retired, queue.nodes
      ensures retired && queue.Valid() && Waiters(queue.nodes) == WakeAll(old(Waiters(queue.nodes)))
    {
      retired := true;
      queue.WakeEveryone();
    }

    /** The hold of Adopt; the next router is signalled last. */
    method Adopt(table: Table, now: int, ghost s: System) returns (next: RouterObject)
      requires Is(s, s.current) && now == s.now && Adoptable(s, table)
      modifies this`retired, capacity, queue.nodes
      ensures fresh(next) && fresh(next.queue) && next.capacity == capacity
      ensures next.Is(Replaced(s, table), Replaced(s, table).current) && Is(Replaced(s, table), s.current)
    {
      hide Inv, Signal, Swapped, Replaced, Adoptable, SameCounters, Is;
      IsInv(s, s.current);
      ReplacedRouters(s, table);
      var linked := StepDown(table, s);
      StaysItself(Swapped(s, table), Replaced(s, table), s.current);
      IsHolds(Swapped(s, table), s.current);
      next := Succeed(capacity, linked, now, Swapped(s, table));
    }

    lemma IsHolds(s: System, r: nat)
      requires Is(s, r)
      ensures capacity.Holds(s) && Inv(s)
    {
      hide Inv;
    }

    /** Signalling another router's empty queue changes nothing here. */
    lemma StaysItself(s: System, s': System, r: nat)
      requires Is(s, r) && Inv(s') && s'.routers == s.routers && SameCounters(s, s')
      ensures Is(s', r)
    {
      hide Inv;
    }
  }

  /** The next router comes into force and is signalled. */
  method Succeed(capacity: Capacity, linked: Link, now: int, ghost s: System) returns (next: RouterObject)
    requires capacity.Holds(s) && Inv(s) && now == s.now && s.current < |s.routers| && s.routers[s.current] == Router(linked, false, 0, [])
    ensures fresh(next) && fresh(next.queue) && next.capacity == capacity
    ensures Formed(s) && next.Is(Signal(s, s.current), s.current)
  {
    hide Inv, Signal;
    next := new RouterObject(capacity, linked);
    next.Pass(now, s, s.current);
  }

  lemma ToggledRouter(s: System, id: string, on: bool)
    requires Inv(s)
    ensures var kept := Inv(Switched(s, id, on)); kept
    ensures Formed(Switched(s, id, on))
    ensures var s' := Switched(s, id, on);
      && s'.now == s.now && s'.current == s.current && s'.routers == s.routers
      && Toggled(s, id, on) == if id in Ids(s.routers[s.current].link.table.cfg.sources) then Signal(s', s'.current) else s'
  {
    hide Conserved, Wired, Bounded, LinkOk, CellsOk, Signal;
    SwitchKeeps(s, id, on);
  }

  lemma ReplacedRouters(s: System, table: Table)
    requires Inv(s) && Adoptable(s, table)
    ensures Conserved(s) && Compiled(table)
    ensures var kept := Inv(Swapped(s, table)) && Inv(Replaced(s, table)); kept
    ensures Formed(Swapped(s, table))
    ensures var s' := Swapped(s, table);
      && s'.now == s.now && s'.current == |s.routers| && |s'.routers| == |s.routers| + 1
      && s'.routers[s.current] == Retire(s.routers[s.current])
      && s'.routers[s'.current] == Router(s'.routers[s'.current].link, false, 0, [])
      && Replaced(s, table) == Signal(s', s'.current) && Replaced(s, table).current == s'.current
      && Replaced(s, table).routers == s'.routers && SameCounters(s', Replaced(s, table))
  {
    hide Wired, Bounded, LinkOk, CellsOk, Linked, Covers;
    SwapKeeps(s, table);
    ReplacedKeeps(s, table);
    var s' := Swapped(s, table);
    SignalCounters(s', s'.current);
    assert s'.routers[s'.current].queue == [];
    assert s'.routers[s'.current := s'.routers[s'.current].(queue := [])] == s'.routers;
  }

  lemma ArrivedCases(s: System, r: nat, thread: nat, q: Query, cancelled: bool)
    requires Inv(s) && r < |s.routers|
    ensures var s', ruling := Arrived(s, r, thread, q, cancelled), Judge(s, r, q, cancelled, |QueueOf(s, r)|);
      match ruling
      case Granted(idx) => Grantable(s, s.routers[r].link, idx) && s' == Grant(s, r, idx, q)
      case GiveUp => s' == s
      case Stay =>
        if |QueueOf(s, r)| >= s.routers[r].link.table.cfg.maxQueued then s' == s
        else s' == SetQueue(s, r, QueueOf(s, r) + [Waiter(thread, q, false, false, false, s.now + RETRY_MS)])
  {
    hide Inv, Judge, Grant, Grantable, SetQueue;
    InvForms(s);
    if Judge(s, r, q, cancelled, |QueueOf(s, r)|).Granted? {
      JudgedGrantable(s, r, q, cancelled, |QueueOf(s, r)|);
    }
  }

  lemma ResumedCases(s: System, r: nat, k: nat)
    requires Inv(s) && r < |s.routers| && k < |QueueOf(s, r)|
    ensures var s', w := Resumed(s, r, k), QueueOf(s, r)[k];
      match Judge(s, r, w.query, w.cancelled, k)
      case Granted(idx) =>
        && r == s.current && CanGrant(s, idx) && Grantable(s, s.routers[r].link, idx)
        && Inv(Grant(s, r, idx, w.query)) && r < |Grant(s, r, idx, w.query).routers| && k < |QueueOf(Grant(s, r, idx, w.query), r)|
        && s' == Leave(Grant(s, r, idx, w.query), r, k) && s'.leases == Grant(s, r, idx, w.query).leases
      case GiveUp => s' == Leave(s, r, k)
      case Stay => s' == SetWaiter(s, r, k, w.(awake := false, deadline := s.now + RETRY_MS))
  {
    hide Inv, Judge, Grant, Grantable, CanGrant, SetWaiter, Leave;
    InvForms(s);
    var w := QueueOf(s, r)[k];
    if Judge(s, r, w.query, w.cancelled, k).Granted? {
      var idx := Judge(s, r, w.query, w.cancelled, k).target;
      JudgedGrantable(s, r, w.query, w.cancelled, k);
      GrantInv(s, idx, w.query);
      GrantRouter(s, r, idx, w.query);
      LeaveCounters(Grant(s, r, idx, w.query), r, k);
    }
  }

  lemma GrantClock(s: System, r: nat, idx: nat, q: Query)
    requires r < |s.routers| && Grantable(s, s.routers[r].link, idx)
    ensures Grant(s, r, idx, q).now == s.now
  {
  }

  lemma ReturnedRouter(s: System, id: nat, o: Outcome)
    requires Inv(s) && id in s.leases && o.elapsed >= 0.0
    ensures LeaseInRange(s, s.leases[id])
    ensures var kept := Inv(Returned(s, id, o)); kept
    ensures Formed(Returned(s, id, o))
    ensures var s' := Returned(s, id, o);
      && s'.now == s.now && s'.current == s.current && s'.routers == s.routers
      && Released(s, id, o) == Signal(s', s'.current) && Released(s, id, o).current == s.current
  {
    hide Conserved, Wired, Bounded, LinkOk, CellsOk, SignalQueue, Sane, Shaped;
    ReleaseKeeps(s, id, o);
  }

  lemma SignalInv(s: System, r: nat)
    requires Inv(s) && r < |s.routers|
    ensures Formed(s)
    ensures var kept := Inv(Signal(s, r)); kept
  {
    hide Conserved, Wired, Bounded, LinkOk, CellsOk, Signal;
    SignalKeeps(s, r);
  }

  lemma WithoutMembers<T>(xs: seq<T>, k: nat)
    requires k < |xs|
    ensures forall x :: x in Without(xs, k) ==> x in xs
  {
  }

  lemma {:induction false} NodePlace(nodes: seq<Node>, k: nat)
    requires k < |nodes| && forall i, j :: 0 <= i < j < |nodes| ==> nodes[i] != nodes[j]
    ensures Place(nodes, nodes[k]) == k
  {
    if k > 0 {
      NodePlace(nodes[1..], k - 1);
    }
  }

  lemma InvForms(s: System)
    requires Inv(s)
    ensures Formed(s)
  {
  }

  lemma GrantInv(s: System, idx: nat, q: Query)
    requires CanGrant(s, idx)
    ensures Grantable(s, s.routers[s.current].link, idx)
    ensures var kept := Inv(Grant(s, s.current, idx, q)); kept
  {
    GrantKeeps(s, idx, q);
  }

  lemma GrantRouter(s: System, r: nat, idx: nat, q: Query)
    requires r < |s.routers| && Grantable(s, s.routers[r].link, idx)
    ensures var s' := Grant(s, r, idx, q);
      && r < |s'.routers| && s'.routers[r].link == s.routers[r].link && s'.routers[r].retired == s.routers[r].retired
      && s'.routers[r].cursor == s.routers[r].cursor + 1 && s'.routers[r].queue == s.routers[r].queue
  {
  }

  lemma {:induction false} NullPlace(nodes: seq<Node>)
    ensures Place(nodes, null) == |nodes|
  {
    if nodes != [] {
      NullPlace(nodes[1..]);
    }
  }
}
