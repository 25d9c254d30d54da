/** The retry timer bounds how long a wakeup caused by an expiring cooldown can be late. */
module Timers {
  import opened Policy
  import opened Index
  import opened Selection
  import opened Scheduler
  import opened Conservation
  import opened Steps

  ghost predicate QueueTimed(queue: seq<Waiter>, now: int) {
    forall k :: 0 <= k < |queue| ==> queue[k].awake || now <= queue[k].deadline <= now + 250
  }

  /** Every queued request is out of its select or will be within one retry period. */
  ghost predicate Timed(s: System) {
    forall r :: 0 <= r < |s.routers| ==> QueueTimed(s.routers[r].queue, s.now)
  }

  lemma SetQueueTimed(s: System, r: nat, queue: seq<Waiter>)
    requires Timed(s) && r < |s.routers| && QueueTimed(queue, s.now)
    ensures Timed(SetQueue(s, r, queue))
  {
    hide QueueTimed;
  }

  lemma SignalTimed(s: System, r: nat)
    requires Formed(s) && Timed(s) && r < |s.routers|
    ensures Timed(Signal(s, r))
  {
    hide Formed, SignalQueue;
    SignalQueueKeeps(At(s, r), s.now, QueueOf(s, r));
    SetQueueTimed(s, r, SignalQueue(At(s, r), s.now, QueueOf(s, r)));
  }

  lemma LeaveTimed(s: System, r: nat, k: nat)
    requires Inv(s) && Timed(s) && r < |s.routers| && k < |QueueOf(s, r)|
    ensures Timed(Leave(s, r, k))
  {
    hide Conserved, Wired, Bounded, Formed, Signal;
    WithoutKeeps(s, r, k);
    SetQueueTimed(s, r, Without(QueueOf(s, r), k));
    SignalTimed(SetQueue(s, r, Without(QueueOf(s, r), k)), r);
  }

  lemma SameRoutersTimed(s: System, s': System)
    requires Timed(s) && s'.now == s.now && |s'.routers| == |s.routers|
    requires forall r :: 0 <= r < |s.routers| ==> s'.routers[r].queue == s.routers[r].queue
    ensures Timed(s')
  {
    hide QueueTimed;
  }

  lemma GrantTimed(s: System, idx: nat, q: Query)
    requires s.current < |s.routers| && Timed(s) && Grantable(s, s.routers[s.current].link, idx)
    ensures Timed(Grant(s, s.current, idx, q)) && |Grant(s, s.current, idx, q).routers| == |s.routers|
    ensures QueueOf(Grant(s, s.current, idx, q), s.current) == QueueOf(s, s.current)
  {
    SameRoutersTimed(s, Grant(s, s.current, idx, q));
  }

  lemma ArriveTimed(s: System, r: nat, thread: nat, q: Query, cancelled: bool)
    requires Inv(s) && Timed(s) && Enabled(s, Arrive(r, thread, q, cancelled))
    ensures Timed(Arrived(s, r, thread, q, cancelled))
  {
    hide Conserved, Wired, Bounded, LinkOk, Judge, Grant;
    match Judge(s, r, q, cancelled, |QueueOf(s, r)|)
    case Granted(idx) =>
      JudgedGrantable(s, r, q, cancelled, |QueueOf(s, r)|);
      GrantTimed(s, idx, q);
    case GiveUp =>
    case Stay =>
      SetQueueTimed(s, r, QueueOf(s, r) + [Waiter(thread, q, false, false, false, s.now + RETRY_MS)]);
  }

  lemma ResumeTimed(s: System, r: nat, k: nat)
    requires Inv(s) && Timed(s) && r < |s.routers| && k < |QueueOf(s, r)|
    ensures Timed(Resumed(s, r, k))
  {
    hide Conserved, Wired, Bounded, LinkOk, Judge, Grant, Leave;
    var w := QueueOf(s, r)[k];
    match Judge(s, r, w.query, w.cancelled, k)
    case Granted(idx) =>
      JudgedGrantable(s, r, w.query, w.cancelled, k);
      GrantKeeps(s, idx, w.query);
      GrantTimed(s, idx, w.query);
      LeaveTimed(Grant(s, r, idx, w.query), r, k);
    case GiveUp => LeaveTimed(s, r, k);
    case Stay => SetQueueTimed(s, r, QueueOf(s, r)[k := w.(awake := false, deadline := s.now + RETRY_MS)]);
  }

  lemma ReleaseTimed(s: System, id: nat, o: Outcome)
    requires Inv(s) && Timed(s) && o.elapsed >= 0.0
    ensures Timed(Released(s, id, o))
  {
    hide Conserved, Wired, Bounded, LinkOk, Signal, Timed;
    if id in s.leases {
      ReleaseKeeps(s, id, o);
      SameRoutersTimed(s, Returned(s, id, o));
      SignalTimed(Returned(s, id, o), s.current);
    }
  }

  lemma ToggleTimed(s: System, id: string, on: bool)
    requires Inv(s) && Timed(s)
    ensures Timed(Toggled(s, id, on))
  {
    hide Conserved, Wired, Bounded, LinkOk, Signal, Timed;
    SwitchKeeps(s, id, on);
    SameRoutersTimed(s, Switched(s, id, on));
    SignalTimed(Switched(s, id, on), s.current);
  }

  lemma SwapTimed(s: System, table: Table)
    requires Inv(s) && Timed(s) && Adoptable(s, table)
    ensures Timed(Swapped(s, table))
  {
    hide Conserved, Wired, Bounded, LinkOk, Linked, Compiled;
    var s' := Swapped(s, table);
    forall r | 0 <= r < |s'.routers|
      ensures QueueTimed(s'.routers[r].queue, s'.now)
    {
      assert r < |s.routers| ==> QueueTimed(s.routers[r].queue, s.now);
    }
  }

  lemma AdoptTimed(s: System, table: Table)
    requires Inv(s) && Timed(s) && Adoptable(s, table)
    ensures Timed(Replaced(s, table))
  {
    hide Conserved, Wired, Bounded, LinkOk, Signal, Swapped, Timed;
    SwapKeeps(s, table);
    SwapTimed(s, table);
    SignalTimed(Swapped(s, table), Swapped(s, table).current);
  }

  lemma TickTimed(s: System, now: int)
    requires Timed(s) && s.now <= now && TimersFire(s, now)
    ensures Timed(s.(now := now))
  {
    forall r | 0 <= r < |s.routers|
      ensures QueueTimed(s.routers[r].queue, now)
    {
      assert QueueTimed(s.routers[r].queue, s.now) && QueueReaches(s.routers[r].queue, now);
    }
  }

  /** Along every step, including clock ticks that end a cooldown without any signal, a sleeping
      request stays within one retry period of looking again. */
  lemma NextTimed(s: System, step: Step)
    requires Inv(s) && Timed(s) && Enabled(s, step)
    ensures Timed(Next(s, step))
  {
    hide Conserved, Wired, Bounded, Formed, Timed, QueueTimed, Arrived, Resumed, Released, Toggled, Replaced;
    match step
    case Arrive(r, thread, q, cancelled) => ArriveTimed(s, r, thread, q, cancelled);
    case Resume(r, k) => ResumeTimed(s, r, k);
    case Wake(r, k, consume) => EditTimed(s, r, k, QueueOf(s, r)[k].(awake := true, token := QueueOf(s, r)[k].token && !consume));
    case Cancel(r, k) => EditTimed(s, r, k, QueueOf(s, r)[k].(cancelled := true));
    case Release(id, o) => ReleaseTimed(s, id, o);
    case SetEnabled(id, on) => ToggleTimed(s, id, on);
    case Adopt(table) => AdoptTimed(s, table);
    case Tick(now) => TickTimed(s, now);
  }

  lemma EditTimed(s: System, r: nat, k: nat, w: Waiter)
    requires Timed(s) && r < |s.routers| && k < |QueueOf(s, r)|
    requires w.deadline == QueueOf(s, r)[k].deadline && (w.awake || w.awake == QueueOf(s, r)[k].awake)
    ensures Timed(SetWaiter(s, r, k, w))
  {
    assert QueueTimed(QueueOf(s, r), s.now);
    SetQueueTimed(s, r, QueueOf(s, r)[k := w]);
  }

  // ----- a sleeping request, followed through a run -----

  ghost predicate Asleep(w: Waiter, thread: nat, deadline: int) { w.thread == thread && !w.awake && w.deadline == deadline }

  ghost predicate QueueSleeps(queue: seq<Waiter>, thread: nat, deadline: int) {
    exists k :: 0 <= k < |queue| && Asleep(queue[k], thread, deadline)
  }

  /** The thread waits on router `r` in its select, with its timer set to `deadline`. */
  ghost predicate Sleeps(s: System, r: nat, thread: nat, deadline: int) {
    r < |s.routers| && QueueSleeps(s.routers[r].queue, thread, deadline)
  }

  /** The step takes the thread out of its select: by token, context or timer. */
  ghost predicate Wakes(s: System, step: Step, r: nat, thread: nat) {
    && step.Wake? && step.router == r && r < |s.routers| && step.k < |s.routers[r].queue|
    && s.routers[r].queue[step.k].thread == thread
  }

  /** Same threads, awake or not, with the same timers, apart from one that is replaced. */
  lemma SleepsThrough(queue: seq<Waiter>, queue': seq<Waiter>, thread: nat, deadline: int)
    requires QueueSleeps(queue, thread, deadline) && |queue'| >= |queue|
    requires forall k :: 0 <= k < |queue| && !queue[k].awake && queue[k].thread == thread ==>
      queue'[k].thread == queue[k].thread && !queue'[k].awake && queue'[k].deadline == queue[k].deadline
    ensures QueueSleeps(queue', thread, deadline)
  {
    var k :| 0 <= k < |queue| && Asleep(queue[k], thread, deadline);
    assert Asleep(queue'[k], thread, deadline);
  }

  lemma WithoutSleeps(queue: seq<Waiter>, k: nat, thread: nat, deadline: int)
    requires QueueSleeps(queue, thread, deadline) && k < |queue| && queue[k].awake
    ensures QueueSleeps(Without(queue, k), thread, deadline)
  {
    var j :| 0 <= j < |queue| && Asleep(queue[j], thread, deadline);
    var rest := Without(queue, k);
    assert Asleep(rest[if j < k then j else j - 1], thread, deadline);
  }

  lemma SetQueueSleeps(s: System, at: nat, queue: seq<Waiter>, r: nat, thread: nat, deadline: int)
    requires Sleeps(s, r, thread, deadline) && at < |s.routers| && (at == r ==> QueueSleeps(queue, thread, deadline))
    ensures Sleeps(SetQueue(s, at, queue), r, thread, deadline)
  {
    hide QueueSleeps;
  }

  lemma SignalSleeps(s: System, at: nat, r: nat, thread: nat, deadline: int)
    requires Formed(s) && Sleeps(s, r, thread, deadline) && at < |s.routers|
    ensures Sleeps(Signal(s, at), r, thread, deadline)
  {
    hide Formed, SignalQueue, QueueSleeps;
    var queue := SignalQueue(At(s, at), s.now, QueueOf(s, at));
    SignalQueueKeeps(At(s, at), s.now, QueueOf(s, at));
    if at == r {
      SleepsThrough(QueueOf(s, r), queue, thread, deadline);
    }
    SetQueueSleeps(s, at, queue, r, thread, deadline);
  }

  lemma SameQueuesSleep(s: System, s': System, r: nat, thread: nat, deadline: int)
    requires Sleeps(s, r, thread, deadline) && |s'.routers| == |s.routers|
    requires forall x :: 0 <= x < |s.routers| ==> s'.routers[x].queue == s.routers[x].queue
    ensures Sleeps(s', r, thread, deadline)
  {
    hide QueueSleeps;
  }

  lemma LeaveSleeps(s: System, at: nat, k: nat, r: nat, thread: nat, deadline: int)
    requires Inv(s) && Sleeps(s, r, thread, deadline) && at < |s.routers| && k < |QueueOf(s, at)| && QueueOf(s, at)[k].awake
    ensures Sleeps(Leave(s, at, k), r, thread, deadline)
  {
    hide Conserved, Wired, Bounded, Formed, Signal, QueueSleeps;
    WithoutKeeps(s, at, k);
    if at == r {
      WithoutSleeps(QueueOf(s, r), k, thread, deadline);
    }
    SetQueueSleeps(s, at, Without(QueueOf(s, at), k), r, thread, deadline);
    SignalSleeps(SetQueue(s, at, Without(QueueOf(s, at), k)), at, r, thread, deadline);
  }

  lemma GrantSleeps(s: System, idx: nat, q: Query, r: nat, thread: nat, deadline: int)
    requires s.current < |s.routers| && Sleeps(s, r, thread, deadline) && Grantable(s, s.routers[s.current].link, idx)
    ensures var s' := Grant(s, s.current, idx, q);
      Sleeps(s', r, thread, deadline) && |s'.routers| == |s.routers| && QueueOf(s', s.current) == QueueOf(s, s.current)
  {
    SameQueuesSleep(s, Grant(s, s.current, idx, q), r, thread, deadline);
  }

  lemma ArriveSleeps(s: System, at: nat, newcomer: nat, q: Query, cancelled: bool, r: nat, thread: nat, deadline: int)
    requires Inv(s) && Sleeps(s, r, thread, deadline) && Enabled(s, Arrive(at, newcomer, q, cancelled))
    ensures Sleeps(Arrived(s, at, newcomer, q, cancelled), r, thread, deadline)
  {
    hide Conserved, Wired, Bounded, LinkOk, Judge, Grant, QueueSleeps;
    match Judge(s, at, q, cancelled, |QueueOf(s, at)|)
    case Granted(idx) =>
      JudgedGrantable(s, at, q, cancelled, |QueueOf(s, at)|);
      GrantSleeps(s, idx, q, r, thread, deadline);
    case GiveUp =>
    case Stay =>
      var queue := QueueOf(s, at) + [Waiter(newcomer, q, false, false, false, s.now + RETRY_MS)];
      if at == r {
        SleepsThrough(QueueOf(s, r), queue, thread, deadline);
      }
      SetQueueSleeps(s, at, queue, r, thread, deadline);
  }

  lemma ResumeSleeps(s: System, at: nat, k: nat, r: nat, thread: nat, deadline: int)
    requires Inv(s) && Sleeps(s, r, thread, deadline) && Enabled(s, Resume(at, k))
    ensures Sleeps(Resumed(s, at, k), r, thread, deadline)
  {
    hide Conserved, Wired, Bounded, LinkOk, Judge, Grant, Leave, QueueSleeps;
    var w := QueueOf(s, at)[k];
    match Judge(s, at, w.query, w.cancelled, k)
    case Granted(idx) =>
      JudgedGrantable(s, at, w.query, w.cancelled, k);
      GrantKeeps(s, idx, w.query);
      GrantSleeps(s, idx, w.query, r, thread, deadline);
      LeaveSleeps(Grant(s, at, idx, w.query), at, k, r, thread, deadline);
    case GiveUp => LeaveSleeps(s, at, k, r, thread, deadline);
    case Stay => EditSleeps(s, at, k, w.(awake := false, deadline := s.now + RETRY_MS), r, thread, deadline);
  }

  ghost predicate StaysAsleep(w: Waiter, w': Waiter) { w'.thread == w.thread && !w'.awake && w'.deadline == w.deadline }

  /** Changing an awake waiter, or one that keeps sleeping. */
  lemma EditSleeps(s: System, at: nat, k: nat, w: Waiter, r: nat, thread: nat, deadline: int)
    requires Sleeps(s, r, thread, deadline) && at < |s.routers| && k < |QueueOf(s, at)|
    requires at != r || QueueOf(s, at)[k].thread != thread || QueueOf(s, at)[k].awake || StaysAsleep(QueueOf(s, at)[k], w)
    ensures Sleeps(SetWaiter(s, at, k, w), r, thread, deadline)
  {
    hide QueueSleeps;
    if at == r {
      SleepsThrough(QueueOf(s, r), QueueOf(s, r)[k := w], thread, deadline);
    }
    SetQueueSleeps(s, at, QueueOf(s, at)[k := w], r, thread, deadline);
  }

  lemma ReleaseSleeps(s: System, id: nat, o: Outcome, r: nat, thread: nat, deadline: int)
    requires Inv(s) && Sleeps(s, r, thread, deadline) && o.elapsed >= 0.0
    ensures Sleeps(Released(s, id, o), r, thread, deadline)
  {
    hide Conserved, Wired, Bounded, LinkOk, Signal, Sleeps;
    if id in s.leases {
      ReleaseKeeps(s, id, o);
      SameQueuesSleep(s, Returned(s, id, o), r, thread, deadline);
      SignalSleeps(Returned(s, id, o), s.current, r, thread, deadline);
    }
  }

  lemma ToggleSleeps(s: System, id: string, on: bool, r: nat, thread: nat, deadline: int)
    requires Inv(s) && Sleeps(s, r, thread, deadline)
    ensures Sleeps(Toggled(s, id, on), r, thread, deadline)
  {
    hide Conserved, Wired, Bounded, LinkOk, Signal, Sleeps;
    SwitchKeeps(s, id, on);
    SameQueuesSleep(s, Switched(s, id, on), r, thread, deadline);
    SignalSleeps(Switched(s, id, on), s.current, r, thread, deadline);
  }

  lemma SwapSleeps(s: System, table: Table, r: nat, thread: nat, deadline: int)
    requires Inv(s) && Adoptable(s, table) && Sleeps(s, r, thread, deadline)
    ensures Sleeps(Swapped(s, table), r, thread, deadline)
  {
    hide Conserved, Wired, Bounded, LinkOk, Linked, Compiled, QueueSleeps;
    var s' := Swapped(s, table);
    SleepsThrough(s.routers[r].queue, s'.routers[r].queue, thread, deadline);
  }

  lemma AdoptSleeps(s: System, table: Table, r: nat, thread: nat, deadline: int)
    requires Inv(s) && Adoptable(s, table) && Sleeps(s, r, thread, deadline)
    ensures Sleeps(Replaced(s, table), r, thread, deadline)
  {
    hide Conserved, Wired, Bounded, LinkOk, Signal, Swapped, Sleeps;
    SwapKeeps(s, table);
    SwapSleeps(s, table, r, thread, deadline);
    SignalSleeps(Swapped(s, table), Swapped(s, table).current, r, thread, deadline);
  }

  /** Nothing but its own wakeup ends a request's sleep or moves its timer. */
  lemma NextSleeps(s: System, step: Step, r: nat, thread: nat, deadline: int)
    requires Inv(s) && Enabled(s, step) && Sleeps(s, r, thread, deadline) && !Wakes(s, step, r, thread)
    ensures Sleeps(Next(s, step), r, thread, deadline)
  {
    hide Conserved, Wired, Bounded, Formed, Sleeps, Arrived, Resumed, Released, Toggled, Replaced;
    match step
    case Arrive(at, newcomer, q, cancelled) => ArriveSleeps(s, at, newcomer, q, cancelled, r, thread, deadline);
    case Resume(at, k) => ResumeSleeps(s, at, k, r, thread, deadline);
    case Wake(at, k, consume) =>
      EditSleeps(s, at, k, QueueOf(s, at)[k].(awake := true, token := QueueOf(s, at)[k].token && !consume), r, thread, deadline);
    case Cancel(at, k) => CancelSleeps(s, at, k, r, thread, deadline);
    case Release(id, o) => ReleaseSleeps(s, id, o, r, thread, deadline);
    case SetEnabled(id, on) => ToggleSleeps(s, id, on, r, thread, deadline);
    case Adopt(table) => AdoptSleeps(s, table, r, thread, deadline);
    case Tick(now) => SameQueuesSleep(s, s.(now := now), r, thread, deadline);
  }

  lemma CancelSleeps(s: System, at: nat, k: nat, r: nat, thread: nat, deadline: int)
    requires Sleeps(s, r, thread, deadline) && at < |s.routers| && k < |QueueOf(s, at)|
    ensures Sleeps(Cancelled(s, at, k), r, thread, deadline)
  {
    hide QueueSleeps;
    var w := QueueOf(s, at)[k];
    EditSleeps(s, at, k, w.(cancelled := true), r, thread, deadline);
  }

  lemma SleepsIsTimed(s: System, r: nat, thread: nat, deadline: int)
    requires Timed(s) && Sleeps(s, r, thread, deadline)
    ensures s.now <= deadline <= s.now + 250
  {
    assert QueueTimed(s.routers[r].queue, s.now);
  }
}
