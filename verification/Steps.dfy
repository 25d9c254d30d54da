/** The steps of the scheduler and what every step keeps. */
module Steps {
  import opened Policy
  import opened Index
  import opened Selection
  import opened Choosing
  import opened Counters
  import opened Scheduler
  import opened Conservation

  // ----- the hot swap, assembled -----

  lemma AdoptLink(s: System, table: Table)
    requires Conserved(s) && Compiled(table)
    ensures var s1 := FreshCells(Relink(s, table.cfg), table);
      Covers(table.cfg, s1.stateOf, s1.quotaOf, s1.accountOf)
      && LinkOk(Linked(table, s1.stateOf, s1.quotaOf, s1.accountOf), |s1.states|, |s1.quotas|, |s1.accounts|)
  {
    hide Compiled, Counts;
    RelinkConserves(s, table);
    var s1 := FreshCells(Relink(s, table.cfg), table);
    LinkedOk(table, s1.stateOf, s1.quotaOf, s1.accountOf, |s1.states|, |s1.quotas|, |s1.accounts|);
  }

  /** Relink, refresh and install; the source's `Adopt` before its final signal. */
  ghost function Swapped(s: System, table: Table): System
    requires Conserved(s) && Compiled(table) && s.current < |s.routers|
  {
    AdoptLink(s, table);
    var s1 := FreshCells(Relink(s, table.cfg), table);
    var k := Linked(table, s1.stateOf, s1.quotaOf, s1.accountOf);
    Install(Refresh(s1, k), Router(k, false, 0, []))
  }

  /** The Runtime limits are pinned at startup, so every generation shares them. */
  ghost predicate Adoptable(s: System, table: Table)
    requires s.current < |s.routers|
  {
    var c := s.routers[s.current].link.table.cfg;
    Compiled(table) && table.cfg.maxInflight == c.maxInflight && table.cfg.maxQueued == c.maxQueued
  }

  lemma LinkGrows(k: Link, ns: nat, nq: nat, na: nat, ns': nat, nq': nat, na': nat)
    requires LinkOk(k, ns, nq, na) && ns <= ns' && nq <= nq' && na <= na'
    ensures LinkOk(k, ns', nq', na')
  {
    hide Compiled;
  }

  lemma FreshCellsOk(cells: seq<SourceState>, sources: seq<Source>)
    requires CellsOk(cells)
    ensures CellsOk(cells + seq(|sources|, i requires 0 <= i < |sources| => FreshState(sources[i])))
  {
  }

  lemma WakeAllKeeps(queue: seq<Waiter>, limit: int)
    requires QueueOk(queue, limit)
    ensures QueueOk(WakeAll(queue), limit)
  {
  }

  /** A hot swap keeps every invariant: held counters survive, ids lead to them, and the next
      router points at them. */
  lemma SwapKeeps(s: System, table: Table)
    requires Inv(s) && Adoptable(s, table)
    ensures var kept := Inv(Swapped(s, table)); kept
  {
    hide StatesConserved, QuotasConserved, AccountsConserved, Compiled, LinkOk, Linked, Covers, QueueOk, CellsOk;
    var s1 := FreshCells(Relink(s, table.cfg), table);
    RelinkConserves(s, table);
    AdoptLink(s, table);
    FreshCellsOk(s.states, table.cfg.sources);
    var k := Linked(table, s1.stateOf, s1.quotaOf, s1.accountOf);
    RefreshConserves(s1, k);
    SwapForms(s, table);
    SwapWires(s, table);
  }

  lemma SwapForms(s: System, table: Table)
    requires Inv(s) && Adoptable(s, table)
    ensures var kept := Formed(Swapped(s, table)); kept
  {
    hide Conserved, Compiled, LinkOk, Linked, Covers, QueueOk, CellsOk;
    var s1 := FreshCells(Relink(s, table.cfg), table);
    RelinkConserves(s, table);
    AdoptLink(s, table);
    FreshCellsOk(s.states, table.cfg.sources);
    var k, s' := Linked(table, s1.stateOf, s1.quotaOf, s1.accountOf), Swapped(s, table);
    RefreshConserves(s1, k);
    forall r | 0 <= r < |s.routers|
      ensures s'.routers[r].link == s.routers[r].link && LinkOk(s'.routers[r].link, |s'.states|, |s'.quotas|, |s'.accounts|)
    {
      LinkGrows(s.routers[r].link, |s.states|, |s.quotas|, |s.accounts|, |s'.states|, |s'.quotas|, |s'.accounts|);
    }
  }

  lemma LinkedTable(table: Table, a: map<string, nat>, b: map<string, nat>, c: map<string, nat>)
    requires Covers(table.cfg, a, b, c)
    ensures Linked(table, a, b, c).table == table
  {
  }

  lemma SwapWires(s: System, table: Table)
    requires Inv(s) && Adoptable(s, table)
    ensures Swapped(s, table).current < |Swapped(s, table).routers|
    ensures var kept := Wired(Swapped(s, table)) && Bounded(Swapped(s, table)); kept
  {
    hide Conserved, Compiled, LinkOk, Linked, Covers, QueueOk, CellsOk;
    var s1 := FreshCells(Relink(s, table.cfg), table);
    AdoptLink(s, table);
    LinkedTable(table, s1.stateOf, s1.quotaOf, s1.accountOf);
    var s' := Swapped(s, table);
    WakeAllKeeps(s.routers[s.current].queue, table.cfg.maxQueued);
    EmptyQueueOk(table);
    forall r | 0 <= r < |s'.routers|
      ensures QueueOk(s'.routers[r].queue, s'.routers[r].link.table.cfg.maxQueued)
    {
    }
  }

  lemma EmptyQueueOk(table: Table)
    requires Compiled(table)
    ensures QueueOk([], table.cfg.maxQueued)
  {
  }

  // ----- steps -----

  datatype Step =
    | Arrive(router: nat, thread: nat, query: Query, cancelled: bool) // first hold of Acquire
    | Wake(router: nat, k: nat, consume: bool)                        // leave the select: token, context or timer
    | Resume(router: nat, k: nat)                                     // a later hold of Acquire
    | Cancel(router: nat, k: nat)                                     // the waiter's context ends
    | Release(lease: nat, outcome: Outcome)
    | SetEnabled(id: string, on: bool)                                // on the current router
    | Adopt(table: Table)
    | Tick(now: int)

  ghost function QueueOf(s: System, r: nat): seq<Waiter>
    requires r < |s.routers|
  {
    s.routers[r].queue
  }

  /** The ruling one hold of Acquire reaches for a query with the first `k` waiters ahead. */
  datatype Ruling = Granted(target: nat) | GiveUp | Stay

  ghost function Judge(s: System, r: nat, q: Query, cancelled: bool, k: nat): Ruling
    requires Formed(s) && r < |s.routers| && k <= |QueueOf(s, r)|
  {
    var v := At(s, r);
    var c := Choose(v, q, s.now);
    if cancelled then GiveUp
    else if c.best >= 0 && Turn(v, s.now, QueueOf(s, r), k) then Granted(c.best)
    else if !c.eligible then GiveUp
    else Stay
  }

  /** Remove a waiter and pass the baton. */
  ghost function Leave(s: System, r: nat, k: nat): System
    requires Inv(s) && r < |s.routers| && k < |QueueOf(s, r)|
  {
    WithoutKeeps(s, r, k);
    Signal(SetQueue(s, r, Without(QueueOf(s, r), k)), r)
  }

  function SetWaiter(s: System, r: nat, k: nat, w: Waiter): System
    requires r < |s.routers| && k < |s.routers[r].queue|
  {
    SetQueue(s, r, s.routers[r].queue[k := w])
  }

  function SwitchOn(st: SourceState, on: bool): SourceState { st.(enabled := on, blocked := st.blocked && !on) }

  ghost function Switched(s: System, id: string, on: bool): System
    requires Inv(s)
  {
    var k := s.routers[s.current].link;
    if id !in Ids(k.table.cfg.sources) then s
    else
      SwitchRange(s, id);
      var i := FirstId(k.table.cfg.sources, id);
      s.(states := s.states[k.stateRefs[i] := SwitchOn(s.states[k.stateRefs[i]], on)])
  }

  /** Time does not pass a timer whose goroutine is still in its select. */
  ghost predicate TimersFire(s: System, now: int) {
    forall r :: 0 <= r < |s.routers| ==> QueueReaches(s.routers[r].queue, now)
  }

  ghost predicate QueueReaches(queue: seq<Waiter>, now: int) {
    forall k :: 0 <= k < |queue| ==> queue[k].awake || now <= queue[k].deadline
  }

  ghost predicate Enabled(s: System, step: Step)
    requires s.current < |s.routers|
  {
    match step
    case Arrive(r, thread, _, _) => r < |s.routers| && forall j :: 0 <= j < |QueueOf(s, r)| ==> QueueOf(s, r)[j].thread != thread
    case Wake(r, k, consume) => r < |s.routers| && k < |QueueOf(s, r)| && (consume ==> QueueOf(s, r)[k].token)
    case Resume(r, k) => r < |s.routers| && k < |QueueOf(s, r)| && QueueOf(s, r)[k].awake
    case Cancel(r, k) => r < |s.routers| && k < |QueueOf(s, r)|
    case Release(_, o) => o.elapsed >= 0.0
    case SetEnabled(_, _) => true
    case Adopt(table) => Adoptable(s, table)
    case Tick(now) => s.now <= now && TimersFire(s, now)
  }

  ghost function Arrived(s: System, r: nat, thread: nat, q: Query, cancelled: bool): System
    requires Inv(s) && r < |s.routers|
  {
    match Judge(s, r, q, cancelled, |QueueOf(s, r)|)
    case Granted(idx) =>
      JudgedGrantable(s, r, q, cancelled, |QueueOf(s, r)|);
      Grant(s, r, idx, q)
    case GiveUp => s
    case Stay =>
      if |QueueOf(s, r)| >= s.routers[r].link.table.cfg.maxQueued then s
      else SetQueue(s, r, QueueOf(s, r) + [Waiter(thread, q, false, false, false, s.now + RETRY_MS)])
  }

  ghost function Resumed(s: System, r: nat, k: nat): System
    requires Inv(s) && r < |s.routers| && k < |QueueOf(s, r)|
  {
    var w := QueueOf(s, r)[k];
    match Judge(s, r, w.query, w.cancelled, k)
    case Granted(idx) =>
      JudgedGrantable(s, r, w.query, w.cancelled, k);
      GrantKeeps(s, idx, w.query);
      Leave(Grant(s, r, idx, w.query), r, k)
    case GiveUp => Leave(s, r, k)
    case Stay => SetWaiter(s, r, k, w.(awake := false, deadline := s.now + RETRY_MS))
  }

  ghost function Released(s: System, id: nat, o: Outcome): System
    requires Inv(s) && o.elapsed >= 0.0
  {
    if id !in s.leases then s
    else
      ReleaseKeeps(s, id, o);
      var s' := Returned(s, id, o);
      Signal(s', s'.current)
  }

  ghost function Toggled(s: System, id: string, on: bool): System
    requires Inv(s)
  {
    SwitchKeeps(s, id, on);
    var s' := Switched(s, id, on);
    if id in Ids(s.routers[s.current].link.table.cfg.sources) then Signal(s', s'.current) else s
  }

  ghost function Replaced(s: System, table: Table): System
    requires Inv(s) && Adoptable(s, table)
  {
    SwapKeeps(s, table);
    var s' := Swapped(s, table);
    Signal(s', s'.current)
  }

  ghost function Woken(s: System, r: nat, k: nat, consume: bool): System
    requires r < |s.routers| && k < |QueueOf(s, r)|
  {
    var w := QueueOf(s, r)[k];
    SetWaiter(s, r, k, w.(awake := true, token := w.token && !consume))
  }

  ghost function Cancelled(s: System, r: nat, k: nat): System
    requires r < |s.routers| && k < |QueueOf(s, r)|
  {
    SetWaiter(s, r, k, QueueOf(s, r)[k].(cancelled := true))
  }

  ghost function Next(s: System, step: Step): System
    requires Inv(s) && Enabled(s, step)
  {
    match step
    case Arrive(r, thread, q, cancelled) => Arrived(s, r, thread, q, cancelled)
    case Wake(r, k, consume) => Woken(s, r, k, consume)
    case Resume(r, k) => Resumed(s, r, k)
    case Cancel(r, k) => Cancelled(s, r, k)
    case Release(id, o) => Released(s, id, o)
    case SetEnabled(id, on) => Toggled(s, id, on)
    case Adopt(table) => Replaced(s, table)
    case Tick(now) => s.(now := now)
  }

  // ----- every step keeps the invariant -----

  lemma WithoutKeeps(s: System, r: nat, k: nat)
    requires Inv(s) && r < |s.routers| && k < |QueueOf(s, r)|
    ensures var kept := Inv(SetQueue(s, r, Without(QueueOf(s, r), k))); kept
  {
    hide Conserved, Formed, Wired;
    SetQueueKeeps(s, r, Without(QueueOf(s, r), k));
  }

  lemma SetWaiterKeeps(s: System, r: nat, k: nat, w: Waiter)
    requires Inv(s) && r < |s.routers| && k < |QueueOf(s, r)| && w.thread == QueueOf(s, r)[k].thread
    ensures var kept := Inv(SetWaiter(s, r, k, w)); kept
  {
    hide Conserved, Formed, Wired;
    SetQueueKeeps(s, r, QueueOf(s, r)[k := w]);
  }

  lemma {:induction false} SignalQueueKeeps(v: View, now: int, queue: seq<Waiter>)
    requires Shaped(v)
    ensures var q := SignalQueue(v, now, queue);
      forall j :: 0 <= j < |queue| ==> q[j] == queue[j] || q[j] == queue[j].(token := true)
  {
    hide Shaped, Choose;
    if queue != [] && !Actionable(v, now, queue[0]) {
      SignalQueueKeeps(v, now, queue[1..]);
    }
  }

  lemma SignalKeeps(s: System, r: nat)
    requires Inv(s) && r < |s.routers|
    ensures var kept := Inv(Signal(s, r)); kept
  {
    hide Conserved, Wired, SignalQueue, LinkOk;
    SignalQueueKeeps(At(s, r), s.now, QueueOf(s, r));
    SetQueueKeeps(s, r, SignalQueue(At(s, r), s.now, QueueOf(s, r)));
  }

  lemma LeaveKeeps(s: System, r: nat, k: nat)
    requires Inv(s) && r < |s.routers| && k < |QueueOf(s, r)|
    ensures var kept := Inv(Leave(s, r, k)); kept
  {
    hide Inv, Signal;
    WithoutKeeps(s, r, k);
    SignalKeeps(SetQueue(s, r, Without(QueueOf(s, r), k)), r);
  }

  /** Only the current router can grant, and only below the global limit. */
  lemma JudgedGrantable(s: System, r: nat, q: Query, cancelled: bool, k: nat)
    requires Inv(s) && r < |s.routers| && k <= |QueueOf(s, r)| && Judge(s, r, q, cancelled, k).Granted?
    ensures r == s.current && CanGrant(s, Judge(s, r, q, cancelled, k).target)
    ensures Grantable(s, s.routers[r].link, Judge(s, r, q, cancelled, k).target)
    ensures Admits(At(s, r), q, s.now, Judge(s, r, q, cancelled, k).target)
  {
    hide Conserved, Wired, LinkOk, Choose, Turn;
    ChosenIsAdmitted(At(s, r), q, s.now);
    CanGrantIsGrantable(s, Judge(s, r, q, cancelled, k).target);
  }

  lemma SwitchRange(s: System, id: string)
    requires Inv(s) && id in Ids(s.routers[s.current].link.table.cfg.sources)
    ensures var k := s.routers[s.current].link; var i := FirstId(k.table.cfg.sources, id);
      i < |k.stateRefs| && k.stateRefs[i] < |s.states| && i < |k.table.cfg.sources| && k.table.cfg.sources[i].id == id
  {
    hide Conserved, Wired, Compiled;
    FirstIdFound(s.routers[s.current].link.table.cfg.sources, id);
  }

  lemma SwitchKeeps(s: System, id: string, on: bool)
    requires Inv(s)
    ensures var kept := Inv(Switched(s, id, on)); kept
  {
    hide Compiled, LinkOk, Linked, Covers, QueueOk, Counts, Reachable;
    if id in Ids(s.routers[s.current].link.table.cfg.sources) {
      SwitchRange(s, id);
      var s' := Switched(s, id, on);
      assert StateActive(s'.states) == StateActive(s.states);
    }
  }

  lemma ArriveKeeps(s: System, r: nat, thread: nat, q: Query, cancelled: bool)
    requires Inv(s) && Enabled(s, Arrive(r, thread, q, cancelled))
    ensures var kept := Inv(Arrived(s, r, thread, q, cancelled)); kept
  {
    hide Conserved, Wired, LinkOk, Judge, Grant;
    match Judge(s, r, q, cancelled, |QueueOf(s, r)|)
    case Granted(idx) =>
      JudgedGrantable(s, r, q, cancelled, |QueueOf(s, r)|);
      GrantKeeps(s, idx, q);
    case GiveUp =>
    case Stay =>
      if |QueueOf(s, r)| < s.routers[r].link.table.cfg.maxQueued {
        SetQueueKeeps(s, r, QueueOf(s, r) + [Waiter(thread, q, false, false, false, s.now + RETRY_MS)]);
      }
  }

  lemma ResumeKeeps(s: System, r: nat, k: nat)
    requires Inv(s) && r < |s.routers| && k < |QueueOf(s, r)|
    ensures var kept := Inv(Resumed(s, r, k)); kept
  {
    hide Conserved, Wired, Formed, Bounded, Judge, Leave, SetWaiter;
    var w := QueueOf(s, r)[k];
    match Judge(s, r, w.query, w.cancelled, k)
    case Granted(idx) =>
      JudgedGrantable(s, r, w.query, w.cancelled, k);
      GrantKeeps(s, idx, w.query);
      LeaveKeeps(Grant(s, r, idx, w.query), r, k);
    case GiveUp =>
      LeaveKeeps(s, r, k);
    case Stay =>
      SetWaiterKeeps(s, r, k, w.(awake := false, deadline := s.now + RETRY_MS));
  }

  lemma ReleasedKeeps(s: System, id: nat, o: Outcome)
    requires Inv(s) && o.elapsed >= 0.0
    ensures var kept := Inv(Released(s, id, o)); kept
  {
    hide Conserved, Wired, Bounded, Signal, LinkOk;
    if id in s.leases {
      ReleaseKeeps(s, id, o);
      SignalKeeps(Returned(s, id, o), s.current);
    }
  }

  lemma ToggledKeeps(s: System, id: string, on: bool)
    requires Inv(s)
    ensures var kept := Inv(Toggled(s, id, on)); kept
  {
    hide Conserved, Wired, Bounded, Signal, LinkOk;
    SwitchKeeps(s, id, on);
    SignalKeeps(Switched(s, id, on), s.current);
  }

  lemma ReplacedKeeps(s: System, table: Table)
    requires Inv(s) && Adoptable(s, table)
    ensures var kept := Inv(Replaced(s, table)); kept
  {
    hide Conserved, Wired, Bounded, Signal, LinkOk, Swapped;
    SwapKeeps(s, table);
    SignalKeeps(Swapped(s, table), Swapped(s, table).current);
  }

  lemma TickKeeps(s: System, now: int)
    requires Inv(s)
    ensures var kept := Inv(s.(now := now)); kept
  {
    hide StatesConserved, QuotasConserved, AccountsConserved, LinkOk, Linked, Covers, QueueOk, CellsOk;
  }

  /** One step, whatever it is, keeps every counter, pointer, id table and bound. */
  lemma NextKeeps(s: System, step: Step)
    requires Inv(s) && Enabled(s, step)
    ensures var kept := Inv(Next(s, step)); kept
  {
    hide Conserved, Wired, Formed, Bounded, Arrived, Resumed, SetWaiter, Released, Toggled, Replaced;
    match step
    case Arrive(r, thread, q, cancelled) => ArriveKeeps(s, r, thread, q, cancelled);
    case Wake(r, k, consume) =>
      var w := QueueOf(s, r)[k];
      SetWaiterKeeps(s, r, k, w.(awake := true, token := w.token && !consume));
    case Resume(r, k) => ResumeKeeps(s, r, k);
    case Cancel(r, k) => SetWaiterKeeps(s, r, k, QueueOf(s, r)[k].(cancelled := true));
    case Release(id, o) => ReleasedKeeps(s, id, o);
    case SetEnabled(id, on) => ToggledKeeps(s, id, on);
    case Adopt(table) => ReplacedKeeps(s, table);
    case Tick(now) => TickKeeps(s, now);
  }
}
