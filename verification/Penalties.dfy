/** How long a block or a cooldown lasts in a run, and which steps end it. */
module Penalties {
  import opened Policy
  import opened Index
  import opened Selection
  import opened Counters
  import opened Scheduler
  import opened Conservation
  import opened Steps
  import opened Dispatching
  import opened Runs
  import opened Guarantees
  import opened Health

  // ----- the steps that touch one state or one quota -----

  ghost predicate ReleasesState(s: System, step: Step, c: nat) {
    step.Release? && step.lease in s.leases && s.leases[step.lease].stateRef == c
  }

  /** The upstream rejected an attempt of a source with this state. */
  ghost predicate Rejects(s: System, step: Step, c: nat) { ReleasesState(s, step, c) && step.outcome.status in {401, 403} }

  /** An attempt failed upstream or in transport. */
  ghost predicate Fails(s: System, step: Step, c: nat) {
    ReleasesState(s, step, c) && (step.outcome.status == 0 || step.outcome.status >= 500)
  }

  /** The upstream throttled an attempt of this quota domain. */
  ghost predicate Throttles(s: System, step: Step, q: nat) {
    step.Release? && step.lease in s.leases && s.leases[step.lease].quotaRef == q && step.outcome.status == 429
  }

  /** The delay a throttle imposes: what the upstream named, else half a minute, at most a day. */
  function Delay(o: Outcome): int {
    var wait := if o.retryAfter <= 0 then 30000 else o.retryAfter;
    if wait < 86400000 then wait else 86400000
  }

  /** A block is lifted by switching the source on, or by a configuration that enables it again. */
  ghost predicate Unblocks(s: System, step: Step, c: nat) {
    && s.current < |s.routers| && c < |s.states|
    && match step
       case SetEnabled(id, on) => on && SwitchReaches(s.routers[s.current].link, id, c)
       case Adopt(table) => !s.states[c].enabled && ConfigEnables(s.stateOf, table.cfg, c)
       case _ => false
  }

  ghost predicate SwitchReaches(k: Link, id: string, c: nat) {
    exists i :: 0 <= i < |k.table.cfg.sources| && k.table.cfg.sources[i].id == id && i < |k.stateRefs| && k.stateRefs[i] == c
  }

  ghost predicate ConfigEnables(stateOf: map<string, nat>, cfg: Config, c: nat) {
    exists i :: 0 <= i < |cfg.sources| && cfg.sources[i].id in stateOf && stateOf[cfg.sources[i].id] == c && cfg.sources[i].enabled
  }

  // ----- one step -----

  /** What of a state is a penalty, and how one step moves it. */
  ghost predicate StateMoves(s: System, step: Step, c: nat, after: SourceState)
    requires c < |s.states|
  {
    && after.cooldown == (if Fails(s, step, c) then s.now + 5000 else s.states[c].cooldown)
    && (after.blocked <==> (s.states[c].blocked || Rejects(s, step, c)) && !Unblocks(s, step, c))
  }

  ghost predicate QuotaMoves(s: System, step: Step, q: nat, after: Quota)
    requires q < |s.quotas|
  {
    after.cooldown == if Throttles(s, step, q) then s.now + Delay(step.outcome) else s.quotas[q].cooldown
  }

  ghost predicate CellsMove(s: System, step: Step, s': System) {
    && |s.states| <= |s'.states| && |s.quotas| <= |s'.quotas| && s.now <= s'.now
    && (forall c :: 0 <= c < |s.states| ==> StateMoves(s, step, c, s'.states[c]))
    && (forall q :: 0 <= q < |s.quotas| ==> QuotaMoves(s, step, q, s'.quotas[q]))
  }

  /** No state's switches or cooldown, and no quota's cooldown. */
  ghost predicate SamePenalties(s: System, s': System) {
    && |s.states| == |s'.states| && |s.quotas| == |s'.quotas|
    && (forall c :: 0 <= c < |s.states| ==> s'.states[c].blocked == s.states[c].blocked && s'.states[c].cooldown == s.states[c].cooldown)
    && (forall q :: 0 <= q < |s.quotas| ==> s'.quotas[q].cooldown == s.quotas[q].cooldown)
  }

  lemma GrantPenalties(s: System, r: nat, idx: nat, q: Query)
    requires r < |s.routers| && Grantable(s, s.routers[r].link, idx)
    ensures SamePenalties(s, Grant(s, r, idx, q)) && Grant(s, r, idx, q).now == s.now
  {
  }

  lemma QuietMoves(s: System, step: Step)
    requires Inv(s) && Enabled(s, step) && (step.Arrive? || step.Resume? || step.Wake? || step.Cancel? || step.Tick?)
    ensures CellsMove(s, step, Next(s, step))
  {
    hide Conserved, Wired, Bounded, LinkOk, CellsOk, Next, Grantable, ServedBy, Enabled, Grant;
    QuietClock(s, step);
    assert SamePenalties(s, Next(s, step)) by {
      if ServedBy(s, step).Some? {
        ServiceIsGrant(s, step);
        var g := ServedBy(s, step).value;
        GrantPenalties(s, s.current, g.target, g.query);
      } else {
        UnservedCounters(s, step);
      }
    }
  }

  lemma LeaveClock(s: System, r: nat, k: nat)
    requires Inv(s) && r < |s.routers| && k < |QueueOf(s, r)|
    ensures Leave(s, r, k).now == s.now
  {
    hide Conserved, Wired, Bounded, Formed, Signal;
    WithoutKeeps(s, r, k);
    SignalClock(SetQueue(s, r, Without(QueueOf(s, r), k)), r);
  }

  lemma ResumeClock(s: System, r: nat, k: nat)
    requires Inv(s) && r < |s.routers| && k < |QueueOf(s, r)|
    ensures Resumed(s, r, k).now == s.now
  {
    hide Conserved, Wired, Bounded, LinkOk, Judge, Grant, Leave, Grantable;
    var w := QueueOf(s, r)[k];
    match Judge(s, r, w.query, w.cancelled, k)
    case Granted(idx) =>
      JudgedGrantable(s, r, w.query, w.cancelled, k);
      GrantKeeps(s, idx, w.query);
      GrantPenalties(s, r, idx, w.query);
      GrantQueue(s, idx, w.query);
      LeaveClock(Grant(s, r, idx, w.query), r, k);
    case GiveUp => LeaveClock(s, r, k);
    case Stay =>
  }

  lemma ArriveClock(s: System, r: nat, thread: nat, q: Query, cancelled: bool)
    requires Inv(s) && r < |s.routers|
    ensures Arrived(s, r, thread, q, cancelled).now == s.now
  {
    hide Conserved, Wired, Bounded, LinkOk, Judge, Grant, Grantable;
    match Judge(s, r, q, cancelled, |QueueOf(s, r)|)
    case Granted(idx) =>
      JudgedGrantable(s, r, q, cancelled, |QueueOf(s, r)|);
      GrantPenalties(s, r, idx, q);
    case GiveUp =>
    case Stay =>
  }

  lemma QuietClock(s: System, step: Step)
    requires Inv(s) && Enabled(s, step) && (step.Arrive? || step.Resume? || step.Wake? || step.Cancel? || step.Tick?)
    ensures s.now <= Next(s, step).now
  {
    hide Conserved, Wired, Bounded, Formed, Arrived, Resumed;
    match step
    case Arrive(r, thread, q, cancelled) => ArriveClock(s, r, thread, q, cancelled);
    case Resume(r, k) => ResumeClock(s, r, k);
    case Wake(_, _, _) =>
    case Cancel(_, _) =>
    case Tick(_) =>
  }

  lemma ReleaseMoves(s: System, id: nat, o: Outcome)
    requires Inv(s) && Enabled(s, Release(id, o))
    ensures CellsMove(s, Release(id, o), Released(s, id, o))
  {
    hide Conserved, Wired, Bounded, LinkOk, Signal, CellsOk;
    if id in s.leases {
      ReleaseKeeps(s, id, o);
      var s' := Returned(s, id, o);
      SignalCounters(s', s'.current);
      SignalClock(s', s'.current);
    }
  }

  lemma SignalClock(s: System, r: nat)
    requires Formed(s) && r < |s.routers|
    ensures Signal(s, r).now == s.now
  {
    hide Formed, SignalQueue;
  }

  lemma ToggleMoves(s: System, id: string, on: bool)
    requires Inv(s)
    ensures CellsMove(s, SetEnabled(id, on), Toggled(s, id, on))
  {
    hide Conserved, Wired, Bounded, Compiled, LinkOk, CellsOk, Signal, FirstId;
    var k := s.routers[s.current].link;
    if id in Ids(k.table.cfg.sources) {
      SwitchKeeps(s, id, on);
      SwitchRange(s, id);
      var i := FirstId(k.table.cfg.sources, id);
      var s' := Switched(s, id, on);
      SignalCounters(s', s'.current);
      SignalClock(s', s'.current);
      OneSwitch(k, id, i, |s.states|, |s.quotas|, |s.accounts|);
    } else {
      NoSwitch(k, id);
    }
  }

  lemma OneSwitch(k: Link, id: string, i: nat, ns: nat, nq: nat, na: nat)
    requires LinkOk(k, ns, nq, na) && i < |k.stateRefs| && k.table.cfg.sources[i].id == id
    ensures forall c: nat :: SwitchReaches(k, id, c) <==> k.stateRefs[i] == c
  {
    forall j | 0 <= j < |k.table.cfg.sources| && k.table.cfg.sources[j].id == id ensures j == i {
      UniqueIds(k.table, i, j);
    }
  }

  lemma NoSwitch(k: Link, id: string)
    requires id !in Ids(k.table.cfg.sources)
    ensures forall c: nat :: !SwitchReaches(k, id, c)
  {
  }

  /** Which state cells a swap refreshes: those its sources' ids lead to. */
  lemma RefsAfter(s: System, table: Table, i: nat)
    requires Conserved(s) && Compiled(table) && i < |table.cfg.sources|
    ensures var s1 := Prepared(s, table);
      && Covers(table.cfg, s1.stateOf, s1.quotaOf, s1.accountOf)
      && var k := Linked(table, s1.stateOf, s1.quotaOf, s1.accountOf);
      var id := table.cfg.sources[i].id;
      && i < |k.stateRefs|
      && (if id in s.stateOf then k.stateRefs[i] == s.stateOf[id] else k.stateRefs[i] >= |s.states|)
  {
    hide Compiled, Counts, QuotasConserved, AccountsConserved;
    AdoptLink(s, table);
    var s1 := Prepared(s, table);
    BroughtOk(|s.states|, table.cfg.sources);
    assert table.cfg.sources[i].id in Ids(table.cfg.sources);
    LinkAt(Linked(table, s1.stateOf, s1.quotaOf, s1.accountOf), s1.stateOf, s1.quotaOf, s1.accountOf, i);
  }

  lemma OldCells(s: System, table: Table)
    requires Conserved(s)
    ensures var s1 := Prepared(s, table);
      && |s.states| <= |s1.states| && |s.quotas| <= |s1.quotas| && s1.now == s.now
      && (forall c :: 0 <= c < |s.states| ==> s1.states[c] == s.states[c])
      && (forall q :: 0 <= q < |s.quotas| ==> s1.quotas[q] == s.quotas[q])
  {
    hide Conserved, Relinked, Busy;
  }

  lemma SwapState(s: System, table: Table, c: nat)
    requires Inv(s) && Adoptable(s, table) && c < |s.states|
    ensures c < |Swapped(s, table).states| && StateMoves(s, Adopt(table), c, Swapped(s, table).states[c])
  {
    hide Compiled, LinkOk, Bounded, Wired, CellsOk, Conserved, RefreshStates, Linked, Covers, Swapped, FreshCells, Relink;
    SwappedStates(s, table);
    OldCells(s, table);
    var s1 := Prepared(s, table);
    var k := Linked(table, s1.stateOf, s1.quotaOf, s1.accountOf);
    forall i | 0 <= i < |table.cfg.sources|
      ensures k.stateRefs[i] == c <==> table.cfg.sources[i].id in s.stateOf && s.stateOf[table.cfg.sources[i].id] == c
    {
      RefsAfter(s, table, i);
    }
    RelinkedInjective(s, table);
    DistinctRefs(table, s1.stateOf, s1.quotaOf, s1.accountOf);
    if i :| 0 <= i < |k.stateRefs| && k.stateRefs[i] == c {
      RefreshedAt(s1.states, k.stateRefs, table.cfg.sources, |table.cfg.sources|, i);
      assert forall j :: 0 <= j < |k.stateRefs| && k.stateRefs[j] == c ==> j == i;
    } else {
      RefreshUntouched(s1.states, k.stateRefs, table.cfg.sources, |table.cfg.sources|, c);
    }
  }

  lemma SwapQuotas(s: System, table: Table)
    requires Inv(s) && Adoptable(s, table)
    ensures var s' := Swapped(s, table);
      && |s.quotas| <= |s'.quotas| && s'.now == s.now
      && forall q :: 0 <= q < |s.quotas| ==> s'.quotas[q].cooldown == s.quotas[q].cooldown
  {
    hide Compiled, Bounded, Wired, CellsOk, Conserved, RefreshStates, RefreshLimits, Linked, Covers, FreshCells, Relink;
    AdoptLink(s, table);
    OldCells(s, table);
    var s1 := Prepared(s, table);
    var k := Linked(table, s1.stateOf, s1.quotaOf, s1.accountOf);
    LinkedTable(table, s1.stateOf, s1.quotaOf, s1.accountOf);
    var n := |table.cfg.sources|;
    RefreshedLimits(s1.quotas, SomeRefs(k.quotaRefs), seq(n, i requires 0 <= i < n => table.cfg.sources[i].quotaMaxInflight), n);
  }

  lemma AdoptMoves(s: System, table: Table)
    requires Inv(s) && Adoptable(s, table)
    ensures CellsMove(s, Adopt(table), Replaced(s, table))
  {
    hide Conserved, Wired, Bounded, LinkOk, Compiled, Signal, Swapped, StateMoves, CellsOk;
    SwapKeeps(s, table);
    SwapQuotas(s, table);
    var s' := Swapped(s, table);
    SignalCounters(s', s'.current);
    SignalClock(s', s'.current);
    forall c | 0 <= c < |s.states| ensures c < |s'.states| && StateMoves(s, Adopt(table), c, s'.states[c]) {
      SwapState(s, table, c);
    }
    StatesGrow(s, table);
  }

  lemma StatesGrow(s: System, table: Table)
    requires Inv(s) && Adoptable(s, table)
    ensures |s.states| <= |Swapped(s, table).states|
  {
    hide Compiled, LinkOk, Bounded, Wired, CellsOk, Conserved, RefreshStates, Linked, Covers, Swapped, FreshCells, Relink;
    SwappedStates(s, table);
    OldCells(s, table);
  }

  /** Exactly how one step moves blocks and cooldowns: a block comes from a rejection and goes with a
      switch or a configuration that enables the source; a state's cooldown is set by a failure and a
      quota's by a throttle, and by nothing else. */
  lemma PenaltyStep(s: System, step: Step)
    requires Inv(s) && Enabled(s, step)
    ensures CellsMove(s, step, Next(s, step))
  {
    hide Conserved, Wired, Bounded, Formed, CellsMove, Arrived, Resumed, Released, Toggled, Replaced;
    match step
    case Release(id, o) => ReleaseMoves(s, id, o);
    case SetEnabled(id, on) => ToggleMoves(s, id, on);
    case Adopt(table) => AdoptMoves(s, table);
    case _ => QuietMoves(s, step);
  }

  // ----- every run -----

  lemma RunMoves(table: Table, now: int, trace: seq<System>, steps: seq<Step>, i: nat)
    requires IsRun(table, now, trace, steps) && i < |steps|
    ensures i + 1 < |trace| && CellsMove(trace[i], steps[i], trace[i+1])
  {
    hide IsRun, Inv, Next, Enabled, CellsMove;
    Stepping(table, now, trace, steps, i);
    PenaltyStep(trace[i], steps[i]);
  }

  /** A blocked state stays blocked until a step that lifts blocks reaches it. */
  lemma {:induction false} StaysBlocked(table: Table, now: int, trace: seq<System>, steps: seq<Step>, i: nat, j: nat, c: nat)
    requires IsRun(table, now, trace, steps) && i <= j < |trace| == |steps| + 1
    requires c < |trace[i].states| && trace[i].states[c].blocked
    requires forall m :: i <= m < j ==> !Unblocks(trace[m], steps[m], c)
    ensures c < |trace[j].states| && trace[j].states[c].blocked
  {
    hide IsRun, Unblocks, Rejects, Fails, Throttles;
    if i < j {
      StaysBlocked(table, now, trace, steps, i, j - 1, c);
      RunMoves(table, now, trace, steps, j - 1);
    }
  }

  /** A source that was rejected as unauthorised is admitted by no router and for no query but a probe,
      until it is switched on or a configuration enables it again. */
  lemma RejectedStaysOut(table: Table, now: int, trace: seq<System>, steps: seq<Step>, i: nat, j: nat, c: nat, r: nat, idx: nat, q: Query)
    requires IsRun(table, now, trace, steps) && i < j < |trace| == |steps| + 1
    requires c < |trace[i].states| && Rejects(trace[i], steps[i], c)
    requires forall m :: i <= m < j ==> !Unblocks(trace[m], steps[m], c)
    requires r < |trace[j].routers| && idx < |trace[j].routers[r].link.table.targets| && !q.probe
    requires var k := trace[j].routers[r].link; var x := k.table.targets[idx].source; x < |k.stateRefs| && k.stateRefs[x] == c
    ensures var kept := Inv(trace[j]); kept
    ensures Verdict(At(trace[j], r), q, idx) != Admitted
  {
    hide IsRun, Unblocks, Rejects, Fails, Throttles, Conserved, Wired, Bounded, Compiled, GroupReason;
    RunMoves(table, now, trace, steps, i);
    StaysBlocked(table, now, trace, steps, i + 1, j, c);
    RunKeeps(table, now, trace, steps, j);
    var v := At(trace[j], r);
    assert v.states[SourceOf(v, idx)].blocked;
  }

  /** The latest throttle of a quota domain before moment `j`. */
  ghost function Latest(trace: seq<System>, steps: seq<Step>, q: nat, j: nat): (m: Option<nat>)
    requires j <= |steps| <= |trace|
    ensures m.Some? ==> m.value < j && Throttles(trace[m.value], steps[m.value], q)
    ensures forall i :: 0 <= i < j && Throttles(trace[i], steps[i], q) ==> m.Some? && i <= m.value
  {
    if j == 0 then None else if Throttles(trace[j-1], steps[j-1], q) then Some(j - 1) else Latest(trace, steps, q, j - 1)
  }

  /** When the delay that a throttle imposed is over. */
  ghost function Deadline(trace: seq<System>, steps: seq<Step>, m: nat): int
    requires m < |steps| <= |trace| && steps[m].Release?
  {
    trace[m].now + Delay(steps[m].outcome)
  }

  lemma ThrottleInRange(s: System, step: Step, q: nat)
    requires Inv(s) && Throttles(s, step, q)
    ensures q < |s.quotas|
  {
    hide Formed, Wired, Bounded;
    LeaseRanges(s, step.lease);
  }

  /** A quota's cooldown is the deadline of its latest throttle. */
  lemma {:induction false} LatestDecides(table: Table, now: int, trace: seq<System>, steps: seq<Step>, j: nat, q: nat)
    requires IsRun(table, now, trace, steps) && j < |trace| == |steps| + 1 && Latest(trace, steps, q, j).Some?
    ensures q < |trace[j].quotas| && trace[j].quotas[q].cooldown == Deadline(trace, steps, Latest(trace, steps, q, j).value)
  {
    hide IsRun, Throttles, Inv, Delay, Next, Enabled, CellsMove;
    var s, step := trace[j-1], steps[j-1];
    Stepping(table, now, trace, steps, j - 1);
    RunMoves(table, now, trace, steps, j - 1);
    if Throttles(s, step, q) {
      ThrottleInRange(s, step, q);
    } else {
      LatestDecides(table, now, trace, steps, j - 1, q);
    }
    QuotaAfter(s, step, trace[j], q);
  }

  lemma QuotaAfter(s: System, step: Step, s': System, q: nat)
    requires CellsMove(s, step, s') && q < |s.quotas|
    ensures q < |s'.quotas| && s'.quotas[q].cooldown == if Throttles(s, step, q) then s.now + Delay(step.outcome) else s.quotas[q].cooldown
  {
    hide Throttles, Delay, StateMoves;
  }

  /** Once a quota domain was throttled, its latest throttle decides, exactly: the domain is cooling
      before that deadline and not after it, and while it is cooling no source of any router on it has
      room. An earlier throttle is kept to until its own deadline exactly if the latest one's covers it. */
  lemma ThrottleHolds(table: Table, now: int, trace: seq<System>, steps: seq<Step>, i: nat, j: nat, q: nat, r: nat, x: nat)
    requires IsRun(table, now, trace, steps) && i < j < |trace| == |steps| + 1 && Throttles(trace[i], steps[i], q)
    requires r < |trace[j].routers| && x < |trace[j].routers[r].link.quotaRefs| && trace[j].routers[r].link.quotaRefs[x] == q
    ensures var kept := Inv(trace[j]); kept
    ensures var m := Latest(trace, steps, q, j); m.Some? && i <= m.value < j
    ensures var v, until := At(trace[j], r), Deadline(trace, steps, Latest(trace, steps, q, j).value);
      && x < |v.table.cfg.sources|
      && (trace[j].now < v.quotas[x].cooldown <==> trace[j].now < until)
      && (trace[j].now < until ==> !Room(v, trace[j].now, x))
  {
    hide IsRun, Throttles, Conserved, Wired, Bounded, Compiled, Delay;
    LatestDecides(table, now, trace, steps, j, q);
    RunKeeps(table, now, trace, steps, j);
  }

  lemma {:induction false} CooldownNeverFalls(table: Table, now: int, trace: seq<System>, steps: seq<Step>, i: nat, j: nat, c: nat)
    requires IsRun(table, now, trace, steps) && i < j < |trace| == |steps| + 1
    requires c < |trace[i].states| && Fails(trace[i], steps[i], c)
    ensures c < |trace[j].states| && trace[j].states[c].cooldown >= trace[i].now + 5000 && trace[i].now <= trace[j].now
  {
    hide IsRun, Unblocks, Rejects, Fails, Throttles;
    RunMoves(table, now, trace, steps, j - 1);
    if i < j - 1 {
      CooldownNeverFalls(table, now, trace, steps, i, j - 1, c);
    }
  }

  /** For five seconds after a failure the source has no room on any router, whatever else happens. */
  lemma FailureHolds(table: Table, now: int, trace: seq<System>, steps: seq<Step>, i: nat, j: nat, c: nat, r: nat, x: nat)
    requires IsRun(table, now, trace, steps) && i < j < |trace| == |steps| + 1
    requires c < |trace[i].states| && Fails(trace[i], steps[i], c) && trace[j].now < trace[i].now + 5000
    requires r < |trace[j].routers| && x < |trace[j].routers[r].link.stateRefs| && trace[j].routers[r].link.stateRefs[x] == c
    ensures var kept := Inv(trace[j]); kept
    ensures var v := At(trace[j], r); x < |v.table.cfg.sources| && !Room(v, trace[j].now, x)
  {
    hide IsRun, Fails, Conserved, Wired, Bounded, Compiled;
    CooldownNeverFalls(table, now, trace, steps, i, j, c);
    RunKeeps(table, now, trace, steps, j);
  }
}
