/** Which steps grant a lease, to whom, and what a grant respects. */
module Dispatching {
  import opened Policy
  import opened Index
  import opened Selection
  import opened Choosing
  import opened Counters
  import opened Scheduler
  import opened Conservation
  import opened Steps

  /** A request that a step serves: where, which query, how many waiters were ahead, which target. */
  datatype Service = Service(router: nat, query: Query, ahead: nat, target: nat)

  ghost function ServedBy(s: System, step: Step): Option<Service>
    requires Inv(s) && Enabled(s, step)
  {
    match step
    case Arrive(r, _, q, cancelled) =>
      var k := |QueueOf(s, r)|;
      (match Judge(s, r, q, cancelled, k) case Granted(idx) => Some(Service(r, q, k, idx)) case _ => None)
    case Resume(r, k) =>
      var w := QueueOf(s, r)[k];
      (match Judge(s, r, w.query, w.cancelled, k) case Granted(idx) => Some(Service(r, w.query, k, idx)) case _ => None)
    case _ => None
  }

  /** Equal in everything but the routers' queues and the clock. */
  ghost predicate SameCounters(s: System, s': System) {
    && s'.states == s.states && s'.quotas == s.quotas && s'.accounts == s.accounts
    && s'.active == s.active && s'.sequence == s.sequence && s'.leases == s.leases && s'.log == s.log
    && s'.stateOf == s.stateOf && s'.quotaOf == s.quotaOf && s'.accountOf == s.accountOf
    && s'.current == s.current && |s'.routers| == |s.routers|
    && (forall r :: 0 <= r < |s.routers| ==> s'.routers[r].link == s.routers[r].link && s'.routers[r].cursor == s.routers[r].cursor)
  }

  lemma SignalCounters(s: System, r: nat)
    requires Formed(s) && r < |s.routers|
    ensures SameCounters(s, Signal(s, r))
  {
    hide Formed, SignalQueue;
  }

  lemma LeaveCounters(s: System, r: nat, k: nat)
    requires Inv(s) && r < |s.routers| && k < |QueueOf(s, r)|
    ensures SameCounters(s, Leave(s, r, k))
  {
    hide Conserved, Wired, Bounded, Formed, Signal;
    WithoutKeeps(s, r, k);
    SignalCounters(SetQueue(s, r, Without(QueueOf(s, r), k)), r);
  }

  lemma ServiceGrantable(s: System, step: Step)
    requires Inv(s) && Enabled(s, step) && ServedBy(s, step).Some?
    ensures var g := ServedBy(s, step).value;
      && g.router == s.current && CanGrant(s, g.target) && Grantable(s, s.routers[s.current].link, g.target)
      && Admits(At(s, s.current), g.query, s.now, g.target)
      && g.ahead <= |QueueOf(s, s.current)|
      && Choose(At(s, s.current), g.query, s.now).best == g.target
      && Turn(At(s, s.current), s.now, QueueOf(s, s.current), g.ahead)
  {
    hide Conserved, Wired, Bounded, Formed, Grantable, CanGrant, Admits, Choose, Turn;
    match step
    case Arrive(r, _, q, cancelled) => JudgedGrantable(s, r, q, cancelled, |QueueOf(s, r)|);
    case Resume(r, k) => JudgedGrantable(s, r, QueueOf(s, r)[k].query, QueueOf(s, r)[k].cancelled, k);
  }

  /** A serving step changes the counters exactly as one grant does. */
  lemma ServiceIsGrant(s: System, step: Step)
    requires Inv(s) && Enabled(s, step) && ServedBy(s, step).Some?
    ensures var g := ServedBy(s, step).value;
      g.router == s.current && Grantable(s, s.routers[s.current].link, g.target)
      && SameCounters(Grant(s, s.current, g.target, g.query), Next(s, step))
  {
    hide Conserved, Wired, Bounded, Formed, Grant, Judge, Leave, CanGrant, Admits, Released, Toggled, Replaced;
    ServiceGrantable(s, step);
    var g := ServedBy(s, step).value;
    GrantKeeps(s, g.target, g.query);
    if step.Resume? {
      GrantQueue(s, g.target, g.query);
      LeaveCounters(Grant(s, s.current, g.target, g.query), s.current, step.k);
    }
  }

  lemma GrantQueue(s: System, idx: nat, q: Query)
    requires s.current < |s.routers| && Grantable(s, s.routers[s.current].link, idx)
    ensures var s' := Grant(s, s.current, idx, q);
      s'.current == s.current && |s'.routers| == |s.routers| && QueueOf(s', s.current) == QueueOf(s, s.current)
  {
  }

  /** Every other step leaves the log alone. */
  lemma UnservedLog(s: System, step: Step)
    requires Inv(s) && Enabled(s, step) && ServedBy(s, step).None?
    ensures Next(s, step).log == s.log
  {
    hide Conserved, Wired, Bounded, Formed, Judge, Leave, Signal, Switched, Swapped;
    match step
    case Arrive(r, _, _, _) =>
    case Resume(r, k) =>
      if Judge(s, r, QueueOf(s, r)[k].query, QueueOf(s, r)[k].cancelled, k).GiveUp? {
        LeaveCounters(s, r, k);
      }
    case Release(id, o) => ReleasedLog(s, id, o);
    case SetEnabled(id, on) => ToggledLog(s, id, on);
    case Adopt(table) => ReplacedLog(s, table);
    case _ =>
  }

  lemma ReleasedLog(s: System, id: nat, o: Outcome)
    requires Inv(s) && o.elapsed >= 0.0
    ensures Released(s, id, o).log == s.log
  {
    hide Conserved, Wired, Bounded, LinkOk, Signal;
    if id in s.leases {
      ReleaseKeeps(s, id, o);
      SignalCounters(Returned(s, id, o), s.current);
    }
  }

  lemma ToggledLog(s: System, id: string, on: bool)
    requires Inv(s)
    ensures Toggled(s, id, on).log == s.log
  {
    hide Conserved, Wired, Bounded, LinkOk, Signal;
    SwitchKeeps(s, id, on);
    SignalCounters(Switched(s, id, on), s.current);
  }

  lemma ReplacedLog(s: System, table: Table)
    requires Inv(s) && Adoptable(s, table)
    ensures Replaced(s, table).log == s.log
  {
    hide Conserved, Wired, Bounded, LinkOk, Signal, Linked, Compiled;
    SwapKeeps(s, table);
    SignalCounters(Swapped(s, table), Swapped(s, table).current);
  }

  /** The log records exactly the served requests. */
  lemma LogIsService(s: System, step: Step)
    requires Inv(s) && Enabled(s, step)
    ensures Next(s, step).log != s.log <==> ServedBy(s, step).Some?
    ensures ServedBy(s, step).Some? ==>
      var g := ServedBy(s, step).value;
      && Grantable(s, s.routers[s.current].link, g.target)
      && Next(s, step).log == s.log + [Dispatch(s.current, s.routers[s.current].link.table.targets[g.target].source, g.query)]
  {
    hide Inv, Enabled, Next, ServedBy, Grantable;
    if ServedBy(s, step).Some? {
      ServiceIsGrant(s, step);
    } else {
      UnservedLog(s, step);
    }
  }

  // ----- first in, first out -----

  /** A lease is granted only when no live waiter ahead of the requester could be dispatched: for
      a queued request those before it, for a newcomer the whole queue. */
  lemma ServiceIsFifo(s: System, step: Step, j: nat)
    requires Inv(s) && Enabled(s, step) && ServedBy(s, step).Some? && !Shadowed(s.routers[s.current].link.table.cfg)
    requires j < ServedBy(s, step).value.ahead
    ensures j < |QueueOf(s, s.current)|
    ensures var w := QueueOf(s, s.current)[j]; w.cancelled || !Dispatchable(At(s, s.current), w.query, s.now)
    ensures Dispatchable(At(s, s.current), ServedBy(s, step).value.query, s.now)
  {
    hide Conserved, Wired, Bounded, LinkOk, ServedBy, Choose, Sane, Shaped, Dispatchable, Available;
    ServiceGrantable(s, step);
    ChooseIffDispatchable(At(s, s.current), QueueOf(s, s.current)[j].query, s.now);
    ChooseIffDispatchable(At(s, s.current), ServedBy(s, step).value.query, s.now);
  }

  /** Only the current router serves; a retired one never grants a lease. */
  lemma RetiredNeverServes(s: System, step: Step)
    requires Inv(s) && Enabled(s, step) && ServedBy(s, step).Some?
    ensures s.routers[ServedBy(s, step).value.router].retired == false
  {
    hide Conserved, Wired, Bounded, LinkOk, ServedBy;
    ServiceGrantable(s, step);
  }

  // ----- limits -----

  ghost predicate LimitsSet(k: Link, quotas: seq<Quota>, accounts: seq<Quota>) {
    forall i :: 0 <= i < |k.table.cfg.sources| ==>
      && i < |k.quotaRefs| && k.quotaRefs[i] < |quotas|
      && quotas[k.quotaRefs[i]].limit == k.table.cfg.sources[i].quotaMaxInflight
      && i < |k.accountRefs|
      && (k.accountRefs[i].Some? ==>
            k.accountRefs[i].value < |accounts|
            && accounts[k.accountRefs[i].value].limit == AccountLimit(k.table.cfg, k.table.cfg.sources[i]))
  }

  /** The limits that the current configuration states are the ones the counters carry. */
  ghost predicate InForce(s: System)
    requires s.current < |s.routers|
  {
    LimitsSet(s.routers[s.current].link, s.quotas, s.accounts)
  }

  ghost predicate WithinLimits(s: System, l: Lease, c: Config, src: Source) {
    && LeaseInRange(s, l)
    && s.states[l.stateRef].active <= src.maxInflight
    && s.quotas[l.quotaRef].active <= src.quotaMaxInflight
    && (l.accountRef.Some? ==>
          src.accountId in c.accounts && s.accounts[l.accountRef.value].active <= c.accounts[src.accountId].maxInflight)
  }

  lemma AccountListed(c: Config, i: nat)
    requires Valid(c) && i < |c.sources| && c.sources[i].accountId != ""
    ensures c.sources[i].accountId in c.accounts && AccountLimit(c, c.sources[i]) == c.accounts[c.sources[i].accountId].maxInflight
  {
    assert ValidSource(c, c.sources[i]);
  }

  /** No grant pushes a counter past the limit then in force. */
  lemma ServiceWithinLimits(s: System, step: Step)
    requires Inv(s) && InForce(s) && Enabled(s, step) && ServedBy(s, step).Some?
    ensures Next(s, step).leases.Keys == s.leases.Keys + {|s.log|}
    ensures var s', c := Next(s, step), s.routers[s.current].link.table.cfg;
      var l := s'.leases[|s.log|];
      && LeaseInRange(s', l) && s'.active <= c.maxInflight
      && exists i :: 0 <= i < |c.sources| && c.sources[i].id == l.source && WithinLimits(s', l, c, c.sources[i])
  {
    hide Conserved, Wired, Bounded, ServedBy, Next, Choose, Compiled, Turn, CellsOk;
    ServiceGrantable(s, step);
    ServiceIsGrant(s, step);
    var g, k := ServedBy(s, step).value, s.routers[s.current].link;
    var i := k.table.targets[g.target].source;
    CompiledValid(k.table);
    if k.accountRefs[i].Some? {
      AccountListed(k.table.cfg, i);
    }
    assert WithinLimits(Next(s, step), LeaseOf(k, i), k.table.cfg, k.table.cfg.sources[i]);
  }

  /** Limits change only through a hot swap. */
  ghost predicate SameLimits(s: System, s': System) {
    && s'.current == s.current && s.current < |s.routers| == |s'.routers| && s'.routers[s.current].link == s.routers[s.current].link
    && |s'.quotas| == |s.quotas| && |s'.accounts| == |s.accounts|
    && (forall c :: 0 <= c < |s.quotas| ==> s'.quotas[c].limit == s.quotas[c].limit)
    && (forall c :: 0 <= c < |s.accounts| ==> s'.accounts[c].limit == s.accounts[c].limit)
  }

  lemma SameLimitsInForce(s: System, s': System)
    requires SameLimits(s, s') && InForce(s)
    ensures InForce(s')
  {
    var k := s.routers[s.current].link;
    forall i | 0 <= i < |k.table.cfg.sources|
      ensures s'.quotas[k.quotaRefs[i]].limit == k.table.cfg.sources[i].quotaMaxInflight
      ensures k.accountRefs[i].Some? ==> s'.accounts[k.accountRefs[i].value].limit == AccountLimit(k.table.cfg, k.table.cfg.sources[i])
    {
    }
  }

  lemma CountersLimits(s: System, s': System)
    requires s.current < |s.routers| && SameCounters(s, s')
    ensures SameLimits(s, s')
  {
  }

  lemma ReleasedLimits(s: System, id: nat, o: Outcome)
    requires Inv(s) && o.elapsed >= 0.0
    ensures SameLimits(s, Released(s, id, o))
  {
    hide Conserved, Wired, Bounded, LinkOk, Signal;
    if id in s.leases {
      ReleaseKeeps(s, id, o);
      SignalCounters(Returned(s, id, o), s.current);
    }
  }

  lemma ToggledLimits(s: System, id: string, on: bool)
    requires Inv(s)
    ensures SameLimits(s, Toggled(s, id, on))
  {
    hide Conserved, Wired, Bounded, LinkOk, Signal;
    SwitchKeeps(s, id, on);
    SignalCounters(Switched(s, id, on), s.current);
  }

  lemma GrantLimits(s: System, idx: nat, q: Query)
    requires s.current < |s.routers| && Grantable(s, s.routers[s.current].link, idx)
    ensures SameLimits(s, Grant(s, s.current, idx, q))
  {
  }

  lemma NextLimits(s: System, step: Step)
    requires Inv(s) && Enabled(s, step) && !step.Adopt?
    ensures SameLimits(s, Next(s, step))
  {
    hide Conserved, Wired, Bounded, LinkOk, Judge, Leave, Signal, Switched, ServedBy, Released, Toggled, Grant, SameLimits, SameCounters;
    if ServedBy(s, step).Some? {
      ServiceIsGrant(s, step);
      var g := ServedBy(s, step).value;
      GrantLimits(s, g.target, g.query);
      LimitsThrough(s, Grant(s, s.current, g.target, g.query), Next(s, step));
    } else {
      match step
      case Release(id, o) => ReleasedLimits(s, id, o);
      case SetEnabled(id, on) => ToggledLimits(s, id, on);
      case _ => UnservedCounters(s, step); CountersLimits(s, Next(s, step));
    }
  }

  lemma LimitsThrough(s: System, s1: System, s2: System)
    requires SameLimits(s, s1) && SameCounters(s1, s2)
    ensures SameLimits(s, s2)
  {
  }

  /** Waiting, waking and cancelling touch no counter. */
  lemma UnservedCounters(s: System, step: Step)
    requires Inv(s) && Enabled(s, step) && ServedBy(s, step).None?
    requires step.Arrive? || step.Resume? || step.Wake? || step.Cancel? || step.Tick?
    ensures SameCounters(s, Next(s, step))
  {
    hide Conserved, Wired, Bounded, Formed, Judge, Leave, Released, Toggled, Replaced, Grant;
    if step.Resume? {
      var r, k := step.router, step.k;
      if Judge(s, r, QueueOf(s, r)[k].query, QueueOf(s, r)[k].cancelled, k).GiveUp? {
        LeaveCounters(s, r, k);
      }
    }
  }

  // ----- limits after a hot swap -----

  lemma {:induction false} RefreshSets(cells: seq<Quota>, refs: seq<Option<nat>>, limits: seq<int>, n: nat, i: nat)
    requires i < n <= |limits| && n <= |refs| && forall j :: 0 <= j < n && refs[j].Some? ==> refs[j].value < |cells|
    requires forall j :: 0 <= j < n && refs[j] == refs[i] ==> limits[j] == limits[i]
    requires refs[i].Some?
    ensures RefreshLimits(cells, refs, limits, n)[refs[i].value].limit == limits[i]
  {
    if i < n - 1 {
      RefreshSets(cells, refs, limits, n - 1, i);
    }
  }

  /** Sources that share a counter state the same limit for it. */
  ghost predicate Consistent(k: Link)
    requires |k.stateRefs| == |k.quotaRefs| == |k.accountRefs| == |k.table.cfg.sources|
  {
    forall i, j :: 0 <= i < |k.quotaRefs| && 0 <= j < |k.quotaRefs| ==>
      && (k.quotaRefs[i] == k.quotaRefs[j] ==> k.table.cfg.sources[i].quotaMaxInflight == k.table.cfg.sources[j].quotaMaxInflight)
      && (k.accountRefs[i].Some? && k.accountRefs[i] == k.accountRefs[j] ==>
            AccountLimit(k.table.cfg, k.table.cfg.sources[i]) == AccountLimit(k.table.cfg, k.table.cfg.sources[j]))
  }

  lemma LinkedConsistent(k: Link, stateOf: map<string, nat>, quotaOf: map<string, nat>, accountOf: map<string, nat>)
    requires Valid(k.table.cfg) && Injective(quotaOf) && Injective(accountOf)
    requires Covers(k.table.cfg, stateOf, quotaOf, accountOf) && k == Linked(k.table, stateOf, quotaOf, accountOf)
    ensures |k.stateRefs| == |k.quotaRefs| == |k.accountRefs| == |k.table.cfg.sources|
    ensures Consistent(k)
  {
    hide Linked, Covers, ValidSource, ValidGroup;
    LinkedLengths(k, stateOf, quotaOf, accountOf);
    forall i | 0 <= i < |k.table.cfg.sources|
      ensures k.table.cfg.sources[i].quotaDomain in quotaOf && k.quotaRefs[i] == quotaOf[k.table.cfg.sources[i].quotaDomain]
      ensures k.accountRefs[i].Some? ==> k.table.cfg.sources[i].accountId in accountOf && k.accountRefs[i].value == accountOf[k.table.cfg.sources[i].accountId]
    {
      LinkAt(k, stateOf, quotaOf, accountOf, i);
    }
  }

  lemma LinkedLengths(k: Link, stateOf: map<string, nat>, quotaOf: map<string, nat>, accountOf: map<string, nat>)
    requires Covers(k.table.cfg, stateOf, quotaOf, accountOf) && k == Linked(k.table, stateOf, quotaOf, accountOf)
    ensures |k.stateRefs| == |k.quotaRefs| == |k.accountRefs| == |k.table.cfg.sources|
  {
  }

  lemma RefreshInForce(s: System, k: Link)
    requires LinkOk(k, |s.states|, |s.quotas|, |s.accounts|) && Consistent(k)
    ensures var s' := Refresh(s, k); LimitsSet(k, s'.quotas, s'.accounts)
  {
    hide Compiled;
    var c, n := k.table.cfg, |k.table.cfg.sources|;
    forall i | 0 <= i < n
      ensures Refresh(s, k).quotas[k.quotaRefs[i]].limit == c.sources[i].quotaMaxInflight
      ensures k.accountRefs[i].Some? ==> Refresh(s, k).accounts[k.accountRefs[i].value].limit == AccountLimit(c, c.sources[i])
    {
      RefreshSets(s.quotas, SomeRefs(k.quotaRefs), seq(n, i requires 0 <= i < n => c.sources[i].quotaMaxInflight), n, i);
      if k.accountRefs[i].Some? {
        RefreshSets(s.accounts, k.accountRefs, seq(n, i requires 0 <= i < n => AccountLimit(c, c.sources[i])), n, i);
      }
    }
  }

  /** A hot swap puts the next configuration's limits in force, also for counters it shares with
      leases of retired generations. */
  lemma AdoptInForce(s: System, table: Table)
    requires Inv(s) && Adoptable(s, table)
    ensures var s' := Swapped(s, table); s'.current < |s'.routers| && InForce(s')
  {
    hide Conserved, Wired, Bounded, LinkOk, CellsOk, Linked, Covers, Compiled, Consistent, RefreshLimits, RefreshStates, LimitsSet;
    var s1 := FreshCells(Relink(s, table.cfg), table);
    AdoptLink(s, table);
    LinkedTable(table, s1.stateOf, s1.quotaOf, s1.accountOf);
    RelinkConserves(s, table);
    var k := Linked(table, s1.stateOf, s1.quotaOf, s1.accountOf);
    ConservedInjective(s1);
    CompiledValid(table);
    LinkedConsistent(k, s1.stateOf, s1.quotaOf, s1.accountOf);
    RefreshInForce(s1, k);
  }

  /** The limits in force stay those of the current configuration along every step. */
  lemma NextInForce(s: System, step: Step)
    requires Inv(s) && InForce(s) && Enabled(s, step)
    ensures var s' := Next(s, step); s'.current < |s'.routers| && InForce(s')
  {
    hide Conserved, Wired, Bounded, LinkOk, Formed, InForce, SameLimits, SameCounters, Replaced, Arrived, Resumed, Released, Toggled;
    if step.Adopt? {
      ReplacedInForce(s, step.table);
    } else {
      NextLimits(s, step);
      SameLimitsInForce(s, Next(s, step));
      LimitsCurrent(s, Next(s, step));
    }
  }

  lemma LimitsCurrent(s: System, s': System)
    requires SameLimits(s, s')
    ensures s'.current < |s'.routers|
  {
  }

  lemma ReplacedInForce(s: System, table: Table)
    requires Inv(s) && Adoptable(s, table)
    ensures var s' := Replaced(s, table); s'.current < |s'.routers| && InForce(s')
  {
    hide Conserved, Wired, Bounded, LinkOk, Signal, LimitsSet, Swapped, SameCounters;
    SwapKeeps(s, table);
    AdoptInForce(s, table);
    var s1 := Swapped(s, table);
    SignalCounters(s1, s1.current);
    CountersLimits(s1, Replaced(s, table));
    SameLimitsInForce(s1, Replaced(s, table));
  }

  lemma ConservedInjective(s: System)
    requires Conserved(s)
    ensures Injective(s.quotaOf) && Injective(s.accountOf)
  {
    hide Counts;
  }

  lemma CompiledValid(t: Table)
    requires Compiled(t)
    ensures Valid(t.cfg)
  {
  }
}
