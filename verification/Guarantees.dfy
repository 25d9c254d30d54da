/** Limits, order and timers in every run of the scheduler. */
module Guarantees {
  import opened Policy
  import opened Index
  import opened Selection
  import opened Choosing
  import opened Counters
  import opened Scheduler
  import opened Conservation
  import opened Steps
  import opened Wakeups
  import opened Runs
  import opened Dispatching
  import opened Timers

  lemma QuotaAgrees(c: Config, i: nat, j: nat)
    requires Valid(c) && i < |c.sources| && j < |c.sources| && c.sources[i].quotaDomain == c.sources[j].quotaDomain
    ensures c.sources[i].quotaMaxInflight == c.sources[j].quotaMaxInflight
  {
    hide ValidSource, ValidGroup;
  }

  lemma InitLimit(s: System, table: Table, k: Link, i: nat)
    requires Valid(table.cfg) && k.table == table && i < |table.cfg.sources|
    requires s.stateOf == BroughtStates(0, table.cfg.sources) && s.quotaOf == BroughtQuotas(0, table.cfg.sources)
    requires s.accountOf == BroughtAccounts(0, table.cfg.sources)
    requires |s.quotas| == |s.accounts| == |table.cfg.sources|
    requires forall j :: 0 <= j < |s.quotas| ==> s.quotas[j].limit == table.cfg.sources[j].quotaMaxInflight
    requires forall j :: 0 <= j < |s.accounts| ==> s.accounts[j].limit == AccountLimit(table.cfg, table.cfg.sources[j])
    requires Covers(table.cfg, s.stateOf, s.quotaOf, s.accountOf) && k == Linked(table, s.stateOf, s.quotaOf, s.accountOf)
    ensures |k.quotaRefs| == |k.accountRefs| == |table.cfg.sources|
    ensures k.quotaRefs[i] < |s.quotas| && s.quotas[k.quotaRefs[i]].limit == table.cfg.sources[i].quotaMaxInflight
    ensures k.accountRefs[i].Some? ==>
      k.accountRefs[i].value < |s.accounts| && s.accounts[k.accountRefs[i].value].limit == AccountLimit(table.cfg, table.cfg.sources[i])
  {
    hide Valid, Linked, Covers;
    var src := table.cfg.sources;
    LinkAt(k, s.stateOf, s.quotaOf, s.accountOf, i);
    FirstDomainFound(src, src[i].quotaDomain);
    QuotaAgrees(table.cfg, i, FirstDomain(src, src[i].quotaDomain));
    if src[i].accountId != "" {
      FirstAccountFound(src, src[i].accountId);
    }
  }

  /** A fresh router's counters carry its own configuration's limits. */
  lemma InitInForce(table: Table, now: int)
    requires Compiled(table)
    ensures var s := Init(table, now); s.current < |s.routers| && InForce(s)
  {
    hide Compiled, Valid, Linked, Covers;
    var s := Init(table, now);
    CompiledValid(table);
    BroughtCovers(table.cfg);
    LinkedTable(table, s.stateOf, s.quotaOf, s.accountOf);
    var k := s.routers[0].link;
    LinkedLengths(k, s.stateOf, s.quotaOf, s.accountOf);
    forall i | 0 <= i < |table.cfg.sources|
      ensures k.quotaRefs[i] < |s.quotas| && s.quotas[k.quotaRefs[i]].limit == table.cfg.sources[i].quotaMaxInflight
      ensures k.accountRefs[i].Some? ==>
        k.accountRefs[i].value < |s.accounts| && s.accounts[k.accountRefs[i].value].limit == AccountLimit(table.cfg, table.cfg.sources[i])
    {
      InitLimit(s, table, k, i);
    }
  }

  lemma BroughtCovers(c: Config)
    ensures Covers(c, BroughtStates(0, c.sources), BroughtQuotas(0, c.sources), BroughtAccounts(0, c.sources))
  {
  }

  lemma {:induction false} RunInForce(table: Table, now: int, trace: seq<System>, steps: seq<Step>, i: nat)
    requires IsRun(table, now, trace, steps) && i < |trace|
    ensures trace[i].current < |trace[i].routers| && InForce(trace[i])
  {
    hide Inv, Init, Next, Enabled, InForce;
    if i == 0 {
      InitInForce(table, now);
    } else {
      RunInForce(table, now, trace, steps, i - 1);
      RunKeeps(table, now, trace, steps, i - 1);
      NextInForce(trace[i-1], steps[i-1]);
    }
  }

  /** No grant in any run pushes a counter past the limit then in force. */
  lemma RunGrantsWithinLimits(table: Table, now: int, trace: seq<System>, steps: seq<Step>, i: nat)
    requires IsRun(table, now, trace, steps) && i < |steps| && i + 1 < |trace| && trace[i+1].log != trace[i].log
    ensures var s, s' := trace[i], trace[i+1];
      && s.current < |s.routers| && s'.leases.Keys == s.leases.Keys + {|s.log|}
      && var l, c := s'.leases[|s.log|], s.routers[s.current].link.table.cfg;
      && s'.active <= c.maxInflight
      && exists k :: 0 <= k < |c.sources| && c.sources[k].id == l.source && WithinLimits(s', l, c, c.sources[k])
  {
    hide IsRun, Inv, Next, Enabled, InForce, ServedBy, WithinLimits;
    Stepping(table, now, trace, steps, i);
    RunInForce(table, now, trace, steps, i);
    LogIsService(trace[i], steps[i]);
    ServiceWithinLimits(trace[i], steps[i]);
  }

  /** Only the router that is current at that moment grants: a retired one never does. */
  lemma RunGrantsFromCurrent(table: Table, now: int, trace: seq<System>, steps: seq<Step>, i: nat)
    requires IsRun(table, now, trace, steps) && i < |steps| && i + 1 < |trace| && trace[i+1].log != trace[i].log
    ensures var s := trace[i]; s.current < |s.routers| && !s.routers[s.current].retired
    ensures exists d :: trace[i+1].log == trace[i].log + [d] && d.router == trace[i].current
  {
    hide IsRun, Next, Enabled, ServedBy, Conserved, Wired, Bounded, LinkOk, CellsOk;
    Stepping(table, now, trace, steps, i);
    LogIsService(trace[i], steps[i]);
  }

  /** In any run a lease goes to the earliest live request that can run: nobody ahead of the served
      one was both live and dispatchable. */
  lemma RunIsFifo(table: Table, now: int, trace: seq<System>, steps: seq<Step>, i: nat, j: nat)
    requires IsRun(table, now, trace, steps) && i < |steps|
    requires trace[i+1].log != trace[i].log && !Shadowed(trace[i].routers[trace[i].current].link.table.cfg)
    ensures var kept := Inv(trace[i]); kept
    ensures steps[i].Arrive? || steps[i].Resume?
    ensures steps[i].router == trace[i].current
    ensures j < (if steps[i].Arrive? then |QueueOf(trace[i], steps[i].router)| else steps[i].k) ==>
      j < |QueueOf(trace[i], trace[i].current)|
      && var w := QueueOf(trace[i], trace[i].current)[j];
         w.cancelled || !Dispatchable(At(trace[i], trace[i].current), w.query, trace[i].now)
  {
    hide Conserved, Wired, Bounded, LinkOk, CellsOk, Init, Next, Judge, Dispatchable;
    Stepping(table, now, trace, steps, i);
    LogIsService(trace[i], steps[i]);
    ServiceGrantable(trace[i], steps[i]);
    if j < ServedBy(trace[i], steps[i]).value.ahead {
      ServiceIsFifo(trace[i], steps[i], j);
    }
  }

  /** In every run, also across clock ticks that end a cooldown without a signal, a sleeping
      request looks again within one retry period. */
  lemma {:induction false} RunTimersBound(table: Table, now: int, trace: seq<System>, steps: seq<Step>, i: nat)
    requires IsRun(table, now, trace, steps) && i < |trace|
    ensures Timed(trace[i])
  {
    hide Inv, Next, Enabled;
    if i > 0 {
      RunTimersBound(table, now, trace, steps, i - 1);
      RunKeeps(table, now, trace, steps, i - 1);
      NextTimed(trace[i-1], steps[i-1]);
    }
  }

  /** Releasing a lease twice returns its capacity once. */
  lemma ReleaseOnce(s: System, id: nat, first: Outcome, second: Outcome)
    requires Inv(s) && first.elapsed >= 0.0 && second.elapsed >= 0.0
    ensures Inv(Released(s, id, first)) && Released(Released(s, id, first), id, second) == Released(s, id, first)
    ensures id in s.leases ==> Released(s, id, first).active == s.active - 1
  {
    hide Conserved, Wired, Bounded, LinkOk, CellsOk, Signal;
    ReleasedKeeps(s, id, first);
    if id in s.leases {
      ReleaseKeeps(s, id, first);
      SignalCounters(Returned(s, id, first), s.current);
    }
  }

  lemma {:induction false} SleepsUntilWoken(table: Table, now: int, trace: seq<System>, steps: seq<Step>, i: nat, j: nat, r: nat, thread: nat, deadline: int)
    requires IsRun(table, now, trace, steps) && i <= j < |trace| && Sleeps(trace[i], r, thread, deadline)
    requires forall m :: i <= m < j ==> !Wakes(trace[m], steps[m], r, thread)
    ensures Sleeps(trace[j], r, thread, deadline)
  {
    hide IsRun, Inv, Next, Enabled, Sleeps, Wakes;
    if i < j {
      RunLengths(table, now, trace, steps);
      SleepsUntilWoken(table, now, trace, steps, i, j - 1, r, thread, deadline);
      Stepping(table, now, trace, steps, j - 1);
      NextSleeps(trace[j-1], steps[j-1], r, thread, deadline);
    }
  }

  lemma RunLengths(table: Table, now: int, trace: seq<System>, steps: seq<Step>)
    requires IsRun(table, now, trace, steps)
    ensures |trace| == |steps| + 1
  {
    hide Inv, Init, Next, Enabled;
  }

  /** A request that sleeps in a queue at one moment has been woken by any moment more than a retry
      period later, whatever else the run does; in particular a cooldown that ran out unsignalled
      delays it by at most that much. */
  lemma RunWakesInTime(table: Table, now: int, trace: seq<System>, steps: seq<Step>, i: nat, j: nat, r: nat, thread: nat, deadline: int)
    requires IsRun(table, now, trace, steps) && i <= j < |trace| && |trace| == |steps| + 1
    requires Sleeps(trace[i], r, thread, deadline) && trace[j].now > trace[i].now + 250
    ensures exists m :: i <= m < j && Wakes(trace[m], steps[m], r, thread)
  {
    hide IsRun, Sleeps, Wakes;
    if forall m :: i <= m < j ==> !Wakes(trace[m], steps[m], r, thread) {
      SleepsUntilWoken(table, now, trace, steps, i, j, r, thread, deadline);
      RunTimersBound(table, now, trace, steps, i);
      RunTimersBound(table, now, trace, steps, j);
      SleepsIsTimed(trace[i], r, thread, deadline);
      SleepsIsTimed(trace[j], r, thread, deadline);
      assert false;
    }
  }
}
