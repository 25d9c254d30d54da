/** Weighted account pools serve always-available accounts by their weights. */
module PoolWeights {
  import opened Policy
  import opened Index
  import opened Selection
  import opened Choosing
  import opened Counters
  import opened Scheduler
  import opened Conservation
  import opened Steps
  import opened Wakeups
  import opened Runs
  import opened Dispatching
  import opened Fairness
  import opened PoolFairness

  ghost predicate Weighing(v: View, q: Query, provider: string) {
    Rotates(v, q) && provider in v.table.cfg.providers && v.table.cfg.providers[provider].pool == WeightedPool
  }

  /** When an account of a weighted provider is chosen although another one is available, its finish time
      was no later than that one's. */
  lemma ChosenAccountFinishesFirst(v: View, q: Query, now: int, provider: string, mine: string, other: string, i: nat, j: nat)
    requires Sane(v) && Shaped(v) && Weighing(v, q, provider) && Choose(v, q, now).best >= 0 && mine != "" && other != ""
    requires Choose(v, q, now).best < |v.table.targets|
    requires Cfg(v, Choose(v, q, now).best).accountId == mine && Cfg(v, Choose(v, q, now).best).provider == provider
    requires AccountAvailable(v, q, now, provider, other)
    requires SameAccountCells(v) && i < |v.accounts| && j < |v.accounts|
    requires v.table.cfg.sources[i].accountId == mine && v.table.cfg.sources[j].accountId == other
    ensures v.accounts[i].Some? && v.accounts[j].Some? && v.accounts[i].value.virtualFinish <= v.accounts[j].value.virtualFinish
  {
    hide Sane, Verdict, Room, Choose, Rotates;
    var best, cands := Choose(v, q, now).best, Candidates(v, q);
    var idx :| idx in cands && Available(v, q, now, idx) && Cfg(v, idx).accountId == other && Cfg(v, idx).provider == provider;
    var k := PoolRules(v, q, now, best, idx);
  }

  ghost function AccountFinish(s: System, account: string): real
    requires Known(s, account)
  {
    s.accounts[s.accountOf[account]].virtualFinish
  }

  /** What one dispatch costs an account. */
  ghost function AccountShare(c: Config, account: string): real
    requires account in c.accounts && c.accounts[account].weight >= 1
  {
    1.0 / c.accounts[account].weight as real
  }

  ghost predicate Weighty(s: System, account: string) {
    && s.current < |s.routers| && Known(s, account)
    && account in Now(s).table.cfg.accounts && Now(s).table.cfg.accounts[account].weight >= 1
  }

  /** The finish time of an account counts its dispatches, each at its share. */
  ghost predicate Counted(s: System, account: string) {
    Weighty(s, account) && AccountFinish(s, account) == Served(s, account) as real * AccountShare(Now(s).table.cfg, account)
  }

  /** The first account is at most one of its own dispatches ahead. */
  ghost predicate Balanced(s: System, a: string, b: string) {
    && a != b && Counted(s, a) && Counted(s, b)
    && AccountFinish(s, a) <= AccountFinish(s, b) + AccountShare(Now(s).table.cfg, a)
  }

  /** A served request is pooled and both accounts could have taken it. */
  ghost predicate ServesWeighing(s: System, step: Step, provider: string, a: string, b: string)
    requires Inv(s) && Enabled(s, step)
  {
    ServedBy(s, step).Some? ==>
      var v, g := At(s, s.current), ServedBy(s, step).value;
      Weighing(v, g.query, provider) && AccountAvailable(v, g.query, s.now, provider, a) && AccountAvailable(v, g.query, s.now, provider, b)
  }

  /** Serving one of two available accounts means that it does not finish later. */
  lemma ServedFinishesFirst(s: System, step: Step, provider: string, mine: string, other: string, x: nat)
    requires Inv(s) && Enabled(s, step) && ServedBy(s, step).Some? && mine != "" && other != ""
    requires ServesWeighing(s, step, provider, mine, other)
    requires ServedBy(s, step).value.target < |Now(s).table.targets|
    requires x == Now(s).table.targets[ServedBy(s, step).value.target].source
    requires x < |Now(s).table.cfg.sources| && Now(s).table.cfg.sources[x].accountId == mine
    ensures Known(s, mine) && Known(s, other) && AccountFinish(s, mine) <= AccountFinish(s, other)
  {
    hide Conserved, Wired, Bounded, LinkOk, CellsOk, ServedBy, Sane, Choose, Turn, CanGrant, Available, Admits, SameAccountCells, Known, Weighing;
    ServiceGrantable(s, step);
    ViewAccounts(s);
    var v, g := At(s, s.current), ServedBy(s, step).value;
    var mi := WitnessOf(v, g.query, s.now, provider, mine);
    var oi := WitnessOf(v, g.query, s.now, provider, other);
    AccountProvider(s, x, mi);
    ChosenAccountFinishesFirst(v, g.query, s.now, provider, mine, other, mi, oi);
  }

  /** A dispatch raises the finish time of the account that took it by its share, and no other. */
  lemma AccountFinishAfter(s: System, s': System, x: nat, account: string)
    requires Inv(s) && Dispatched(s, s', x) && Weighty(s, account)
    ensures Weighty(s', account)
    ensures var mine := Now(s).table.cfg.sources[x].accountId == account;
      AccountFinish(s', account) == AccountFinish(s, account) + if mine then AccountShare(Now(s).table.cfg, account) else 0.0
  {
    hide LinkOk, CellsOk, Bounded, StatesConserved, QuotasConserved, Wired, Counts, Count, TakeState;
    AccountCells(s, x);
  }

  lemma CountedAfter(s: System, s': System, x: nat, account: string)
    requires Inv(s) && Dispatched(s, s', x) && Counted(s, account)
    ensures Counted(s', account)
  {
    hide Inv, Served, AccountFinish, AccountShare, Known;
    AccountFinishAfter(s, s', x, account);
    AccountAfter(s, s', x, account);
    ShareGrows(Served(s, account), AccountShare(Now(s).table.cfg, account));
  }

  lemma BalancedAfter(s: System, step: Step, s': System, x: nat, provider: string, a: string, b: string)
    requires Inv(s) && Enabled(s, step) && ServedBy(s, step).Some? && ServesWeighing(s, step, provider, a, b)
    requires Dispatched(s, s', x) && Balanced(s, a, b)
    requires ServedBy(s, step).value.target < |Now(s).table.targets| && x == Now(s).table.targets[ServedBy(s, step).value.target].source
    ensures Balanced(s', a, b)
  {
    hide Inv, Enabled, ServedBy, ServesWeighing, Served, AccountFinish, TakeState, BumpAccount;
    CountedAfter(s, s', x, a);
    CountedAfter(s, s', x, b);
    AccountFinishAfter(s, s', x, a);
    AccountFinishAfter(s, s', x, b);
    if Now(s).table.cfg.sources[x].accountId == a {
      ServedFinishesFirst(s, step, provider, a, b, x);
    }
  }

  lemma BalancedUnchanged(s: System, s': System, a: string, b: string)
    requires SameClocks(s, s') && Balanced(s, a, b)
    ensures Balanced(s', a, b)
  {
    hide Count;
  }

  /** One step keeps the bound. */
  lemma BalancedStep(s: System, step: Step, provider: string, a: string, b: string)
    requires Inv(s) && Enabled(s, step) && !step.Adopt? && ServesWeighing(s, step, provider, a, b) && Balanced(s, a, b)
    ensures Balanced(Next(s, step), a, b)
  {
    hide Inv, Enabled, Next, ServedBy, ServesWeighing, Balanced, TakeState, BumpAccount;
    var s' := Next(s, step);
    if ServedBy(s, step).None? {
      UnservedClocks(s, step);
      BalancedUnchanged(s, s', a, b);
    } else {
      var x := ServedClocks(s, step);
      BalancedAfter(s, step, s', x, provider, a, b);
    }
  }

  lemma InitAccount(table: Table, now: int, account: string)
    requires Bound(table.cfg, account)
    ensures var s := Init(table, now);
      && s.current < |s.routers| && Now(s).table == table && s.log == []
      && Known(s, account) && AccountFinish(s, account) == 0.0
  {
    assert account in AccountIds(table.cfg.sources);
    FirstAccountFound(table.cfg.sources, account);
  }

  lemma InitBalanced(table: Table, now: int, a: string, b: string)
    requires Compiled(table) && a != b && Bound(table.cfg, a) && Bound(table.cfg, b)
    ensures Balanced(Init(table, now), a, b)
  {
    hide Init, Compiled, Bound, Known, AccountFinish;
    InitAccount(table, now, a);
    InitAccount(table, now, b);
    BoundIsConfigured(table, a);
    BoundIsConfigured(table, b);
  }

  lemma BoundIsConfigured(table: Table, account: string)
    requires Compiled(table) && Bound(table.cfg, account)
    ensures account in table.cfg.accounts && table.cfg.accounts[account].weight >= 1
  {
    var i :| 0 <= i < |table.cfg.sources| && table.cfg.sources[i].accountId == account;
    assert ValidSource(table.cfg, table.cfg.sources[i]);
  }

  lemma {:induction false} BalancedRun(table: Table, now: int, trace: seq<System>, steps: seq<Step>, n: nat, provider: string, a: string, b: string)
    requires IsRun(table, now, trace, steps) && OneGeneration(steps, n)
    requires a != b && Bound(table.cfg, a) && Bound(table.cfg, b)
    requires forall j :: 0 <= j < n && Inv(trace[j]) ==> ServesWeighing(trace[j], steps[j], provider, a, b)
    ensures Balanced(trace[n], a, b)
  {
    hide Inv, Init, Next, Enabled, Balanced, ServesWeighing;
    if n == 0 {
      InitOk(table, now);
      CalmIsInv(trace[0]);
      InitBalanced(table, now, a, b);
    } else {
      BalancedRun(table, now, trace, steps, n - 1, provider, a, b);
      RunKeeps(table, now, trace, steps, n - 1);
      BalancedStep(trace[n-1], steps[n-1], provider, a, b);
    }
  }

  /** Weighted account fairness: in any run from a fresh router whose dispatches are pooled by weight, of two
      always-available accounts of the provider neither's dispatches per configured weight run ahead of the
      other's by more than one dispatch of its own. */
  lemma WeightedPoolFairness(table: Table, now: int, trace: seq<System>, steps: seq<Step>, n: nat, provider: string, a: string, b: string)
    requires IsRun(table, now, trace, steps) && OneGeneration(steps, n)
    requires a != b && Bound(table.cfg, a) && Bound(table.cfg, b)
    requires forall j :: 0 <= j < n && Inv(trace[j]) ==> ServesWeighing(trace[j], steps[j], provider, a, b)
    ensures Weighty(trace[n], a) && Weighty(trace[n], b)
    ensures var s, c := trace[n], Now(trace[n]).table.cfg;
      var wa, wb := c.accounts[a].weight as real, c.accounts[b].weight as real;
      Served(s, a) as real / wa - Served(s, b) as real / wb <= 1.0 / wa
  {
    hide Init, Next, Inv, Enabled, Served, AccountFinish, ServesWeighing, Known;
    BalancedRun(table, now, trace, steps, n, provider, a, b);
    var c := Now(trace[n]).table.cfg;
    ShareQuotient(Served(trace[n], a), c.accounts[a].weight);
    ShareQuotient(Served(trace[n], b), c.accounts[b].weight);
  }

  lemma ShareQuotient(n: nat, weight: int)
    requires weight >= 1
    ensures n as real * (1.0 / weight as real) == n as real / weight as real
  {
  }
}
