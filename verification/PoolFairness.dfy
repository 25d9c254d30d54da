/** Round-robin account pools serve always-available accounts in turn. */
module PoolFairness {
  import opened Policy
  import opened Index
  import opened Selection
  import opened Choosing
  import opened Counters
  import opened Scheduler
  import opened Conservation
  import opened Steps
  import opened Wakeups
  import opened Runs
  import opened Dispatching
  import opened Fairness

  /** The sources bound to one account. */
  ghost function OfAccount(c: Config, account: string): set<nat> {
    set i: nat | i < |c.sources| && c.sources[i].accountId == account
  }

  ghost predicate Pooling(v: View, q: Query, provider: string) {
    && (Key(q.model) in v.table.cfg.groups ==> v.table.cfg.groups[Key(q.model)].strategy !in {Fallback, Select, Weighted})
    && provider in v.table.cfg.providers && v.table.cfg.providers[provider].pool == RoundRobin
  }

  /** Some indexed target of the account is available for the query. */
  ghost predicate AccountAvailable(v: View, q: Query, now: int, provider: string, account: string)
    requires Shaped(v)
  {
    exists idx :: idx in Candidates(v, q) && Available(v, q, now, idx) && Cfg(v, idx).accountId == account && Cfg(v, idx).provider == provider
  }

  /** When an account of a round-robin provider is chosen although another one is available, it was
      dispatched no later than that one. */
  lemma ChosenIsLeastRecent(v: View, q: Query, now: int, provider: string, mine: string, other: string, i: nat, j: nat)
    requires Sane(v) && Shaped(v) && Pooling(v, q, provider) && Choose(v, q, now).best >= 0 && mine != "" && other != ""
    requires Choose(v, q, now).best < |v.table.targets|
    requires Cfg(v, Choose(v, q, now).best).accountId == mine && Cfg(v, Choose(v, q, now).best).provider == provider
    requires AccountAvailable(v, q, now, provider, other)
    requires SameAccountCells(v) && i < |v.accounts| && j < |v.accounts|
    requires v.table.cfg.sources[i].accountId == mine && v.table.cfg.sources[j].accountId == other
    ensures v.accounts[i].Some? && v.accounts[j].Some? && v.accounts[i].value.lastDispatch <= v.accounts[j].value.lastDispatch
  {
    hide Sane, Verdict, Room, Choose;
    var best, cands := Choose(v, q, now).best, Candidates(v, q);
    var idx :| idx in cands && Available(v, q, now, idx) && Cfg(v, idx).accountId == other && Cfg(v, idx).provider == provider;
    var k := PoolRules(v, q, now, best, idx);
  }

  /** Sources bound to the same account see the same counter. */
  ghost predicate SameAccountCells(v: View) {
    |v.accounts| == |v.table.cfg.sources| &&
    forall i, j :: 0 <= i < |v.accounts| && 0 <= j < |v.accounts| ==>
      v.table.cfg.sources[i].accountId == v.table.cfg.sources[j].accountId ==> v.accounts[i] == v.accounts[j]
  }

  // ----- the two accounts alternate -----

  ghost predicate Known(s: System, account: string) {
    account != "" && account in s.accountOf && s.accountOf[account] < |s.accounts|
  }

  ghost function Last(s: System, account: string): nat
    requires Known(s, account)
  {
    s.accounts[s.accountOf[account]].lastDispatch
  }

  ghost function Served(s: System, account: string): nat
    requires s.current < |s.routers|
  {
    Count(s.log, OfAccount(Now(s).table.cfg, account))
  }

  /** Whoever was dispatched last is at most one ahead. */
  ghost predicate Alternating(s: System, a: string, b: string)
    requires s.current < |s.routers|
  {
    && Known(s, a) && Known(s, b) && a != b
    && Last(s, a) <= s.sequence && Last(s, b) <= s.sequence
    && (Last(s, a) == Last(s, b) ==> Last(s, a) == 0 && Served(s, a) == Served(s, b) == 0)
    && (Last(s, a) > Last(s, b) ==> Served(s, b) <= Served(s, a) <= Served(s, b) + 1)
    && (Last(s, a) < Last(s, b) ==> Served(s, a) <= Served(s, b) <= Served(s, a) + 1)
  }

  /** A served request is pooled and both accounts could have taken it. */
  ghost predicate ServesPooled(s: System, step: Step, provider: string, a: string, b: string)
    requires Inv(s) && Enabled(s, step)
  {
    ServedBy(s, step).Some? ==>
      var v, g := At(s, s.current), ServedBy(s, step).value;
      Pooling(v, g.query, provider) && AccountAvailable(v, g.query, s.now, provider, a) && AccountAvailable(v, g.query, s.now, provider, b)
  }

  lemma AccountCells(s: System, i: nat)
    requires Inv(s) && i < |Now(s).table.cfg.sources|
    ensures i < |Now(s).accountRefs|
    ensures var id := Now(s).table.cfg.sources[i].accountId;
      id != "" ==> Known(s, id) && Now(s).accountRefs[i] == Some(s.accountOf[id])
    ensures Now(s).table.cfg.sources[i].accountId == "" ==> Now(s).accountRefs[i].None?
  {
    hide LinkOk, CellsOk, Bounded, StatesConserved, QuotasConserved, Counts, Linked, Covers;
    LinkAt(Now(s), s.stateOf, s.quotaOf, s.accountOf, i);
  }

  lemma ViewAccounts(s: System)
    requires Inv(s)
    ensures SameAccountCells(At(s, s.current))
    ensures |At(s, s.current).accounts| == |Now(s).table.cfg.sources|
    ensures forall i :: 0 <= i < |At(s, s.current).accounts| && Now(s).table.cfg.sources[i].accountId != "" ==>
      var id := Now(s).table.cfg.sources[i].accountId;
      Known(s, id) && At(s, s.current).accounts[i] == Some(s.accounts[s.accountOf[id]])
  {
    hide Conserved, Wired, Bounded, Sane, Shaped, Compiled, CellsOk;
    forall i | 0 <= i < |Now(s).table.cfg.sources|
      ensures var id := Now(s).table.cfg.sources[i].accountId;
        (id != "" ==> Known(s, id) && Now(s).accountRefs[i] == Some(s.accountOf[id])) && (id == "" ==> Now(s).accountRefs[i].None?)
    {
      AccountCells(s, i);
    }
    var v, src := At(s, s.current), Now(s).table.cfg.sources;
    assert v.table.cfg.sources == src;
    forall i, j | 0 <= i < |src| && 0 <= j < |src| && src[i].accountId == src[j].accountId
      ensures v.accounts[i] == v.accounts[j]
    {
      assert Now(s).accountRefs[i] == Now(s).accountRefs[j];
    }
  }

  lemma AccountProvider(s: System, i: nat, j: nat)
    requires Inv(s) && i < |Now(s).table.cfg.sources| && j < |Now(s).table.cfg.sources|
    requires Now(s).table.cfg.sources[i].accountId == Now(s).table.cfg.sources[j].accountId != ""
    ensures Now(s).table.cfg.sources[i].provider == Now(s).table.cfg.sources[j].provider
  {
    hide Conserved, Wired, Bounded, CellsOk;
    var c := Now(s).table.cfg;
    assert LinkOk(Now(s), |s.states|, |s.quotas|, |s.accounts|);
    assert ValidSource(c, c.sources[i]) && ValidSource(c, c.sources[j]);
  }

  /** Serving one of two available accounts means it is not the more recent one. */
  lemma ServedIsLeastRecent(s: System, step: Step, provider: string, mine: string, other: string, x: nat)
    requires Inv(s) && Enabled(s, step) && ServedBy(s, step).Some? && mine != "" && other != ""
    requires ServesPooled(s, step, provider, mine, other) || ServesPooled(s, step, provider, other, mine)
    requires ServedBy(s, step).value.target < |Now(s).table.targets|
    requires x == Now(s).table.targets[ServedBy(s, step).value.target].source
    requires x < |Now(s).table.cfg.sources| && Now(s).table.cfg.sources[x].accountId == mine
    ensures Known(s, mine) && Known(s, other) && Last(s, mine) <= Last(s, other)
  {
    hide Conserved, Wired, Bounded, LinkOk, CellsOk, ServedBy, Sane, Choose, Turn, CanGrant, Available, Admits, SameAccountCells, Known, Pooling;
    ServiceGrantable(s, step);
    ViewAccounts(s);
    var v, g := At(s, s.current), ServedBy(s, step).value;
    var mi := WitnessOf(v, g.query, s.now, provider, mine);
    var oi := WitnessOf(v, g.query, s.now, provider, other);
    AccountProvider(s, x, mi);
    ChosenIsLeastRecent(v, g.query, s.now, provider, mine, other, mi, oi);
  }

  lemma WitnessOf(v: View, q: Query, now: int, provider: string, account: string) returns (i: nat)
    requires Shaped(v) && AccountAvailable(v, q, now, provider, account)
    ensures i < |v.table.cfg.sources| && v.table.cfg.sources[i].accountId == account && v.table.cfg.sources[i].provider == provider
  {
    hide Verdict, Room;
    var idx :| idx in Candidates(v, q) && Available(v, q, now, idx) && Cfg(v, idx).accountId == account && Cfg(v, idx).provider == provider;
    i := SourceOf(v, idx);
  }

  /** A dispatch moves exactly the clock and the count of the account that took it. */
  lemma AccountAfter(s: System, s': System, x: nat, account: string)
    requires Inv(s) && Dispatched(s, s', x) && Known(s, account)
    ensures Known(s', account)
    ensures var mine := Now(s).table.cfg.sources[x].accountId == account;
      && Last(s', account) == (if mine then s.sequence + 1 else Last(s, account))
      && Served(s', account) == (if mine then Served(s, account) + 1 else Served(s, account))
    ensures Now(s).table.cfg.sources[x].accountId == account ==> s'.sequence == s.sequence + 1
    ensures s.sequence <= s'.sequence
  {
    hide LinkOk, CellsOk, Bounded, StatesConserved, QuotasConserved, Wired, Counts, Count, TakeState;
    AccountCells(s, x);
    assert s'.log == s.log + [s'.log[|s.log|]];
    CountAppend(s.log, s'.log[|s.log|], OfAccount(Now(s).table.cfg, account));
  }

  lemma AlternateAfter(s: System, step: Step, s': System, x: nat, provider: string, a: string, b: string)
    requires Inv(s) && Enabled(s, step) && ServedBy(s, step).Some? && ServesPooled(s, step, provider, a, b)
    requires Dispatched(s, s', x) && Alternating(s, a, b)
    requires ServedBy(s, step).value.target < |Now(s).table.targets| && x == Now(s).table.targets[ServedBy(s, step).value.target].source
    ensures Alternating(s', a, b)
  {
    hide Inv, Enabled, ServedBy, ServesPooled, Served, Last, TakeState, BumpAccount;
    AccountAfter(s, s', x, a);
    AccountAfter(s, s', x, b);
    var mine := Now(s).table.cfg.sources[x].accountId;
    if mine == a {
      ServedIsLeastRecent(s, step, provider, a, b, x);
    } else if mine == b {
      ServedIsLeastRecent(s, step, provider, b, a, x);
    }
  }

  lemma AlternateUnchanged(s: System, s': System, a: string, b: string)
    requires SameClocks(s, s') && Alternating(s, a, b)
    ensures Alternating(s', a, b)
  {
  }

  /** One step keeps the two accounts alternating. */
  lemma AlternateStep(s: System, step: Step, provider: string, a: string, b: string)
    requires Inv(s) && Enabled(s, step) && !step.Adopt? && ServesPooled(s, step, provider, a, b)
    requires s.current < |s.routers| && Alternating(s, a, b)
    ensures var s' := Next(s, step); s'.current < |s'.routers| && Alternating(s', a, b)
  {
    hide Inv, Enabled, Next, ServedBy, ServesPooled, Alternating, TakeState, BumpAccount;
    var s' := Next(s, step);
    if ServedBy(s, step).None? {
      UnservedClocks(s, step);
      AlternateUnchanged(s, s', a, b);
    } else {
      var x := ServedClocks(s, step);
      AlternateAfter(s, step, s', x, provider, a, b);
    }
  }

  /** Both accounts are bound to some source, so a fresh router has counters for them. */
  ghost predicate Bound(c: Config, account: string) {
    account != "" && exists i :: 0 <= i < |c.sources| && c.sources[i].accountId == account
  }

  lemma InitAlternates(table: Table, now: int, a: string, b: string)
    requires Compiled(table) && Inv(Init(table, now)) && a != b && Bound(table.cfg, a) && Bound(table.cfg, b)
    ensures var s := Init(table, now); s.current < |s.routers| && Alternating(s, a, b)
  {
    hide Conserved, Wired, Bounded, Formed, Compiled;
    var s := Init(table, now);
    assert a in AccountIds(table.cfg.sources) && b in AccountIds(table.cfg.sources);
    FirstAccountFound(table.cfg.sources, a);
    FirstAccountFound(table.cfg.sources, b);
  }

  lemma {:induction false} AlternatingRun(table: Table, now: int, trace: seq<System>, steps: seq<Step>, n: nat, provider: string, a: string, b: string)
    requires IsRun(table, now, trace, steps) && OneGeneration(steps, n)
    requires a != b && Bound(table.cfg, a) && Bound(table.cfg, b)
    requires forall j :: 0 <= j < n && Inv(trace[j]) ==> ServesPooled(trace[j], steps[j], provider, a, b)
    ensures trace[n].current < |trace[n].routers| && Alternating(trace[n], a, b)
  {
    hide Inv, Init, Next, Enabled, Alternating, ServesPooled;
    if n == 0 {
      InitOk(table, now);
      CalmIsInv(trace[0]);
      InitAlternates(table, now, a, b);
    } else {
      AlternatingRun(table, now, trace, steps, n - 1, provider, a, b);
      RunKeeps(table, now, trace, steps, n - 1);
      AlternateStep(trace[n-1], steps[n-1], provider, a, b);
    }
  }

  /** Round-robin fairness: in any run from a fresh router whose dispatches are pooled, the dispatch
      counts of two always-available accounts of a round-robin provider differ by at most one. */
  lemma RoundRobinFairness(table: Table, now: int, trace: seq<System>, steps: seq<Step>, n: nat, provider: string, a: string, b: string)
    requires IsRun(table, now, trace, steps) && OneGeneration(steps, n)
    requires a != b && Bound(table.cfg, a) && Bound(table.cfg, b)
    requires forall j :: 0 <= j < n && Inv(trace[j]) ==> ServesPooled(trace[j], steps[j], provider, a, b)
    ensures trace[n].current < |trace[n].routers| && -1 <= Served(trace[n], a) - Served(trace[n], b) <= 1
  {
    hide IsRun, Served, Last, ServesPooled;
    AlternatingRun(table, now, trace, steps, n, provider, a, b);
  }
}
