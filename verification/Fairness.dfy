/** Fairness of weighted groups and of round-robin account pools, over whole runs. */
module Fairness {
  import opened Policy
  import opened Index
  import opened Preferences
  import opened Selection
  import opened Choosing
  import opened Counters
  import opened Scheduler
  import opened Conservation
  import opened Steps
  import opened Wakeups
  import opened Runs
  import opened Dispatching

  // ----- counting dispatches -----

  /** How many of the dispatches went to sources selected by `pick`. */
  ghost function Count(log: seq<Dispatch>, pick: set<nat>): nat {
    if log == [] then 0 else Count(log[..|log|-1], pick) + if log[|log|-1].source in pick then 1 else 0
  }

  lemma CountAppend(log: seq<Dispatch>, d: Dispatch, pick: set<nat>)
    ensures Count(log + [d], pick) == Count(log, pick) + if d.source in pick then 1 else 0
  {
    assert (log + [d])[..|log|] == log;
  }

  // ----- what a step does to the fairness counters -----

  ghost function Now(s: System): Link
    requires s.current < |s.routers|
  {
    s.routers[s.current].link
  }

  /** The fairness clocks: virtual finish times per source and account cell, last dispatch per account cell. */
  ghost predicate SameClocks(s: System, s': System) {
    && s'.current == s.current && s.current < |s.routers| && s'.current < |s'.routers| && Now(s') == Now(s)
    && s'.log == s.log && s'.sequence == s.sequence && s'.accountOf == s.accountOf
    && s'.routers[s.current].cursor == s.routers[s.current].cursor
    && |s'.states| == |s.states| && |s'.accounts| == |s.accounts|
    && (forall c :: 0 <= c < |s.states| ==> s'.states[c].virtualFinish == s.states[c].virtualFinish)
    && (forall c :: 0 <= c < |s.accounts| ==>
          s'.accounts[c].lastDispatch == s.accounts[c].lastDispatch && s'.accounts[c].virtualFinish == s.accounts[c].virtualFinish)
  }

  lemma CountersClocks(s: System, s': System)
    requires s.current < |s.routers| && SameCounters(s, s')
    ensures SameClocks(s, s')
  {
  }

  lemma ReleasedClocks(s: System, id: nat, o: Outcome)
    requires Inv(s) && o.elapsed >= 0.0
    ensures SameClocks(s, Released(s, id, o))
  {
    hide Conserved, Wired, Bounded, LinkOk, Signal;
    if id in s.leases {
      ReleaseKeeps(s, id, o);
      SignalCounters(Returned(s, id, o), s.current);
    }
  }

  lemma ToggledClocks(s: System, id: string, on: bool)
    requires Inv(s)
    ensures SameClocks(s, Toggled(s, id, on))
  {
    hide Conserved, Wired, Bounded, LinkOk, Signal;
    SwitchKeeps(s, id, on);
    if id in Ids(s.routers[s.current].link.table.cfg.sources) {
      SwitchRange(s, id);
      SignalCounters(Switched(s, id, on), s.current);
    }
  }

  /** Only a grant moves a fairness clock. */
  lemma UnservedClocks(s: System, step: Step)
    requires Inv(s) && Enabled(s, step) && ServedBy(s, step).None? && !step.Adopt?
    ensures SameClocks(s, Next(s, step))
  {
    hide Conserved, Wired, Bounded, Formed, Judge, Released, Toggled, SameCounters, SameClocks, ServedBy;
    match step
    case Release(id, o) => ReleasedClocks(s, id, o);
    case SetEnabled(id, on) => ToggledClocks(s, id, on);
    case _ => UnservedCounters(s, step); FormedCurrent(s); CountersClocks(s, Next(s, step));
  }

  lemma FormedCurrent(s: System)
    requires Inv(s)
    ensures s.current < |s.routers|
  {
  }

  // ----- weighted groups -----

  ghost predicate Members(c: Config, group: string, i: nat) {
    group in c.groups && i < |c.sources| && c.sources[i].id in c.groups[group].sources
  }

  /** Reciprocal of the configured weight, as the scheduler adds it per dispatch. */
  function Share(src: Source): real { 1.0 / Max(1, src.weight) as real }

  ghost predicate LinkShape(k: Link, n: nat) {
    |k.stateRefs| == |k.accountRefs| == |k.table.cfg.sources| && forall i :: 0 <= i < |k.stateRefs| ==> k.stateRefs[i] < n
  }

  ghost function Finish(s: System, i: nat): real
    requires s.current < |s.routers| && LinkShape(Now(s), |s.states|) && i < |Now(s).table.cfg.sources|
  {
    s.states[Now(s).stateRefs[i]].virtualFinish
  }

  /** Finish times count dispatches at each source's share, and no member is more than its own
      share ahead of another. */
  ghost predicate WeightedFair(s: System, group: string) {
    && s.current < |s.routers| && LinkShape(Now(s), |s.states|)
    && (forall i :: 0 <= i < |Now(s).table.cfg.sources| ==>
          Finish(s, i) == Count(s.log, {i}) as real * Share(Now(s).table.cfg.sources[i]))
    && (forall a: nat, b: nat :: Members(Now(s).table.cfg, group, a) && Members(Now(s).table.cfg, group, b) ==>
          Finish(s, a) <= Finish(s, b) + Share(Now(s).table.cfg.sources[a]))
  }

  /** A served request goes through the weighted group while every member could serve it. */
  ghost predicate ServesWeighted(s: System, step: Step, group: string)
    requires Inv(s) && Enabled(s, step)
  {
    ServedBy(s, step).Some? ==>
      var v, g := At(s, s.current), ServedBy(s, step).value;
      && Key(g.query.model) == group && InGroup(v, g.query, Weighted)
      && forall i: nat :: Members(v.table.cfg, group, i) ==> exists idx: nat :: Available(v, g.query, s.now, idx) && SourceOf(v, idx) == i
  }

  /** The chosen source has the least finish time of all members. */
  lemma ChosenFinishesFirst(v: View, q: Query, now: int, other: nat)
    requires Sane(v) && Shaped(v) && InGroup(v, q, Weighted) && Choose(v, q, now).best >= 0 && Available(v, q, now, other)
    ensures Available(v, q, now, Choose(v, q, now).best)
    ensures v.states[SourceOf(v, Choose(v, q, now).best)].virtualFinish <= v.states[SourceOf(v, other)].virtualFinish
  {
    hide Sane, Shaped, Available, Rank, LexLess, FullScan, AnyEligible;
    NoPreferences(v, q, Weighted);
    AvailableIsMember(v, q, now, other);
    PoolsStandAside(v, q, now, other);
    ChosenNotBeaten(v, q, now, other);
    InTable(v, q, now, other);
    InTable(v, q, now, Choose(v, q, now).best);
    RankIsScore(v, q, other, Choose(v, q, now).best);
  }

  lemma InTable(v: View, q: Query, now: int, idx: nat)
    requires Shaped(v) && Available(v, q, now, idx)
    ensures idx < |v.table.targets|
  {
  }

  lemma DistinctCells(s: System, i: nat, j: nat)
    requires Inv(s) && i < |Now(s).table.cfg.sources| && j < |Now(s).table.cfg.sources| && i != j
    ensures i < |Now(s).stateRefs| && j < |Now(s).stateRefs| && Now(s).stateRefs[i] != Now(s).stateRefs[j]
  {
    hide LinkOk, CellsOk, Bounded, Linked, Covers, QuotasConserved, AccountsConserved, Counts;
    var k := Now(s);
    LinkAt(k, s.stateOf, s.quotaOf, s.accountOf, i);
    LinkAt(k, s.stateOf, s.quotaOf, s.accountOf, j);
    DistinctIds(s, i, j);
  }

  lemma DistinctIds(s: System, i: nat, j: nat)
    requires Formed(s) && i < |Now(s).table.cfg.sources| && j < |Now(s).table.cfg.sources| && i != j
    ensures Now(s).table.cfg.sources[i].id != Now(s).table.cfg.sources[j].id
  {
    hide ValidSource, ValidGroup;
    assert Compiled(Now(s).table);
  }

  lemma ShapeOk(s: System)
    requires Inv(s)
    ensures s.current < |s.routers| && LinkShape(Now(s), |s.states|)
  {
    hide Conserved, Wired, Bounded, Compiled, CellsOk;
  }

  lemma ShareGrows(n: nat, x: real)
    ensures (n + 1) as real * x == n as real * x + x
  {
  }

  /** `s'` is `s` after one dispatch to source `x`, as far as the clocks are concerned. */
  ghost predicate Dispatched(s: System, s': System, x: nat) {
    && s.current < |s.routers| && s'.current == s.current && s'.current < |s'.routers| && Now(s') == Now(s)
    && s'.accountOf == s.accountOf && s'.routers[s.current].cursor == s.routers[s.current].cursor + 1
    && var k := Now(s);
    && x < |k.table.cfg.sources| && x < |k.stateRefs| && x < |k.accountRefs| && k.stateRefs[x] < |s.states|
    && (k.accountRefs[x].Some? ==> k.accountRefs[x].value < |s.accounts|)
    && s'.states == s.states[k.stateRefs[x] := TakeState(s.states[k.stateRefs[x]], k.table.cfg.sources[x])]
    && |s'.log| == |s.log| + 1 && s'.log[..|s.log|] == s.log && s'.log[|s.log|].source == x
    && s'.sequence == (if k.accountRefs[x].Some? then s.sequence + 1 else s.sequence)
    && s'.accounts == (if k.accountRefs[x].None? then s.accounts
         else s.accounts[k.accountRefs[x].value :=
           BumpAccount(s.accounts[k.accountRefs[x].value], s.sequence + 1, AccountWeight(k.table.cfg, k.table.cfg.sources[x]))])
  }

  lemma ServedClocks(s: System, step: Step) returns (x: nat)
    requires Inv(s) && Enabled(s, step) && ServedBy(s, step).Some?
    ensures s.current < |s.routers| && ServedBy(s, step).value.target < |Now(s).table.targets|
    ensures x == Now(s).table.targets[ServedBy(s, step).value.target].source
    ensures Dispatched(s, Next(s, step), x)
  {
    hide Conserved, Wired, Bounded, LinkOk, Next, ServedBy, BumpAccount, TakeState;
    ServiceIsGrant(s, step);
    x := Now(s).table.targets[ServedBy(s, step).value.target].source;
  }

  /** Within a generation the rotation moves on by one with every lease, and never otherwise. */
  lemma CursorCountsLeases(s: System, step: Step)
    requires Inv(s) && Enabled(s, step) && !step.Adopt?
    ensures var s' := Next(s, step);
      && s'.current == s.current < |s.routers| && s'.current < |s'.routers|
      && s'.routers[s'.current].cursor == s.routers[s.current].cursor + (|s'.log| - |s.log|)
      && |s.log| <= |s'.log| <= |s.log| + 1
  {
    hide Inv, Enabled, Next, ServedBy, TakeState, BumpAccount;
    if ServedBy(s, step).None? {
      UnservedClocks(s, step);
    } else {
      var x := ServedClocks(s, step);
    }
  }

  /** A dispatch raises its own source's finish time by its share and no other. */
  lemma FinishAfter(s: System, s': System, x: nat, i: nat)
    requires Inv(s) && Dispatched(s, s', x) && LinkShape(Now(s), |s.states|) && i < |Now(s).table.cfg.sources|
    ensures LinkShape(Now(s'), |s'.states|)
    ensures Finish(s', i) == (if i == x then Finish(s, i) + Share(Now(s).table.cfg.sources[i]) else Finish(s, i))
    ensures Count(s'.log, {i}) == (if i == x then Count(s.log, {i}) + 1 else Count(s.log, {i}))
  {
    hide Inv, Count;
    assert s'.log == s.log + [s'.log[|s.log|]];
    CountAppend(s.log, s'.log[|s.log|], {i});
    if i != x {
      DistinctCells(s, i, x);
    }
  }

  lemma ServedSource(s: System, step: Step, group: string, b: nat)
    requires Inv(s) && Enabled(s, step) && ServesWeighted(s, step, group) && ServedBy(s, step).Some?
    requires LinkShape(Now(s), |s.states|) && Members(Now(s).table.cfg, group, b)
    requires ServedBy(s, step).value.target < |Now(s).table.targets|
    ensures var x := Now(s).table.targets[ServedBy(s, step).value.target].source;
      x < |Now(s).table.cfg.sources| && Finish(s, x) <= Finish(s, b)
  {
    hide Conserved, Wired, Bounded, LinkOk, ServedBy, Sane, Shaped, Choose, Turn, CanGrant, Verdict, Room;
    ServiceGrantable(s, step);
    var v, g := At(s, s.current), ServedBy(s, step).value;
    var idx: nat :| Available(v, g.query, s.now, idx) && SourceOf(v, idx) == b;
    ChosenFinishesFirst(v, g.query, s.now, idx);
  }

  /** Finish times still count dispatches after one more. */
  lemma CountsAfter(s: System, s': System, x: nat, group: string)
    requires Inv(s) && Dispatched(s, s', x) && WeightedFair(s, group)
    ensures LinkShape(Now(s'), |s'.states|)
    ensures forall i :: 0 <= i < |Now(s').table.cfg.sources| ==>
      Finish(s', i) == Count(s'.log, {i}) as real * Share(Now(s').table.cfg.sources[i])
  {
    hide Inv, LinkShape, Share, Count, TakeState, BumpAccount;
    var c := Now(s).table.cfg;
    FinishAfter(s, s', x, x);
    forall i | 0 <= i < |c.sources|
      ensures Finish(s', i) == Count(s'.log, {i}) as real * Share(c.sources[i])
    {
      FinishAfter(s, s', x, i);
      ShareGrows(Count(s.log, {i}), Share(c.sources[i]));
    }
  }

  lemma FairAfter(s: System, step: Step, s': System, x: nat, group: string, a: nat, b: nat)
    requires Inv(s) && Enabled(s, step) && ServesWeighted(s, step, group) && ServedBy(s, step).Some?
    requires Dispatched(s, s', x) && WeightedFair(s, group)
    requires ServedBy(s, step).value.target < |Now(s).table.targets| && x == Now(s).table.targets[ServedBy(s, step).value.target].source
    requires Members(Now(s).table.cfg, group, a) && Members(Now(s).table.cfg, group, b)
    ensures LinkShape(Now(s'), |s'.states|)
    ensures Finish(s', a) <= Finish(s', b) + Share(Now(s).table.cfg.sources[a])
  {
    hide Inv, Enabled, ServedBy, ServesWeighted, LinkShape, Share, Count, TakeState, BumpAccount;
    var c := Now(s).table.cfg;
    FinishAfter(s, s', x, a);
    FinishAfter(s, s', x, b);
    ServedSource(s, step, group, b);
    ShareNonnegative(c.sources[b]);
    ShareNonnegative(c.sources[a]);
  }

  lemma FairUnchanged(s: System, s': System, group: string)
    requires SameClocks(s, s') && WeightedFair(s, group)
    ensures WeightedFair(s', group)
  {
    hide Count, Share;
    assert LinkShape(Now(s'), |s'.states|);
    assert forall i :: 0 <= i < |Now(s).table.cfg.sources| ==> Finish(s', i) == Finish(s, i);
  }

  /** One step keeps the bound. */
  lemma WeightedStep(s: System, step: Step, group: string)
    requires Inv(s) && Enabled(s, step) && !step.Adopt? && ServesWeighted(s, step, group) && WeightedFair(s, group)
    ensures WeightedFair(Next(s, step), group)
  {
    hide Inv, Enabled, Next, ServedBy, ServesWeighted, LinkShape, Members, Share, Count, TakeState, BumpAccount;
    var s' := Next(s, step);
    if ServedBy(s, step).None? {
      UnservedClocks(s, step);
      FairUnchanged(s, s', group);
    } else {
      var x := ServedClocks(s, step);
      CountsAfter(s, s', x, group);
      var c := Now(s).table.cfg;
      forall a: nat, b: nat | Members(c, group, a) && Members(c, group, b)
        ensures a < |c.sources| && b < |c.sources| && Finish(s', a) <= Finish(s', b) + Share(c.sources[a])
      {
        MemberRange(c, group, a);
        MemberRange(c, group, b);
        FairAfter(s, step, s', x, group, a, b);
      }
    }
  }

  lemma MemberRange(c: Config, group: string, i: nat)
    requires Members(c, group, i)
    ensures i < |c.sources|
  {
  }

  lemma ShareNonnegative(src: Source)
    ensures Share(src) >= 0.0
  {
  }

  /** The first `n` steps of a run stay in one generation. */
  ghost predicate OneGeneration(steps: seq<Step>, n: nat) {
    n <= |steps| && forall j :: 0 <= j < n ==> !steps[j].Adopt?
  }

  lemma InitFinish(table: Table, now: int)
    requires Compiled(table) && Inv(Init(table, now))
    ensures var s := Init(table, now);
      && s.current < |s.routers| && Now(s).table == table && s.log == []
      && LinkShape(Now(s), |s.states|) && forall i :: 0 <= i < |table.cfg.sources| ==> Finish(s, i) == 0.0
  {
    hide Conserved, Wired, Bounded, Compiled, LinkOk;
    ShapeOk(Init(table, now));
  }

  lemma InitFair(table: Table, now: int, group: string)
    requires Compiled(table) && Inv(Init(table, now))
    ensures WeightedFair(Init(table, now), group)
  {
    hide Conserved, Wired, Bounded, Compiled, Members, LinkOk;
    var s := Init(table, now);
    ShapeOk(s);
    hide Init, Finish, Formed;
    InitFinish(table, now);
    forall a: nat | Members(table.cfg, group, a)
      ensures a < |table.cfg.sources| && Share(table.cfg.sources[a]) >= 0.0
    {
      MemberRange(table.cfg, group, a);
      ShareNonnegative(table.cfg.sources[a]);
    }
  }

  lemma {:induction false} WeightedRun(table: Table, now: int, trace: seq<System>, steps: seq<Step>, n: nat, group: string)
    requires IsRun(table, now, trace, steps) && OneGeneration(steps, n)
    requires forall j :: 0 <= j < n && Inv(trace[j]) ==> ServesWeighted(trace[j], steps[j], group)
    ensures WeightedFair(trace[n], group)
  {
    hide Inv, Init, Next, Enabled, WeightedFair, ServesWeighted;
    if n == 0 {
      InitOk(table, now);
      CalmIsInv(trace[0]);
      InitFair(table, now, group);
    } else {
      WeightedRun(table, now, trace, steps, n - 1, group);
      RunKeeps(table, now, trace, steps, n - 1);
      WeightedStep(trace[n-1], steps[n-1], group);
    }
  }

  /** Weighted fairness: in any run from a fresh router where every dispatch goes through one
      weighted group and all members stay dispatchable, no member's dispatches per weight run
      ahead of another's by more than one dispatch of its own. */
  lemma WeightedFairness(table: Table, now: int, trace: seq<System>, steps: seq<Step>, n: nat, group: string, a: nat, b: nat)
    requires IsRun(table, now, trace, steps) && OneGeneration(steps, n)
    requires forall j :: 0 <= j < n && Inv(trace[j]) ==> ServesWeighted(trace[j], steps[j], group)
    requires trace[n].current < |trace[n].routers|
    requires Members(Now(trace[n]).table.cfg, group, a) && Members(Now(trace[n]).table.cfg, group, b)
    ensures var s, c := trace[n], Now(trace[n]).table.cfg;
      var wa, wb := Max(1, c.sources[a].weight) as real, Max(1, c.sources[b].weight) as real;
      Count(s.log, {a}) as real / wa - Count(s.log, {b}) as real / wb <= 1.0 / wa
  {
    hide Inv, Init, Next, Enabled, ServesWeighted, Count, Compiled;
    WeightedRun(table, now, trace, steps, n, group);
    var s, c := trace[n], Now(trace[n]).table.cfg;
    ShareIsQuotient(Count(s.log, {a}), c.sources[a]);
    ShareIsQuotient(Count(s.log, {b}), c.sources[b]);
  }

  lemma ShareIsQuotient(n: nat, src: Source)
    ensures n as real * Share(src) == n as real / Max(1, src.weight) as real
  {
  }
}
