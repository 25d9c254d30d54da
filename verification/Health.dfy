/** What the outcome of an attempt means for later choices, and what of it survives a hot swap. */
module Health {
  import opened Policy
  import opened Index
  import opened Selection
  import opened Counters
  import opened Scheduler
  import opened Conservation
  import opened Steps

  // ----- after a release -----

  ghost function Later(s: System, id: nat, o: Outcome): (s': System)
    requires Inv(s) && id in s.leases && o.elapsed >= 0.0
    ensures Formed(s') && s'.routers == s.routers
  {
    ReleaseKeeps(s, id, o);
    Returned(s, id, o)
  }

  lemma CellsAfter(s: System, id: nat, o: Outcome)
    requires Inv(s) && id in s.leases && o.elapsed >= 0.0
    ensures var l, s' := s.leases[id], Later(s, id, o);
      && LeaseInRange(s, l)
      && s'.states == s.states[l.stateRef := ReleasedState(s.states[l.stateRef], s.now, o)]
      && s'.quotas == s.quotas[l.quotaRef := ReleasedQuota(s.quotas[l.quotaRef], s.now, o)]
  {
    hide Formed, Wired, Bounded, StatesConserved, QuotasConserved, AccountsConserved;
    ReleaseKeeps(s, id, o);
  }

  /** Administrative releases and client cancellations give capacity back and say nothing about the
      source. */
  lemma NeutralRelease(s: System, id: nat, o: Outcome)
    requires Inv(s) && id in s.leases && o.elapsed >= 0.0 && o.status in {-1, 499}
    ensures var l, s' := s.leases[id], Later(s, id, o);
      && LeaseInRange(s, l)
      && s'.states == s.states[l.stateRef := s.states[l.stateRef].(active := s.states[l.stateRef].active - 1)]
      && s'.quotas == s.quotas[l.quotaRef := s.quotas[l.quotaRef].(active := s.quotas[l.quotaRef].active - 1)]
  {
    hide Inv, Later;
    CellsAfter(s, id, o);
  }

  // ----- across a hot swap -----

  lemma {:induction false} RefreshedAt(cells: seq<SourceState>, refs: seq<nat>, sources: seq<Source>, n: nat, i: nat)
    requires n <= |sources| && n <= |refs| && (forall k :: 0 <= k < n ==> refs[k] < |cells|) && i < n
    requires forall k, m :: 0 <= k < m < n ==> refs[k] != refs[m]
    ensures RefreshStates(cells, refs, sources, n)[refs[i]] == Adopted(cells[refs[i]], sources[i])
  {
    if i == n - 1 {
      RefreshUntouched(cells, refs, sources, n - 1, refs[i]);
    } else {
      RefreshedAt(cells, refs, sources, n - 1, i);
    }
  }

  lemma {:induction false} RefreshUntouched(cells: seq<SourceState>, refs: seq<nat>, sources: seq<Source>, n: nat, c: nat)
    requires n <= |sources| && n <= |refs| && (forall k :: 0 <= k < n ==> refs[k] < |cells|) && c < |cells|
    requires forall k :: 0 <= k < n ==> refs[k] != c
    ensures RefreshStates(cells, refs, sources, n)[c] == cells[c]
  {
    if n > 0 {
      RefreshUntouched(cells, refs, sources, n - 1, c);
    }
  }

  lemma DistinctRefs(table: Table, stateOf: map<string, nat>, quotaOf: map<string, nat>, accountOf: map<string, nat>)
    requires Compiled(table) && Covers(table.cfg, stateOf, quotaOf, accountOf) && Injective(stateOf)
    ensures var k := Linked(table, stateOf, quotaOf, accountOf);
      |k.stateRefs| == |table.cfg.sources| && forall i, j :: 0 <= i < j < |k.stateRefs| ==> k.stateRefs[i] != k.stateRefs[j]
  {
    var k := Linked(table, stateOf, quotaOf, accountOf);
    forall i, j | 0 <= i < j < |table.cfg.sources| ensures k.stateRefs[i] != k.stateRefs[j] {
      LinkAt(k, stateOf, quotaOf, accountOf, i);
      LinkAt(k, stateOf, quotaOf, accountOf, j);
    }
  }

  lemma RelinkedInjective(s: System, table: Table)
    requires Conserved(s)
    ensures var s1 := FreshCells(Relink(s, table.cfg), table); Injective(s1.stateOf)
  {
    hide Counts;
    RelinkConserves(s, table);
  }

  /** A source that both configurations name keeps its counter and its health: outstanding leases,
      cooldown, latency and fair share; its block is lifted only by switching it on again. */
  lemma HealthSurvives(s: System, table: Table, i: nat)
    requires Inv(s) && Adoptable(s, table) && i < |table.cfg.sources| && table.cfg.sources[i].id in s.stateOf
    ensures var s', src := Swapped(s, table), table.cfg.sources[i];
      var c := s.stateOf[src.id];
      && c < |s.states| <= |s'.states| && src.id in s'.stateOf && s'.stateOf[src.id] == c
      && s'.states[c] == s.states[c].(enabled := src.enabled, blocked := s.states[c].blocked && (s.states[c].enabled || !src.enabled))
  {
    hide Compiled, LinkOk, Bounded, Wired, CellsOk, Conserved, RefreshStates, Linked, Covers, Swapped, FreshCells, Relink;
    var s1 := Prepared(s, table);
    AdoptLink(s, table);
    var k := Linked(table, s1.stateOf, s1.quotaOf, s1.accountOf);
    KnownStays(s, table, i);
    LinkedTable(table, s1.stateOf, s1.quotaOf, s1.accountOf);
    RelinkedInjective(s, table);
    DistinctRefs(table, s1.stateOf, s1.quotaOf, s1.accountOf);
    LinkAt(k, s1.stateOf, s1.quotaOf, s1.accountOf, i);
    LinkRefs(k, |s1.states|, |s1.quotas|, |s1.accounts|);
    SwappedStates(s, table);
    RefreshedAt(s1.states, k.stateRefs, table.cfg.sources, |table.cfg.sources|, i);
  }

  ghost function Prepared(s: System, table: Table): System
    requires Conserved(s)
  {
    FreshCells(Relink(s, table.cfg), table)
  }

  lemma SwappedStates(s: System, table: Table)
    requires Conserved(s) && Compiled(table) && s.current < |s.routers|
    ensures var s1 := Prepared(s, table);
      && Covers(table.cfg, s1.stateOf, s1.quotaOf, s1.accountOf)
      && var k := Linked(table, s1.stateOf, s1.quotaOf, s1.accountOf);
      && LinkOk(k, |s1.states|, |s1.quotas|, |s1.accounts|) && k.table == table
      && |k.stateRefs| == |table.cfg.sources| && (forall j :: 0 <= j < |k.stateRefs| ==> k.stateRefs[j] < |s1.states|)
      && Swapped(s, table).stateOf == s1.stateOf
      && Swapped(s, table).states == RefreshStates(s1.states, k.stateRefs, table.cfg.sources, |table.cfg.sources|)
  {
    hide Compiled, Conserved, RefreshStates, RefreshLimits, Linked, Covers, FreshCells, Relink, LinkOk;
    AdoptLink(s, table);
    var s1 := Prepared(s, table);
    LinkedTable(table, s1.stateOf, s1.quotaOf, s1.accountOf);
    LinkRefs(Linked(table, s1.stateOf, s1.quotaOf, s1.accountOf), |s1.states|, |s1.quotas|, |s1.accounts|);
  }

  lemma LinkRefs(k: Link, ns: nat, nq: nat, na: nat)
    requires LinkOk(k, ns, nq, na)
    ensures |k.stateRefs| == |k.table.cfg.sources| && forall i :: 0 <= i < |k.stateRefs| ==> k.stateRefs[i] < ns
  {
    hide Compiled;
  }

  lemma KnownStays(s: System, table: Table, i: nat)
    requires Conserved(s) && i < |table.cfg.sources| && table.cfg.sources[i].id in s.stateOf
    ensures var s1, id := FreshCells(Relink(s, table.cfg), table), table.cfg.sources[i].id;
      && s.stateOf[id] < |s.states| <= |s1.states| && id in s1.stateOf && s1.stateOf[id] == s.stateOf[id]
      && s1.states[s.stateOf[id]] == s.states[s.stateOf[id]]
  {
    hide Counts, QuotasConserved, AccountsConserved;
    assert table.cfg.sources[i].id in Ids(table.cfg.sources);
  }

  /** Switching a source on or off reaches exactly the state it points at; switching on also lifts a
      block. An unknown id changes nothing. */
  lemma SwitchMeans(s: System, id: string, on: bool, i: nat)
    requires Inv(s)
    ensures id !in Ids(s.routers[s.current].link.table.cfg.sources) ==> Toggled(s, id, on) == s
    ensures var k := s.routers[s.current].link;
      i < |k.table.cfg.sources| && k.table.cfg.sources[i].id == id ==>
        && i < |k.stateRefs| && k.stateRefs[i] < |s.states|
        && var st := s.states[k.stateRefs[i]];
           Toggled(s, id, on).states == s.states[k.stateRefs[i] := st.(enabled := on, blocked := st.blocked && !on)]
  {
    hide Conserved, Wired, Bounded, Compiled, SignalQueue, Choose;
    var k := s.routers[s.current].link;
    if i < |k.table.cfg.sources| && k.table.cfg.sources[i].id == id {
      assert id in Ids(k.table.cfg.sources);
      SwitchRange(s, id);
      UniqueIds(k.table, i, FirstId(k.table.cfg.sources, id));
    }
  }

  lemma UniqueIds(table: Table, i: nat, j: nat)
    requires Compiled(table) && i < |table.cfg.sources| && j < |table.cfg.sources| && table.cfg.sources[i].id == table.cfg.sources[j].id
    ensures i == j
  {
  }
}
