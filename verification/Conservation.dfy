/** Every single transition of the scheduler keeps the counters, pointers and id tables consistent. Conclusions of the form
    `var kept := Inv(...); kept` keep the invariant folded: the verifier then settles it as one fact
    from the lemmas called, instead of splitting it into its conjuncts. */
module Conservation {
  import opened Policy
  import opened Index
  import opened Selection
  import opened Counters
  import opened Scheduler

  // ----- granting -----

  lemma LinkAt(k: Link, stateOf: map<string, nat>, quotaOf: map<string, nat>, accountOf: map<string, nat>, i: nat)
    requires Covers(k.table.cfg, stateOf, quotaOf, accountOf) && k == Linked(k.table, stateOf, quotaOf, accountOf)
    requires i < |k.table.cfg.sources|
    ensures |k.stateRefs| == |k.quotaRefs| == |k.accountRefs| == |k.table.cfg.sources|
    ensures var src := k.table.cfg.sources[i];
      && src.id in stateOf && k.stateRefs[i] == stateOf[src.id]
      && src.quotaDomain in quotaOf && k.quotaRefs[i] == quotaOf[src.quotaDomain]
      && (k.accountRefs[i].Some? <==> src.accountId != "")
      && (k.accountRefs[i].Some? ==> src.accountId in accountOf && k.accountRefs[i].value == accountOf[src.accountId])
  {
    var src := k.table.cfg.sources;
    assert src[i].id in Ids(src) && src[i].quotaDomain in Domains(src);
    if src[i].accountId != "" {
      assert src[i].accountId in AccountIds(src);
    }
  }

  lemma GrantStates(cells: seq<SourceState>, known: map<string, nat>, leases: Leases, id: nat, l: Lease, st: SourceState)
    requires StatesConserved(cells, known, leases) && id !in leases
    requires l.source in known && known[l.source] == l.stateRef < |cells| && st.active == cells[l.stateRef].active + 1
    ensures StatesConserved(cells[l.stateRef := st], known, leases[id := l])
  {
    hide Counts;
    Take(StateActive(cells), StateHolders(leases), id, Some(l.stateRef));
    assert StateActive(cells[l.stateRef := st]) == Plus(StateActive(cells), Some(l.stateRef), 1);
    assert StateHolders(leases[id := l]) == StateHolders(leases)[id := Some(l.stateRef)];
  }

  lemma GrantQuotas(cells: seq<Quota>, known: map<string, nat>, leases: Leases, id: nat, l: Lease, q: Quota)
    requires QuotasConserved(cells, known, leases) && id !in leases
    requires l.domain in known && known[l.domain] == l.quotaRef < |cells| && q.active == cells[l.quotaRef].active + 1
    ensures QuotasConserved(cells[l.quotaRef := q], known, leases[id := l])
  {
    hide Counts;
    Take(QuotaActive(cells), QuotaHolders(leases), id, Some(l.quotaRef));
    assert QuotaActive(cells[l.quotaRef := q]) == Plus(QuotaActive(cells), Some(l.quotaRef), 1);
    assert QuotaHolders(leases[id := l]) == QuotaHolders(leases)[id := Some(l.quotaRef)];
  }

  lemma GrantAccounts(cells: seq<Quota>, known: map<string, nat>, leases: Leases, id: nat, l: Lease, cells': seq<Quota>)
    requires AccountsConserved(cells, known, leases) && id !in leases
    requires l.accountRef.Some? ==> l.account in known && known[l.account] == l.accountRef.value < |cells|
    requires QuotaActive(cells') == Plus(QuotaActive(cells), l.accountRef, 1)
    ensures AccountsConserved(cells', known, leases[id := l])
  {
    hide Counts;
    Take(QuotaActive(cells), AccountHolders(leases), id, l.accountRef);
    assert AccountHolders(leases[id := l]) == AccountHolders(leases)[id := l.accountRef];
    assert |QuotaActive(cells')| == |QuotaActive(cells)|;
  }

  lemma ActiveAfter(cells: seq<Quota>, a: Option<nat>, q: Quota, d: int)
    requires a.Some? ==> a.value < |cells| && q.active == cells[a.value].active + d
    ensures QuotaActive(if a.None? then cells else cells[a.value := q]) == Plus(QuotaActive(cells), a, d)
  {
  }

  ghost predicate CanGrant(s: System, idx: nat) {
    Inv(s) && idx < |s.routers[s.current].link.table.targets| && s.active < s.routers[s.current].link.table.cfg.maxInflight
  }

  lemma CanGrantIsGrantable(s: System, idx: nat)
    requires CanGrant(s, idx)
    ensures Grantable(s, s.routers[s.current].link, idx)
  {
    var k := s.routers[s.current].link;
    assert LinkOk(k, |s.states|, |s.quotas|, |s.accounts|);
  }

  ghost predicate GrantContext(s: System, idx: nat) {
    Conserved(s) && s.current < |s.routers| && Wired(s) && Grantable(s, s.routers[s.current].link, idx)
  }

  lemma GrantConservesStates(s: System, idx: nat, q: Query)
    requires GrantContext(s, idx)
    ensures var s' := Grant(s, s.current, idx, q); StatesConserved(s'.states, s'.stateOf, s'.leases)
  {
    var k := s.routers[s.current].link;
    var i := k.table.targets[idx].source;
    LinkAt(k, s.stateOf, s.quotaOf, s.accountOf, i);
    GrantStates(s.states, s.stateOf, s.leases, |s.log|, LeaseOf(k, i), TakeState(s.states[k.stateRefs[i]], k.table.cfg.sources[i]));
  }

  lemma GrantConservesQuotas(s: System, idx: nat, q: Query)
    requires GrantContext(s, idx)
    ensures var s' := Grant(s, s.current, idx, q); QuotasConserved(s'.quotas, s'.quotaOf, s'.leases)
  {
    var k := s.routers[s.current].link;
    var i := k.table.targets[idx].source;
    LinkAt(k, s.stateOf, s.quotaOf, s.accountOf, i);
    GrantQuotas(s.quotas, s.quotaOf, s.leases, |s.log|, LeaseOf(k, i), Bump(s.quotas[k.quotaRefs[i]]));
  }

  lemma GrantConservesAccounts(s: System, idx: nat, q: Query)
    requires GrantContext(s, idx)
    ensures var s' := Grant(s, s.current, idx, q); AccountsConserved(s'.accounts, s'.accountOf, s'.leases)
  {
    var k := s.routers[s.current].link;
    var i := k.table.targets[idx].source;
    var a, s' := k.accountRefs[i], Grant(s, s.current, idx, q);
    LinkAt(k, s.stateOf, s.quotaOf, s.accountOf, i);
    ActiveAfter(s.accounts, a, if a.Some? then s'.accounts[a.value] else FreshQuota(0), 1);
    GrantAccounts(s.accounts, s.accountOf, s.leases, |s.log|, LeaseOf(k, i), s'.accounts);
  }

  lemma GrantConservesTotal(s: System, idx: nat, q: Query)
    requires s.current < |s.routers| && Grantable(s, s.routers[s.current].link, idx)
    requires s.active == |s.leases| && forall l :: l in s.leases ==> l < |s.log|
    ensures var s' := Grant(s, s.current, idx, q); s'.active == |s'.leases| && forall l :: l in s'.leases ==> l < |s'.log|
  {
    var s' := Grant(s, s.current, idx, q);
    assert s'.leases.Keys == s.leases.Keys + {|s.log|};
    assert |s'.leases| == |s'.leases.Keys| && |s.leases| == |s.leases.Keys|;
  }

  lemma GrantConserves(s: System, idx: nat, q: Query)
    requires GrantContext(s, idx)
    ensures var kept := Conserved(Grant(s, s.current, idx, q)); kept
  {
    hide StatesConserved, QuotasConserved, AccountsConserved, Linked, Covers, Grant, Grantable;
    GrantConservesTotal(s, idx, q);
    GrantConservesStates(s, idx, q);
    GrantConservesQuotas(s, idx, q);
    GrantConservesAccounts(s, idx, q);
  }

  lemma TakeStateOk(cells: seq<SourceState>, c: nat, src: Source)
    requires CellsOk(cells) && c < |cells|
    ensures CellsOk(cells[c := TakeState(cells[c], src)])
  {
    assert 1.0 / Max(1, src.weight) as real >= 0.0;
  }

  /** Granting a lease keeps every invariant. */
  lemma GrantKeeps(s: System, idx: nat, q: Query)
    requires CanGrant(s, idx)
    ensures Grantable(s, s.routers[s.current].link, idx)
    ensures var kept := Inv(Grant(s, s.current, idx, q)); kept
  {
    hide Conserved, LinkOk, Linked, Covers, QueueOk, CellsOk;
    assert GrantContext(s, idx) by { CanGrantIsGrantable(s, idx); }
    CanGrantIsGrantable(s, idx);
    GrantConserves(s, idx, q);
    var k := s.routers[s.current].link;
    var i := k.table.targets[idx].source;
    TakeStateOk(s.states, k.stateRefs[i], k.table.cfg.sources[i]);
  }

  // ----- releasing -----

  lemma LeaseRanges(s: System, id: nat)
    requires Conserved(s) && id in s.leases
    ensures LeaseInRange(s, s.leases[id])
  {
    assert id in StateHolders(s.leases) && id in QuotaHolders(s.leases) && id in AccountHolders(s.leases);
  }

  lemma ReleaseStates(cells: seq<SourceState>, known: map<string, nat>, leases: Leases, id: nat, st: SourceState)
    requires StatesConserved(cells, known, leases) && id in leases && leases[id].stateRef < |cells|
    requires st.active == cells[leases[id].stateRef].active - 1
    ensures StatesConserved(cells[leases[id].stateRef := st], known, leases - {id})
    ensures st.active >= 0
  {
    var l := leases[id];
    GiveBack(StateActive(cells), StateHolders(leases), id);
    assert StateActive(cells[l.stateRef := st]) == Plus(StateActive(cells), Some(l.stateRef), -1);
    assert StateHolders(leases - {id}) == StateHolders(leases) - {id};
    assert id in On(StateHolders(leases), l.stateRef);
  }

  lemma ReleaseQuotas(cells: seq<Quota>, known: map<string, nat>, leases: Leases, id: nat, q: Quota)
    requires QuotasConserved(cells, known, leases) && id in leases && leases[id].quotaRef < |cells|
    requires q.active == cells[leases[id].quotaRef].active - 1
    ensures QuotasConserved(cells[leases[id].quotaRef := q], known, leases - {id})
  {
    var l := leases[id];
    GiveBack(QuotaActive(cells), QuotaHolders(leases), id);
    assert QuotaActive(cells[l.quotaRef := q]) == Plus(QuotaActive(cells), Some(l.quotaRef), -1);
    assert QuotaHolders(leases - {id}) == QuotaHolders(leases) - {id};
  }

  lemma ReleaseAccounts(cells: seq<Quota>, known: map<string, nat>, leases: Leases, id: nat, cells': seq<Quota>)
    requires AccountsConserved(cells, known, leases) && id in leases
    requires leases[id].accountRef.Some? ==> leases[id].accountRef.value < |cells|
    requires QuotaActive(cells') == Plus(QuotaActive(cells), leases[id].accountRef, -1)
    ensures AccountsConserved(cells', known, leases - {id})
  {
    GiveBack(QuotaActive(cells), AccountHolders(leases), id);
    assert AccountHolders(leases - {id}) == AccountHolders(leases) - {id};
    assert |QuotaActive(cells')| == |QuotaActive(cells)|;
  }

  lemma ReleaseConservesAccounts(s: System, id: nat, o: Outcome)
    requires Conserved(s) && id in s.leases && LeaseInRange(s, s.leases[id])
    ensures AccountsConserved(Returned(s, id, o).accounts, s.accountOf, s.leases - {id})
  {
    var a, s' := s.leases[id].accountRef, Returned(s, id, o);
    ActiveAfter(s.accounts, a, if a.Some? then s'.accounts[a.value] else FreshQuota(0), -1);
    ReleaseAccounts(s.accounts, s.accountOf, s.leases, id, s'.accounts);
  }

  lemma ReleaseConserves(s: System, id: nat, o: Outcome)
    requires Conserved(s) && id in s.leases && LeaseInRange(s, s.leases[id])
    ensures var kept := Conserved(Returned(s, id, o)); kept
    ensures s.states[s.leases[id].stateRef].active >= 1
  {
    var l := s.leases[id];
    ReleaseStates(s.states, s.stateOf, s.leases, id, ReleasedState(s.states[l.stateRef], s.now, o));
    ReleaseQuotas(s.quotas, s.quotaOf, s.leases, id, ReleasedQuota(s.quotas[l.quotaRef], s.now, o));
    ReleaseConservesAccounts(s, id, o);
    assert Returned(s, id, o).leases.Keys == s.leases.Keys - {id};
  }

  /** Returning a lease taken in any generation keeps every invariant. */
  lemma ReleaseKeeps(s: System, id: nat, o: Outcome)
    requires Inv(s) && id in s.leases && o.elapsed >= 0.0
    ensures LeaseInRange(s, s.leases[id])
    ensures var kept := Inv(Returned(s, id, o)); kept
  {
    hide Conserved, LinkOk, Linked, Covers, QueueOk, CellsOk;
    LeaseRanges(s, id);
    ReleaseConserves(s, id, o);
    ReleasedStateOk(s.states, s.leases[id].stateRef, s.now, o);
  }

  lemma ReleasedStateOk(cells: seq<SourceState>, c: nat, now: int, o: Outcome)
    requires CellsOk(cells) && c < |cells| && cells[c].active >= 1 && o.elapsed >= 0.0
    ensures CellsOk(cells[c := ReleasedState(cells[c], now, o)])
  {
  }

  // ----- queue edits -----

  /** Replacing one router's queue changes nothing that the counters depend on. */
  lemma SetQueueKeeps(s: System, r: nat, queue: seq<Waiter>)
    requires Inv(s) && r < |s.routers| && QueueOk(queue, s.routers[r].link.table.cfg.maxQueued)
    ensures var kept := Inv(SetQueue(s, r, queue)); kept
  {
    hide StatesConserved, QuotasConserved, AccountsConserved, LinkOk, Linked, Covers, QueueOk, CellsOk;
  }

  // ----- the hot swap -----

  lemma {:induction false} FirstIdFound(sources: seq<Source>, id: string)
    requires id in Ids(sources)
    ensures FirstId(sources, id) < |sources| && sources[FirstId(sources, id)].id == id
  {
    if sources[0].id != id {
      assert forall i :: 0 < i < |sources| ==> sources[i] == sources[1..][i-1];
      FirstIdFound(sources[1..], id);
    }
  }

  lemma {:induction false} FirstDomainFound(sources: seq<Source>, id: string)
    requires id in Domains(sources)
    ensures FirstDomain(sources, id) < |sources| && sources[FirstDomain(sources, id)].quotaDomain == id
  {
    if sources[0].quotaDomain != id {
      assert forall i :: 0 < i < |sources| ==> sources[i] == sources[1..][i-1];
      FirstDomainFound(sources[1..], id);
    }
  }

  lemma {:induction false} FirstAccountFound(sources: seq<Source>, id: string)
    requires id in AccountIds(sources)
    ensures FirstAccount(sources, id) < |sources| && sources[FirstAccount(sources, id)].accountId == id
  {
    if sources[0].accountId != id {
      assert forall i :: 0 < i < |sources| ==> sources[i] == sources[1..][i-1];
      FirstAccountFound(sources[1..], id);
    }
  }

  /** The cells a router brings along are distinct per id and lie in its own block. */
  lemma BroughtOk(base: nat, sources: seq<Source>)
    ensures Injective(BroughtStates(base, sources)) && Injective(BroughtQuotas(base, sources)) && Injective(BroughtAccounts(base, sources))
    ensures forall id :: id in BroughtStates(base, sources) ==> base <= BroughtStates(base, sources)[id] < base + |sources|
    ensures forall id :: id in BroughtQuotas(base, sources) ==> base <= BroughtQuotas(base, sources)[id] < base + |sources|
    ensures forall id :: id in BroughtAccounts(base, sources) ==> base <= BroughtAccounts(base, sources)[id] < base + |sources|
  {
    forall id | id in Ids(sources) ensures FirstId(sources, id) < |sources| && sources[FirstId(sources, id)].id == id {
      FirstIdFound(sources, id);
    }
    forall id | id in Domains(sources)
      ensures FirstDomain(sources, id) < |sources| && sources[FirstDomain(sources, id)].quotaDomain == id
    {
      FirstDomainFound(sources, id);
    }
    forall id | id in AccountIds(sources)
      ensures FirstAccount(sources, id) < |sources| && sources[FirstAccount(sources, id)].accountId == id
    {
      FirstAccountFound(sources, id);
    }
  }

  lemma SwapStates(cells: seq<SourceState>, known: map<string, nat>, leases: Leases, sources: seq<Source>, added: seq<SourceState>)
    requires StatesConserved(cells, known, leases) && |added| == |sources|
    requires forall i :: 0 <= i < |added| ==> added[i].active == 0
    ensures StatesConserved(cells + added, Relinked(known, BroughtStates(|cells|, sources), Busy(StateActive(cells), known)), leases)
  {
    var active := StateActive(cells);
    BroughtOk(|cells|, sources);
    RelinkKeeps(active, known, BroughtStates(|cells|, sources), SourceNames(leases), StateHolders(leases), |cells| + |sources|);
    Grow(active, StateHolders(leases), StateActive(added));
    assert StateActive(cells + added) == active + StateActive(added);
  }

  lemma SwapQuotas(cells: seq<Quota>, known: map<string, nat>, leases: Leases, sources: seq<Source>, added: seq<Quota>)
    requires QuotasConserved(cells, known, leases) && |added| == |sources|
    requires forall i :: 0 <= i < |added| ==> added[i].active == 0
    ensures QuotasConserved(cells + added, Relinked(known, BroughtQuotas(|cells|, sources), Busy(QuotaActive(cells), known)), leases)
  {
    var active := QuotaActive(cells);
    BroughtOk(|cells|, sources);
    RelinkKeeps(active, known, BroughtQuotas(|cells|, sources), DomainNames(leases), QuotaHolders(leases), |cells| + |sources|);
    Grow(active, QuotaHolders(leases), QuotaActive(added));
    assert QuotaActive(cells + added) == active + QuotaActive(added);
  }

  lemma SwapAccounts(cells: seq<Quota>, known: map<string, nat>, leases: Leases, sources: seq<Source>, added: seq<Quota>)
    requires AccountsConserved(cells, known, leases) && |added| == |sources|
    requires forall i :: 0 <= i < |added| ==> added[i].active == 0
    ensures AccountsConserved(cells + added, Relinked(known, BroughtAccounts(|cells|, sources), Busy(QuotaActive(cells), known)), leases)
  {
    var active := QuotaActive(cells);
    BroughtOk(|cells|, sources);
    RelinkKeeps(active, known, BroughtAccounts(|cells|, sources), AccountNames(leases), AccountHolders(leases), |cells| + |sources|);
    Grow(active, AccountHolders(leases), QuotaActive(added));
    assert QuotaActive(cells + added) == active + QuotaActive(added);
  }

  /** Relinking while adding fresh cells conserves every counter. */
  lemma RelinkConserves(s: System, table: Table)
    requires Conserved(s)
    ensures var kept := Conserved(FreshCells(Relink(s, table.cfg), table)); kept
  {
    var s', src := FreshCells(Relink(s, table.cfg), table), table.cfg.sources;
    SwapStates(s.states, s.stateOf, s.leases, src, s'.states[|s.states|..]);
    SwapQuotas(s.quotas, s.quotaOf, s.leases, src, s'.quotas[|s.quotas|..]);
    SwapAccounts(s.accounts, s.accountOf, s.leases, src, s'.accounts[|s.accounts|..]);
    assert s'.states == s.states + s'.states[|s.states|..];
    assert s'.quotas == s.quotas + s'.quotas[|s.quotas|..];
    assert s'.accounts == s.accounts + s'.accounts[|s.accounts|..];
  }

  /** After relinking, the tables cover the next configuration and its links are well formed. */
  lemma LinkedOk(table: Table, stateOf: map<string, nat>, quotaOf: map<string, nat>, accountOf: map<string, nat>, ns: nat, nq: nat, na: nat)
    requires Compiled(table) && Covers(table.cfg, stateOf, quotaOf, accountOf)
    requires forall id :: id in stateOf ==> stateOf[id] < ns
    requires forall id :: id in quotaOf ==> quotaOf[id] < nq
    requires forall id :: id in accountOf ==> accountOf[id] < na
    ensures LinkOk(Linked(table, stateOf, quotaOf, accountOf), ns, nq, na)
  {
    var k := Linked(table, stateOf, quotaOf, accountOf);
    forall i | 0 <= i < |table.cfg.sources|
      ensures k.stateRefs[i] < ns && k.quotaRefs[i] < nq && (k.accountRefs[i].Some? ==> k.accountRefs[i].value < na)
    {
      LinkAt(k, stateOf, quotaOf, accountOf, i);
    }
  }

  lemma {:induction false} RefreshedStates(cells: seq<SourceState>, refs: seq<nat>, sources: seq<Source>, n: nat)
    requires n <= |sources| && n <= |refs| && forall i :: 0 <= i < n ==> refs[i] < |cells|
    ensures var r := RefreshStates(cells, refs, sources, n);
      forall c :: 0 <= c < |cells| ==> r[c] == cells[c].(enabled := r[c].enabled, blocked := r[c].blocked)
  {
    if n > 0 {
      RefreshedStates(cells, refs, sources, n - 1);
    }
  }

  lemma {:induction false} RefreshedLimits(cells: seq<Quota>, refs: seq<Option<nat>>, limits: seq<int>, n: nat)
    requires n <= |limits| && n <= |refs| && forall i :: 0 <= i < n && refs[i].Some? ==> refs[i].value < |cells|
    ensures var r := RefreshLimits(cells, refs, limits, n);
      forall c :: 0 <= c < |cells| ==> r[c] == cells[c].(limit := r[c].limit)
  {
    if n > 0 {
      RefreshedLimits(cells, refs, limits, n - 1);
    }
  }

  lemma RefreshConserves(s: System, k: Link)
    requires Conserved(s) && CellsOk(s.states) && LinkOk(k, |s.states|, |s.quotas|, |s.accounts|)
    ensures var kept := Conserved(Refresh(s, k)); kept
    ensures CellsOk(Refresh(s, k).states)
  {
    var s', c, n := Refresh(s, k), k.table.cfg, |k.table.cfg.sources|;
    RefreshedStates(s.states, k.stateRefs, c.sources, n);
    RefreshedLimits(s.quotas, SomeRefs(k.quotaRefs), seq(n, i requires 0 <= i < n => c.sources[i].quotaMaxInflight), n);
    RefreshedLimits(s.accounts, k.accountRefs, seq(n, i requires 0 <= i < n => AccountLimit(c, c.sources[i])), n);
    assert StateActive(s'.states) == StateActive(s.states);
    assert QuotaActive(s'.quotas) == QuotaActive(s.quotas);
    assert QuotaActive(s'.accounts) == QuotaActive(s.accounts);
  }
}
