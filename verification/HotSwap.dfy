/** The loop that hands the shared counters to the next configuration, refining the declarative
    relinking that the state machine uses. */
module HotSwap {
  import opened Policy
  import opened Index
  import opened Selection
  import opened Counters
  import opened Scheduler
  import opened Conservation
  import opened Steps

  /** The cell an id leads to once a configuration that brings `brought` is linked in. */
  function CellFor(known: map<string, nat>, brought: map<string, nat>, id: string): nat
    requires id in known || id in brought
  {
    if id in known then known[id] else brought[id]
  }

  /** The id table after some of the brought ids were looked up and added when missing. */
  ghost predicate Grown(now: map<string, nat>, known: map<string, nat>, brought: map<string, nat>, named: set<string>) {
    && named <= brought.Keys && now.Keys == known.Keys + named
    && forall id :: id in now ==> now[id] == CellFor(known, brought, id)
  }

  /** Look an id up, adding the brought cell when it is missing. */
  method FindOrAdd(known: map<string, nat>, id: string, own: nat, ghost first: map<string, nat>, ghost brought: map<string, nat>, ghost named: set<string>)
    returns (known': map<string, nat>, cell: nat)
    requires Grown(known, first, brought, named) && id in brought && own == brought[id]
    ensures Grown(known', first, brought, named + {id}) && cell == CellFor(first, brought, id)
  {
    if id in known {
      return known, known[id];
    }
    return known[id := own], own;
  }

  /** Delete every id that is neither wanted nor in use. */
  method Forget(known: map<string, nat>, wanted: set<string>, active: seq<int>) returns (left: map<string, nat>)
    requires forall id :: id in known ==> known[id] < |active|
    ensures left == map id | id in known && (id in wanted || active[known[id]] != 0) :: known[id]
  {
    left := known;
    var todo := known.Keys;
    while todo != {}
      invariant todo <= known.Keys
      invariant left == map id | id in known && (id in todo || id in wanted || active[known[id]] != 0) :: known[id]
      decreases |todo|
    {
      var id :| id in todo;
      todo := todo - {id};
      if id !in wanted && active[known[id]] == 0 {
        left := left - {id};
      }
    }
  }

  /** Growing by every brought id and forgetting the idle rest is the declarative relinking. */
  lemma GrowForget(now: map<string, nat>, known: map<string, nat>, brought: map<string, nat>, before: seq<int>, after: seq<int>)
    requires Grown(now, known, brought, brought.Keys)
    requires forall id :: id in known ==> known[id] < |before|
    requires |before| <= |after| && forall c :: 0 <= c < |before| ==> after[c] == before[c]
    requires forall id :: id in brought ==> brought[id] < |after|
    ensures forall id :: id in now ==> now[id] < |after|
    ensures (map id | id in now && (id in brought.Keys || after[now[id]] != 0) :: now[id])
      == Relinked(known, brought, Busy(before, known))
  {
  }

  // ----- the ids named by a prefix of the sources -----

  lemma NamedSoFar(sources: seq<Source>, n: nat)
    requires n < |sources|
    ensures Ids(sources[..n+1]) == Ids(sources[..n]) + {sources[n].id}
    ensures Domains(sources[..n+1]) == Domains(sources[..n]) + {sources[n].quotaDomain}
    ensures AccountIds(sources[..n+1]) == if sources[n].accountId == "" then AccountIds(sources[..n])
      else AccountIds(sources[..n]) + {sources[n].accountId}
  {
    var p := sources[..n+1];
    assert p[..n] == sources[..n] && p[n] == sources[n];
    forall id ensures id in Ids(p) <==> id in Ids(sources[..n]) || id == sources[n].id {
      assert id == sources[n].id ==> p[n].id == id;
      assert forall i :: 0 <= i < n ==> p[i] == sources[..n][i];
    }
    forall id ensures id in Domains(p) <==> id in Domains(sources[..n]) || id == sources[n].quotaDomain {
      assert id == sources[n].quotaDomain ==> p[n].quotaDomain == id;
      assert forall i :: 0 <= i < n ==> p[i] == sources[..n][i];
    }
    forall id ensures id in AccountIds(p) <==> id in AccountIds(sources[..n]) || (id != "" && id == sources[n].accountId) {
      assert id == sources[n].accountId ==> p[n].accountId == id;
      assert forall i :: 0 <= i < n ==> p[i] == sources[..n][i];
    }
  }

  // ----- the references that the next router ends up with -----

  ghost function StateTargets(known: map<string, nat>, base: nat, src: seq<Source>): (r: seq<nat>)
    ensures |r| == |src|
  {
    seq(|src|, i requires 0 <= i < |src| => assert src[i].id in Ids(src); CellFor(known, BroughtStates(base, src), src[i].id))
  }

  ghost function QuotaTargets(known: map<string, nat>, base: nat, src: seq<Source>): (r: seq<nat>)
    ensures |r| == |src|
  {
    seq(|src|, i requires 0 <= i < |src| => assert src[i].quotaDomain in Domains(src); CellFor(known, BroughtQuotas(base, src), src[i].quotaDomain))
  }

  ghost function AccountTargets(known: map<string, nat>, base: nat, src: seq<Source>): (r: seq<Option<nat>>)
    ensures |r| == |src|
  {
    seq(|src|, i requires 0 <= i < |src| =>
      if src[i].accountId == "" then None
      else (assert src[i].accountId in AccountIds(src); Some(CellFor(known, BroughtAccounts(base, src), src[i].accountId))))
  }

  ghost predicate InBlock(known: map<string, nat>, size: nat) {
    forall id :: id in known ==> known[id] < size
  }

  lemma StateTargetsInRange(known: map<string, nat>, size: nat, src: seq<Source>)
    requires InBlock(known, size)
    ensures forall i :: 0 <= i < |src| ==> StateTargets(known, size, src)[i] < size + |src|
  {
    BroughtOk(size, src);
    assert forall i :: 0 <= i < |src| ==> src[i].id in Ids(src);
  }

  lemma QuotaTargetsInRange(known: map<string, nat>, size: nat, src: seq<Source>)
    requires InBlock(known, size)
    ensures forall i :: 0 <= i < |src| ==> QuotaTargets(known, size, src)[i] < size + |src|
  {
    BroughtOk(size, src);
    assert forall i :: 0 <= i < |src| ==> src[i].quotaDomain in Domains(src);
  }

  lemma AccountTargetsInRange(known: map<string, nat>, size: nat, src: seq<Source>)
    requires InBlock(known, size)
    ensures forall i :: 0 <= i < |src| ==> AccountTargets(known, size, src)[i].Some? ==> AccountTargets(known, size, src)[i].value < size + |src|
  {
    BroughtOk(size, src);
    assert forall i :: 0 <= i < |src| && src[i].accountId != "" ==> src[i].accountId in AccountIds(src);
  }

  function QuotaLimits(src: seq<Source>): (r: seq<int>)
    ensures |r| == |src|
  {
    seq(|src|, i requires 0 <= i < |src| => src[i].quotaMaxInflight)
  }

  function AccountLimits(c: Config): (r: seq<int>)
    ensures |r| == |c.sources|
  {
    seq(|c.sources|, i requires 0 <= i < |c.sources| => AccountLimit(c, c.sources[i]))
  }

  function FreshStates(src: seq<Source>): (r: seq<SourceState>)
    ensures |r| == |src|
  {
    seq(|src|, i requires 0 <= i < |src| => FreshState(src[i]))
  }

  function FreshQuotas(limits: seq<int>): (r: seq<Quota>)
    ensures |r| == |limits|
  {
    seq(|limits|, i requires 0 <= i < |limits| => FreshQuota(limits[i]))
  }

  /** Where each kind of counter stands once the first `n` sources were linked. */
  ghost function StatesAt(s: System, src: seq<Source>, n: nat): (r: seq<SourceState>)
    requires InBlock(s.stateOf, |s.states|) && n <= |src|
    ensures |r| == |s.states| + |src|
  {
    StateTargetsInRange(s.stateOf, |s.states|, src);
    RefreshStates(s.states + FreshStates(src), StateTargets(s.stateOf, |s.states|, src), src, n)
  }

  ghost function QuotasAt(s: System, src: seq<Source>, n: nat): (r: seq<Quota>)
    requires InBlock(s.quotaOf, |s.quotas|) && n <= |src|
    ensures |r| == |s.quotas| + |src|
  {
    QuotaTargetsInRange(s.quotaOf, |s.quotas|, src);
    RefreshLimits(s.quotas + FreshQuotas(QuotaLimits(src)), SomeRefs(QuotaTargets(s.quotaOf, |s.quotas|, src)), QuotaLimits(src), n)
  }

  ghost function AccountsAt(s: System, c: Config, n: nat): (r: seq<Quota>)
    requires InBlock(s.accountOf, |s.accounts|) && n <= |c.sources|
    ensures |r| == |s.accounts| + |c.sources|
  {
    AccountTargetsInRange(s.accountOf, |s.accounts|, c.sources);
    RefreshLimits(s.accounts + FreshQuotas(AccountLimits(c)), AccountTargets(s.accountOf, |s.accounts|, c.sources), AccountLimits(c), n)
  }

  ghost predicate Blocks(s: System) {
    InBlock(s.stateOf, |s.states|) && InBlock(s.quotaOf, |s.quotas|) && InBlock(s.accountOf, |s.accounts|)
  }

  /** The id tables that are left once the dropped, idle ids are deleted. */
  lemma StatesSettle(s: System, src: seq<Source>, now: map<string, nat>)
    requires InBlock(s.stateOf, |s.states|) && Grown(now, s.stateOf, BroughtStates(|s.states|, src), Ids(src[..|src|]))
    ensures var active := StateActive(StatesAt(s, src, |src|));
      && (forall id :: id in now ==> now[id] < |active|)
      && (map id | id in now && (id in Ids(src) || active[now[id]] != 0) :: now[id])
         == Relinked(s.stateOf, BroughtStates(|s.states|, src), Busy(StateActive(s.states), s.stateOf))
  {
    hide Relinked, Busy;
    assert BroughtStates(|s.states|, src).Keys == Ids(src);
    StateTargetsInRange(s.stateOf, |s.states|, src);
    RefreshedStates(s.states + FreshStates(src), StateTargets(s.stateOf, |s.states|, src), src, |src|);
    BroughtOk(|s.states|, src);
    assert src[..|src|] == src;
    GrowForget(now, s.stateOf, BroughtStates(|s.states|, src), StateActive(s.states), StateActive(StatesAt(s, src, |src|)));
  }

  lemma QuotasSettle(s: System, src: seq<Source>, now: map<string, nat>)
    requires InBlock(s.quotaOf, |s.quotas|) && Grown(now, s.quotaOf, BroughtQuotas(|s.quotas|, src), Domains(src[..|src|]))
    ensures var active := QuotaActive(QuotasAt(s, src, |src|));
      && (forall id :: id in now ==> now[id] < |active|)
      && (map id | id in now && (id in Domains(src) || active[now[id]] != 0) :: now[id])
         == Relinked(s.quotaOf, BroughtQuotas(|s.quotas|, src), Busy(QuotaActive(s.quotas), s.quotaOf))
  {
    hide Relinked, Busy;
    assert BroughtQuotas(|s.quotas|, src).Keys == Domains(src);
    QuotaTargetsInRange(s.quotaOf, |s.quotas|, src);
    RefreshedLimits(s.quotas + FreshQuotas(QuotaLimits(src)), SomeRefs(QuotaTargets(s.quotaOf, |s.quotas|, src)), QuotaLimits(src), |src|);
    BroughtOk(|s.quotas|, src);
    assert src[..|src|] == src;
    GrowForget(now, s.quotaOf, BroughtQuotas(|s.quotas|, src), QuotaActive(s.quotas), QuotaActive(QuotasAt(s, src, |src|)));
  }

  lemma AccountsSettle(s: System, c: Config, now: map<string, nat>)
    requires InBlock(s.accountOf, |s.accounts|)
    requires Grown(now, s.accountOf, BroughtAccounts(|s.accounts|, c.sources), AccountIds(c.sources[..|c.sources|]))
    ensures var active := QuotaActive(AccountsAt(s, c, |c.sources|));
      && (forall id :: id in now ==> now[id] < |active|)
      && (map id | id in now && (id in AccountIds(c.sources) || active[now[id]] != 0) :: now[id])
         == Relinked(s.accountOf, BroughtAccounts(|s.accounts|, c.sources), Busy(QuotaActive(s.accounts), s.accountOf))
  {
    hide Relinked, Busy;
    var src := c.sources;
    assert BroughtAccounts(|s.accounts|, src).Keys == AccountIds(src);
    AccountTargetsInRange(s.accountOf, |s.accounts|, src);
    RefreshedLimits(s.accounts + FreshQuotas(AccountLimits(c)), AccountTargets(s.accountOf, |s.accounts|, src), AccountLimits(c), |src|);
    BroughtOk(|s.accounts|, src);
    assert src[..|src|] == src;
    GrowForget(now, s.accountOf, BroughtAccounts(|s.accounts|, src), QuotaActive(s.accounts), QuotaActive(AccountsAt(s, c, |src|)));
  }

  /** What a released attempt leaves in its source state and quota. */
  method Record(before: SourceState, quota: Quota, now: int, o: Outcome) returns (st: SourceState, q: Quota)
    ensures st == ReleasedState(before, now, o) && q == ReleasedQuota(quota, now, o)
  {
    st, q := before.(active := before.active - 1), quota.(active := quota.active - 1);
    if o.status == ADMINISTRATIVE {
      return;
    }
    if o.status == 401 || o.status == 403 {
      st := st.(blocked := true);
    }
    if o.status == 429 {
      var wait := if o.retryAfter <= 0 then 30 * SECOND else o.retryAfter;
      q := q.(cooldown := now + if wait < 86400 * SECOND then wait else 86400 * SECOND);
    }
    if 200 <= o.status < 300 {
      st := st.(latency := if st.latency == 0.0 then o.elapsed else st.latency * 0.8 + o.elapsed * 0.2);
    } else if o.status != 499 && (o.status == 0 || o.status >= 500) {
      st := st.(cooldown := now + 5 * SECOND);
    }
  }

  /** The counters that outlive every configuration generation. */
  class Capacity {
    var active: int
    var dispatchSequence: nat
    var states: seq<SourceState>
    var quotas: seq<Quota>
    var accounts: seq<Quota>
    var stateOf: map<string, nat>
    var quotaOf: map<string, nat>
    var accountOf: map<string, nat>

    constructor (s: System)
      ensures Holds(s)
    {
      active, dispatchSequence := s.active, s.sequence;
      states, quotas, accounts := s.states, s.quotas, s.accounts;
      stateOf, quotaOf, accountOf := s.stateOf, s.quotaOf, s.accountOf;
    }

    ghost predicate Holds(s: System)
      reads this
    {
      && active == s.active && dispatchSequence == s.sequence
      && states == s.states && quotas == s.quotas && accounts == s.accounts
      && stateOf == s.stateOf && quotaOf == s.quotaOf && accountOf == s.accountOf
    }

    /** Take a slot for a chosen target, counter by counter. */
    method Take(k: Link, idx: nat, ghost s: System, ghost r: nat, ghost q: Query) returns (lease: Lease)
      requires Holds(s) && r < |s.routers| && k == s.routers[r].link && Grantable(s, k, idx)
      modifies this
      ensures Holds(Grant(s, r, idx, q)) && lease == Grant(s, r, idx, q).leases[|s.log|]
    {
      var i := k.table.targets[idx].source;
      var src, st, qu, acc := k.table.cfg.sources[i], k.stateRefs[i], k.quotaRefs[i], k.accountRefs[i];
      active := active + 1;
      states := states[st := states[st].(active := states[st].active + 1)];
      states := states[st := states[st].(virtualFinish := states[st].virtualFinish + 1.0 / Max(1, src.weight) as real)];
      quotas := quotas[qu := quotas[qu].(active := quotas[qu].active + 1)];
      if acc.Some? {
        var a := acc.value;
        accounts := accounts[a := accounts[a].(active := accounts[a].active + 1)];
        dispatchSequence := dispatchSequence + 1;
        accounts := accounts[a := accounts[a].(lastDispatch := dispatchSequence)];
        accounts := accounts[a := accounts[a].(virtualFinish := accounts[a].virtualFinish + 1.0 / Max(1, AccountWeight(k.table.cfg, src)) as real)];
      }
      lease := LeaseOf(k, i);
    }

    /** Give the slot back through the lease's own pointers. */
    method FreeSlots(l: Lease)
      requires l.stateRef < |states| && l.quotaRef < |quotas| && (l.accountRef.Some? ==> l.accountRef.value < |accounts|)
      modifies this`active, this`states, this`quotas, this`accounts
      ensures active == old(active) - 1
      ensures states == old(states)[l.stateRef := old(states)[l.stateRef].(active := old(states)[l.stateRef].active - 1)]
      ensures quotas == old(quotas)[l.quotaRef := old(quotas)[l.quotaRef].(active := old(quotas)[l.quotaRef].active - 1)]
      ensures accounts == if l.accountRef.None? then old(accounts)
        else old(accounts)[l.accountRef.value := old(accounts)[l.accountRef.value].(active := old(accounts)[l.accountRef.value].active - 1)]
    {
      active := active - 1;
      states := states[l.stateRef := states[l.stateRef].(active := states[l.stateRef].active - 1)];
      quotas := quotas[l.quotaRef := quotas[l.quotaRef].(active := quotas[l.quotaRef].active - 1)];
      if l.accountRef.Some? {
        var a := l.accountRef.value;
        accounts := accounts[a := accounts[a].(active := accounts[a].active - 1)];
      }
    }

    /** Release a lease and record how the attempt ended. */
    method GiveBack(l: Lease, now: int, o: Outcome, ghost s: System, ghost id: nat)
      requires Holds(s) && id in s.leases && s.leases[id] == l && LeaseInRange(s, l) && now == s.now
      modifies this`active, this`states, this`quotas, this`accounts
      ensures Holds(Returned(s, id, o))
    {
      hide ReleasedState, ReleasedQuota;
      var st, q := Record(states[l.stateRef], quotas[l.quotaRef], now, o);
      FreeSlots(l);
      states, quotas := states[l.stateRef := st], quotas[l.quotaRef := q];
    }

    /** Switch the first source of that id on or off. */
    method Switch(link: Link, id: string, on: bool, ghost s: System) returns (found: bool)
      requires Holds(s) && Inv(s) && link == s.routers[s.current].link
      modifies this`states
      ensures found <==> id in Ids(link.table.cfg.sources)
      ensures Holds(Switched(s, id, on))
    {
      hide Inv, FirstId;
      var src := link.table.cfg.sources;
      for i := 0 to |src|
        invariant forall j :: 0 <= j < i ==> src[j].id != id
        invariant Holds(s)
      {
        if src[i].id == id {
          SwitchRange(s, id);
          FirstIdIs(src, id, i);
          var c := link.stateRefs[i];
          states := states[c := SwitchOn(states[c], on)];
          return true;
        }
      }
      return false;
    }

    /** The first `n` sources were linked since the capacity held `s`. */
    ghost predicate Linking(s: System, c: Config, n: nat)
      requires Blocks(s) && n <= |c.sources|
      reads this
    {
      var src := c.sources;
      && states == StatesAt(s, src, n) && Grown(stateOf, s.stateOf, BroughtStates(|s.states|, src), Ids(src[..n]))
      && quotas == QuotasAt(s, src, n) && Grown(quotaOf, s.quotaOf, BroughtQuotas(|s.quotas|, src), Domains(src[..n]))
      && accounts == AccountsAt(s, c, n) && Grown(accountOf, s.accountOf, BroughtAccounts(|s.accounts|, src), AccountIds(src[..n]))
    }

    /** The next router was compiled with counters of its own. */
    method Extend(c: Config, ghost s: System)
      requires Holds(s) && Blocks(s)
      modifies this`states, this`quotas, this`accounts
      ensures Linking(s, c, 0)
    {
      states := states + FreshStates(c.sources);
      quotas := quotas + FreshQuotas(QuotaLimits(c.sources));
      accounts := accounts + FreshQuotas(AccountLimits(c));
    }

    /** Source `n` takes over the state known under its id and its switches are applied. */
    method LinkState(src: seq<Source>, n: nat, base: nat, ghost s: System) returns (ref: nat)
      requires InBlock(s.stateOf, |s.states|) && n < |src| && base == |s.states|
      requires states == StatesAt(s, src, n) && Grown(stateOf, s.stateOf, BroughtStates(base, src), Ids(src[..n]))
      modifies this`states, this`stateOf
      ensures states == StatesAt(s, src, n + 1) && Grown(stateOf, s.stateOf, BroughtStates(base, src), Ids(src[..n+1]))
      ensures ref == StateTargets(s.stateOf, base, src)[n]
    {
      NamedSoFar(src, n);
      StateTargetsInRange(s.stateOf, base, src);
      assert src[n].id in Ids(src);
      stateOf, ref := FindOrAdd(stateOf, src[n].id, base + FirstId(src, src[n].id), s.stateOf, BroughtStates(base, src), Ids(src[..n]));
      states := states[ref := Adopted(states[ref], src[n])];
    }

    method LinkQuota(src: seq<Source>, n: nat, base: nat, ghost s: System) returns (ref: nat)
      requires InBlock(s.quotaOf, |s.quotas|) && n < |src| && base == |s.quotas|
      requires quotas == QuotasAt(s, src, n) && Grown(quotaOf, s.quotaOf, BroughtQuotas(base, src), Domains(src[..n]))
      modifies this`quotas, this`quotaOf
      ensures quotas == QuotasAt(s, src, n + 1) && Grown(quotaOf, s.quotaOf, BroughtQuotas(base, src), Domains(src[..n+1]))
      ensures ref == QuotaTargets(s.quotaOf, base, src)[n]
    {
      NamedSoFar(src, n);
      QuotaTargetsInRange(s.quotaOf, base, src);
      assert src[n].quotaDomain in Domains(src);
      quotaOf, ref := FindOrAdd(quotaOf, src[n].quotaDomain, base + FirstDomain(src, src[n].quotaDomain), s.quotaOf, BroughtQuotas(base, src), Domains(src[..n]));
      assert SomeRefs(QuotaTargets(s.quotaOf, base, src))[n] == Some(ref);
      quotas := quotas[ref := quotas[ref].(limit := src[n].quotaMaxInflight)];
    }

    method LinkAccount(c: Config, n: nat, base: nat, ghost s: System) returns (ref: Option<nat>)
      requires InBlock(s.accountOf, |s.accounts|) && n < |c.sources| && base == |s.accounts|
      requires accounts == AccountsAt(s, c, n) && Grown(accountOf, s.accountOf, BroughtAccounts(base, c.sources), AccountIds(c.sources[..n]))
      modifies this`accounts, this`accountOf
      ensures accounts == AccountsAt(s, c, n + 1)
      ensures Grown(accountOf, s.accountOf, BroughtAccounts(base, c.sources), AccountIds(c.sources[..n+1]))
      ensures ref == AccountTargets(s.accountOf, base, c.sources)[n]
    {
      var src := c.sources[n];
      NamedSoFar(c.sources, n);
      AccountTargetsInRange(s.accountOf, base, c.sources);
      if src.accountId == "" {
        return None;
      }
      assert src.accountId in AccountIds(c.sources);
      var cell: nat;
      accountOf, cell := FindOrAdd(accountOf, src.accountId, base + FirstAccount(c.sources, src.accountId), s.accountOf,
        BroughtAccounts(base, c.sources), AccountIds(c.sources[..n]));
      assert Some(cell) == AccountTargets(s.accountOf, base, c.sources)[n];
      accounts := accounts[cell := accounts[cell].(limit := AccountLimit(c, src))];
      ref := Some(cell);
    }

    /** Delete the ids that the next configuration dropped and nobody holds. */
    method PruneStates(src: seq<Source>, ghost s: System)
      requires InBlock(s.stateOf, |s.states|) && states == StatesAt(s, src, |src|)
      requires Grown(stateOf, s.stateOf, BroughtStates(|s.states|, src), Ids(src[..|src|]))
      modifies this`stateOf
      ensures stateOf == Relinked(s.stateOf, BroughtStates(|s.states|, src), Busy(StateActive(s.states), s.stateOf))
    {
      hide StatesAt, BroughtStates, Relinked, Busy, Grown;
      StatesSettle(s, src, stateOf);
      var wanted := set x | x in src :: x.id;
      assert wanted == Ids(src);
      var active := seq(|states|, i requires 0 <= i < |states| reads this => states[i].active);
      assert active == StateActive(states);
      stateOf := Forget(stateOf, wanted, active);
    }

    method PruneQuotas(src: seq<Source>, ghost s: System)
      requires InBlock(s.quotaOf, |s.quotas|) && quotas == QuotasAt(s, src, |src|)
      requires Grown(quotaOf, s.quotaOf, BroughtQuotas(|s.quotas|, src), Domains(src[..|src|]))
      modifies this`quotaOf
      ensures quotaOf == Relinked(s.quotaOf, BroughtQuotas(|s.quotas|, src), Busy(QuotaActive(s.quotas), s.quotaOf))
    {
      hide QuotasAt, BroughtQuotas, Relinked, Busy, Grown;
      QuotasSettle(s, src, quotaOf);
      var wanted := set x | x in src :: x.quotaDomain;
      assert wanted == Domains(src);
      var active := seq(|quotas|, i requires 0 <= i < |quotas| reads this => quotas[i].active);
      assert active == QuotaActive(quotas);
      quotaOf := Forget(quotaOf, wanted, active);
    }

    method PruneAccounts(c: Config, ghost s: System)
      requires InBlock(s.accountOf, |s.accounts|) && accounts == AccountsAt(s, c, |c.sources|)
      requires Grown(accountOf, s.accountOf, BroughtAccounts(|s.accounts|, c.sources), AccountIds(c.sources[..|c.sources|]))
      modifies this`accountOf
      ensures accountOf == Relinked(s.accountOf, BroughtAccounts(|s.accounts|, c.sources), Busy(QuotaActive(s.accounts), s.accountOf))
    {
      hide AccountsAt, BroughtAccounts, Relinked, Busy, Grown;
      AccountsSettle(s, c, accountOf);
      var wanted := set x | x in c.sources && x.accountId != "" :: x.accountId;
      assert wanted == AccountIds(c.sources);
      var active := seq(|accounts|, i requires 0 <= i < |accounts| reads this => accounts[i].active);
      assert active == QuotaActive(accounts);
      accountOf := Forget(accountOf, wanted, active);
    }

    /** Hand every counter to the next configuration. The outcome, counters, id tables and the
        next router's pointers, is the declarative swap. */
    method Adopt(table: Table, ghost s: System) returns (link: Link)
      requires Holds(s) && Conserved(s) && Compiled(table) && s.current < |s.routers|
      modifies this
      ensures Holds(Swapped(s, table))
      ensures link == Swapped(s, table).routers[Swapped(s, table).current].link
    {
      hide Conserved, Compiled, Swapped, StatesAt, QuotasAt, AccountsAt, Grown, StateTargets, QuotaTargets, AccountTargets, Relinked, Busy;
      var c, src := table.cfg, table.cfg.sources;
      var ns, nq, na := |states|, |quotas|, |accounts|;
      ConservedBlocks(s);
      Extend(c, s);
      var stateRefs: seq<nat>, quotaRefs: seq<nat>, accountRefs: seq<Option<nat>> := [], [], [];
      for n := 0 to |src|
        invariant ns == |s.states| && nq == |s.quotas| && na == |s.accounts|
        invariant Linking(s, c, n) && active == s.active && dispatchSequence == s.sequence
        invariant stateRefs == StateTargets(s.stateOf, ns, src)[..n]
        invariant quotaRefs == QuotaTargets(s.quotaOf, nq, src)[..n]
        invariant accountRefs == AccountTargets(s.accountOf, na, src)[..n]
      {
        var st := LinkState(src, n, ns, s);
        var q := LinkQuota(src, n, nq, s);
        var a := LinkAccount(c, n, na, s);
        stateRefs, quotaRefs, accountRefs := stateRefs + [st], quotaRefs + [q], accountRefs + [a];
      }
      PruneStates(src, s);
      PruneQuotas(src, s);
      PruneAccounts(c, s);
      link := Link(table, stateRefs, quotaRefs, accountRefs);
      SwapIsLinking(s, table);
    }
  }

  lemma ConservedBlocks(s: System)
    requires Conserved(s)
    ensures Blocks(s)
  {
  }

  /** The declarative swap, in the terms of the loop. */
  lemma SwapIsLinking(s: System, table: Table)
    requires Conserved(s) && Compiled(table) && s.current < |s.routers| && Blocks(s)
    ensures var s', c := Swapped(s, table), table.cfg;
      && s'.stateOf == Relinked(s.stateOf, BroughtStates(|s.states|, c.sources), Busy(StateActive(s.states), s.stateOf))
      && s'.quotaOf == Relinked(s.quotaOf, BroughtQuotas(|s.quotas|, c.sources), Busy(QuotaActive(s.quotas), s.quotaOf))
      && s'.accountOf == Relinked(s.accountOf, BroughtAccounts(|s.accounts|, c.sources), Busy(QuotaActive(s.accounts), s.accountOf))
    ensures Swapped(s, table).active == s.active && Swapped(s, table).sequence == s.sequence
    ensures Swapped(s, table).routers[Swapped(s, table).current].link == TargetLink(s, table)
    ensures var s', c := Swapped(s, table), table.cfg;
      && s'.states == StatesAt(s, c.sources, |c.sources|) && s'.quotas == QuotasAt(s, c.sources, |c.sources|)
      && s'.accounts == AccountsAt(s, c, |c.sources|)
  {
    hide Conserved, Compiled, Counts, Reachable, RefreshStates, RefreshLimits, StateActive, QuotaActive;
    AdoptLink(s, table);
    SwapLinks(s, table);
    var c, n := table.cfg, |table.cfg.sources|;
    assert seq(n, i requires 0 <= i < n => AccountLimit(c, c.sources[i])) == AccountLimits(c);
    assert seq(n, i requires 0 <= i < n => c.sources[i].quotaMaxInflight) == QuotaLimits(c.sources);
    assert FreshCells(s, table).states == s.states + FreshStates(table.cfg.sources);
    assert FreshCells(s, table).quotas == s.quotas + FreshQuotas(QuotaLimits(table.cfg.sources));
    assert FreshCells(s, table).accounts == s.accounts + FreshQuotas(AccountLimits(table.cfg));
  }

  ghost function TargetLink(s: System, table: Table): Link
    requires Blocks(s)
  {
    var src := table.cfg.sources;
    Link(table, StateTargets(s.stateOf, |s.states|, src), QuotaTargets(s.quotaOf, |s.quotas|, src), AccountTargets(s.accountOf, |s.accounts|, src))
  }

  lemma SwapLinks(s: System, table: Table)
    requires Conserved(s) && Compiled(table) && Blocks(s)
    ensures var s1 := FreshCells(Relink(s, table.cfg), table);
      Covers(table.cfg, s1.stateOf, s1.quotaOf, s1.accountOf)
      && Linked(table, s1.stateOf, s1.quotaOf, s1.accountOf) == TargetLink(s, table)
  {
    hide Conserved, Compiled, Counts, Reachable, Busy, BroughtStates, BroughtQuotas, BroughtAccounts;
    AdoptLink(s, table);
    var s1 := FreshCells(Relink(s, table.cfg), table);
    var k := Linked(table, s1.stateOf, s1.quotaOf, s1.accountOf);
    forall i | 0 <= i < |table.cfg.sources|
      ensures k.stateRefs[i] == TargetLink(s, table).stateRefs[i] && k.quotaRefs[i] == TargetLink(s, table).quotaRefs[i]
      ensures k.accountRefs[i] == TargetLink(s, table).accountRefs[i]
    {
      LinkAt(k, s1.stateOf, s1.quotaOf, s1.accountOf, i);
    }
  }

  lemma {:induction false} FirstIdIs(sources: seq<Source>, id: string, i: nat)
    requires i < |sources| && sources[i].id == id && forall j :: 0 <= j < i ==> sources[j].id != id
    ensures FirstId(sources, id) == i && id in Ids(sources)
  {
    if i > 0 {
      FirstIdIs(sources[1..], id, i - 1);
    }
  }
}
