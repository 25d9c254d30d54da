/** The scheduler as a state machine, one step per hold of the shared mutex.
    Pointers to counters are explicit: `states`, `quotas` and `accounts` are the heap cells and a
    reference is a position in them, so two generations alias a counter exactly when they hold
    the same reference. */
module Scheduler {
  import opened Policy
  import opened Index
  import opened Selection
  import opened Counters

  /** A queued request. `token` is the buffered ready signal, `awake` means the goroutine left its
      select and is about to take the mutex, `deadline` is when its timer fires. */
  datatype Waiter = Waiter(thread: nat, query: Query, cancelled: bool, token: bool, awake: bool, deadline: int)

  const RETRY_MS := 250

  /** A compiled table with, per source, the counters its router points at. */
  datatype Link = Link(table: Table, stateRefs: seq<nat>, quotaRefs: seq<nat>, accountRefs: seq<Option<nat>>)

  datatype Router = Router(link: Link, retired: bool, cursor: nat, queue: seq<Waiter>)

  datatype Lease = Lease(source: string, domain: string, account: string, stateRef: nat, quotaRef: nat, accountRef: Option<nat>)

  /** One entry per granted lease: who served which query. */
  datatype Dispatch = Dispatch(router: nat, source: nat, query: Query)

  datatype System = System(
    now: int, active: int, sequence: nat,
    states: seq<SourceState>, quotas: seq<Quota>, accounts: seq<Quota>,
    stateOf: map<string, nat>, quotaOf: map<string, nat>, accountOf: map<string, nat>,
    routers: seq<Router>, current: nat,
    leases: map<nat, Lease>, log: seq<Dispatch>)

  // ----- well-formed references -----

  ghost predicate LinkOk(k: Link, states: nat, quotas: nat, accounts: nat) {
    && Compiled(k.table)
    && |k.stateRefs| == |k.quotaRefs| == |k.accountRefs| == |k.table.cfg.sources|
    && (forall i :: 0 <= i < |k.stateRefs| ==> k.stateRefs[i] < states && k.quotaRefs[i] < quotas)
    && (forall i :: 0 <= i < |k.accountRefs| ==> (k.accountRefs[i].Some? <==> k.table.cfg.sources[i].accountId != ""))
    && (forall i :: 0 <= i < |k.accountRefs| && k.accountRefs[i].Some? ==> k.accountRefs[i].value < accounts)
  }

  ghost predicate CellsOk(states: seq<SourceState>) {
    forall c :: 0 <= c < |states| ==> states[c].active >= 0 && states[c].virtualFinish >= 0.0 && states[c].latency >= 0.0
  }

  /** Every router ever built is well formed, and all but the current one are retired. */
  ghost predicate Formed(s: System) {
    && s.current < |s.routers| && CellsOk(s.states)
    && (forall r :: 0 <= r < |s.routers| ==> LinkOk(s.routers[r].link, |s.states|, |s.quotas|, |s.accounts|))
    && (forall r :: 0 <= r < |s.routers| ==> (s.routers[r].retired <==> r != s.current))
  }

  // ----- reading through the pointers -----

  ghost function ViewOf(s: System, r: Router): (v: View)
    requires LinkOk(r.link, |s.states|, |s.quotas|, |s.accounts|)
    ensures |v.states| == |v.quotas| == |v.accounts| == |r.link.table.cfg.sources|
    ensures v.table == r.link.table && v.retired == r.retired && v.cursor == r.cursor && v.active == s.active
    ensures forall i :: 0 <= i < |v.states| ==> v.states[i] == s.states[r.link.stateRefs[i]] && v.quotas[i] == s.quotas[r.link.quotaRefs[i]]
    ensures forall i :: 0 <= i < |v.accounts| ==>
      v.accounts[i] == if r.link.accountRefs[i].Some? then Some(s.accounts[r.link.accountRefs[i].value]) else None
  {
    var k, n := r.link, |r.link.stateRefs|;
    View(k.table, r.retired, r.cursor, s.active,
      seq(n, i requires 0 <= i < n => s.states[k.stateRefs[i]]),
      seq(n, i requires 0 <= i < n => s.quotas[k.quotaRefs[i]]),
      seq(n, i requires 0 <= i < n => if k.accountRefs[i].Some? then Some(s.accounts[k.accountRefs[i].value]) else None))
  }

  ghost function At(s: System, r: nat): (v: View)
    requires Formed(s) && r < |s.routers|
    ensures Sane(v) && Shaped(v)
  {
    var v := ViewOf(s, s.routers[r]);
    SaneIsShaped(v);
    v
  }

  // ----- the wait queue -----

  /** A waiter that must be woken: its context ended, it can be served, or it never will be. */
  ghost predicate Actionable(v: View, now: int, w: Waiter)
    requires Shaped(v)
  {
    w.cancelled || Choose(v, w.query, now).best >= 0 || !Choose(v, w.query, now).eligible
  }

  /** Hand the ready token to the first actionable waiter; a token already buffered stays one. */
  ghost function SignalQueue(v: View, now: int, queue: seq<Waiter>): (q: seq<Waiter>)
    requires Shaped(v)
    ensures |q| == |queue|
  {
    if queue == [] then []
    else if Actionable(v, now, queue[0]) then [queue[0].(token := true)] + queue[1..]
    else [queue[0]] + SignalQueue(v, now, queue[1..])
  }

  /** No live waiter among the first `k` could be served now. */
  ghost predicate Turn(v: View, now: int, queue: seq<Waiter>, k: nat)
    requires Shaped(v) && k <= |queue|
  {
    forall j :: 0 <= j < k ==> queue[j].cancelled || Choose(v, queue[j].query, now).best < 0
  }

  function Without<T>(xs: seq<T>, k: nat): seq<T>
    requires k < |xs|
  {
    xs[..k] + xs[k+1..]
  }

  function SetQueue(s: System, r: nat, queue: seq<Waiter>): System
    requires r < |s.routers|
  {
    s.(routers := s.routers[r := s.routers[r].(queue := queue)])
  }

  ghost function Signal(s: System, r: nat): System
    requires Formed(s) && r < |s.routers|
  {
    SetQueue(s, r, SignalQueue(At(s, r), s.now, s.routers[r].queue))
  }

  // ----- granting and releasing -----

  function Bump(q: Quota): Quota { q.(active := q.active + 1) }

  function BumpAccount(a: Quota, sequence: nat, weight: int): Quota {
    a.(active := a.active + 1, lastDispatch := sequence, virtualFinish := a.virtualFinish + 1.0 / Max(1, weight) as real)
  }

  function AccountWeight(c: Config, s: Source): int {
    if s.accountId in c.accounts then c.accounts[s.accountId].weight else 0
  }

  predicate Grantable(s: System, k: Link, idx: nat) {
    && idx < |k.table.targets|
    && var i := k.table.targets[idx].source;
    && i < |k.table.cfg.sources| && i < |k.stateRefs| && i < |k.quotaRefs| && i < |k.accountRefs|
    && k.stateRefs[i] < |s.states| && k.quotaRefs[i] < |s.quotas|
    && (k.accountRefs[i].Some? ==> k.accountRefs[i].value < |s.accounts|)
  }

  function TakeState(st: SourceState, src: Source): SourceState {
    st.(active := st.active + 1, virtualFinish := st.virtualFinish + 1.0 / Max(1, src.weight) as real)
  }

  function LeaseOf(k: Link, i: nat): Lease
    requires i < |k.table.cfg.sources| && i < |k.stateRefs| && i < |k.quotaRefs| && i < |k.accountRefs|
  {
    var src := k.table.cfg.sources[i];
    Lease(src.id, src.quotaDomain, src.accountId, k.stateRefs[i], k.quotaRefs[i], k.accountRefs[i])
  }

  /** Take one unit of every counter that the target's source holds a pointer to. The lease's
      identity is the number of leases granted before it. */
  function Grant(s: System, r: nat, idx: nat, q: Query): System
    requires r < |s.routers| && Grantable(s, s.routers[r].link, idx)
  {
    var k := s.routers[r].link;
    var i := k.table.targets[idx].source;
    var src, a := k.table.cfg.sources[i], k.accountRefs[i];
    var sequence := if a.Some? then s.sequence + 1 else s.sequence;
    s.(active := s.active + 1, sequence := sequence,
       states := s.states[k.stateRefs[i] := TakeState(s.states[k.stateRefs[i]], src)],
       quotas := s.quotas[k.quotaRefs[i] := Bump(s.quotas[k.quotaRefs[i]])],
       accounts := if a.None? then s.accounts
         else s.accounts[a.value := BumpAccount(s.accounts[a.value], sequence, AccountWeight(k.table.cfg, src))],
       routers := s.routers[r := s.routers[r].(cursor := s.routers[r].cursor + 1)],
       leases := s.leases[|s.log| := LeaseOf(k, i)],
       log := s.log + [Dispatch(r, i, q)])
  }

  /** How a released attempt ended: the status, the upstream's retry delay and the elapsed time. */
  datatype Outcome = Outcome(status: int, retryAfter: int, elapsed: real)

  const ADMINISTRATIVE := -1
  const SECOND := 1000 // the clock counts milliseconds

  function ReleasedState(st: SourceState, now: int, o: Outcome): SourceState {
    var freed := st.(active := st.active - 1);
    if o.status == ADMINISTRATIVE then freed
    else
      var judged := freed.(blocked := freed.blocked || o.status == 401 || o.status == 403);
      if 200 <= o.status < 300 then
        judged.(latency := if st.latency == 0.0 then o.elapsed else st.latency * 0.8 + o.elapsed * 0.2)
      else if o.status != 499 && (o.status == 0 || o.status >= 500) then judged.(cooldown := now + 5 * SECOND)
      else judged
  }

  function ReleasedQuota(q: Quota, now: int, o: Outcome): Quota {
    var freed := q.(active := q.active - 1);
    if o.status == 429 then
      var wait := if o.retryAfter <= 0 then 30 * SECOND else o.retryAfter;
      freed.(cooldown := now + if wait < 86400 * SECOND then wait else 86400 * SECOND)
    else freed
  }

  predicate LeaseInRange(s: System, l: Lease) {
    l.stateRef < |s.states| && l.quotaRef < |s.quotas| && (l.accountRef.Some? ==> l.accountRef.value < |s.accounts|)
  }

  /** Give back what the lease took, through its own pointers. */
  function Returned(s: System, id: nat, o: Outcome): System
    requires id in s.leases && LeaseInRange(s, s.leases[id])
  {
    var l := s.leases[id];
    s.(active := s.active - 1,
       states := s.states[l.stateRef := ReleasedState(s.states[l.stateRef], s.now, o)],
       quotas := s.quotas[l.quotaRef := ReleasedQuota(s.quotas[l.quotaRef], s.now, o)],
       accounts := if l.accountRef.None? then s.accounts
         else s.accounts[l.accountRef.value := s.accounts[l.accountRef.value].(active := s.accounts[l.accountRef.value].active - 1)],
       leases := s.leases - {id})
  }

  // ----- hot configuration swap -----

  /** The first position of a source satisfying equality on a key. */
  function FirstId(sources: seq<Source>, id: string): nat {
    if sources == [] || sources[0].id == id then 0 else 1 + FirstId(sources[1..], id)
  }

  function FirstDomain(sources: seq<Source>, domain: string): nat {
    if sources == [] || sources[0].quotaDomain == domain then 0 else 1 + FirstDomain(sources[1..], domain)
  }

  function FirstAccount(sources: seq<Source>, account: string): nat {
    if sources == [] || sources[0].accountId == account then 0 else 1 + FirstAccount(sources[1..], account)
  }

  ghost function Ids(sources: seq<Source>): set<string> { set i | 0 <= i < |sources| :: sources[i].id }
  ghost function Domains(sources: seq<Source>): set<string> { set i | 0 <= i < |sources| :: sources[i].quotaDomain }
  ghost function AccountIds(sources: seq<Source>): set<string> {
    set i | 0 <= i < |sources| && sources[i].accountId != "" :: sources[i].accountId
  }

  /** The cells a freshly compiled router brings along, one per id, starting at `base`. */
  ghost function BroughtStates(base: nat, sources: seq<Source>): map<string, nat> {
    map id | id in Ids(sources) :: base + FirstId(sources, id)
  }
  ghost function BroughtQuotas(base: nat, sources: seq<Source>): map<string, nat> {
    map id | id in Domains(sources) :: base + FirstDomain(sources, id)
  }
  ghost function BroughtAccounts(base: nat, sources: seq<Source>): map<string, nat> {
    map id | id in AccountIds(sources) :: base + FirstAccount(sources, id)
  }

  function FreshState(src: Source): SourceState { SourceState(0, src.enabled, false, 0, 0.0, 0.0) }
  function FreshQuota(limit: int): Quota { Quota(0, limit, 0, 0, 0.0) }
  function AccountLimit(c: Config, src: Source): int {
    if src.accountId in c.accounts then c.accounts[src.accountId].maxInflight else 0
  }

  /** Re-enabling a source by configuration clears its block. */
  function Adopted(st: SourceState, src: Source): SourceState {
    st.(enabled := src.enabled, blocked := st.blocked && !(!st.enabled && src.enabled))
  }

  function RefreshStates(cells: seq<SourceState>, refs: seq<nat>, sources: seq<Source>, n: nat): (r: seq<SourceState>)
    requires n <= |sources| && n <= |refs| && forall i :: 0 <= i < n ==> refs[i] < |cells|
    ensures |r| == |cells|
  {
    if n == 0 then cells
    else
      var prior := RefreshStates(cells, refs, sources, n - 1);
      prior[refs[n-1] := Adopted(prior[refs[n-1]], sources[n-1])]
  }

  function RefreshLimits(cells: seq<Quota>, refs: seq<Option<nat>>, limits: seq<int>, n: nat): (r: seq<Quota>)
    requires n <= |limits| && n <= |refs| && forall i :: 0 <= i < n && refs[i].Some? ==> refs[i].value < |cells|
    ensures |r| == |cells|
  {
    if n == 0 then cells
    else
      var prior := RefreshLimits(cells, refs, limits, n - 1);
      if refs[n-1].None? then prior else prior[refs[n-1].value := prior[refs[n-1].value].(limit := limits[n-1])]
  }

  function SomeRefs(refs: seq<nat>): seq<Option<nat>> { seq(|refs|, i requires 0 <= i < |refs| => Some(refs[i])) }

  ghost predicate Covers(c: Config, stateOf: map<string, nat>, quotaOf: map<string, nat>, accountOf: map<string, nat>) {
    Ids(c.sources) <= stateOf.Keys && Domains(c.sources) <= quotaOf.Keys && AccountIds(c.sources) <= accountOf.Keys
  }

  /** The pointers that the id tables hold for a configuration. */
  ghost function Linked(table: Table, stateOf: map<string, nat>, quotaOf: map<string, nat>, accountOf: map<string, nat>): Link
    requires Covers(table.cfg, stateOf, quotaOf, accountOf)
  {
    var src := table.cfg.sources;
    Link(table,
      seq(|src|, i requires 0 <= i < |src| => assert src[i].id in Ids(src); stateOf[src[i].id]),
      seq(|src|, i requires 0 <= i < |src| => assert src[i].quotaDomain in Domains(src); quotaOf[src[i].quotaDomain]),
      seq(|src|, i requires 0 <= i < |src| =>
        if src[i].accountId == "" then None else (assert src[i].accountId in AccountIds(src); Some(accountOf[src[i].accountId]))))
  }

  function WakeAll(queue: seq<Waiter>): (q: seq<Waiter>)
    ensures |q| == |queue|
  {
    seq(|queue|, i requires 0 <= i < |queue| => queue[i].(token := true))
  }

  // ----- what each lease holds -----

  type Leases = map<nat, Lease>

  ghost function StateActive(cells: seq<SourceState>): seq<int> { seq(|cells|, c requires 0 <= c < |cells| => cells[c].active) }
  ghost function QuotaActive(cells: seq<Quota>): seq<int> { seq(|cells|, c requires 0 <= c < |cells| => cells[c].active) }

  ghost function StateHolders(leases: Leases): Holders { map l | l in leases :: Some(leases[l].stateRef) }
  ghost function QuotaHolders(leases: Leases): Holders { map l | l in leases :: Some(leases[l].quotaRef) }
  ghost function AccountHolders(leases: Leases): Holders { map l | l in leases :: leases[l].accountRef }

  ghost function SourceNames(leases: Leases): map<nat, string> { map l | l in leases :: leases[l].source }
  ghost function DomainNames(leases: Leases): map<nat, string> { map l | l in leases :: leases[l].domain }
  ghost function AccountNames(leases: Leases): map<nat, string> { map l | l in leases :: leases[l].account }

  ghost predicate StatesConserved(cells: seq<SourceState>, known: map<string, nat>, leases: Leases) {
    Counts(StateActive(cells), StateHolders(leases)) && Reachable(known, SourceNames(leases), StateHolders(leases), |cells|)
  }
  ghost predicate QuotasConserved(cells: seq<Quota>, known: map<string, nat>, leases: Leases) {
    Counts(QuotaActive(cells), QuotaHolders(leases)) && Reachable(known, DomainNames(leases), QuotaHolders(leases), |cells|)
  }
  ghost predicate AccountsConserved(cells: seq<Quota>, known: map<string, nat>, leases: Leases) {
    Counts(QuotaActive(cells), AccountHolders(leases)) && Reachable(known, AccountNames(leases), AccountHolders(leases), |cells|)
  }

  /** Each counter equals the outstanding leases that point at it, and each id table leads to the
      counter that its leases point at. */
  ghost predicate Conserved(s: System) {
    && s.active == |s.leases| && (forall l :: l in s.leases ==> l < |s.log|)
    && StatesConserved(s.states, s.stateOf, s.leases)
    && QuotasConserved(s.quotas, s.quotaOf, s.leases)
    && AccountsConserved(s.accounts, s.accountOf, s.leases)
  }

  /** The current router's pointers are the ones the id tables hold. */
  ghost predicate Wired(s: System)
    requires s.current < |s.routers|
  {
    var k := s.routers[s.current].link;
    Covers(k.table.cfg, s.stateOf, s.quotaOf, s.accountOf) && k == Linked(k.table, s.stateOf, s.quotaOf, s.accountOf)
  }

  ghost predicate QueueOk(queue: seq<Waiter>, limit: int) {
    |queue| <= limit && forall i, j :: 0 <= i < j < |queue| ==> queue[i].thread != queue[j].thread
  }

  ghost predicate Bounded(s: System)
    requires s.current < |s.routers|
  {
    && s.active <= s.routers[s.current].link.table.cfg.maxInflight
    && (forall r :: 0 <= r < |s.routers| ==> QueueOk(s.routers[r].queue, s.routers[r].link.table.cfg.maxQueued))
  }

  ghost predicate Inv(s: System) {
    Formed(s) && Conserved(s) && Wired(s) && Bounded(s)
  }

  // ----- a fresh scheduler and the hot swap -----

  ghost function FreshCells(s: System, table: Table): System {
    var src := table.cfg.sources;
    s.(states := s.states + seq(|src|, i requires 0 <= i < |src| => FreshState(src[i])),
       quotas := s.quotas + seq(|src|, i requires 0 <= i < |src| => FreshQuota(src[i].quotaMaxInflight)),
       accounts := s.accounts + seq(|src|, i requires 0 <= i < |src| => FreshQuota(AccountLimit(table.cfg, src[i]))))
  }

  /** A router just compiled: all counters zero, every pointer its own. */
  ghost function Init(table: Table, now: int): System
  {
    var src := table.cfg.sources;
    var empty := System(now, 0, 0, [], [], [], BroughtStates(0, src), BroughtQuotas(0, src), BroughtAccounts(0, src), [], 0, map[], []);
    var s := FreshCells(empty, table);
    s.(routers := [Router(Linked(table, s.stateOf, s.quotaOf, s.accountOf), false, 0, [])])
  }

  /** Relink the id tables for the next configuration; forget unused ids it no longer names. */
  ghost function Relink(s: System, c: Config): System
    requires Conserved(s)
  {
    s.(stateOf := Relinked(s.stateOf, BroughtStates(|s.states|, c.sources), Busy(StateActive(s.states), s.stateOf)),
       quotaOf := Relinked(s.quotaOf, BroughtQuotas(|s.quotas|, c.sources), Busy(QuotaActive(s.quotas), s.quotaOf)),
       accountOf := Relinked(s.accountOf, BroughtAccounts(|s.accounts|, c.sources), Busy(QuotaActive(s.accounts), s.accountOf)))
  }

  /** Apply the next configuration's switches and limits to the cells its router points at. */
  ghost function Refresh(s: System, k: Link): System
    requires LinkOk(k, |s.states|, |s.quotas|, |s.accounts|)
  {
    var c, n := k.table.cfg, |k.table.cfg.sources|;
    s.(states := RefreshStates(s.states, k.stateRefs, c.sources, n),
       quotas := RefreshLimits(s.quotas, SomeRefs(k.quotaRefs), seq(n, i requires 0 <= i < n => c.sources[i].quotaMaxInflight), n),
       accounts := RefreshLimits(s.accounts, k.accountRefs, seq(n, i requires 0 <= i < n => AccountLimit(c, c.sources[i])), n))
  }

  function Retire(r: Router): Router { r.(retired := true, queue := WakeAll(r.queue)) }

  /** Retire the current router, wake its queue and install the next one. */
  function Install(s: System, next: Router): System
    requires s.current < |s.routers|
  {
    s.(routers := s.routers[s.current := Retire(s.routers[s.current])] + [next], current := |s.routers|)
  }
}
