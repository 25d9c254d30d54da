/** Choosing a target: account pools, rotation, ranking and the early exit. */
module Selection {
  import opened Policy
  import opened Index
  import opened Preferences

  datatype SourceState = SourceState(
    active: int, enabled: bool, blocked: bool, cooldown: int, virtualFinish: real, latency: real)
  datatype Quota = Quota(active: int, limit: int, cooldown: int, lastDispatch: nat, virtualFinish: real)

  /** Everything one call of the chooser reads: the compiled table and the values behind the
      router's pointers, at one instant. */
  datatype View = View(
    table: Table, retired: bool, cursor: nat, active: int,
    states: seq<SourceState>, quotas: seq<Quota>, accounts: seq<Option<Quota>>)

  datatype Choice = Choice(best: int, eligible: bool)

  ghost predicate Sane(v: View) {
    && Compiled(v.table)
    && |v.states| == |v.quotas| == |v.accounts| == |v.table.cfg.sources|
    && (forall i :: 0 <= i < |v.states| ==> v.states[i].active >= 0 && v.states[i].virtualFinish >= 0.0 && v.states[i].latency >= 0.0)
    && (forall i :: 0 <= i < |v.accounts| ==> (v.accounts[i].Some? <==> v.table.cfg.sources[i].accountId != ""))
  }

  /** Positions are in range; all that the functions below need to be well defined. */
  predicate Shaped(v: View) {
    && |v.states| == |v.quotas| == |v.accounts| == |v.table.cfg.sources|
    && InRange(v.table.cfg, v.table.targets)
    && (forall i :: 0 <= i < |v.table.cfg.sources| ==> v.table.cfg.sources[i].maxInflight >= 1)
  }

  lemma SaneIsShaped(v: View)
    requires Sane(v)
    ensures Shaped(v)
  {
    assert forall i :: 0 <= i < |v.table.cfg.sources| ==> ValidSource(v.table.cfg, v.table.cfg.sources[i]);
  }

  // ----- one candidate -----

  function SourceOf(v: View, idx: nat): (i: nat)
    requires Shaped(v) && idx < |v.table.targets|
    ensures i < |v.table.cfg.sources|
  {
    v.table.targets[idx].source
  }

  function Cfg(v: View, idx: nat): Source
    requires Shaped(v) && idx < |v.table.targets|
  {
    v.table.cfg.sources[SourceOf(v, idx)]
  }

  function Verdict(v: View, q: Query, idx: nat): Policy.Reason
    requires Shaped(v) && idx < |v.table.targets|
  {
    var st := v.states[SourceOf(v, idx)];
    ReasonAt(v.table, st.enabled, st.blocked, q, idx)
  }

  predicate AccountRoom(v: View, i: nat)
    requires i < |v.accounts|
  {
    v.accounts[i].Some? ==> v.accounts[i].value.active < v.accounts[i].value.limit
  }

  /** Source, quota and account room, and no cooldown; global capacity is separate. */
  predicate Room(v: View, now: int, i: nat)
    requires Shaped(v) && i < |v.table.cfg.sources|
  {
    && AccountRoom(v, i)
    && v.states[i].active < v.table.cfg.sources[i].maxInflight
    && v.quotas[i].active < v.quotas[i].limit
    && !(now < v.states[i].cooldown) && !(now < v.quotas[i].cooldown)
  }

  predicate Available(v: View, q: Query, now: int, idx: nat)
    requires Shaped(v)
  {
    idx < |v.table.targets| && Verdict(v, q, idx) == Admitted && Room(v, now, SourceOf(v, idx))
  }

  // ----- account pools -----

  datatype Pick = Pick(account: string, score: real, last: nat)

  function PoolStrategy(v: View, s: Source): Pool {
    if s.provider in v.table.cfg.providers then v.table.cfg.providers[s.provider].pool else RoundRobin
  }

  predicate Pooled(v: View, q: Query, now: int, idx: nat)
    requires Shaped(v)
  {
    Available(v, q, now, idx) && v.accounts[SourceOf(v, idx)].Some?
  }

  function PickOf(v: View, q: Query, now: int, idx: nat): Pick
    requires Shaped(v) && Pooled(v, q, now, idx)
  {
    var s, a := Cfg(v, idx), v.accounts[SourceOf(v, idx)].value;
    var score := match PoolStrategy(v, s)
      case WeightedPool => a.virtualFinish
      case LeastLoad => if a.limit == 0 then 0.0 else a.active as real / a.limit as real
      case Sticky => if s.accountId in q.sticky then q.sticky[s.accountId] else 0.0
      case RoundRobin => 0.0;
    Pick(s.accountId, score, a.lastDispatch)
  }

  predicate PickLess(a: Pick, b: Pick) {
    a.score < b.score || (a.score == b.score && a.last < b.last)
  }

  /** The best account of each provider among the first `n` candidates. */
  function PoolPicks(v: View, q: Query, now: int, cands: seq<nat>, n: nat): map<string, Pick>
    requires Shaped(v) && n <= |cands|
  {
    if n == 0 then map[]
    else
      var best := PoolPicks(v, q, now, cands, n - 1);
      if !Pooled(v, q, now, cands[n-1]) then best
      else
        var p, x := Cfg(v, cands[n-1]).provider, PickOf(v, q, now, cands[n-1]);
        if p !in best || PickLess(x, best[p]) then best[p := x] else best
  }

  predicate UsesPools(v: View, q: Query)
    requires Shaped(v)
  {
    && (exists i :: 0 <= i < |v.accounts| && v.accounts[i].Some?)
    && (Key(q.model) in v.table.cfg.groups ==> v.table.cfg.groups[Key(q.model)].strategy !in {Fallback, Select, Weighted})
  }

  function Candidates(v: View, q: Query): seq<nat> {
    Lookup(v.table.candidates, Key(q.model))
  }

  function Picks(v: View, q: Query, now: int): map<string, Pick>
    requires Shaped(v)
  {
    if UsesPools(v, q) then PoolPicks(v, q, now, Candidates(v, q), |Candidates(v, q)|) else map[]
  }

  predicate PoolAdmits(picks: map<string, Pick>, s: Source) {
    s.provider in picks && s.accountId != "" ==> picks[s.provider].account == s.accountId
  }

  predicate Admits(v: View, q: Query, now: int, idx: nat)
    requires Shaped(v)
  {
    Available(v, q, now, idx) && PoolAdmits(Picks(v, q, now), Cfg(v, idx))
  }

  // ----- ranking -----

  function PreferenceValue(v: View, idx: nat, p: Preference): Ext
    requires Shaped(v) && idx < |v.table.targets|
  {
    var s := Cfg(v, idx);
    match p
    case LowerLatency => if v.states[SourceOf(v, idx)].latency > 0.0 then Fin(v.states[SourceOf(v, idx)].latency) else Inf
    case LowerCost => if UnitCost(v.table.targets[idx].model).Some? then Fin(UnitCost(v.table.targets[idx].model).value) else Inf
    case ExistingSubscription => if s.billing == Subscription then Fin(0.0) else Fin(1.0)
    case OfficialApi => if s.kind in {VendorApi, CloudApi} then Fin(0.0) else Fin(1.0)
    case ReverseSource => if s.kind in {ProductReverse, BrowserReverse, AppReverse, CliReverse} then Fin(0.0) else Fin(1.0)
  }

  function Prefs(v: View, q: Query): seq<Preference> {
    if Key(q.model) in v.table.cfg.groups then v.table.cfg.groups[Key(q.model)].preferences else []
  }

  function PreferenceVector(v: View, q: Query, idx: nat): (r: seq<Ext>)
    requires Shaped(v) && idx < |v.table.targets|
    ensures |r| == |Prefs(v, q)|
  {
    seq(|Prefs(v, q)|, k requires 0 <= k < |Prefs(v, q)| => PreferenceValue(v, idx, Prefs(v, q)[k]))
  }

  function Score(v: View, q: Query, idx: nat): real
    requires Shaped(v) && idx < |v.table.targets|
  {
    var i := SourceOf(v, idx);
    var load := v.states[i].active as real / v.table.cfg.sources[i].maxInflight as real;
    if Key(q.model) !in v.table.cfg.groups then load
    else
      var g := v.table.cfg.groups[Key(q.model)];
      match g.strategy
      case Weighted => v.states[i].virtualFinish
      case Fallback => if Cfg(v, idx).id in g.sources then MemberIndex(g.sources, Cfg(v, idx).id) as real else 0.0
      case Select => if Cfg(v, idx).id in g.sources then MemberIndex(g.sources, Cfg(v, idx).id) as real else 0.0
      case Latency => v.states[i].latency
      case Auto => load + v.states[i].latency / 1000000.0
      case LoadBalance => load
  }

  /** The rank of a candidate: preference vector first, then strategy score. Lower wins. */
  function Rank(v: View, q: Query, idx: nat): (r: seq<Ext>)
    requires Shaped(v) && idx < |v.table.targets|
    ensures |r| == |Prefs(v, q)| + 1
  {
    PreferenceVector(v, q, idx) + [Fin(Score(v, q, idx))]
  }

  // ----- the whole choice -----

  function Rotated(cands: seq<nat>, cursor: nat): (r: seq<nat>)
    ensures |r| == |cands|
  {
    if cands == [] then [] else cands[cursor % |cands|..] + cands[..cursor % |cands|]
  }

  lemma RotatedMembers(cands: seq<nat>, cursor: nat)
    ensures forall i :: i in Rotated(cands, cursor) <==> i in cands
  {
    if cands != [] {
      var p := cursor % |cands|;
      assert cands == cands[..p] + cands[p..];
    }
  }

  ghost function RanksOf(v: View, q: Query, now: int, order: seq<nat>): (r: Ranks)
    requires Shaped(v)
    ensures |r| == |order| && Uniform(r, |Prefs(v, q)| + 1)
  {
    seq(|order|, j requires 0 <= j < |order| =>
      if Admits(v, q, now, order[j]) then Some(Rank(v, q, order[j])) else None)
  }

  ghost function FullScan(v: View, q: Query, now: int, order: seq<nat>): int
    requires Shaped(v)
  {
    var k := Scan(RanksOf(v, q, now, order));
    if k < 0 then -1 else order[k]
  }

  ghost predicate AnyEligible(v: View, q: Query)
    requires Shaped(v)
  {
    exists i :: i in Candidates(v, q) && i < |v.table.targets| && Verdict(v, q, i) == Admitted
  }

  ghost function Choose(v: View, q: Query, now: int): Choice
    requires Shaped(v)
  {
    if v.retired || !AnyEligible(v, q) then Choice(-1, false)
    else if v.active >= v.table.cfg.maxInflight then Choice(-1, true)
    else Choice(FullScan(v, q, now, Rotated(Candidates(v, q), v.cursor)), true)
  }
}
