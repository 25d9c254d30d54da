/** What a choice means: the scan agrees with a declarative argmin, and pool filtering
    never removes the last available target. */
module Choosing {
  import opened Policy
  import opened Index
  import opened Preferences
  import opened Selection

  // ----- the choice is a declarative argmin -----

  /** One choice on a live router with free global capacity: the first candidate in rotated order
      that is minimal under (preference vector, strategy score) among those available and admitted
      by the account pools, which determines it; nothing only when none is. */
  lemma ChoiceIsArgmin(v: View, q: Query, now: int) returns (k: nat)
    requires Sane(v) && !v.retired && v.active < v.table.cfg.maxInflight
    ensures Shaped(v)
    ensures var order := Rotated(Candidates(v, q), v.cursor);
      if Choose(v, q, now).best >= 0
      then FirstMinimal(RanksOf(v, q, now, order), k) && order[k] == Choose(v, q, now).best
           && forall j: nat :: FirstMinimal(RanksOf(v, q, now, order), j) ==> j == k
      else forall j :: 0 <= j < |order| ==> !Admits(v, q, now, order[j])
  {
    SaneIsShaped(v);
    var order := Rotated(Candidates(v, q), v.cursor);
    RotatedMembers(Candidates(v, q), v.cursor);
    var ranks := RanksOf(v, q, now, order);
    ScanKeepsFirstMinimal(ranks, |Prefs(v, q)| + 1);
    k := if Scan(ranks) < 0 then 0 else Scan(ranks);
    forall j: nat | Scan(ranks) >= 0 && FirstMinimal(ranks, j) ensures j == k {
      FirstMinimalUnique(ranks, j, k);
    }
    assert forall j :: 0 <= j < |order| ==> (Admits(v, q, now, order[j]) <==> ranks[j].Some?);
    forall j | 0 <= j < |order| && Admits(v, q, now, order[j])
      ensures AnyEligible(v, q)
    {
      assert order[j] in order;
    }
  }

  lemma ChosenIsAdmitted(v: View, q: Query, now: int)
    requires Shaped(v) && Choose(v, q, now).best >= 0
    ensures var best := Choose(v, q, now).best;
      best in Candidates(v, q) && Admits(v, q, now, best) && !v.retired && v.active < v.table.cfg.maxInflight
      && Choose(v, q, now).eligible
  {
    var order := Rotated(Candidates(v, q), v.cursor);
    RotatedMembers(Candidates(v, q), v.cursor);
    assert order[Scan(RanksOf(v, q, now, order))] in order;
  }

  // ----- account picks -----

  lemma {:induction false} PickIsMinimal(v: View, q: Query, now: int, cands: seq<nat>, n: nat, j: nat)
    requires Shaped(v) && j < n <= |cands| && Pooled(v, q, now, cands[j])
    ensures var p := Cfg(v, cands[j]).provider;
      p in PoolPicks(v, q, now, cands, n) && !PickLess(PickOf(v, q, now, cands[j]), PoolPicks(v, q, now, cands, n)[p])
  {
    if j < n - 1 {
      PickIsMinimal(v, q, now, cands, n - 1, j);
    }
  }

  lemma {:induction false} PickIsReal(v: View, q: Query, now: int, cands: seq<nat>, n: nat, p: string) returns (j: nat)
    requires Shaped(v) && n <= |cands| && p in PoolPicks(v, q, now, cands, n)
    ensures j < n && Pooled(v, q, now, cands[j]) && Cfg(v, cands[j]).provider == p
    ensures PickOf(v, q, now, cands[j]) == PoolPicks(v, q, now, cands, n)[p]
  {
    var best := PoolPicks(v, q, now, cands, n - 1);
    if Pooled(v, q, now, cands[n-1]) && Cfg(v, cands[n-1]).provider == p
       && (p !in best || PickLess(PickOf(v, q, now, cands[n-1]), best[p])) {
      j := n - 1;
    } else {
      j := PickIsReal(v, q, now, cands, n - 1, p);
    }
  }

  // ----- pool filtering never starves a request -----

  /** A request can be served: the router is live, global capacity is free and some target
      anywhere in the table admits it and has room. */
  ghost predicate Dispatchable(v: View, q: Query, now: int)
    requires Shaped(v)
  {
    !v.retired && v.active < v.table.cfg.maxInflight && exists idx :: 0 <= idx < |v.table.targets| && Available(v, q, now, idx)
  }

  lemma SomeCandidateAdmitted(v: View, q: Query, now: int, idx: nat) returns (k: nat)
    requires Sane(v) && Shaped(v) && Available(v, q, now, idx) && idx in Candidates(v, q)
    ensures k in Candidates(v, q) && Admits(v, q, now, k)
  {
    var cands := Candidates(v, q);
    k := idx;
    if UsesPools(v, q) && !PoolAdmits(Picks(v, q, now), Cfg(v, idx)) {
      var j := PickIsReal(v, q, now, cands, |cands|, Cfg(v, idx).provider);
      k := cands[j];
    }
  }

  /** Filtering by account pool and stopping early never hide the last indexed choice. */
  lemma ChooseIffIndexed(v: View, q: Query, now: int)
    requires Sane(v)
    ensures Shaped(v)
    ensures Choose(v, q, now).best >= 0 <==>
      !v.retired && v.active < v.table.cfg.maxInflight && exists idx :: idx in Candidates(v, q) && Available(v, q, now, idx)
  {
    SaneIsShaped(v);
    if Choose(v, q, now).best >= 0 {
      ChosenIsAdmitted(v, q, now);
    } else if !v.retired && v.active < v.table.cfg.maxInflight {
      var k := ChoiceIsArgmin(v, q, now);
      var order := Rotated(Candidates(v, q), v.cursor);
      RotatedMembers(Candidates(v, q), v.cursor);
      forall idx | idx in Candidates(v, q)
        ensures !Available(v, q, now, idx)
      {
        if Available(v, q, now, idx) {
          var a := SomeCandidateAdmitted(v, q, now, idx);
        }
      }
    }
  }

  /** Something is selected exactly when the request is dispatchable at all: the index is complete
      and the account-pool skip never removes the last choice. */
  lemma ChooseIffDispatchable(v: View, q: Query, now: int)
    requires Sane(v) && !Shadowed(v.table.cfg)
    ensures Shaped(v)
    ensures Choose(v, q, now).best >= 0 <==> Dispatchable(v, q, now)
  {
    ChooseIffIndexed(v, q, now);
    if Dispatchable(v, q, now) {
      var idx :| 0 <= idx < |v.table.targets| && Available(v, q, now, idx);
      IndexComplete(v.table, v.states[SourceOf(v, idx)].enabled, v.states[SourceOf(v, idx)].blocked, q, idx);
    }
  }

  /** The eligibility verdict is also about the whole table. */
  lemma ChooseEligible(v: View, q: Query, now: int)
    requires Sane(v) && !Shadowed(v.table.cfg)
    ensures Shaped(v)
    ensures Choose(v, q, now).eligible <==>
      !v.retired && exists idx :: 0 <= idx < |v.table.targets| && Verdict(v, q, idx) == Admitted
  {
    SaneIsShaped(v);
    if idx :| 0 <= idx < |v.table.targets| && Verdict(v, q, idx) == Admitted {
      IndexComplete(v.table, v.states[SourceOf(v, idx)].enabled, v.states[SourceOf(v, idx)].blocked, q, idx);
    }
  }

  // ----- explanations and the simulator -----

  datatype Explanation = Refused(reason: Policy.Reason) | AccountCapacity | Cooldown | Capacity | EligibleNow

  function Explain(v: View, q: Query, now: int, idx: nat): Explanation
    requires Shaped(v) && idx < |v.table.targets|
  {
    var i := SourceOf(v, idx);
    if Verdict(v, q, idx) != Admitted then Refused(Verdict(v, q, idx))
    else if v.accounts[i].Some? && v.accounts[i].value.active >= v.accounts[i].value.limit then AccountCapacity
    else if now < Max(v.states[i].cooldown, v.quotas[i].cooldown) then Cooldown
    else if v.states[i].active >= v.table.cfg.sources[i].maxInflight || v.quotas[i].active >= v.quotas[i].limit
            || v.active >= v.table.cfg.maxInflight then Capacity
    else EligibleNow
  }

  /** The targets a simulation lists: the key's candidates, or the whole table when it has none. */
  function Listed(v: View, q: Query): seq<nat> {
    if Candidates(v, q) == [] then seq(|v.table.targets|, i requires 0 <= i => i) else Candidates(v, q)
  }

  /** A simulation on a live router selects something exactly when it lists an eligible target. */
  lemma SimulationConsistent(v: View, q: Query, now: int)
    requires Sane(v) && !Shadowed(v.table.cfg) && !v.retired
    ensures Shaped(v)
    ensures Choose(v, q, now).best >= 0 <==>
      exists idx :: idx in Listed(v, q) && idx < |v.table.targets| && Explain(v, q, now, idx) == EligibleNow
    ensures Choose(v, q, now).best >= 0 ==> Choose(v, q, now).best in Listed(v, q)
  {
    SaneIsShaped(v);
    ChooseIffDispatchable(v, q, now);
    if Choose(v, q, now).best >= 0 {
      ChosenIsAdmitted(v, q, now);
      EligibleNowIsAvailable(v, q, now, Choose(v, q, now).best);
    }
    forall idx | idx in Listed(v, q) && idx < |v.table.targets| && Explain(v, q, now, idx) == EligibleNow
      ensures Dispatchable(v, q, now)
    {
      EligibleNowIsAvailable(v, q, now, idx);
    }
  }

  lemma EligibleNowIsAvailable(v: View, q: Query, now: int, idx: nat)
    requires Shaped(v) && idx < |v.table.targets|
    ensures Explain(v, q, now, idx) == EligibleNow <==> v.active < v.table.cfg.maxInflight && Available(v, q, now, idx)
  {
  }

  // ----- fallback order -----

  /** Nothing that could have been chosen ranks better than the choice. */
  lemma ChosenNotBeaten(v: View, q: Query, now: int, other: nat)
    requires Sane(v) && Shaped(v) && Choose(v, q, now).best >= 0
    requires Admits(v, q, now, other) && other in Candidates(v, q)
    ensures Admits(v, q, now, Choose(v, q, now).best)
    ensures !LexLess(Rank(v, q, other), Rank(v, q, Choose(v, q, now).best))
  {
    ChosenIsAdmitted(v, q, now);
    var k := ChoiceIsArgmin(v, q, now);
    var order := Rotated(Candidates(v, q), v.cursor);
    RotatedMembers(Candidates(v, q), v.cursor);
    assert other in order;
    var j :| 0 <= j < |order| && order[j] == other;
    assert RanksOf(v, q, now, order)[j] == Some(Rank(v, q, other));
  }

  lemma RankIsScore(v: View, q: Query, a: nat, b: nat)
    requires Shaped(v) && a < |v.table.targets| && b < |v.table.targets| && Prefs(v, q) == []
    ensures LexLess(Rank(v, q, a), Rank(v, q, b)) <==> Score(v, q, a) < Score(v, q, b)
  {
    var x, y := Rank(v, q, a), Rank(v, q, b);
    assert x == [Fin(Score(v, q, a))] && y == [Fin(Score(v, q, b))];
    assert x[..0] == y[..0];
  }

  ghost predicate InGroup(v: View, q: Query, strategy: Strategy) {
    Key(q.model) in v.table.cfg.groups && v.table.cfg.groups[Key(q.model)].strategy == strategy
  }

  lemma AvailableIsMember(v: View, q: Query, now: int, idx: nat)
    requires Sane(v) && Shaped(v) && Key(q.model) in v.table.cfg.groups && Available(v, q, now, idx)
    ensures idx in Candidates(v, q) && Cfg(v, idx).id in v.table.cfg.groups[Key(q.model)].sources
  {
    var st := v.states[SourceOf(v, idx)];
    AdmittedShape(v.table.cfg, Cfg(v, idx), v.table.targets[idx].model, st.enabled, st.blocked, q);
    CandidateMembers(v.table.cfg, v.table.targets, Key(q.model), idx);
  }

  lemma NoPreferences(v: View, q: Query, strategy: Strategy)
    requires Sane(v) && InGroup(v, q, strategy) && strategy in {Fallback, Select, Weighted}
    ensures Prefs(v, q) == []
  {
    assert ValidGroup(v.table.cfg, v.table.cfg.groups[Key(q.model)]);
  }

  /** A fallback group serves the earliest declared available member, wherever the rotation
      cursor stands. */
  lemma FallbackIgnoresCursor(v: View, q: Query, now: int, other: nat)
    requires Sane(v) && Shaped(v) && InGroup(v, q, Fallback)
    requires Choose(v, q, now).best >= 0 && Available(v, q, now, other)
    ensures var g, best := v.table.cfg.groups[Key(q.model)], Choose(v, q, now).best;
      && Admits(v, q, now, best)
      && Cfg(v, best).id in g.sources && Cfg(v, other).id in g.sources
      && MemberIndex(g.sources, Cfg(v, best).id) <= MemberIndex(g.sources, Cfg(v, other).id)
  {
    var best := Choose(v, q, now).best;
    NoPreferences(v, q, Fallback);
    AvailableIsMember(v, q, now, other);
    ChosenNotBeaten(v, q, now, other);
    AvailableIsMember(v, q, now, best);
    RankIsScore(v, q, other, best);
  }

  // ----- what each strategy and preference buys -----

  /** By the preference, the target at `a` is strictly better than the one at `b`. */
  predicate Better(v: View, p: Preference, a: nat, b: nat)
    requires Shaped(v) && a < |v.table.targets| && b < |v.table.targets|
  {
    var m, n := v.table.targets[a].model, v.table.targets[b].model;
    var i, j := v.table.targets[a].source, v.table.targets[b].source;
    var s, t := v.table.cfg.sources[i], v.table.cfg.sources[j];
    match p
    case OfficialApi => (s.kind == VendorApi || s.kind == CloudApi) && t.kind != VendorApi && t.kind != CloudApi
    case ReverseSource => IsReverse(s.kind) && !IsReverse(t.kind)
    case ExistingSubscription => s.billing == Subscription && t.billing != Subscription
    case LowerCost => m.inputUSD.Some? && m.outputUSD.Some? && (n.inputUSD.None? || n.outputUSD.None? || Cheaper(m, n))
    case LowerLatency =>
      v.states[i].latency > 0.0 && (v.states[j].latency <= 0.0 || v.states[i].latency < v.states[j].latency)
  }

  predicate IsReverse(k: Kind) { k == ProductReverse || k == BrowserReverse || k == AppReverse || k == CliReverse }

  /** Both prices of `m` are below the larger price of `n`. */
  predicate Cheaper(m: Model, n: Model)
    requires m.inputUSD.Some? && m.outputUSD.Some? && n.inputUSD.Some? && n.outputUSD.Some?
  {
    && (m.inputUSD.value < n.inputUSD.value || m.inputUSD.value < n.outputUSD.value)
    && (m.outputUSD.value < n.inputUSD.value || m.outputUSD.value < n.outputUSD.value)
  }

  /** The number a preference gives a target orders targets by what the preference says. */
  lemma BetterIff(v: View, p: Preference, a: nat, b: nat)
    requires Shaped(v) && a < |v.table.targets| && b < |v.table.targets|
    ensures Less(PreferenceValue(v, a, p), PreferenceValue(v, b, p)) <==> Better(v, p, a, b)
    ensures PreferenceValue(v, a, p) == PreferenceValue(v, b, p) <==> !Better(v, p, a, b) && !Better(v, p, b, a)
  {
  }

  /** Up to position `k`, no preference of the group tells the two targets apart. */
  ghost predicate Ties(v: View, g: Group, k: nat, a: nat, b: nat)
    requires Shaped(v) && a < |v.table.targets| && b < |v.table.targets| && k <= |g.preferences|
  {
    forall j :: 0 <= j < k ==> !Better(v, g.preferences[j], a, b) && !Better(v, g.preferences[j], b, a)
  }

  /** The preferences of a group rule in their order: whatever could have been chosen and ties with the
      choice on the earlier preferences is no better on the next one. */
  lemma PreferencesRule(v: View, q: Query, now: int, other: nat, k: nat)
    requires Sane(v) && Shaped(v) && Choose(v, q, now).best >= 0 && Key(q.model) in v.table.cfg.groups
    requires Admits(v, q, now, other) && other in Candidates(v, q)
    requires k < |v.table.cfg.groups[Key(q.model)].preferences|
    ensures other < |v.table.targets| && Choose(v, q, now).best < |v.table.targets|
    ensures var g, best := v.table.cfg.groups[Key(q.model)], Choose(v, q, now).best;
      Ties(v, g, k, best, other) ==> !Better(v, g.preferences[k], other, best)
  {
    hide Admits, Choose, Better, PreferenceValue;
    ChosenNotBeaten(v, q, now, other);
    ChosenInTable(v, q, now, other);
    var g, best := v.table.cfg.groups[Key(q.model)], Choose(v, q, now).best;
    var x, y := Rank(v, q, other), Rank(v, q, best);
    if Ties(v, g, k, best, other) {
      forall j | 0 <= j < k ensures x[j] == y[j] {
        BetterIff(v, g.preferences[j], other, best);
      }
      assert x[..k] == y[..k];
      BetterIff(v, g.preferences[k], other, best);
    }
  }

  /** Where the preferences leave a tie, or there are none, the chosen target is the best by its group's
      own measure among all that could have been chosen. */
  lemma StrategyMeans(v: View, q: Query, now: int, other: nat)
    requires Sane(v) && Shaped(v) && Choose(v, q, now).best >= 0
    requires Admits(v, q, now, other) && other in Candidates(v, q)
    ensures other < |v.table.targets| && Choose(v, q, now).best < |v.table.targets|
    ensures var best := Choose(v, q, now).best;
      var b, o := v.table.targets[best].source, v.table.targets[other].source;
      if Key(q.model) !in v.table.cfg.groups then Load(v, b) <= Load(v, o)
      else
        var g := v.table.cfg.groups[Key(q.model)];
        Ties(v, g, |g.preferences|, best, other) ==>
          match g.strategy
          case Latency => v.states[b].latency <= v.states[o].latency
          case Weighted => v.states[b].virtualFinish <= v.states[o].virtualFinish
          case LoadBalance => Load(v, b) <= Load(v, o)
          case Auto => Load(v, b) + v.states[b].latency / 1000000.0 <= Load(v, o) + v.states[o].latency / 1000000.0
          case _ => true
  {
    hide Admits, Choose, Better, PreferenceValue;
    ChosenNotBeaten(v, q, now, other);
    ChosenInTable(v, q, now, other);
    var best := Choose(v, q, now).best;
    var x, y := Rank(v, q, other), Rank(v, q, best);
    var n := |Prefs(v, q)|;
    if Key(q.model) in v.table.cfg.groups && Ties(v, v.table.cfg.groups[Key(q.model)], n, best, other) {
      forall j | 0 <= j < n ensures x[j] == y[j] {
        BetterIff(v, Prefs(v, q)[j], other, best);
      }
    }
    assert (forall j :: 0 <= j < n ==> x[j] == y[j]) ==> x[..n] == y[..n];
    assert x[n] == Fin(Score(v, q, other)) && y[n] == Fin(Score(v, q, best));
  }

  function Load(v: View, i: nat): real
    requires Shaped(v) && i < |v.states|
  {
    v.states[i].active as real / v.table.cfg.sources[i].maxInflight as real
  }

  lemma ChosenInTable(v: View, q: Query, now: int, other: nat)
    requires Shaped(v) && Choose(v, q, now).best >= 0 && Admits(v, q, now, other)
    ensures Choose(v, q, now).best < |v.table.targets| && other < |v.table.targets|
  {
    hide Choose;
    ChosenIsAdmitted(v, q, now);
  }

  /** By a provider's pool strategy the account `a` with id `x` is no worse than `b` with id `y`; equals
      are told apart by their last dispatch. */
  predicate NotWorse(strategy: Pool, sticky: map<string, real>, a: Quota, x: string, b: Quota, y: string) {
    match strategy
    case RoundRobin => a.lastDispatch <= b.lastDispatch
    case WeightedPool => Before(a.virtualFinish, a, b.virtualFinish, b)
    case LeastLoad => a.limit > 0 && b.limit > 0 ==> Before(a.active as real / a.limit as real, a, b.active as real / b.limit as real, b)
    case Sticky =>
      && (x in sticky && y in sticky ==> Before(sticky[x], a, sticky[y], b))
      && (x !in sticky && y !in sticky ==> a.lastDispatch <= b.lastDispatch)
  }

  predicate Before(x: real, a: Quota, y: real, b: Quota) { x < y || (x == y && a.lastDispatch <= b.lastDispatch) }

  /** Account pools apply wherever the group neither fixes an order nor balances by weight. */
  ghost predicate Rotates(v: View, q: Query) {
    !InGroup(v, q, Fallback) && !InGroup(v, q, Select) && !InGroup(v, q, Weighted)
  }

  /** Where account pools apply, a chosen target with an account uses the best account of its provider by
      the provider's own pool strategy, round robin unless configured. */
  lemma PoolRules(v: View, q: Query, now: int, best: nat, other: nat) returns (i: nat)
    requires Sane(v) && Shaped(v) && best == Choose(v, q, now).best && best < |v.table.targets| && Rotates(v, q)
    requires other in Candidates(v, q) && Available(v, q, now, other) && Cfg(v, other).provider == Cfg(v, best).provider
    requires Cfg(v, other).accountId != "" && Cfg(v, best).accountId != ""
    ensures i in Candidates(v, q) && Available(v, q, now, i)
    ensures Cfg(v, i).provider == Cfg(v, other).provider && Cfg(v, i).accountId == Cfg(v, best).accountId
    ensures var p := Cfg(v, other).provider;
      v.accounts[SourceOf(v, i)].Some? && v.accounts[SourceOf(v, other)].Some?
      && NotWorse(if p in v.table.cfg.providers then v.table.cfg.providers[p].pool else RoundRobin, q.sticky,
                  v.accounts[SourceOf(v, i)].value, Cfg(v, i).accountId, v.accounts[SourceOf(v, other)].value, Cfg(v, other).accountId)
  {
    hide Available, Choose, PoolPicks, NotWorse, Sane;
    ChosenIsAdmitted(v, q, now);
    var cands := Candidates(v, q);
    var j: nat :| j < |cands| && cands[j] == other;
    AccountHeld(v, q, now, other);
    PickIsMinimal(v, q, now, cands, |cands|, j);
    var k := PickIsReal(v, q, now, cands, |cands|, Cfg(v, other).provider);
    i := cands[k];
    PickNotWorse(v, q, now, i, other);
  }

  lemma AccountHeld(v: View, q: Query, now: int, idx: nat)
    requires Sane(v) && Shaped(v) && Available(v, q, now, idx) && Cfg(v, idx).accountId != ""
    ensures idx < |v.table.targets| && Pooled(v, q, now, idx)
  {
  }

  lemma PickNotWorse(v: View, q: Query, now: int, i: nat, other: nat)
    requires Shaped(v) && Pooled(v, q, now, i) && Pooled(v, q, now, other) && Cfg(v, i).provider == Cfg(v, other).provider
    requires !PickLess(PickOf(v, q, now, other), PickOf(v, q, now, i))
    ensures var p := Cfg(v, other).provider;
      NotWorse(if p in v.table.cfg.providers then v.table.cfg.providers[p].pool else RoundRobin, q.sticky,
               v.accounts[SourceOf(v, i)].value, Cfg(v, i).accountId, v.accounts[SourceOf(v, other)].value, Cfg(v, other).accountId)
  {
    hide Verdict, Room;
  }

  /** Elsewhere, and for targets without an account, everything available could be chosen. */
  lemma PoolsStandAside(v: View, q: Query, now: int, idx: nat)
    requires Sane(v) && Shaped(v) && Available(v, q, now, idx) && (!Rotates(v, q) || Cfg(v, idx).accountId == "")
    ensures Admits(v, q, now, idx)
  {
    hide Verdict, Room, PoolPicks;
  }

  /** Equals are tried in rotation: the order starts at the cursor and goes round once. */
  lemma RotationMeans(cands: seq<nat>, cursor: nat, k: nat)
    requires k < |cands|
    ensures Rotated(cands, cursor)[k] == cands[(cursor + k) % |cands|]
  {
    var n := |cands|;
    var r, d := cursor % n, cursor / n;
    assert cursor + k == d * n + (r + k);
    if r + k < n {
      ModuloIs(cursor + k, n, d, r + k);
    } else {
      ModuloIs(cursor + k, n, d + 1, r + k - n);
    }
  }

  lemma ModuloIs(x: nat, n: nat, d: nat, r: nat)
    requires 0 < n && x == d * n + r && r < n
    ensures x % n == r
  {
    var e := x / n;
    assert x == n * e + x % n;
    if e > d {
      Multiples(d, e, n);
    } else if e < d {
      Multiples(e, d, n);
    }
  }

  lemma Multiples(a: nat, b: nat, n: nat)
    requires a < b
    ensures n * a + n <= n * b && n * a == a * n && n * b == b * n
  {
    assert n * b == n * (a + 1) + n * (b - a - 1);
    assert n * (a + 1) == n * a + n;
  }
}
