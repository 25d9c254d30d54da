/** The router's read-only loops: the account-pool scan, the candidate scan and the simulator. */
module Chooser {
  import opened Policy
  import opened Index
  import opened Preferences
  import opened Selection
  import opened Choosing

  /** Best account per provider, keeping the first among equals. */
  method PoolPreferences(v: View, q: Query, cands: seq<nat>, now: int) returns (out: map<string, string>)
    requires Shaped(v)
    ensures out == map p | p in PoolPicks(v, q, now, cands, |cands|) :: PoolPicks(v, q, now, cands, |cands|)[p].account
  {
    var best: map<string, Pick> := map[];
    for n := 0 to |cands|
      invariant best == PoolPicks(v, q, now, cands, n)
    {
      if Pooled(v, q, now, cands[n]) {
        var provider, x := Cfg(v, cands[n]).provider, PickOf(v, q, now, cands[n]);
        if provider !in best || PickLess(x, best[provider]) {
          best := best[provider := x];
        }
      }
    }
    out := map p | p in best :: best[p].account;
  }

  /** The replacement test of the scan is exactly the declarative rank order. */
  lemma ReplacementIsRankOrder(v: View, q: Query, a: nat, b: nat)
    requires Shaped(v) && a < |v.table.targets| && b < |v.table.targets|
    ensures var c := CompareFrom(PreferenceVector(v, q, a), PreferenceVector(v, q, b), 0);
      c < 0 || (c == 0 && Score(v, q, a) < Score(v, q, b)) <==> LexLess(Rank(v, q, a), Rank(v, q, b))
  {
    LexSnoc(PreferenceVector(v, q, a), PreferenceVector(v, q, b), Fin(Score(v, q, a)), Fin(Score(v, q, b)));
  }

  lemma LexSnoc(a: seq<Ext>, b: seq<Ext>, x: Ext, y: Ext)
    requires |a| == |b|
    ensures var c := CompareFrom(a, b, 0);
      c < 0 || (c == 0 && Less(x, y)) <==> LexLess(a + [x], b + [y])
  {
    CompareIsLex(a, b, 0);
    var a', b' := a + [x], b + [y];
    CompareIsLex(a', b', 0);
    CompareSnoc(a, b, x, y, 0);
  }

  lemma {:induction false} CompareSnoc(a: seq<Ext>, b: seq<Ext>, x: Ext, y: Ext, k: nat)
    requires |a| == |b| && k <= |a|
    ensures CompareFrom(a + [x], b + [y], k) ==
      (if CompareFrom(a, b, k) != 0 then CompareFrom(a, b, k) else if Less(x, y) then -1 else if Less(y, x) then 1 else 0)
    decreases |a| - k
  {
    if k < |a| {
      CompareSnoc(a, b, x, y, k + 1);
    } else {
      assert CompareFrom(a + [x], b + [y], k + 1) == 0;
    }
  }

  /** What the scan relies on: positions in range and no negative score. */
  ghost predicate Scannable(v: View, q: Query)
    requires Shaped(v)
  {
    && (forall k :: 0 <= k < |Candidates(v, q)| ==> Candidates(v, q)[k] < |v.table.targets|)
    && (forall idx :: 0 <= idx < |v.table.targets| ==> Score(v, q, idx) >= 0.0)
  }

  lemma SaneIsScannable(v: View, q: Query)
    requires Sane(v) && Shaped(v)
    ensures Scannable(v, q)
  {
    forall k | 0 <= k < |Candidates(v, q)|
      ensures Candidates(v, q)[k] < |v.table.targets|
    {
      CandidateMembers(v.table.cfg, v.table.targets, Key(q.model), Candidates(v, q)[k]);
    }
    forall idx | 0 <= idx < |v.table.targets|
      ensures Score(v, q, idx) >= 0.0
    {
      var i := SourceOf(v, idx);
      Quotient(v.states[i].active, v.table.cfg.sources[i].maxInflight);
    }
  }

  lemma Quotient(a: int, b: int)
    requires a >= 0 && b >= 1
    ensures a as real / b as real >= 0.0
  {
  }

  /** The candidate kept after the first `n` positions. */
  ghost function Kept(v: View, q: Query, now: int, order: seq<nat>, n: nat): (best: int)
    requires Shaped(v) && n <= |order|
    ensures best == -1 || (0 <= best < |v.table.targets| && Admits(v, q, now, best))
  {
    var ranks := RanksOf(v, q, now, order);
    var k := Scan(ranks[..n]);
    assert k >= 0 ==> ranks[..n][k] == ranks[k];
    if k < 0 then -1 else order[k]
  }

  ghost predicate Replaces(v: View, q: Query, now: int, idx: nat, best: int)
    requires Shaped(v) && best < |v.table.targets|
  {
    Admits(v, q, now, idx) && (best < 0 || LexLess(Rank(v, q, idx), Rank(v, q, best)))
  }

  /** One more candidate is examined. */
  lemma KeptStep(v: View, q: Query, now: int, order: seq<nat>, n: nat)
    requires Shaped(v) && n < |order|
    ensures var best := Kept(v, q, now, order, n);
      Kept(v, q, now, order, n + 1) ==
        if Replaces(v, q, now, order[n], best) then order[n] else best
  {
    var ranks := RanksOf(v, q, now, order);
    assert ranks[..n+1][..n] == ranks[..n];
  }

  lemma KeptAtEnd(v: View, q: Query, now: int, order: seq<nat>)
    requires Shaped(v)
    ensures Kept(v, q, now, order, 0) == -1
    ensures Kept(v, q, now, order, |order|) == FullScan(v, q, now, order)
  {
    var ranks := RanksOf(v, q, now, order);
    assert ranks[..|order|] == ranks;
  }

  /** A zero score without preferences cannot be beaten, so the scan may stop. */
  lemma ZeroEndsScan(v: View, q: Query, now: int, order: seq<nat>, m: nat)
    requires Shaped(v) && Scannable(v, q) && m <= |order| && Prefs(v, q) == []
    requires Kept(v, q, now, order, m) >= 0 && Score(v, q, Kept(v, q, now, order, m)) == 0.0
    ensures FullScan(v, q, now, order) == Kept(v, q, now, order, m)
  {
    var ranks := RanksOf(v, q, now, order);
    var k := Scan(ranks[..m]);
    assert ranks[..m][k] == ranks[k] == Some(Rank(v, q, order[k]));
    forall j | m <= j < |ranks| && ranks[j].Some?
      ensures !LexLess(ranks[j].value, ranks[k].value)
    {
      RankIsScore(v, q, order[j], order[k]);
    }
    EarlyExit(ranks, m);
  }

  /** The scan as a trace: what is kept after each position. */
  ghost predicate Trace(v: View, q: Query, now: int, order: seq<nat>, kept: seq<int>)
    requires Shaped(v)
  {
    && |kept| == |order| + 1 && kept[0] == -1
    && (forall n :: 0 <= n < |kept| ==> -1 <= kept[n] < |v.table.targets|)
    && (forall n :: 0 <= n < |order| ==> kept[n+1] == if Replaces(v, q, now, order[n], kept[n]) then order[n] else kept[n])
  }

  lemma ScanTrace(v: View, q: Query, now: int, order: seq<nat>) returns (kept: seq<int>)
    requires Shaped(v) && Scannable(v, q)
    ensures Trace(v, q, now, order, kept)
    ensures kept[|order|] == FullScan(v, q, now, order)
    ensures forall m :: 0 <= m <= |order| && kept[m] >= 0 && Prefs(v, q) == [] && Score(v, q, kept[m]) == 0.0
              ==> kept[m] == FullScan(v, q, now, order)
  {
    kept := seq(|order| + 1, n requires 0 <= n <= |order| => Kept(v, q, now, order, n));
    KeptAtEnd(v, q, now, order);
    forall n | 0 <= n < |order|
      ensures kept[n+1] == if Replaces(v, q, now, order[n], kept[n]) then order[n] else kept[n]
    {
      KeptStep(v, q, now, order, n);
    }
    forall m | 0 <= m <= |order| && kept[m] >= 0 && Prefs(v, q) == [] && Score(v, q, kept[m]) == 0.0
      ensures kept[m] == FullScan(v, q, now, order)
    {
      ZeroEndsScan(v, q, now, order, m);
    }
  }

  /** Compare one eligible candidate with the best so far. */
  method Consider(v: View, q: Query, now: int, picks: map<string, string>, best: int, score: real, idx: nat)
    returns (best': int, score': real, stop: bool)
    requires Shaped(v) && idx < |v.table.targets| && Verdict(v, q, idx) == Admitted
    requires picks == map p | p in Picks(v, q, now) :: Picks(v, q, now)[p].account
    requires best == -1 || (0 <= best < |v.table.targets| && score == Score(v, q, best))
    ensures best' == if Replaces(v, q, now, idx, best) then idx else best
    ensures best' >= 0 ==> score' == Score(v, q, best')
    ensures stop ==> best' == idx && score' == 0.0 && Prefs(v, q) == []
  {
    best', score', stop := best, score, false;
    var s := Cfg(v, idx);
    if s.provider in picks && s.accountId != "" && picks[s.provider] != s.accountId {
      return;
    }
    if !Room(v, now, SourceOf(v, idx)) {
      return;
    }
    var value := Score(v, q, idx);
    var preference := if best < 0 then -1
                      else CompareFrom(PreferenceVector(v, q, idx), PreferenceVector(v, q, best), 0);
    if best >= 0 {
      ReplacementIsRankOrder(v, q, idx, best);
    }
    if best < 0 || preference < 0 || (preference == 0 && value < score) {
      score', best' := value, idx;
      stop := value == 0.0 && |Prefs(v, q)| == 0;
    }
  }

  ghost predicate EligibleAmong(v: View, q: Query, order: seq<nat>, n: nat)
    requires Shaped(v) && n <= |order|
  {
    exists j :: 0 <= j < n && order[j] < |v.table.targets| && Verdict(v, q, order[j]) == Admitted
  }

  lemma EligibleInOrder(v: View, q: Query, n: nat)
    requires Shaped(v) && n <= |Candidates(v, q)|
    ensures EligibleAmong(v, q, Rotated(Candidates(v, q), v.cursor), n) ==> AnyEligible(v, q)
    ensures n == |Candidates(v, q)| && AnyEligible(v, q) ==> EligibleAmong(v, q, Rotated(Candidates(v, q), v.cursor), n)
  {
    var order := Rotated(Candidates(v, q), v.cursor);
    RotatedMembers(Candidates(v, q), v.cursor);
    assert forall j :: 0 <= j < |order| ==> order[j] in order;
  }

  lemma NoneEligible(v: View, q: Query, order: seq<nat>)
    requires Shaped(v)
    ensures !EligibleAmong(v, q, order, 0)
  {
  }

  lemma OnlyAdmittedReplace(v: View, q: Query, now: int, idx: nat, best: int)
    requires Shaped(v) && idx < |v.table.targets| && best < |v.table.targets| && Verdict(v, q, idx) != Admitted
    ensures !Replaces(v, q, now, idx, best)
  {
    hide Verdict;
  }

  lemma EligibleSnoc(v: View, q: Query, order: seq<nat>, n: nat)
    requires Shaped(v) && n < |order| && order[n] < |v.table.targets|
    ensures EligibleAmong(v, q, order, n + 1) <==> EligibleAmong(v, q, order, n) || Verdict(v, q, order[n]) == Admitted
  {
    hide Verdict;
  }

  lemma RotatedAt(cands: seq<nat>, cursor: nat, off: nat)
    requires off < |cands|
    ensures var p := Wrap(cursor % |cands| + off, |cands|); 0 <= p < |cands| && cands[p] == Rotated(cands, cursor)[off]
  {
  }

  /** The scan with rotation and early exit. */
  method ScanCandidates(v: View, q: Query, now: int, picks: map<string, string>) returns (best: int, eligible: bool)
    requires Shaped(v) && Scannable(v, q) && !v.retired
    requires picks == map p | p in Picks(v, q, now) :: Picks(v, q, now)[p].account
    ensures Choice(best, eligible) == Choose(v, q, now)
  {
    hide Verdict, Score, Rank, Replaces, FullScan, Prefs, Picks, EligibleAmong, AnyEligible;
    NoneEligible(v, q, Rotated(Candidates(v, q), v.cursor));
    best, eligible := -1, false;
    var cands, score, stop := Candidates(v, q), 0.0, false;
    var start := if |cands| > 0 then v.cursor % |cands| else 0;
    var position := start;
    ghost var order := Rotated(cands, v.cursor);
    ghost var kept := ScanTrace(v, q, now, order);
    for off := 0 to |cands|
      invariant off < |cands| ==> position == Wrap(start + off, |cands|)
      invariant eligible <==> EligibleAmong(v, q, order, off)
      invariant eligible ==> v.active < v.table.cfg.maxInflight
      invariant best == kept[off] && (best >= 0 ==> eligible)
      invariant best >= 0 ==> score == Score(v, q, best)
    {
      RotatedAt(cands, v.cursor, off);
      var idx := cands[position];
      assert idx == order[off];
      position := position + 1;
      if position == |cands| {
        position := 0;
      }
      EligibleInOrder(v, q, off + 1);
      EligibleSnoc(v, q, order, off);
      if Verdict(v, q, idx) != Admitted {
        OnlyAdmittedReplace(v, q, now, idx, best);
      }
      if Verdict(v, q, idx) == Admitted {
        eligible := true;
        if v.active >= v.table.cfg.maxInflight {
          return -1, true;
        }
        best, score, stop := Consider(v, q, now, picks, best, score, idx);
        if stop {
          assert kept[off+1] == best && best == FullScan(v, q, now, order);
          return;
        }
      }
    }
    EligibleInOrder(v, q, |cands|);
  }

  function Wrap(x: nat, n: nat): int { if x < n then x else x - n }

  /** The router's choice: live check, account pools, then the scan. */
  method ChooseTarget(v: View, q: Query, now: int) returns (best: int, eligible: bool)
    requires Sane(v)
    ensures Shaped(v) && Choice(best, eligible) == Choose(v, q, now)
  {
    SaneIsShaped(v);
    SaneIsScannable(v, q);
    if v.retired {
      return -1, false;
    }
    var picks: map<string, string> := map[];
    if UsesPools(v, q) {
      picks := PoolPreferences(v, q, Candidates(v, q), now);
    }
    best, eligible := ScanCandidates(v, q, now, picks);
  }
}
