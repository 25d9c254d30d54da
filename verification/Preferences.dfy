/** The lexicographic order that ranks available candidates. */
module Preferences {
  import opened Policy

  datatype Ext = Fin(value: real) | Inf

  predicate Less(a: Ext, b: Ext) {
    a.Fin? && (b.Inf? || a.value < b.value)
  }

  /** Declarative order: the first differing component decides. */
  ghost predicate LexLess(a: seq<Ext>, b: seq<Ext>) {
    |a| == |b| && exists k :: 0 <= k < |a| && a[..k] == b[..k] && Less(a[k], b[k])
  }

  /** The comparison loop of the source, as its recursion from position `k`. */
  function CompareFrom(a: seq<Ext>, b: seq<Ext>, k: nat): int
    requires |a| == |b| && k <= |a|
    decreases |a| - k
  {
    if k == |a| then 0
    else if Less(a[k], b[k]) then -1
    else if Less(b[k], a[k]) then 1
    else CompareFrom(a, b, k + 1)
  }

  lemma {:induction false} CompareIsLex(a: seq<Ext>, b: seq<Ext>, k: nat)
    requires |a| == |b| && k <= |a| && a[..k] == b[..k]
    ensures CompareFrom(a, b, k) < 0 <==> LexLess(a, b)
    ensures CompareFrom(a, b, k) > 0 <==> LexLess(b, a)
    ensures CompareFrom(a, b, k) == 0 <==> a == b
    decreases |a| - k
  {
    if k == |a| {
      assert a == a[..k] && b == b[..k];
    } else if a[k] == b[k] {
      assert a[..k+1] == a[..k] + [a[k]] && b[..k+1] == b[..k] + [b[k]];
      CompareIsLex(a, b, k + 1);
    } else {
      FirstDifference(a, b, k);
    }
  }

  lemma FirstDifference(a: seq<Ext>, b: seq<Ext>, k: nat)
    requires |a| == |b| && k < |a| && a[..k] == b[..k] && a[k] != b[k]
    ensures LexLess(a, b) <==> Less(a[k], b[k])
    ensures LexLess(b, a) <==> Less(b[k], a[k])
    ensures a != b
  {
    FirstDifferenceOneWay(a, b, k);
    FirstDifferenceOneWay(b, a, k);
  }

  lemma FirstDifferenceOneWay(a: seq<Ext>, b: seq<Ext>, k: nat)
    requires |a| == |b| && k < |a| && a[..k] == b[..k] && a[k] != b[k]
    ensures LexLess(a, b) <==> Less(a[k], b[k])
  {
    if LexLess(a, b) {
      var j :| 0 <= j < |a| && a[..j] == b[..j] && Less(a[j], b[j]);
    }
  }

  lemma LexTransitive(a: seq<Ext>, b: seq<Ext>, c: seq<Ext>)
    requires LexLess(a, b) && LexLess(b, c)
    ensures LexLess(a, c)
  {
    var i :| 0 <= i < |a| && a[..i] == b[..i] && Less(a[i], b[i]);
    var j :| 0 <= j < |b| && b[..j] == c[..j] && Less(b[j], c[j]);
    var k := if i < j then i else j;
    assert a[..k] == a[..i][..k] && b[..k] == b[..i][..k];
    assert b[..k] == b[..j][..k] && c[..k] == c[..j][..k];
    if k < i {
      assert a[k] == a[..i][k] && b[k] == b[..i][k];
    } else if k < j {
      assert b[k] == b[..j][k] && c[k] == c[..j][k];
    }
    assert a[..k] == c[..k] && Less(a[k], c[k]);
  }

  lemma LexTrichotomy(a: seq<Ext>, b: seq<Ext>)
    requires |a| == |b|
    ensures !LexLess(a, a)
    ensures !(LexLess(a, b) && LexLess(b, a))
    ensures LexLess(a, b) || LexLess(b, a) || a == b
  {
    assert a[..0] == b[..0];
    CompareIsLex(a, b, 0);
    CompareIsLex(a, a, 0);
  }

  // ----- scanning a list of ranks -----

  /** A candidate list reduced to what the scan sees: no rank when the candidate is skipped. */
  type Ranks = seq<Option<seq<Ext>>>

  ghost predicate Uniform(ranks: Ranks, width: nat) {
    forall j :: 0 <= j < |ranks| && ranks[j].Some? ==> |ranks[j].value| == width
  }

  /** The position a complete scan keeps: a later one replaces it only when strictly better. */
  ghost function Scan(ranks: Ranks): (k: int)
    ensures -1 <= k < |ranks| && (k >= 0 ==> ranks[k].Some?)
  {
    if ranks == [] then -1
    else
      var n := |ranks| - 1;
      var best := Scan(ranks[..n]);
      if ranks[n].Some? && (best < 0 || LexLess(ranks[n].value, ranks[best].value)) then n else best
  }

  /** Position `k` is ranked, nothing ranked is better, and everything ranked before it is
      strictly worse. */
  ghost predicate FirstMinimal(ranks: Ranks, k: nat) {
    && k < |ranks| && ranks[k].Some?
    && (forall j :: 0 <= j < |ranks| && ranks[j].Some? ==> !LexLess(ranks[j].value, ranks[k].value))
    && (forall j :: 0 <= j < k && ranks[j].Some? ==> LexLess(ranks[k].value, ranks[j].value))
  }

  lemma {:induction false} ScanKeepsFirstMinimal(ranks: Ranks, width: nat)
    requires Uniform(ranks, width)
    ensures if Scan(ranks) < 0 then forall j :: 0 <= j < |ranks| ==> ranks[j].None? else FirstMinimal(ranks, Scan(ranks))
  {
    if ranks != [] {
      var n := |ranks| - 1;
      var init, best := ranks[..n], Scan(ranks[..n]);
      ScanKeepsFirstMinimal(init, width);
      assert forall j :: 0 <= j < n ==> ranks[j] == init[j];
      if ranks[n].Some? {
        LexTrichotomy(ranks[n].value, ranks[n].value);
        if best >= 0 {
          LexTrichotomy(ranks[n].value, ranks[best].value);
          if LexLess(ranks[n].value, ranks[best].value) {
            forall j | 0 <= j < n && ranks[j].Some?
              ensures LexLess(ranks[n].value, ranks[j].value) && !LexLess(ranks[j].value, ranks[n].value)
            {
              LexTrichotomy(ranks[best].value, ranks[j].value);
              if ranks[best].value != ranks[j].value {
                LexTransitive(ranks[n].value, ranks[best].value, ranks[j].value);
              }
              LexTrichotomy(ranks[n].value, ranks[j].value);
            }
          }
        }
      }
    }
  }

  /** At most one position qualifies, so the specification determines the result. */
  lemma FirstMinimalUnique(ranks: Ranks, j: nat, k: nat)
    requires FirstMinimal(ranks, j) && FirstMinimal(ranks, k)
    ensures j == k
  {
  }

  /** The early exit is sound: once a rank is minimal over everything still to come, the scan
      of the prefix is the scan of the whole list. */
  lemma {:induction false} EarlyExit(ranks: Ranks, m: nat)
    requires m <= |ranks| && Scan(ranks[..m]) >= 0
    requires forall j :: m <= j < |ranks| && ranks[j].Some? ==> !LexLess(ranks[j].value, ranks[Scan(ranks[..m])].value)
    ensures Scan(ranks) == Scan(ranks[..m])
  {
    if m == |ranks| {
      assert ranks[..m] == ranks;
    } else {
      var init := ranks[..|ranks|-1];
      assert init[..m] == ranks[..m];
      EarlyExit(init, m);
    }
  }
}
