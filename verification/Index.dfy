/** The target table and candidate index that a router compiles from a configuration. */
module Index {
  import opened Policy

  datatype Table = Table(cfg: Config, targets: seq<Target>, candidates: map<string, seq<nat>>)

  function Lookup(index: map<string, seq<nat>>, key: string): seq<nat> {
    if key in index then index[key] else []
  }

  function SourceTargets(i: nat, models: seq<Model>): (ts: seq<Target>)
    ensures |ts| == |models|
    ensures forall k :: 0 <= k < |ts| ==> ts[k] == Target(i, models[k])
  {
    seq(|models|, k requires 0 <= k < |models| => Target(i, models[k]))
  }

  /** Every model of the first `n` sources, in declaration order. */
  function TargetTable(c: Config, n: nat): (ts: seq<Target>)
    requires n <= |c.sources|
    ensures forall k :: 0 <= k < |ts| ==> ts[k].source < n && ts[k].model in c.sources[ts[k].source].models
  {
    if n == 0 then [] else TargetTable(c, n - 1) + SourceTargets(n - 1, c.sources[n-1].models)
  }

  predicate InRange(c: Config, ts: seq<Target>) {
    forall k :: 0 <= k < |ts| ==> ts[k].source < |c.sources|
  }

  lemma {:induction false} TargetListed(c: Config, n: nat, i: nat, m: Model) returns (k: nat)
    requires i < n <= |c.sources| && m in c.sources[i].models
    ensures k < |TargetTable(c, n)| && TargetTable(c, n)[k] == Target(i, m)
  {
    var before := TargetTable(c, n - 1);
    if i < n - 1 {
      k := TargetListed(c, n - 1, i, m);
    } else {
      var j :| 0 <= j < |c.sources[i].models| && c.sources[i].models[j] == m;
      k := |before| + j;
    }
  }

  predicate Named(c: Config, t: Target, key: string)
    requires t.source < |c.sources|
  {
    key == ExplicitName(c.sources[t.source], t.model) || key == t.model.id
  }

  /** Positions below `n` whose target is reachable by its own name, in table order. */
  function NamedIn(c: Config, ts: seq<Target>, key: string, n: nat): seq<nat>
    requires n <= |ts| && InRange(c, ts)
  {
    if n == 0 then []
    else NamedIn(c, ts, key, n - 1) + if Named(c, ts[n-1], key) then [n - 1] else []
  }

  /** Positions below `n` of the targets of source `id`, in table order. */
  function OfSource(c: Config, ts: seq<Target>, id: string, n: nat): seq<nat>
    requires n <= |ts| && InRange(c, ts)
  {
    if n == 0 then []
    else OfSource(c, ts, id, n - 1) + if c.sources[ts[n-1].source].id == id then [n - 1] else []
  }

  /** The members' targets, following the declared member sequence. */
  function OfMembers(c: Config, ts: seq<Target>, ids: seq<string>): seq<nat>
    requires InRange(c, ts)
  {
    if ids == [] then []
    else OfMembers(c, ts, ids[..|ids|-1]) + OfSource(c, ts, ids[|ids|-1], |ts|)
  }

  /** What the index must answer for a key: named targets, then group members in declared order. */
  function CandidateList(c: Config, ts: seq<Target>, key: string): seq<nat>
    requires InRange(c, ts)
  {
    NamedIn(c, ts, key, |ts|) + if key in c.groups then OfMembers(c, ts, c.groups[key].sources) else []
  }

  lemma {:induction false} NamedInMembers(c: Config, ts: seq<Target>, key: string, n: nat, i: nat)
    requires n <= |ts| && InRange(c, ts)
    ensures i in NamedIn(c, ts, key, n) <==> i < n && Named(c, ts[i], key)
  {
    if n > 0 {
      NamedInMembers(c, ts, key, n - 1, i);
    }
  }

  lemma {:induction false} OfSourceMembers(c: Config, ts: seq<Target>, id: string, n: nat, i: nat)
    requires n <= |ts| && InRange(c, ts)
    ensures i in OfSource(c, ts, id, n) <==> i < n && c.sources[ts[i].source].id == id
  {
    if n > 0 {
      OfSourceMembers(c, ts, id, n - 1, i);
    }
  }

  lemma {:induction false} OfMembersMembers(c: Config, ts: seq<Target>, ids: seq<string>, i: nat)
    requires InRange(c, ts)
    ensures i in OfMembers(c, ts, ids) <==> i < |ts| && c.sources[ts[i].source].id in ids
  {
    if ids != [] {
      assert ids == ids[..|ids|-1] + [ids[|ids|-1]];
      OfMembersMembers(c, ts, ids[..|ids|-1], i);
      OfSourceMembers(c, ts, ids[|ids|-1], |ts|, i);
    }
  }

  /** The index answers exactly the targets reachable by name or by group membership. */
  lemma CandidateMembers(c: Config, ts: seq<Target>, key: string, i: nat)
    requires InRange(c, ts)
    ensures i in CandidateList(c, ts, key) <==>
      i < |ts| && (Named(c, ts[i], key) || (key in c.groups && c.sources[ts[i].source].id in c.groups[key].sources))
  {
    NamedInMembers(c, ts, key, |ts|, i);
    if key in c.groups {
      OfMembersMembers(c, ts, c.groups[key].sources, i);
    }
  }

  ghost predicate Compiled(t: Table) {
    && Valid(t.cfg)
    && t.targets == TargetTable(t.cfg, |t.cfg.sources|)
    && (forall key :: Lookup(t.candidates, key) == CandidateList(t.cfg, t.targets, key))
  }

  lemma ExplicitIsNotModel(s: Source, m: Model)
    ensures ExplicitName(s, m) != m.id
  {
    assert |ExplicitName(s, m)| == |s.id| + 1 + |m.id|;
  }

  lemma NamedNothing(c: Config, ts: seq<Target>)
    requires InRange(c, ts)
    ensures forall key :: NamedIn(c, ts, key, 0) == []
  {
  }

  function Append(index: map<string, seq<nat>>, key: string, i: nat): map<string, seq<nat>> {
    index[key := Lookup(index, key) + [i]]
  }

  lemma NamedStep(c: Config, ts: seq<Target>, index: map<string, seq<nat>>, i: nat, key: string)
    requires InRange(c, ts) && i < |ts| && Lookup(index, key) == NamedIn(c, ts, key, i)
    ensures var explicit := ExplicitName(c.sources[ts[i].source], ts[i].model);
      Lookup(Append(Append(index, explicit, i), ts[i].model.id, i), key) == NamedIn(c, ts, key, i + 1)
  {
    ExplicitIsNotModel(c.sources[ts[i].source], ts[i].model);
  }

  /** Index every target under its explicit name and under its model id. */
  method IndexNames(c: Config, targets: seq<Target>) returns (index: map<string, seq<nat>>)
    requires InRange(c, targets)
    ensures forall key :: Lookup(index, key) == NamedIn(c, targets, key, |targets|)
  {
    hide NamedIn, Named, ExplicitName, Append;
    index := map[];
    NamedNothing(c, targets);
    for i := 0 to |targets|
      invariant forall key :: Lookup(index, key) == NamedIn(c, targets, key, i)
    {
      forall key
        ensures Lookup(Append(Append(index, ExplicitName(c.sources[targets[i].source], targets[i].model), i), targets[i].model.id, i), key)
          == NamedIn(c, targets, key, i + 1)
      {
        NamedStep(c, targets, index, i, key);
      }
      index := Append(index, ExplicitName(c.sources[targets[i].source], targets[i].model), i);
      index := Append(index, targets[i].model.id, i);
    }
  }

  lemma OfSourceStep(c: Config, ts: seq<Target>, id: string, i: nat, before: seq<nat>)
    requires InRange(c, ts) && i < |ts|
    ensures before + OfSource(c, ts, id, i + 1) ==
      if c.sources[ts[i].source].id == id then before + OfSource(c, ts, id, i) + [i] else before + OfSource(c, ts, id, i)
    ensures before + OfSource(c, ts, id, 0) == before
  {
  }

  lemma OfMembersStep(c: Config, ts: seq<Target>, ids: seq<string>, j: nat, named: seq<nat>)
    requires InRange(c, ts) && j < |ids|
    ensures named + OfMembers(c, ts, ids[..j+1]) == named + OfMembers(c, ts, ids[..j]) + OfSource(c, ts, ids[j], |ts|)
  {
    assert ids[..j+1][..j] == ids[..j];
  }

  /** Append the targets of one source, in table order. */
  method AppendSource(c: Config, targets: seq<Target>, id: string, before: seq<nat>) returns (list: seq<nat>)
    requires InRange(c, targets)
    ensures list == before + OfSource(c, targets, id, |targets|)
  {
    hide OfSource;
    list := before;
    if |targets| > 0 {
      OfSourceStep(c, targets, id, 0, before);
    } else {
      OfNothing(c, targets, id);
    }
    for i := 0 to |targets|
      invariant list == before + OfSource(c, targets, id, i)
    {
      OfSourceStep(c, targets, id, i, before);
      if c.sources[targets[i].source].id == id {
        list := list + [i];
      }
    }
  }

  lemma OfNothing(c: Config, ts: seq<Target>, id: string)
    requires InRange(c, ts)
    ensures OfSource(c, ts, id, 0) == [] && OfMembers(c, ts, []) == []
  {
  }

  /** Append the targets of each member, in the order the group declares its sources. */
  method AppendMembers(c: Config, targets: seq<Target>, ids: seq<string>, named: seq<nat>) returns (list: seq<nat>)
    requires InRange(c, targets)
    ensures list == named + OfMembers(c, targets, ids)
  {
    hide OfMembers, OfSource;
    list := named;
    OfNothing(c, targets, "");
    assert ids[..0] == [];
    for j := 0 to |ids|
      invariant list == named + OfMembers(c, targets, ids[..j])
    {
      OfMembersStep(c, targets, ids, j, named);
      list := AppendSource(c, targets, ids[j], list);
    }
    assert ids[..|ids|] == ids;
  }

  method IndexGroups(c: Config, targets: seq<Target>, names: map<string, seq<nat>>) returns (index: map<string, seq<nat>>)
    requires InRange(c, targets)
    requires forall key :: Lookup(names, key) == NamedIn(c, targets, key, |targets|)
    ensures forall key :: Lookup(index, key) == CandidateList(c, targets, key)
  {
    hide NamedIn, OfMembers;
    index := names;
    var pending := c.groups.Keys;
    while pending != {}
      invariant pending <= c.groups.Keys
      invariant forall key :: key in pending || key !in c.groups ==> Lookup(index, key) == NamedIn(c, targets, key, |targets|)
      invariant forall key :: key in c.groups && key !in pending ==> Lookup(index, key) == CandidateList(c, targets, key)
      decreases pending
    {
      var id :| id in pending;
      var list := AppendMembers(c, targets, c.groups[id].sources, Lookup(index, id));
      index := index[id := list];
      pending := pending - {id};
    }
  }

  /** Build the table and its index: names first, then each group's members. */
  method Compile(c: Config) returns (t: Table)
    requires Valid(c)
    ensures Compiled(t) && t.cfg == c
  {
    var targets: seq<Target> := [];
    for i := 0 to |c.sources|
      invariant targets == TargetTable(c, i)
    {
      targets := targets + SourceTargets(i, c.sources[i].models);
    }
    var names := IndexNames(c, targets);
    var index := IndexGroups(c, targets, names);
    t := Table(c, targets, index);
  }

  // ----- completeness of the index -----

  /** A tier query can miss its targets: no group is called "auto" but a source is, and it
      serves a model named like a tier. */
  ghost predicate Shadowed(c: Config) {
    && "auto" !in c.groups
    && exists i, m :: 0 <= i < |c.sources| && m in c.sources[i].models && c.sources[i].id == "auto" && TierOf(m.id) >= 0
  }

  function ReasonAt(t: Table, enabled: bool, blocked: bool, q: Query, idx: nat): Reason
    requires idx < |t.targets| && t.targets[idx].source < |t.cfg.sources|
  {
    Eligible(t.cfg, t.cfg.sources[t.targets[idx].source], t.targets[idx].model, enabled, blocked, q)
  }

  lemma TierNameSplit(s: Source, m: Model)
    requires '/' !in s.id && IsTierQuery(ExplicitName(s, m))
    ensures s.id == "auto" && ExplicitName(s, m)[5..] == m.id
  {
    var e := ExplicitName(s, m);
    assert e[..5] == "auto/";
    assert forall k :: 0 <= k < 4 ==> e[k] == "auto"[k] != '/';
    assert e[4] == '/' && e[|s.id|] == '/';
    assert forall k :: 0 <= k < |s.id| ==> s.id[k] == e[k];
    assert |s.id| == 4;
    assert s.id == e[..4];
  }

  lemma AdmittedShape(c: Config, s: Source, m: Model, enabled: bool, blocked: bool, q: Query)
    requires Eligible(c, s, m, enabled, blocked, q) == Admitted
    ensures s.id !in q.excluded
    ensures IsTierQuery(q.model) ==> RequestedTier(q.model) >= 0
    ensures if Key(q.model) in c.groups then s.id in c.groups[Key(q.model)].sources
            else q.model == ExplicitName(s, m) || q.model == m.id
  {
  }

  /** Every admitted target is in the index under the query's key, unless the table is shadowed. */
  lemma IndexComplete(t: Table, enabled: bool, blocked: bool, q: Query, idx: nat)
    requires Compiled(t) && !Shadowed(t.cfg) && idx < |t.targets|
    requires ReasonAt(t, enabled, blocked, q, idx) == Admitted
    ensures idx in Lookup(t.candidates, Key(q.model))
  {
    var s, m := t.cfg.sources[t.targets[idx].source], t.targets[idx].model;
    assert ValidSource(t.cfg, s) && ValidModel(m);
    CandidateMembers(t.cfg, t.targets, Key(q.model), idx);
    AdmittedShape(t.cfg, s, m, enabled, blocked, q);
    assert IsTierQuery(m.id) ==> "auto" <= m.id;
    if IsTierQuery(q.model) && q.model == ExplicitName(s, m) {
      TierNameSplit(s, m);
    }
  }

  function Probe(s: Source, m: Model): Query
    requires m.protocols != []
  {
    Query(true, [], map[], ExplicitName(s, m), m.protocols[0], false, 0, 0, 0.0, false, false)
  }

  /** The converse: a shadowed table has a target that admits a query which the index cannot find. */
  lemma ShadowedMisses(t: Table) returns (idx: nat, q: Query)
    requires Compiled(t) && Shadowed(t.cfg)
    ensures idx < |t.targets| && t.targets[idx].source < |t.cfg.sources|
    ensures forall enabled, blocked :: ReasonAt(t, enabled, blocked, q, idx) == Admitted
    ensures Lookup(t.candidates, Key(q.model)) == []
  {
    var i, m :| 0 <= i < |t.cfg.sources| && m in t.cfg.sources[i].models && t.cfg.sources[i].id == "auto" && TierOf(m.id) >= 0;
    assert ValidSource(t.cfg, t.cfg.sources[i]) && ValidModel(m);
    q := Probe(t.cfg.sources[i], m);
    ProbeAdmitted(t.cfg, t.cfg.sources[i], m);
    idx := TargetListed(t.cfg, |t.cfg.sources|, i, m);
    NothingNamedAuto(t);
  }

  /** A probe of an explicit tier-shaped name is admitted whatever the source's switches say. */
  lemma ProbeAdmitted(c: Config, s: Source, m: Model)
    requires s.id == "auto" && TierOf(m.id) >= 0 && m.protocols != [] && m.maxInputBytes >= 0 && "auto" !in c.groups
    ensures Key(Probe(s, m).model) == "auto"
    ensures forall enabled, blocked :: Eligible(c, s, m, enabled, blocked, Probe(s, m)) == Admitted
  {
    var q := Probe(s, m);
    assert "auto/" <= q.model && q.model[5..] == m.id;
  }

  lemma NothingNamedAuto(t: Table)
    requires Compiled(t) && "auto" !in t.cfg.groups
    ensures Lookup(t.candidates, "auto") == []
  {
    var list := CandidateList(t.cfg, t.targets, "auto");
    forall k: nat
      ensures k !in list
    {
      CandidateMembers(t.cfg, t.targets, "auto", k);
      if k < |t.targets| {
        NotNamedAuto(t.cfg, t.targets[k]);
      }
    }
    assert list != [] ==> list[0] in list;
  }

  lemma NotNamedAuto(c: Config, t: Target)
    requires Valid(c) && t.source < |c.sources| && t.model in c.sources[t.source].models
    ensures !Named(c, t, "auto")
  {
    var s := c.sources[t.source];
    assert ValidSource(c, s) && ValidModel(t.model);
    assert ExplicitName(s, t.model)[|s.id|] == '/';
    assert '/' !in "auto";
  }

  /** The exact condition under which the index is complete for every query. */
  ghost predicate CompleteForAll(t: Table)
    requires Compiled(t)
  {
    forall enabled, blocked, q, idx :: 0 <= idx < |t.targets| && ReasonAt(t, enabled, blocked, q, idx) == Admitted
      ==> idx in Lookup(t.candidates, Key(q.model))
  }

  lemma IndexCompleteIff(t: Table)
    requires Compiled(t)
    ensures CompleteForAll(t) <==> !Shadowed(t.cfg)
  {
    if Shadowed(t.cfg) {
      var idx, q := ShadowedMisses(t);
      assert ReasonAt(t, true, false, q, idx) == Admitted;
    } else {
      forall enabled, blocked, q, idx | 0 <= idx < |t.targets| && ReasonAt(t, enabled, blocked, q, idx) == Admitted
        ensures idx in Lookup(t.candidates, Key(q.model))
      {
        IndexComplete(t, enabled, blocked, q, idx);
      }
    }
  }

  // ----- a configuration that validation accepts and the index misses -----

  const GOLD := Model("gold", "gold", ["chat"], -1, Native, false, 1, None, None, None, None)

  const AUTO_SOURCE := Source("auto", "", "", "domain", 1, 1, 1, true, true, false, UnsetKind, UnknownBilling, OpenAI, [GOLD])

  /** One source called "auto" with one model called "gold", and no groups. */
  const AUTO_CONFIG := Config(1, 0, map[], map[], [AUTO_SOURCE], map[])

  lemma AutoConfigShadowed()
    ensures Valid(AUTO_CONFIG) && Shadowed(AUTO_CONFIG)
  {
    var c := AUTO_CONFIG;
    assert GOLD.id[0] != "auto"[0];
    assert ValidModel(GOLD) && AUTO_SOURCE.models[0] == GOLD && c.sources[0] == AUTO_SOURCE;
    assert ValidSource(c, AUTO_SOURCE);
    assert GOLD in c.sources[0].models && TierOf(GOLD.id) >= 0;
  }

  /** Compiled, it admits a query for its only target under a key that has no candidates. */
  method ShadowedInput() returns (t: Table, ghost idx: nat, ghost q: Query)
    ensures t.cfg == AUTO_CONFIG && Compiled(t) && idx < |t.targets| && t.targets[idx].source < |t.cfg.sources|
    ensures ReasonAt(t, true, false, q, idx) == Admitted && Lookup(t.candidates, Key(q.model)) == []
    ensures !CompleteForAll(t)
  {
    AutoConfigShadowed();
    t := Compile(AUTO_CONFIG);
    idx, q := ShadowedMisses(t);
    IndexCompleteIff(t);
  }
}
