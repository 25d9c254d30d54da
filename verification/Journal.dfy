/** The configuration journal: optimistic revisions, a bounded durable history, and one verdict for
    every prepared runtime. A configuration is known by its JSON text. */
module Journal {
  import opened Policy

  const KEPT := 50
  const MAX_CONFIG := 0x40_0000   // 4 MiB
  const MAX_JOURNAL := 0x200_0000 // 32 MiB
  const MAX_SUMMARY := 512
  const WORD := 0x1_0000_0000_0000_0000

  datatype Version = Version(revision: nat, summary: string, config: string)

  /** Configuration validation and the encoded size of a version list are not modelled. */
  datatype Rules = Rules(valid: string -> bool, size: seq<Version> -> nat)

  /** What the runtime preparation returned: nothing to prepare, an error, a runtime without both of
      its callbacks, or a usable one. */
  datatype Preparation = Absent | Failing | Unusable | Usable

  datatype Error = Conflict | InvalidConfig | TooLarge | LongSummary | NotPrepared | HistoryTooLarge | WriteFailed | NotRetained

  datatype Answer = Accepted(version: Version) | Refused(error: Error)

  /** What happened to prepared runtimes, in order. */
  datatype Event = Prepared | Committed(version: Version) | Discarded

  datatype State = State(versions: seq<Version>, disk: Option<seq<Version>>, events: seq<Event>)

  datatype Op =
    | Apply(expected: nat, next: string, summary: string, preparation: Preparation, writes: bool)
    | Rollback(expected: nat, target: nat, preparation: Preparation, writes: bool)

  // ----- what a journal looks like -----

  predicate Ordered(versions: seq<Version>) {
    && (forall i :: 0 <= i < |versions| ==> 0 < versions[i].revision < WORD)
    && (forall i, j :: 0 <= i < j < |versions| ==> versions[i].revision < versions[j].revision)
  }

  /** What a restart accepts. */
  predicate Readable(r: Rules, versions: seq<Version>) {
    && 1 <= |versions| <= KEPT && r.size(versions) <= MAX_JOURNAL && Ordered(versions)
    && forall i :: 0 <= i < |versions| ==> r.valid(versions[i].config)
  }

  /** The loop of the journal reader: strictly rising, nonzero revisions and valid configurations. */
  method ReadJournal(r: Rules, versions: seq<Version>) returns (ok: bool)
    requires forall i :: 0 <= i < |versions| ==> versions[i].revision < WORD
    ensures ok == Readable(r, versions)
  {
    if r.size(versions) > MAX_JOURNAL || |versions| == 0 || |versions| > KEPT {
      return false;
    }
    var previous := 0;
    for n := 0 to |versions|
      invariant previous == if n == 0 then 0 else versions[n-1].revision
      invariant Ordered(versions[..n]) && forall i :: 0 <= i < n ==> r.valid(versions[i].config)
    {
      if versions[n].revision <= previous || !r.valid(versions[n].config) {
        NotReadable(r, versions, n);
        return false;
      }
      previous := versions[n].revision;
    }
    assert versions[..|versions|] == versions;
    ok := true;
  }

  lemma NotReadable(r: Rules, versions: seq<Version>, n: nat)
    requires n < |versions|
    requires versions[n].revision <= (if n == 0 then 0 else versions[n-1].revision) || !r.valid(versions[n].config)
    ensures !Readable(r, versions)
  {
  }

  // ----- one transaction -----

  function Last(s: State): Version
    requires s.versions != []
  {
    s.versions[|s.versions|-1]
  }

  /** Revisions are 64-bit words. */
  function Successor(revision: nat): nat { (revision + 1) % WORD }

  function Recent(versions: seq<Version>): seq<Version> {
    if |versions| > KEPT then versions[|versions|-KEPT..] else versions
  }

  /** Drop the oldest versions until the encoding is small enough. */
  function Trimmed(r: Rules, versions: seq<Version>): Option<seq<Version>>
    requires versions != []
  {
    if r.size(versions) < MAX_JOURNAL then Some(versions)
    else if |versions| == 1 then None
    else Trimmed(r, versions[1..])
  }

  function Previewed(r: Rules, s: State, expected: nat, next: string): Answer
    requires s.versions != []
  {
    if expected != Last(s).revision then Refused(Conflict)
    else if !r.valid(next) then Refused(InvalidConfig)
    else if |next| > MAX_CONFIG then Refused(TooLarge)
    else Accepted(Version(Successor(expected), "", next))
  }

  function Told(s: State, preparation: Preparation, verdict: Event): seq<Event> {
    s.events + if preparation.Usable? then [Prepared, verdict] else []
  }

  function Applied(r: Rules, s: State, expected: nat, next: string, summary: string, preparation: Preparation, writes: bool): (State, Answer)
    requires s.versions != []
  {
    var preview := Previewed(r, s, expected, next);
    if preview.Refused? then (s, preview)
    else if |summary| > MAX_SUMMARY then (s, Refused(LongSummary))
    else if preparation.Failing? || preparation.Unusable? then (s, Refused(NotPrepared))
    else
      var v := preview.version.(summary := summary);
      var kept := Trimmed(r, Recent(s.versions + [v]));
      var dropped := s.(events := Told(s, preparation, Discarded));
      if kept.None? then (dropped, Refused(HistoryTooLarge))
      else if !writes then (dropped, Refused(WriteFailed))
      else (State(kept.value, Some(kept.value), Told(s, preparation, Committed(v))), Accepted(v))
  }

  function Find(versions: seq<Version>, target: nat): Option<string> {
    if versions == [] then None
    else if versions[0].revision == target then Some(versions[0].config)
    else Find(versions[1..], target)
  }

  function Do(r: Rules, s: State, op: Op): (State, Answer)
    requires s.versions != []
  {
    match op
    case Apply(expected, next, summary, preparation, writes) => Applied(r, s, expected, next, summary, preparation, writes)
    case Rollback(expected, target, preparation, writes) =>
      var found := Find(s.versions, target);
      if found.None? then (s, Refused(NotRetained))
      else Applied(r, s, expected, found.value, "Rollback", preparation, writes)
  }

  // ----- the service -----

  class Service {
    const rules: Rules
    var versions: seq<Version>
    var disk: Option<seq<Version>>
    ghost var events: seq<Event>

    ghost function Value(): State
      reads this
    {
      State(versions, disk, events)
    }

    /** Opens on a journal that a restart accepts, or on the seed when there is none. */
    constructor (rules: Rules, disk: Option<seq<Version>>, seed: string)
      requires if disk.Some? then Readable(rules, disk.value) else rules.valid(seed)
      ensures this.rules == rules && this.disk == disk && events == []
      ensures versions == if disk.Some? then disk.value else [Version(1, "Initial configuration", seed)]
    {
      this.rules, this.disk, this.events := rules, disk, [];
      versions := if disk.Some? then disk.value else [Version(1, "Initial configuration", seed)];
    }

    method Trim(list: seq<Version>) returns (kept: Option<seq<Version>>)
      requires list != []
      ensures kept == Trimmed(rules, list)
    {
      var left := list;
      while rules.size(left) >= MAX_JOURNAL
        invariant left != [] && Trimmed(rules, left) == Trimmed(rules, list)
        decreases |left|
      {
        if |left| == 1 {
          return None;
        }
        left := left[1..];
      }
      return Some(left);
    }

    method Apply(expected: nat, next: string, summary: string, preparation: Preparation, writes: bool) returns (a: Answer)
      requires versions != []
      modifies this
      ensures (Value(), a) == Applied(rules, old(Value()), expected, next, summary, preparation, writes)
    {
      var current := versions[|versions|-1];
      if expected != current.revision {
        return Refused(Conflict);
      }
      if !rules.valid(next) {
        return Refused(InvalidConfig);
      }
      if |next| > MAX_CONFIG {
        return Refused(TooLarge);
      }
      if |summary| > MAX_SUMMARY {
        return Refused(LongSummary);
      }
      var v := Version((current.revision + 1) % WORD, summary, next);
      match preparation {
        case Failing => return Refused(NotPrepared);
        case Unusable => return Refused(NotPrepared);
        case Usable => events := events + [Prepared];
        case Absent =>
      }
      var list := versions + [v];
      if |list| > KEPT {
        list := list[|list|-KEPT..];
      }
      var kept := Trim(list);
      assert old(events) + [] == old(events);
      assert old(events) + [Prepared] + [Discarded] == old(events) + [Prepared, Discarded];
      assert old(events) + [Prepared] + [Committed(v)] == old(events) + [Prepared, Committed(v)];
      if kept.None? || !writes {
        if preparation == Usable {
          events := events + [Discarded];
        }
        return Refused(if kept.None? then HistoryTooLarge else WriteFailed);
      }
      disk := kept;
      versions := kept.value;
      if preparation == Usable {
        events := events + [Committed(v)];
      }
      return Accepted(v);
    }

    method Rollback(expected: nat, target: nat, preparation: Preparation, writes: bool) returns (a: Answer)
      requires versions != []
      modifies this
      ensures (Value(), a) == Do(rules, old(Value()), Op.Rollback(expected, target, preparation, writes))
    {
      var n := 0;
      while n < |versions|
        invariant n <= |versions| && Find(versions, target) == Find(versions[n..], target) && Value() == old(Value())
      {
        if versions[n].revision == target {
          a := Apply(expected, versions[n].config, "Rollback", preparation, writes);
          return;
        }
        assert versions[n..][1..] == versions[n+1..];
        n := n + 1;
      }
      return Refused(NotRetained);
    }
  }

  /** Opens the service: refused on an invalid seed or an unreadable journal, otherwise on the journal,
      or on the seed as revision one when there is none. */
  method OpenService(rules: Rules, disk: Option<seq<Version>>, seed: string) returns (service: Service?)
    requires disk.Some? ==> forall i :: 0 <= i < |disk.value| ==> disk.value[i].revision < WORD
    ensures service != null <==> rules.valid(seed) && (disk.Some? ==> Readable(rules, disk.value))
    ensures service != null ==> fresh(service) && service.rules == rules && service.disk == disk && service.events == []
    ensures service != null ==> service.versions == if disk.Some? then disk.value else [Version(1, "Initial configuration", seed)]
    ensures service != null ==> Good(rules, service.Value())
  {
    if !rules.valid(seed) {
      return null;
    }
    if disk.Some? {
      var ok := ReadJournal(rules, disk.value);
      if !ok {
        return null;
      }
    }
    service := new Service(rules, disk, seed);
  }

  // ----- what one transaction keeps -----

  ghost predicate Good(r: Rules, s: State) {
    && 1 <= |s.versions| <= KEPT && Ordered(s.versions) && Paired(s.events)
    && (forall i :: 0 <= i < |s.versions| ==> r.valid(s.versions[i].config))
    && (s.disk.Some? ==> s.disk.value == s.versions && Readable(r, s.versions))
  }

  /** Every usable runtime that was prepared saw exactly one of commit and discard. */
  predicate Paired(events: seq<Event>) {
    events == [] || (|events| >= 2 && events[0].Prepared? && !events[1].Prepared? && Paired(events[2..]))
  }

  lemma {:induction false} PairedAppend(events: seq<Event>, verdict: Event)
    requires Paired(events) && !verdict.Prepared?
    ensures Paired(events + [Prepared, verdict])
    decreases |events|
  {
    if events == [] {
      assert events + [Prepared, verdict] == [Prepared, verdict];
    } else {
      assert (events + [Prepared, verdict])[2..] == events[2..] + [Prepared, verdict];
      PairedAppend(events[2..], verdict);
    }
  }

  predicate IsSuffix<T(==)>(a: seq<T>, b: seq<T>) { |a| <= |b| && a == b[|b|-|a|..] }

  ghost predicate Oversized(r: Rules, list: seq<Version>, k: nat) { k < |list| ==> r.size(list[k..]) >= MAX_JOURNAL }

  lemma OversizedLater(r: Rules, list: seq<Version>, k: nat)
    requires 1 <= k <= |list|
    ensures Oversized(r, list, k) <==> Oversized(r, list[1..], k - 1)
  {
    assert list[1..][k-1..] == list[k..];
  }

  /** The trimmed list is the longest suffix that is small enough; there is none exactly when not
      even the newest version alone fits. */
  lemma {:induction false} TrimmedIsLongest(r: Rules, list: seq<Version>)
    requires list != []
    ensures var kept := Trimmed(r, list);
      && (kept.Some? ==> kept.value != [] && IsSuffix(kept.value, list) && r.size(kept.value) < MAX_JOURNAL)
      && (kept.Some? ==> forall k: nat :: k < |list| - |kept.value| ==> Oversized(r, list, k))
      && (kept.None? ==> forall k: nat :: k < |list| ==> Oversized(r, list, k))
    decreases |list|
  {
    assert list[0..] == list;
    assert Oversized(r, list, 0) <==> r.size(list) >= MAX_JOURNAL;
    if r.size(list) >= MAX_JOURNAL && |list| > 1 {
      hide Oversized;
      TrimmedIsLongest(r, list[1..]);
      forall k: nat | 1 <= k <= |list| ensures Oversized(r, list, k) <==> Oversized(r, list[1..], k - 1) {
        OversizedLater(r, list, k);
      }
      assert IsSuffix(list[1..], list);
    }
  }

  /** The versions from position `k` on are few enough and small enough to be kept. */
  ghost predicate Fits(r: Rules, list: seq<Version>, k: nat) {
    k < |list| && |list| - k <= 50 && r.size(list[k..]) < 0x200_0000
  }

  ghost predicate SomeFit(r: Rules, list: seq<Version>) { exists k: nat :: Fits(r, list, k) }

  /** `v` became the newest version, in memory and on disk, of the longest history that fits. */
  ghost predicate Extended(r: Rules, s: State, s': State, v: Version) {
    var all := s.versions + [v];
    && s'.versions != [] && IsSuffix(s'.versions, all) && Last(s') == v && s'.disk == Some(s'.versions)
    && Fits(r, all, |all| - |s'.versions|)
    && forall k :: Fits(r, all, k) ==> |all| - k <= |s'.versions|
  }

  lemma ExtendedSmall(r: Rules, s: State, s': State, v: Version)
    requires Extended(r, s, s', v)
    ensures s'.versions != [] && |s'.versions| <= KEPT && r.size(s'.versions) < MAX_JOURNAL
    ensures IsSuffix(s'.versions, s.versions + [v]) && Last(s') == v
  {
  }

  lemma FitsIff(r: Rules, all: seq<Version>, k: nat)
    ensures Fits(r, all, k) <==> k < |all| && |all| - k <= |Recent(all)| && !Oversized(r, Recent(all), k - (|all| - |Recent(all)|))
  {
    var recent := Recent(all);
    if k < |all| && |all| - k <= |recent| {
      assert recent[k - (|all| - |recent|)..] == all[k..];
    }
  }

  lemma KeptMeans(r: Rules, all: seq<Version>)
    requires all != []
    ensures Recent(all) != []
    ensures var kept := Trimmed(r, Recent(all));
      && (kept.Some? ==> kept.value != [] && IsSuffix(kept.value, all) && Fits(r, all, |all| - |kept.value|))
      && (kept.Some? ==> forall k :: Fits(r, all, k) ==> |all| - k <= |kept.value|)
      && (kept.None? ==> forall k :: !Fits(r, all, k))
  {
    hide Trimmed, Oversized, Recent, Fits;
    RecentMeans(all);
    TrimmedIsLongest(r, Recent(all));
    var kept := Trimmed(r, Recent(all));
    forall k: nat ensures Fits(r, all, k) <==> k < |all| && |all| - k <= |Recent(all)| && !Oversized(r, Recent(all), k - (|all| - |Recent(all)|)) {
      FitsIff(r, all, k);
    }
    if kept.Some? {
      SuffixTrans(kept.value, Recent(all), all);
      SuffixFits(r, kept.value, all);
    }
  }

  lemma RecentMeans(all: seq<Version>)
    requires all != []
    ensures Recent(all) != [] && |Recent(all)| <= 50 && IsSuffix(Recent(all), all)
  {
  }

  lemma SuffixFits(r: Rules, kept: seq<Version>, all: seq<Version>)
    requires IsSuffix(kept, all) && kept != [] && |kept| <= 50 && r.size(kept) < MAX_JOURNAL
    ensures Fits(r, all, |all| - |kept|)
  {
  }

  /** What an operation asks to install: the configuration it brings, or that of the version it names. */
  ghost predicate Proposes(s: State, op: Op, config: string, summary: string) {
    match op
    case Apply(_, next, told, _, _) => config == next && summary == told
    case Rollback(_, target, _, _) => summary == "Rollback" && Retains(s.versions, target, config)
  }

  ghost predicate Retains(versions: seq<Version>, target: nat, config: string) {
    exists i :: 0 <= i < |versions| && versions[i].revision == target && versions[i].config == config
  }

  /** A lookup finds the configuration of the only version with that revision. */
  lemma {:induction false} FindIff(versions: seq<Version>, target: nat, config: string)
    requires Ordered(versions)
    ensures Find(versions, target) == Some(config) <==> Retains(versions, target, config)
  {
    if versions != [] {
      var rest := versions[1..];
      assert forall i :: 0 <= i < |rest| ==> rest[i] == versions[i+1];
      FindIff(rest, target, config);
      if Retains(rest, target, config) {
        var i :| 0 <= i < |rest| && rest[i].revision == target && rest[i].config == config;
        assert versions[i+1] == rest[i] && versions[0].revision < versions[i+1].revision;
      }
    }
  }

  lemma ProposalFound(s: State, op: Op)
    requires Ordered(s.versions) && op.Rollback?
    ensures forall config :: Proposes(s, op, config, "Rollback") <==> Find(s.versions, op.target) == Some(config)
    ensures forall config, summary :: Proposes(s, op, config, summary) ==> summary == "Rollback"
    ensures Find(s.versions, op.target).None? <==> forall i :: 0 <= i < |s.versions| ==> s.versions[i].revision != op.target
  {
    hide Find, Ordered;
    forall config ensures Retains(s.versions, op.target, config) <==> Find(s.versions, op.target) == Some(config) {
      FindIff(s.versions, op.target, config);
    }
    forall i | 0 <= i < |s.versions| && s.versions[i].revision == op.target ensures Find(s.versions, op.target).Some? {
      assert Retains(s.versions, op.target, s.versions[i].config);
    }
  }

  /** Failures leave memory and disk unchanged; a success names the current revision, installs what was
      asked for under its successor, and extends the history. */
  lemma TransactionMeans(r: Rules, s: State, op: Op)
    requires Good(r, s)
    ensures var (s', a) := Do(r, s, op);
      && (a.Refused? ==> s'.versions == s.versions && s'.disk == s.disk)
      && (a.Accepted? ==> op.expected == Last(s).revision && a.version.revision == (op.expected + 1) % 0x1_0000_0000_0000_0000)
      && (a.Accepted? ==> Proposes(s, op, a.version.config, a.version.summary) && op.writes)
      && (a.Accepted? ==> r.valid(a.version.config) && Extended(r, s, s', a.version))
  {
    hide Trimmed, Recent, IsSuffix, Ordered, Readable, Paired, Find, Proposes, Fits;
    if op.Rollback? {
      ProposalFound(s, op);
    } else {
      ApplyProposes(s, op);
    }
    var (s', a) := Do(r, s, op);
    if a.Accepted? {
      KeptMeans(r, s.versions + [a.version]);
      SuffixLast(s'.versions, s.versions + [a.version]);
    }
  }

  lemma ApplyProposes(s: State, op: Op)
    requires op.Apply?
    ensures forall config, summary :: Proposes(s, op, config, summary) <==> config == op.next && summary == op.summary
  {
  }

  lemma SuffixLast<T>(a: seq<T>, b: seq<T>)
    requires IsSuffix(a, b) && a != []
    ensures b != [] && a[|a|-1] == b[|b|-1]
  {
  }

  lemma SuffixTrans<T>(a: seq<T>, b: seq<T>, c: seq<T>)
    requires IsSuffix(a, b) && IsSuffix(b, c)
    ensures IsSuffix(a, c) && (a != [] ==> c != [] && a[|a|-1] == c[|c|-1])
  {
  }

  lemma SuffixOrdered(a: seq<Version>, b: seq<Version>)
    requires IsSuffix(a, b) && Ordered(b)
    ensures Ordered(a)
  {
    assert forall i :: 0 <= i < |a| ==> a[i] == b[|b|-|a|+i];
  }

  lemma AppendOrdered(versions: seq<Version>, v: Version)
    requires Ordered(versions) && versions != [] && v.revision == versions[|versions|-1].revision + 1 && v.revision < WORD
    ensures Ordered(versions + [v])
  {
  }

  /** A restart recovers what a transaction wrote exactly when the revision did not wrap. */
  lemma ReadableIff(r: Rules, s: State, op: Op)
    requires Good(r, s) && Do(r, s, op).1.Accepted?
    ensures Readable(r, Do(r, s, op).0.versions) <==> Last(s).revision < WORD - 1
  {
    hide Do, Ordered, IsSuffix, Paired, Extended, Proposes;
    TransactionMeans(r, s, op);
    var (s', a) := Do(r, s, op);
    ExtendedSmall(r, s, s', a.version);
    if Last(s).revision < WORD - 1 {
      AppendOrdered(s.versions, a.version);
      SuffixOrdered(s'.versions, s.versions + [a.version]);
      SuffixValid(r, s'.versions, s.versions, a.version);
    } else {
      LastInWord(s.versions);
      ZeroUnreadable(s'.versions);
    }
  }

  lemma SuffixValid(r: Rules, a: seq<Version>, versions: seq<Version>, v: Version)
    requires IsSuffix(a, versions + [v]) && r.valid(v.config)
    requires forall i :: 0 <= i < |versions| ==> r.valid(versions[i].config)
    ensures forall i :: 0 <= i < |a| ==> r.valid(a[i].config)
  {
    var all := versions + [v];
    assert forall i :: 0 <= i < |a| ==> a[i] == all[|all|-|a|+i];
  }

  lemma LastInWord(versions: seq<Version>)
    requires Ordered(versions) && versions != []
    ensures versions[|versions|-1].revision < WORD
  {
  }

  lemma ZeroUnreadable(versions: seq<Version>)
    requires versions != [] && versions[|versions|-1].revision == 0
    ensures !Ordered(versions)
  {
  }

  lemma DoKeeps(r: Rules, s: State, op: Op)
    requires Good(r, s) && Last(s).revision < WORD - 1
    ensures Good(r, Do(r, s, op).0)
  {
    hide Do, IsSuffix, Paired, Ordered;
    TransactionMeans(r, s, op);
    EventsKeep(r, s, op);
    if Do(r, s, op).1.Accepted? {
      ReadableIff(r, s, op);
    }
  }

  lemma EventsKeep(r: Rules, s: State, op: Op)
    requires s.versions != [] && Paired(s.events)
    ensures var (s', a) := Do(r, s, op);
      && Paired(s'.events)
      && (op.preparation.Usable? && a.Accepted? ==> s'.events == s.events + [Prepared, Committed(a.version)])
      && (op.preparation.Usable? && a.Refused? && a.error in {HistoryTooLarge, WriteFailed} ==> s'.events == s.events + [Prepared, Discarded])
      && (s'.events != s.events ==> op.preparation.Usable?)
  {
    hide Trimmed, Recent, Paired;
    PairedAppend(s.events, Discarded);
    var (s', a) := Do(r, s, op);
    if a.Accepted? {
      PairedAppend(s.events, Committed(a.version));
    }
    assert s.events + [] == s.events;
  }

  /** Opening the service again on what it wrote gives the same versions. */
  lemma RestartRecovers(r: Rules, s: State, op: Op)
    requires Good(r, s) && Last(s).revision < WORD - 1 && Do(r, s, op).1.Accepted?
    ensures var s' := Do(r, s, op).0; s'.disk.Some? && Readable(r, s'.disk.value) && s'.disk.value == s'.versions
  {
    DoKeeps(r, s, op);
    TransactionMeans(r, s, op);
  }

  // ----- every run -----

  function After(r: Rules, s: State, ops: seq<Op>): State
    requires s.versions != []
    decreases |ops|
  {
    if ops == [] then s
    else
      var s' := Do(r, s, ops[0]).0;
      DoNonempty(r, s, ops[0]);
      After(r, s', ops[1..])
  }

  lemma DoNonempty(r: Rules, s: State, op: Op)
    requires s.versions != []
    ensures Do(r, s, op).0.versions != []
  {
    if Do(r, s, op).1.Accepted? {
      TrimmedIsLongest(r, Recent(s.versions + [Do(r, s, op).1.version]));
    }
  }

  /** The versions that were accepted, in order. */
  function Log(r: Rules, s: State, ops: seq<Op>): seq<Version>
    requires s.versions != []
    decreases |ops|
  {
    if ops == [] then []
    else
      var (s', a) := Do(r, s, ops[0]);
      DoNonempty(r, s, ops[0]);
      (if a.Accepted? then [a.version] else []) + Log(r, s', ops[1..])
  }

  /** In every run, whatever fails: accepted revisions count up by one from the revision at the
      start, so no expected revision succeeds twice; the retained list is a nonempty suffix, of at
      most fifty, of everything accepted; and memory, disk and runtimes stay consistent. */
  lemma {:induction false} JournalIsLinear(r: Rules, s: State, ops: seq<Op>)
    requires Good(r, s) && Last(s).revision + |ops| < WORD
    ensures var end, log := After(r, s, ops), Log(r, s, ops);
      && Good(r, end) && |log| <= |ops|
      && (forall k :: 0 <= k < |log| ==> log[k].revision == Last(s).revision + 1 + k)
      && IsSuffix(end.versions, s.versions + log)
    decreases |ops|
  {
    hide Do, Good;
    if ops == [] {
      assert s.versions + [] == s.versions;
      GoodNonempty(r, s);
    } else {
      JournalStep(r, s, ops);
    }
  }

  /** The answer that the operation at `k` gets in its run. */
  ghost function AnswerAt(r: Rules, s: State, ops: seq<Op>, k: nat): Answer
    requires s.versions != [] && k < |ops|
  {
    AfterNonempty(r, s, ops[..k]);
    Do(r, After(r, s, ops[..k]), ops[k]).1
  }

  lemma {:induction false} AfterNonempty(r: Rules, s: State, ops: seq<Op>)
    requires s.versions != []
    ensures After(r, s, ops).versions != []
    decreases |ops|
  {
    hide Do;
    if ops != [] {
      DoNonempty(r, s, ops[0]);
      AfterNonempty(r, Do(r, s, ops[0]).0, ops[1..]);
    }
  }

  lemma {:induction false} AfterSplit(r: Rules, s: State, a: seq<Op>, b: seq<Op>)
    requires s.versions != []
    ensures After(r, s, a).versions != [] && After(r, s, a + b) == After(r, After(r, s, a), b)
    decreases |a|
  {
    hide Do;
    AfterNonempty(r, s, a);
    if a == [] {
      assert a + b == b;
    } else {
      DoNonempty(r, s, a[0]);
      assert (a + b)[1..] == a[1..] + b;
      AfterSplit(r, Do(r, s, a[0]).0, a[1..], b);
    }
  }

  /** A run moves the current revision up by the number of accepted operations. */
  lemma RevisionCounts(r: Rules, s: State, ops: seq<Op>)
    requires Good(r, s) && Last(s).revision + |ops| < WORD
    ensures var end := After(r, s, ops);
      Good(r, end) && Last(s).revision <= Last(end).revision <= Last(s).revision + |ops|
  {
    hide Do, Ordered, Readable, Paired;
    JournalIsLinear(r, s, ops);
    var end, log := After(r, s, ops), Log(r, s, ops);
    var all := s.versions + log;
    assert Last(end) == all[|all|-1];
  }

  /** No expected revision succeeds twice: of two accepted operations the later expects more. */
  lemma NoRevisionTwice(r: Rules, s: State, ops: seq<Op>, i: nat, j: nat)
    requires Good(r, s) && Last(s).revision + |ops| < WORD && i < j < |ops|
    requires AnswerAt(r, s, ops, i).Accepted? && AnswerAt(r, s, ops, j).Accepted?
    ensures ops[i].expected < ops[j].expected
  {
    hide Do, Good, After;
    GoodNonempty(r, s);
    var before, between := ops[..i], ops[i+1..j];
    var si := After(r, s, before);
    RevisionCounts(r, s, before);
    GoodNonempty(r, si);
    TransactionMeans(r, si, ops[i]);
    var next := Do(r, si, ops[i]).0;
    OneAfter(r, si, ops[i]);
    AcceptedRises(r, si, ops[i]);
    RevisionCounts(r, next, between);
    AfterSplit(r, s, before, [ops[i]]);
    AfterSplit(r, s, before + [ops[i]], between);
    assert before + [ops[i]] + between == ops[..j];
    var sj := After(r, s, ops[..j]);
    RevisionCounts(r, s, ops[..j]);
    TransactionMeans(r, sj, ops[j]);
  }

  lemma OneAfter(r: Rules, s: State, op: Op)
    requires s.versions != []
    ensures After(r, s, [op]) == Do(r, s, op).0
  {
    hide Do;
    DoNonempty(r, s, op);
    assert [op][1..] == [];
  }

  lemma AcceptedRises(r: Rules, s: State, op: Op)
    requires Good(r, s) && Last(s).revision < WORD - 1 && Do(r, s, op).1.Accepted?
    ensures Good(r, Do(r, s, op).0) && Last(Do(r, s, op).0).revision == op.expected + 1
    ensures op.expected == Last(s).revision
  {
    hide Do, Ordered, Readable, Paired, IsSuffix;
    DoKeeps(r, s, op);
    TransactionMeans(r, s, op);
  }

  lemma GoodNonempty(r: Rules, s: State)
    requires Good(r, s)
    ensures s.versions != []
  {
  }

  lemma {:induction false} JournalStep(r: Rules, s: State, ops: seq<Op>)
    requires Good(r, s) && Last(s).revision + |ops| < WORD && ops != []
    ensures var end, log := After(r, s, ops), Log(r, s, ops);
      && Good(r, end) && |log| <= |ops|
      && (forall k :: 0 <= k < |log| ==> log[k].revision == Last(s).revision + 1 + k)
      && IsSuffix(end.versions, s.versions + log)
    decreases |ops|, 0
  {
    hide Do, Good, IsSuffix;
    GoodNonempty(r, s);
    var (s', a) := Do(r, s, ops[0]);
    DoNonempty(r, s, ops[0]);
    DoKeeps(r, s, ops[0]);
    TransactionMeans(r, s, ops[0]);
    JournalIsLinear(r, s', ops[1..]);
    var rest := Log(r, s', ops[1..]);
    if a.Accepted? {
      ShiftSuffix(After(r, s', ops[1..]).versions, s'.versions, s.versions + [a.version], rest);
      assert s.versions + [a.version] + rest == s.versions + ([a.version] + rest);
    } else {
      assert [] + rest == rest;
    }
  }

  lemma ShiftSuffix<T>(a: seq<T>, b: seq<T>, c: seq<T>, rest: seq<T>)
    requires IsSuffix(a, b + rest) && IsSuffix(b, c)
    ensures IsSuffix(a, c + rest)
  {
    assert IsSuffix(b + rest, c + rest);
    SuffixTrans(a, b + rest, c + rest);
  }

  /** The last 64-bit revision: the next transaction succeeds, gets revision zero, and leaves a
      journal that no restart accepts. */
  lemma WrapIsUnreadable()
    ensures var r := Rules(_ => true, _ => 0);
      var s := State([Version(WORD - 1, "", "")], None, []);
      var (s', a) := Do(r, s, Apply(WORD - 1, "", "", Absent, true));
      Good(r, s) && a.Accepted? && a.version.revision == 0 && s'.disk.Some? && !Readable(r, s'.disk.value)
  {
    var r := Rules(_ => true, _ => 0);
    var s := State([Version(WORD - 1, "", "")], None, []);
    var op := Apply(WORD - 1, "", "", Absent, true);
    assert Do(r, s, op).1.Accepted?;
    ReadableIff(r, s, op);
    TransactionMeans(r, s, op);
  }

  /** What an operation must meet, apart from how its runtime and its write turn out. */
  ghost predicate Acceptable(r: Rules, s: State, op: Op, config: string, summary: string)
    requires s.versions != []
  {
    && op.expected == Last(s).revision && r.valid(config) && |config| <= 0x40_0000 && |summary| <= 512
    && SomeFit(r, s.versions + [Version((op.expected + 1) % 0x1_0000_0000_0000_0000, summary, config)])
  }

  /** Exactly when a transaction succeeds, for changes and rollbacks alike. */
  lemma AcceptedIff(r: Rules, s: State, op: Op)
    requires Good(r, s)
    ensures Do(r, s, op).1.Accepted? <==>
      && (op.preparation.Absent? || op.preparation.Usable?) && op.writes
      && exists config, summary :: Proposes(s, op, config, summary) && Acceptable(r, s, op, config, summary)
  {
    hide Recent, Trimmed, Fits, Find, Ordered, Readable, Paired, Proposes, Acceptable;
    if op.Apply? {
      ApplyProposes(s, op);
      AppliedIff(r, s, op, op.next, op.summary);
    } else {
      ProposalFound(s, op);
      var found := Find(s.versions, op.target);
      if found.Some? {
        AppliedIff(r, s, op, found.value, "Rollback");
      }
    }
  }

  lemma AppliedIff(r: Rules, s: State, op: Op, config: string, summary: string)
    requires s.versions != []
    ensures Applied(r, s, op.expected, config, summary, op.preparation, op.writes).1.Accepted? <==>
      (op.preparation.Absent? || op.preparation.Usable?) && op.writes && Acceptable(r, s, op, config, summary)
  {
    hide Recent, Trimmed, Fits;
    KeptMeans(r, s.versions + [Version(Successor(op.expected), summary, config)]);
  }

  /** A refusal names what is really wrong. */
  lemma RefusalIsTrue(r: Rules, s: State, op: Op)
    requires Good(r, s) && Do(r, s, op).1.Refused?
    ensures match Do(r, s, op).1.error
      case NotRetained => op.Rollback? && forall i :: 0 <= i < |s.versions| ==> s.versions[i].revision != op.target
      case Conflict => op.expected != Last(s).revision
      case InvalidConfig => exists config, summary :: Proposes(s, op, config, summary) && !r.valid(config)
      case TooLarge => exists config, summary :: Proposes(s, op, config, summary) && |config| > 0x40_0000
      case LongSummary => op.Apply? && |op.summary| > 512
      case NotPrepared => op.preparation.Failing? || op.preparation.Unusable?
      case HistoryTooLarge => exists config, summary :: Proposes(s, op, config, summary) && !Acceptable(r, s, op, config, summary)
      case WriteFailed => !op.writes
    ensures op.Rollback? && (forall i :: 0 <= i < |s.versions| ==> s.versions[i].revision != op.target) ==> Do(r, s, op).1.error == NotRetained
  {
    hide Recent, Trimmed, Fits, Find, Ordered, Readable, Paired, Proposes;
    if op.Apply? {
      ApplyProposes(s, op);
      assert Proposes(s, op, op.next, op.summary);
      KeptMeans(r, s.versions + [Version(Successor(op.expected), op.summary, op.next)]);
    } else {
      ProposalFound(s, op);
      var found := Find(s.versions, op.target);
      if found.Some? {
        assert Proposes(s, op, found.value, "Rollback");
        KeptMeans(r, s.versions + [Version(Successor(op.expected), "Rollback", found.value)]);
      }
    }
  }
}
