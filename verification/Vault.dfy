/** The credential vault: versioned records, tombstones and single-flight refresh. Each step is one
    hold of the store's mutex; a refresh takes two, with the token endpoint called in between. */
module Vault {
  import opened Policy

  const WORD := 0x1_0000_0000_0000_0000
  const SKEW := 30     // seconds before expiry at which a grant counts as expired
  const COOLDOWN := 60

  /** `renewable` means that refresh token, endpoint and client id are all present; an expiry of zero
      means none. */
  datatype Grant = Grant(access: string, renewable: bool, expires: nat)

  datatype Record = Record(version: nat, revoked: bool, value: string, grant: Option<Grant>, external: bool)

  /** A refresh between its two holds: the record it read. */
  datatype Flight = Flight(id: string, record: Record)

  /** `flights` is the table of running refreshes by id; `calls` and `lookups` are the goroutines
      between two holds, refreshing or reading an external manager. */
  datatype State = State(
    records: map<string, Record>, flights: map<string, nat>, backoff: map<string, int>,
    calls: map<nat, Flight>, lookups: map<nat, Flight>)

  datatype Error = Malformed | Revoked | Exhausted | SaveFailed | Unknown | NoLifecycle | CoolingDown | Reauthorize | Stale | Refused

  datatype Answer = Done | Started | Joined(call: nat) | Value(value: string) | Failed(error: Error)

  datatype Step =
    | Put(id: string, wellFormed: bool, value: string, grant: Option<Grant>, external: bool, saves: bool)
    | Delete(id: string, saves: bool)
    | Begin(call: nat, id: string, force: bool, now: int)
    | Finish(call: nat, next: Option<Grant>, now: int, saves: bool)
    | Read(id: string)
    | BeginExternal(call: nat, id: string)
    | FinishExternal(call: nat, value: string)

  predicate Live(s: State, id: string) { id in s.records && !s.records[id].revoked }

  // ----- one hold of the mutex -----

  function Putting(s: State, id: string, wellFormed: bool, value: string, grant: Option<Grant>, external: bool, saves: bool): (State, Answer) {
    if !wellFormed then (s, Failed(Malformed))
    else if id in s.records && s.records[id].revoked then (s, Failed(Revoked))
    else
      var version := if id in s.records then (s.records[id].version + 1) % WORD else 1;
      if version == 0 then (s, Failed(Exhausted))
      else if !saves then (s, Failed(SaveFailed))
      else (s.(records := s.records[id := Record(version, false, value, grant, external)], backoff := s.backoff - {id}), Done)
  }

  /** Only a tombstone stays behind; it keeps the version. */
  function Deleting(s: State, id: string, saves: bool): (State, Answer) {
    if !Live(s, id) then (s, Failed(Unknown))
    else if !saves then (s, Failed(SaveFailed))
    else (s.(records := s.records[id := Record(s.records[id].version, true, "", None, false)]), Done)
  }

  function Beginning(s: State, call: nat, id: string, force: bool, now: int): (State, Answer) {
    if !Live(s, id) || s.records[id].grant.None? then (s, Failed(NoLifecycle))
    else
      var record, grant := s.records[id], s.records[id].grant.value;
      if !force && grant.expires != 0 && now + SKEW < grant.expires then (s, Done)
      else if id in s.flights then (s, Joined(s.flights[id]))
      else if id in s.backoff && now < s.backoff[id] then (s, Failed(CoolingDown))
      else if !grant.renewable then (s, Failed(Reauthorize))
      else (s.(flights := s.flights[id := call], calls := s.calls[call := Flight(id, record)]), Started)
  }

  function Finishing(s: State, call: nat, next: Option<Grant>, now: int, saves: bool): (State, Answer)
    requires call in s.calls
  {
    var id, record := s.calls[call].id, s.calls[call].record;
    var landed := s.(flights := s.flights - {id}, calls := s.calls - {call});
    if !Live(s, id) || s.records[id].version != record.version then (landed, Failed(Stale))
    else if next.None? then (landed.(backoff := s.backoff[id := now + COOLDOWN]), Failed(Refused))
    else
      var current := s.records[id];
      var version := (current.version + 1) % WORD;
      if version == 0 then (landed, Failed(Exhausted))
      else
        var settled := landed.(backoff := s.backoff - {id});
        if !saves then (settled, Failed(SaveFailed))
        else (settled.(records := s.records[id := current.(version := version, value := next.value.access, grant := next)]), Done)
  }

  function Reading(s: State, id: string): Answer {
    if Live(s, id) then Value(s.records[id].value) else Failed(Revoked)
  }

  function EndingExternal(s: State, call: nat, value: string): (State, Answer)
    requires call in s.lookups
  {
    var f := s.lookups[call];
    var landed := s.(lookups := s.lookups - {call});
    if !Live(s, f.id) || s.records[f.id].version != f.record.version then (landed, Failed(Stale)) else (landed, Value(value))
  }

  /** Call numbers are fresh; only a running call can end. */
  predicate Enabled(s: State, step: Step) {
    match step
    case Begin(call, _, _, _) => call !in s.calls
    case Finish(call, _, _, _) => call in s.calls
    case BeginExternal(call, _) => call !in s.lookups
    case FinishExternal(call, _) => call in s.lookups
    case _ => true
  }

  function Do(s: State, step: Step): (State, Answer)
    requires Enabled(s, step)
  {
    match step
    case Put(id, wellFormed, value, grant, external, saves) => Putting(s, id, wellFormed, value, grant, external, saves)
    case Delete(id, saves) => Deleting(s, id, saves)
    case Begin(call, id, force, now) => Beginning(s, call, id, force, now)
    case Finish(call, next, now, saves) => Finishing(s, call, next, now, saves)
    case Read(id) => (s, Reading(s, id))
    case BeginExternal(call, id) =>
      if Live(s, id) && s.records[id].external then (s.(lookups := s.lookups[call := Flight(id, s.records[id])]), Started)
      else (s, Failed(Revoked))
    case FinishExternal(call, value) => EndingExternal(s, call, value)
  }

  // ----- the store -----

  class Store {
    var records: map<string, Record>
    var flights: map<string, nat>
    var backoff: map<string, int>
    ghost var calls: map<nat, Flight>
    ghost var lookups: map<nat, Flight>

    ghost function Value(): State
      reads this
    {
      State(records, flights, backoff, calls, lookups)
    }

    constructor ()
      ensures Value() == State(map[], map[], map[], map[], map[])
    {
      records, flights, backoff, calls, lookups := map[], map[], map[], map[], map[];
    }

    /** Encrypt, write and rename: all of it or nothing. */
    method Save(next: map<string, Record>, saves: bool) returns (ok: bool)
      modifies this`records
      ensures ok == saves && records == if saves then next else old(records)
    {
      ok := saves;
      if saves {
        records := next;
      }
    }

    method Put(id: string, wellFormed: bool, value: string, grant: Option<Grant>, external: bool, saves: bool) returns (a: Answer)
      modifies this
      ensures (Value(), a) == Putting(old(Value()), id, wellFormed, value, grant, external, saves)
    {
      if !wellFormed {
        return Failed(Malformed);
      }
      var next, version := records, 1;
      if id in next {
        if next[id].revoked {
          return Failed(Revoked);
        }
        version := (next[id].version + 1) % WORD;
        if version == 0 {
          return Failed(Exhausted);
        }
      }
      next := next[id := Record(version, false, value, grant, external)];
      var ok := Save(next, saves);
      if !ok {
        return Failed(SaveFailed);
      }
      backoff := backoff - {id};
      return Done;
    }

    method Delete(id: string, saves: bool) returns (a: Answer)
      modifies this
      ensures (Value(), a) == Deleting(old(Value()), id, saves)
    {
      if id !in records || records[id].revoked {
        return Failed(Unknown);
      }
      var ok := Save(records[id := Record(records[id].version, true, "", None, false)], saves);
      return if ok then Done else Failed(SaveFailed);
    }

    /** First hold of a refresh: join a running one, refuse, or take the flight. */
    method BeginRefresh(call: nat, id: string, force: bool, now: int) returns (a: Answer)
      modifies this
      ensures (Value(), a) == Beginning(old(Value()), call, id, force, now)
    {
      if id !in records || records[id].revoked || records[id].grant.None? {
        return Failed(NoLifecycle);
      }
      var grant := records[id].grant.value;
      if !force && grant.expires != 0 && now + SKEW < grant.expires {
        return Done;
      }
      if id in flights {
        return Joined(flights[id]);
      }
      if id in backoff && now < backoff[id] {
        return Failed(CoolingDown);
      }
      if !grant.renewable {
        return Failed(Reauthorize);
      }
      flights, calls := flights[id := call], calls[call := Flight(id, records[id])];
      return Started;
    }

    /** Second hold: `read` is the record from the first one, `next` what the endpoint granted. */
    method FinishRefresh(ghost call: nat, id: string, read: Record, next: Option<Grant>, now: int, saves: bool) returns (a: Answer)
      requires call in calls && calls[call] == Flight(id, read)
      modifies this
      ensures (Value(), a) == Finishing(old(Value()), call, next, now, saves)
    {
      flights, calls := flights - {id}, calls - {call};
      if id !in records || records[id].revoked || records[id].version != read.version {
        return Failed(Stale);
      }
      if next.None? {
        backoff := backoff[id := now + COOLDOWN];
        return Failed(Refused);
      }
      var current := records[id];
      current := current.(value := next.value.access, grant := next, version := (current.version + 1) % WORD);
      if current.version == 0 {
        return Failed(Exhausted);
      }
      var ok := Save(records[id := current], saves);
      backoff := backoff - {id};
      return if ok then Done else Failed(SaveFailed);
    }
  }

  // ----- what every step keeps -----

  /** A call that read a record which is still live under the same version read what is stored. */
  ghost predicate ReadsCurrent(s: State, f: Flight) {
    && f.id in s.records && f.record.version <= s.records[f.id].version && !f.record.revoked
    && (Live(s, f.id) && s.records[f.id].version == f.record.version ==> s.records[f.id] == f.record)
  }

  ghost predicate VersionsOk(records: map<string, Record>) {
    forall id :: id in records ==> 1 <= records[id].version < WORD
  }

  /** Every running refresh owns the flight of its id, and every flight has its refresh. */
  ghost predicate FlightsOk(flights: map<string, nat>, calls: map<nat, Flight>) {
    && (forall id :: id in flights ==> flights[id] in calls && calls[flights[id]].id == id)
    && (forall c :: c in calls ==> calls[c].id in flights && flights[calls[c].id] == c)
  }

  ghost predicate AllReadCurrent(s: State, calls: map<nat, Flight>) {
    forall c :: c in calls ==> ReadsCurrent(s, calls[c])
  }

  ghost predicate Inv(s: State) {
    VersionsOk(s.records) && FlightsOk(s.flights, s.calls) && AllReadCurrent(s, s.calls) && AllReadCurrent(s, s.lookups)
  }

  /** How one record may change in one step: not at all, to a higher version of a live record, or
      into the tombstone of the same version. */
  ghost predicate Evolves(a: Record, b: Record) {
    || a == b
    || (!a.revoked && !b.revoked && a.version < b.version)
    || (!a.revoked && b.revoked && b.version == a.version && b.value == "" && b.grant == None && !b.external)
  }

  ghost predicate RecordsEvolve(s: State, s': State) {
    forall id :: id in s.records ==> id in s'.records && Evolves(s.records[id], s'.records[id])
  }

  /** The record a step writes, if it writes one: always an evolution of what was there. */
  lemma OneRecord(s: State, step: Step)
    requires VersionsOk(s.records) && Enabled(s, step)
    ensures var s', id := Do(s, step).0, if step.Finish? || step.FinishExternal? then TargetOf(s, step) else step.id;
      || s'.records == s.records
      || (&& id in s'.records && s'.records == s.records[id := s'.records[id]] && 1 <= s'.records[id].version < WORD
          && (id in s.records ==> Evolves(s.records[id], s'.records[id])))
  {
  }

  function TargetOf(s: State, step: Step): string
    requires Enabled(s, step) && (step.Finish? || step.FinishExternal?)
  {
    if step.Finish? then s.calls[step.call].id else s.lookups[step.call].id
  }

  lemma StepEvolves(s: State, step: Step)
    requires VersionsOk(s.records) && Enabled(s, step)
    ensures VersionsOk(Do(s, step).0.records) && RecordsEvolve(s, Do(s, step).0)
  {
    hide Do;
    OneRecord(s, step);
  }

  lemma FlightsAdd(flights: map<string, nat>, calls: map<nat, Flight>, call: nat, f: Flight)
    requires FlightsOk(flights, calls) && call !in calls && f.id !in flights
    ensures FlightsOk(flights[f.id := call], calls[call := f])
  {
  }

  lemma FlightsRemove(flights: map<string, nat>, calls: map<nat, Flight>, call: nat)
    requires FlightsOk(flights, calls) && call in calls
    ensures FlightsOk(flights - {calls[call].id}, calls - {call})
  {
  }

  lemma FinishFrame(s: State, call: nat, next: Option<Grant>, now: int, saves: bool)
    requires call in s.calls
    ensures var s' := Finishing(s, call, next, now, saves).0;
      s'.flights == s.flights - {s.calls[call].id} && s'.calls == s.calls - {call} && s'.lookups == s.lookups
  {
  }

  lemma StepFlights(s: State, step: Step)
    requires FlightsOk(s.flights, s.calls) && Enabled(s, step)
    ensures FlightsOk(Do(s, step).0.flights, Do(s, step).0.calls)
  {
    hide Putting, Deleting, EndingExternal, Reading, Finishing, FlightsOk;
    match step
    case Begin(call, id, _, _) =>
      if Do(s, step).1 == Started {
        FlightsAdd(s.flights, s.calls, call, Flight(id, s.records[id]));
      }
    case Finish(call, next, now, saves) =>
      FinishFrame(s, call, next, now, saves);
      FlightsRemove(s.flights, s.calls, call);
    case Put(id, wellFormed, value, grant, external, saves) => PutFrame(s, id, wellFormed, value, grant, external, saves);
    case Delete(id, saves) => DeleteFrame(s, id, saves);
    case FinishExternal(call, value) => ExternalFrame(s, call, value);
    case Read(_) =>
    case BeginExternal(_, _) =>
  }

  lemma PutFrame(s: State, id: string, wellFormed: bool, value: string, grant: Option<Grant>, external: bool, saves: bool)
    ensures var s' := Putting(s, id, wellFormed, value, grant, external, saves).0;
      s'.flights == s.flights && s'.calls == s.calls && s'.lookups == s.lookups
  {
  }

  lemma DeleteFrame(s: State, id: string, saves: bool)
    ensures var s' := Deleting(s, id, saves).0; s'.flights == s.flights && s'.calls == s.calls && s'.lookups == s.lookups
  {
  }

  lemma ExternalFrame(s: State, call: nat, value: string)
    requires call in s.lookups
    ensures var s' := EndingExternal(s, call, value).0;
      s'.flights == s.flights && s'.calls == s.calls && s'.lookups == s.lookups - {call} && s'.records == s.records
  {
  }

  lemma ReadsStay(s: State, s': State, f: Flight)
    requires ReadsCurrent(s, f) && RecordsEvolve(s, s')
    ensures ReadsCurrent(s', f)
  {
    var a, b := s.records[f.id], s'.records[f.id];
    assert Evolves(a, b);
  }

  lemma AllReadsStay(s: State, s': State, calls: map<nat, Flight>)
    requires AllReadCurrent(s, calls) && RecordsEvolve(s, s')
    ensures AllReadCurrent(s', calls)
  {
    hide ReadsCurrent, RecordsEvolve;
    forall c | c in calls ensures ReadsCurrent(s', calls[c]) {
      ReadsStay(s, s', calls[c]);
    }
  }

  /** The calls that run after a step are those that ran before, or one that has just read. */
  lemma StepCalls(s: State, step: Step)
    requires Enabled(s, step)
    ensures var s' := Do(s, step).0;
      && (forall c :: c in s'.calls ==> (c in s.calls && s'.calls[c] == s.calls[c]) || JustRead(s', s'.calls[c]))
      && (forall c :: c in s'.lookups ==> (c in s.lookups && s'.lookups[c] == s.lookups[c]) || JustRead(s', s'.lookups[c]))
  {
  }

  ghost predicate JustRead(s: State, f: Flight) { Live(s, f.id) && f.record == s.records[f.id] }

  /** Every step keeps every invariant. */
  lemma StepKeeps(s: State, step: Step)
    requires Inv(s) && Enabled(s, step)
    ensures var kept := Inv(Do(s, step).0); kept
    ensures RecordsEvolve(s, Do(s, step).0)
  {
    hide Do, RecordsEvolve, FlightsOk, VersionsOk;
    var s' := Do(s, step).0;
    StepEvolves(s, step);
    StepFlights(s, step);
    StepCalls(s, step);
    AllReadsStay(s, s', s.calls);
    AllReadsStay(s, s', s.lookups);
  }

  // ----- what a single step promises -----

  /** At most one refresh runs per id, whatever was asked for. */
  lemma SingleFlight(s: State, c: nat, d: nat)
    requires Inv(s) && c in s.calls && d in s.calls && s.calls[c].id == s.calls[d].id
    ensures c == d
  {
  }

  /** Storing a credential succeeds exactly when it is well formed, no tombstone stands in the way, the
      version can rise and the write succeeds. The id then holds exactly what was given, under the next
      version; whatever the answer, no other id and no running call is touched. */
  lemma PutStores(s: State, step: Step)
    requires VersionsOk(s.records) && step.Put?
    ensures var id, (s', a) := step.id, Do(s, step);
      && (a == Done <==> step.wellFormed && step.saves && (id in s.records ==> !s.records[id].revoked && s.records[id].version < 0xFFFF_FFFF_FFFF_FFFF))
      && (a == Done ==> s'.records.Keys == s.records.Keys + {id} && forall other :: other in s.records && other != id ==> s'.records[other] == s.records[other])
      && (a == Done ==> Live(s', id) && s'.records[id].value == step.value && s'.records[id].grant == step.grant && s'.records[id].external == step.external)
      && (a == Done ==> s'.records[id].version == if id in s.records then s.records[id].version + 1 else 1)
      && s'.flights == s.flights && s'.calls == s.calls && s'.lookups == s.lookups
      && (a != Done ==> s' == s && RefusesPut(s, step, a))
  {
    assert step.id in s.records ==> 1 <= s.records[step.id].version < WORD;
  }

  /** A refused put names what stood in its way. */
  predicate RefusesPut(s: State, step: Step, a: Answer)
    requires step.Put?
  {
    && a.Failed?
    && match a.error
       case Malformed => !step.wellFormed
       case Revoked => step.id in s.records && s.records[step.id].revoked
       case Exhausted => step.id in s.records && s.records[step.id].version == 0xFFFF_FFFF_FFFF_FFFF
       case SaveFailed => !step.saves
       case _ => false
  }

  /** Deleting succeeds exactly for a live id whose write succeeds, and wipes it. */
  lemma DeleteRevokes(s: State, step: Step)
    requires step.Delete?
    ensures var id, (s', a) := step.id, Do(s, step);
      && (a == Done <==> Live(s, id) && step.saves)
      && (a == Done ==> s'.records.Keys == s.records.Keys && forall other :: other in s.records && other != id ==> s'.records[other] == s.records[other])
      && (a == Done ==> s'.records[id] == Record(s.records[id].version, true, "", None, false))
      && s' == s.(records := s'.records) && (a != Done ==> s' == s)
  {
  }

  /** A refresh is committed exactly when it was granted, the record it read is still the stored one, its
      version can rise and the write succeeds. It replaces exactly that record, and nothing else; otherwise
      no record changes. */
  lemma RefreshReplacesWhatItRead(s: State, step: Step)
    requires Inv(s) && Enabled(s, step) && step.Finish?
    ensures var f, (s', a) := s.calls[step.call], Do(s, step);
      && (a == Done <==> Live(s, f.id) && s.records[f.id] == f.record && step.next.Some? && step.saves && f.record.version < 0xFFFF_FFFF_FFFF_FFFF)
      && (a == Done ==> s'.records == s.records[f.id := f.record.(version := f.record.version + 1, value := step.next.value.access, grant := step.next)])
      && (a != Done ==> s'.records == s.records)
      && (a == Failed(Stale) <==> !Live(s, f.id) || s.records[f.id] != f.record)
      && (a == Failed(Refused) <==> Live(s, f.id) && s.records[f.id] == f.record && step.next.None?)
  {
    var f := s.calls[step.call];
    assert ReadsCurrent(s, f) && (f.id in s.records ==> 1 <= s.records[f.id].version < WORD);
    if Do(s, step).1 == Done {
      assert s.records[f.id] == f.record;
    }
  }

  /** An external value is handed out exactly while the record it belongs to is the stored one, and only
      after a live record asked for one. */
  lemma ExternalIsCurrent(s: State, step: Step)
    requires Inv(s) && Enabled(s, step)
    ensures step.FinishExternal? ==>
      var f := s.lookups[step.call];
      Do(s, step).1 == if Live(s, f.id) && s.records[f.id] == f.record then Value(step.value) else Failed(Stale)
    ensures step.BeginExternal? ==> (Do(s, step).1 == Started <==> Live(s, step.id) && s.records[step.id].external)
  {
    if step.FinishExternal? {
      assert ReadsCurrent(s, s.lookups[step.call]);
    }
  }

  // ----- every run -----

  /** Each step leads from its state to the next. */
  ghost predicate Leads(trace: seq<State>, steps: seq<Step>) {
    && |trace| == |steps| + 1
    && (forall i :: 0 <= i < |steps| ==> Enabled(trace[i], steps[i]) && trace[i+1] == Do(trace[i], steps[i]).0)
  }

  /** A run from any consistent vault, as one process run finds it. */
  ghost predicate IsRun(trace: seq<State>, steps: seq<Step>) { Leads(trace, steps) && Inv(trace[0]) }

  /** A vault as a process finds it on start: records that were saved, and nothing running. */
  ghost predicate Opened(s: State) { VersionsOk(s.records) && s.flights == map[] && s.calls == map[] && s.lookups == map[] }

  /** Whatever was saved, and from the empty vault on, every sequence of steps is a run. */
  lemma OpenedStartsRun(trace: seq<State>, steps: seq<Step>)
    requires Leads(trace, steps) && Opened(trace[0])
    ensures IsRun(trace, steps)
  {
  }

  lemma {:induction false} RunKeeps(trace: seq<State>, steps: seq<Step>, i: nat)
    requires IsRun(trace, steps) && i < |trace|
    ensures Inv(trace[i])
  {
    hide Inv, Do;
    if i > 0 {
      RunKeeps(trace, steps, i - 1);
      StepKeeps(trace[i-1], steps[i-1]);
    }
  }

  /** How a record may change over a whole run. */
  ghost predicate Descends(a: Record, b: Record) {
    && a.version <= b.version
    && (a.revoked ==> b == a)
    && (a.version == b.version && !b.revoked ==> b == a)
  }

  /** Over any stretch of any run, versions never fall, a changed live record has a higher version,
      and a revoked id keeps its tombstone. */
  lemma {:induction false} RunDescends(trace: seq<State>, steps: seq<Step>, i: nat, j: nat, id: string)
    requires IsRun(trace, steps) && i <= j < |trace| && id in trace[i].records
    ensures id in trace[j].records && Descends(trace[i].records[id], trace[j].records[id])
  {
    hide Inv, Do;
    if i < j {
      RunDescends(trace, steps, i, j - 1, id);
      RunKeeps(trace, steps, j - 1);
      StepKeeps(trace[j-1], steps[j-1]);
      assert Evolves(trace[j-1].records[id], trace[j].records[id]);
    }
  }

  /** A revoked id is never resolved, replaced, refreshed or read from outside again. */
  lemma RevokedForever(trace: seq<State>, steps: seq<Step>, i: nat, j: nat, id: string)
    requires IsRun(trace, steps) && i <= j < |steps| && id in trace[i].records && trace[i].records[id].revoked
    ensures id in trace[j+1].records && trace[j+1].records[id] == trace[i].records[id]
    ensures steps[j].Read? && steps[j].id == id ==> Do(trace[j], steps[j]).1.Failed?
    ensures (steps[j].Put? || steps[j].Delete? || steps[j].Begin? || steps[j].BeginExternal?) && steps[j].id == id
      ==> Do(trace[j], steps[j]).1.Failed?
    ensures steps[j].Finish? && trace[j].calls[steps[j].call].id == id ==> Do(trace[j], steps[j]).1 == Failed(Stale)
    ensures steps[j].FinishExternal? && trace[j].lookups[steps[j].call].id == id ==> Do(trace[j], steps[j]).1 == Failed(Stale)
  {
    RunDescends(trace, steps, i, j, id);
    RunDescends(trace, steps, i, j + 1, id);
  }

  /** A call that runs after a step ran before it, unless the step began it. */
  lemma CallBefore(s: State, step: Step, call: nat)
    requires Enabled(s, step) && call in Do(s, step).0.calls && !(step.Begin? && step.call == call)
    ensures call in s.calls && s.calls[call] == Do(s, step).0.calls[call]
  {
  }

  /** A call number that is not used again stands for one refresh. */
  lemma {:induction false} SameCall(trace: seq<State>, steps: seq<Step>, i: nat, j: nat, call: nat)
    requires Leads(trace, steps) && i <= j < |trace| && call in trace[j].calls
    requires forall m :: i <= m < j && steps[m].Begin? ==> steps[m].call != call
    ensures call in trace[i].calls && trace[i].calls[call] == trace[j].calls[call]
    decreases j - i
  {
    hide Do;
    if i < j {
      CallBefore(trace[j-1], steps[j-1], call);
      SameCall(trace, steps, i, j - 1, call);
    }
  }

  /** A refresh that began at one moment and ends later never overwrites anything newer: if the record
      has changed since, the result is stale and no record changes. */
  lemma RefreshNeverOverwrites(trace: seq<State>, steps: seq<Step>, i: nat, j: nat)
    requires IsRun(trace, steps) && i < j < |steps| && steps[i].Begin? && steps[j].Finish? && steps[i].call == steps[j].call
    requires Do(trace[i], steps[i]).1 == Started
    requires forall m :: i < m < j && steps[m].Begin? ==> steps[m].call != steps[i].call
    ensures var id := steps[i].id;
      && id in trace[i].records && id in trace[j].records
      && (trace[j].records[id] != trace[i].records[id] ==>
            Do(trace[j], steps[j]).1 == Failed(Stale) && trace[j+1].records == trace[j].records)
  {
    hide Inv;
    SameCall(trace, steps, i + 1, j, steps[j].call);
    RunDescends(trace, steps, i, j, steps[i].id);
    RunKeeps(trace, steps, j);
  }

  /** The step stores a value under the id: an accepted put, or a committed refresh. */
  ghost predicate Stores(s: State, step: Step, id: string, value: string) {
    && Enabled(s, step) && Do(s, step).1 == Done
    && match step
       case Put(at, _, given, _, _, _) => at == id && given == value
       case Finish(call, next, _, _) => s.calls[call].id == id && next.Some? && next.value.access == value
       case _ => false
  }

  ghost predicate Deletes(s: State, step: Step, id: string) {
    Enabled(s, step) && step.Delete? && step.id == id && Do(s, step).1 == Done
  }

  ghost predicate Holds(s: State, id: string, value: string) { Live(s, id) && s.records[id].value == value }

  lemma StoreHolds(s: State, step: Step, id: string, value: string)
    requires Inv(s) && Stores(s, step, id, value)
    ensures Holds(Do(s, step).0, id, value)
  {
    hide FlightsOk;
    if step.Put? {
      PutStores(s, step);
    } else {
      RefreshReplacesWhatItRead(s, step);
    }
  }

  lemma OthersHold(s: State, step: Step, id: string, value: string)
    requires Inv(s) && Enabled(s, step) && Holds(s, id, value)
    requires !Deletes(s, step, id) && forall other :: !Stores(s, step, id, other)
    ensures Holds(Do(s, step).0, id, value)
  {
    hide FlightsOk, AllReadCurrent;
    if step.Put? {
      assert !Stores(s, step, id, step.value);
    } else if step.Finish? && step.next.Some? {
      assert !Stores(s, step, id, step.next.value.access);
    }
  }

  /** A value stays readable until it is deleted or another one is stored. */
  lemma {:induction false} StaysHeld(trace: seq<State>, steps: seq<Step>, i: nat, j: nat, id: string, value: string)
    requires IsRun(trace, steps) && i <= j < |trace| && Holds(trace[i], id, value)
    requires forall m :: i <= m < j ==> !Deletes(trace[m], steps[m], id)
    requires forall m, other :: i <= m < j ==> !Stores(trace[m], steps[m], id, other)
    ensures Holds(trace[j], id, value)
  {
    hide Inv, Do, Holds, Stores, Deletes;
    if i < j {
      StaysHeld(trace, steps, i, j - 1, id, value);
      RunKeeps(trace, steps, j - 1);
      OthersHold(trace[j-1], steps[j-1], id, value);
    }
  }

  /** Over every run: reading an id answers what was stored under it last, by an accepted put or a committed
      refresh, unless it was deleted since. */
  lemma ReadAnswersLatest(trace: seq<State>, steps: seq<Step>, i: nat, j: nat, id: string, value: string)
    requires IsRun(trace, steps) && i < j < |steps| && Stores(trace[i], steps[i], id, value) && steps[j] == Read(id)
    requires forall m, other :: i < m < j ==> !Stores(trace[m], steps[m], id, other)
    ensures Do(trace[j], steps[j]).1 == if exists m :: i < m < j && Deletes(trace[m], steps[m], id) then Failed(Revoked) else Value(value)
  {
    hide Inv, Stores, Deletes, Holds;
    if m :| i < m < j && Deletes(trace[m], steps[m], id) {
      DeletedStays(trace, steps, m, j, id);
    } else {
      RunKeeps(trace, steps, i);
      StoreHolds(trace[i], steps[i], id, value);
      StaysHeld(trace, steps, i + 1, j, id, value);
      HeldIsRead(trace[j], id, value);
    }
  }

  /** What a process finds on start is what it reads, until something is stored or deleted. */
  lemma ReadAnswersSaved(trace: seq<State>, steps: seq<Step>, j: nat, id: string)
    requires IsRun(trace, steps) && j < |steps| && Live(trace[0], id) && steps[j] == Read(id)
    requires forall m, other :: 0 <= m < j ==> !Stores(trace[m], steps[m], id, other)
    requires forall m :: 0 <= m < j ==> !Deletes(trace[m], steps[m], id)
    ensures Do(trace[j], steps[j]).1 == Value(trace[0].records[id].value)
  {
    hide Inv, Stores, Deletes;
    StaysHeld(trace, steps, 0, j, id, trace[0].records[id].value);
    HeldIsRead(trace[j], id, trace[0].records[id].value);
  }

  lemma HeldIsRead(s: State, id: string, value: string)
    requires Holds(s, id, value)
    ensures Reading(s, id) == Value(value)
  {
  }

  lemma DeletedStays(trace: seq<State>, steps: seq<Step>, m: nat, j: nat, id: string)
    requires IsRun(trace, steps) && m < j < |steps| && Deletes(trace[m], steps[m], id)
    ensures Reading(trace[j], id) == Failed(Revoked)
  {
    hide Inv;
    DeleteRevokes(trace[m], steps[m]);
    RunDescends(trace, steps, m + 1, j, id);
  }

  /** A step that changes a stored record raises its version, unless it is the deletion of that id:
      the tombstone keeps the version it replaces. */
  lemma VersionRisesIff(s: State, step: Step, id: string)
    requires Inv(s) && Enabled(s, step) && id in s.records
    requires id in Do(s, step).0.records && Do(s, step).0.records[id] != s.records[id]
    ensures Do(s, step).0.records[id].version > s.records[id].version <==> !step.Delete?
  {
    hide FlightsOk, AllReadCurrent;
    assert 1 <= s.records[id].version < WORD;
  }

  /** Deleting a fresh credential changes its value and not its version. */
  lemma DeletionKeepsVersion()
    ensures var s := State(map["k" := Record(1, false, "secret", None, false)], map[], map[], map[], map[]);
      var s' := Do(s, Delete("k", true)).0;
      Opened(s) && "k" in s'.records && s'.records["k"].value != "secret" && s'.records["k"].version == 1
  {
  }

  // ----- when a refresh is attempted -----

  /** A refresh starts exactly for a live, renewable grant that is forced or about to expire, with no
      refresh running and no backoff pending; otherwise nothing changes. */
  lemma RefreshStartsIff(s: State, step: Step)
    requires Enabled(s, step) && step.Begin?
    ensures var id := step.id;
      Do(s, step).1 == Started <==>
        && Live(s, id) && s.records[id].grant.Some? && s.records[id].grant.value.renewable
        && (step.force || s.records[id].grant.value.expires == 0 || step.now + 30 >= s.records[id].grant.value.expires)
        && id !in s.flights && (id in s.backoff ==> step.now >= s.backoff[id])
    ensures Do(s, step).1 != Started ==> Do(s, step).0 == s
  {
  }

  /** The id has a grant that is forced or about to expire. */
  predicate Due(s: State, id: string, force: bool, now: int) {
    && Live(s, id) && s.records[id].grant.Some?
    && (force || s.records[id].grant.value.expires == 0 || now + 30 >= s.records[id].grant.value.expires)
  }

  /** What the answer to a refresh that does not start says. */
  lemma RefreshAnswers(s: State, step: Step)
    requires Enabled(s, step) && step.Begin?
    ensures var id, a := step.id, Do(s, step).1;
      && (a == Failed(NoLifecycle) <==> !Live(s, id) || s.records[id].grant.None?)
      && (a == Done <==> Live(s, id) && s.records[id].grant.Some? && !Due(s, id, step.force, step.now))
      && (a.Joined? <==> Due(s, id, step.force, step.now) && id in s.flights) && (a.Joined? ==> a.call == s.flights[id])
      && (a == Failed(CoolingDown) <==>
           Due(s, id, step.force, step.now) && id !in s.flights && id in s.backoff && step.now < s.backoff[id])
      && (a == Failed(Reauthorize) ==> !s.records[id].grant.value.renewable)
      && (a == Started || a.Joined? || a == Done || a.Failed?)
  {
  }

  /** No refresh of the id runs and its backoff is pending. */
  ghost predicate Cooling(s: State, id: string, until: int) {
    id !in s.flights && id in s.backoff && s.backoff[id] == until
  }

  /** A new credential was stored under the id, which forgets its backoff. */
  ghost predicate Replaces(s: State, step: Step, id: string) {
    Enabled(s, step) && step.Put? && step.id == id && Do(s, step).1 == Done
  }

  lemma CoolingStep(s: State, step: Step, id: string, until: int)
    requires Inv(s) && Enabled(s, step) && Cooling(s, id, until) && !Replaces(s, step, id)
    requires step.Begin? && step.id == id ==> step.now < until
    ensures Cooling(Do(s, step).0, id, until)
  {
    hide AllReadCurrent, VersionsOk;
  }

  lemma RefusalCools(s: State, step: Step)
    requires Inv(s) && Enabled(s, step) && step.Finish? && Do(s, step).1 == Failed(Refused)
    ensures Cooling(Do(s, step).0, s.calls[step.call].id, step.now + 60)
  {
    hide AllReadCurrent, VersionsOk;
  }

  lemma {:induction false} StaysCooling(trace: seq<State>, steps: seq<Step>, i: nat, j: nat, id: string, until: int)
    requires IsRun(trace, steps) && i <= j < |trace| && Cooling(trace[i], id, until)
    requires forall m :: i <= m < j ==> !Replaces(trace[m], steps[m], id)
    requires forall m :: i <= m < j && steps[m].Begin? && steps[m].id == id ==> steps[m].now < until
    ensures Cooling(trace[j], id, until)
  {
    hide Inv, Do, Cooling, Replaces;
    if i < j {
      StaysCooling(trace, steps, i, j - 1, id, until);
      RunKeeps(trace, steps, j - 1);
      CoolingStep(trace[j-1], steps[j-1], id, until);
    }
  }

  /** For a minute after a refused refresh none starts for that id, not even when forced, unless a new
      credential was stored under it meanwhile. The clock does not run backwards. */
  lemma RefusalHolds(trace: seq<State>, steps: seq<Step>, i: nat, j: nat, id: string)
    requires IsRun(trace, steps) && i < j < |steps|
    requires steps[i].Finish? && Do(trace[i], steps[i]).1 == Failed(Refused) && trace[i].calls[steps[i].call].id == id
    requires steps[j].Begin? && steps[j].id == id && steps[j].now < steps[i].now + 60
    requires forall m :: i < m < j && steps[m].Begin? ==> steps[m].now <= steps[j].now
    ensures Do(trace[j], steps[j]).1 == Started ==> exists m :: i < m < j && Replaces(trace[m], steps[m], id)
  {
    hide Inv, Replaces, Finishing;
    RunKeeps(trace, steps, i);
    RefusalCools(trace[i], steps[i]);
    if forall m :: i < m < j ==> !Replaces(trace[m], steps[m], id) {
      StaysCooling(trace, steps, i + 1, j, id, steps[i].now + 60);
      RefreshStartsIff(trace[j], steps[j]);
    }
  }

  /** Storing a new credential does end it: whatever the backoff was, the next refresh of the id is
      not turned away for it, and a forced one of a renewable grant starts at once. */
  lemma ReplacementEndsBackoff(s: State, step: Step, call: nat, force: bool, now: int)
    requires Inv(s) && step.Put? && Replaces(s, step, step.id) && call !in s.calls
    ensures var s' := Do(s, step).0; var next := Begin(call, step.id, force, now);
      && Enabled(s', next) && Do(s', next).1 != Failed(CoolingDown)
      && (force && step.grant.Some? && step.grant.value.renewable && step.id !in s.flights ==> Do(s', next).1 == Started)
  {
    hide AllReadCurrent, VersionsOk, FlightsOk;
  }

  /** A credential under backoff whose refresh starts as soon as it is stored again. */
  lemma BackoffIsForgotten()
    ensures var grant := Grant("t", true, 1);
      var s := State(map["k" := Record(1, false, "t", Some(grant), false)], map[], map["k" := 100], map[], map[]);
      var put := Put("k", true, "u", Some(grant), false, true);
      Opened(s) && Replaces(s, put, "k")
      && Do(s, Begin(0, "k", true, 50)).1 == Failed(CoolingDown) && Do(Do(s, put).0, Begin(0, "k", true, 50)).1 == Started
  {
  }
}
