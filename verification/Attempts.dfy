/** The retry coordinator: one downstream request, several upstream attempts. The scheduler and the
    upstreams are an arbitrary environment that may answer each attempt differently. */
module Attempts {
  import opened Policy
  import opened Index
  import opened Selection
  import opened Choosing
  import opened Scheduler
  import opened Steps

  datatype Acquired = Refused(code: int) | Leased(target: nat, enabled: bool, blocked: bool)

  /** What an upstream call came to. `beforeSubmission` is the transport's own proof that nothing
      was sent. */
  datatype Reply = Failed(beforeSubmission: bool) | Answered(status: int, retryAfter: int)

  /** The environment of one request: what the n-th acquire and the n-th call return, and whether
      the caller's context has ended by then. */
  datatype World = World(acquire: (nat, Query) -> Acquired, call: (nat, nat) -> Reply, ended: nat -> bool)

  datatype Attempt = Attempt(target: nat, query: Query, reply: Reply, ended: bool)

  datatype Result = Unserved(code: int) | Served(target: nat, reply: Reply)

  datatype Event = Took(target: nat) | Freed(target: nat, status: int, retryAfter: int)

  /** The scheduler only leases targets that admit the query; see `GrantIsAdmissible`. */
  ghost predicate Admissible(w: World, t: Table) {
    forall n, q :: w.acquire(n, q).Leased? ==> LeaseAdmits(t, q, w.acquire(n, q))
  }

  ghost predicate LeaseAdmits(t: Table, q: Query, a: Acquired) {
    a.Leased? && a.target < |t.targets| && t.targets[a.target].source < |t.cfg.sources|
    && ReasonAt(t, a.enabled, a.blocked, q, a.target) == Admitted
  }

  /** Every grant of the scheduler is an admissible answer. */
  lemma GrantIsAdmissible(s: System, r: nat, q: Query, cancelled: bool, k: nat)
    requires Inv(s) && r < |s.routers| && k <= |QueueOf(s, r)| && Judge(s, r, q, cancelled, k).Granted?
    ensures exists enabled, blocked :: LeaseAdmits(s.routers[r].link.table, q, Leased(Judge(s, r, q, cancelled, k).target, enabled, blocked))
  {
    hide Judge, Inv, Choose, Picks;
    InvIsFormed(s);
    JudgedGrantable(s, r, q, cancelled, k);
    var idx := Judge(s, r, q, cancelled, k).target;
    var v := At(s, r);
    var st := v.states[SourceOf(v, idx)];
    assert LeaseAdmits(v.table, q, Leased(idx, st.enabled, st.blocked));
  }

  lemma InvIsFormed(s: System)
    requires Inv(s)
    ensures Formed(s)
  {
  }

  // ----- the two decisions -----

  function Min(a: int, b: int): int { if a < b then a else b }

  function AttemptLimit(c: Config, q: Query): (limit: int)
    ensures limit >= 1
  {
    if q.stateful || Key(q.model) !in c.groups then 1
    else
      var g := c.groups[Key(q.model)];
      if g.strategy == Select then 1
      else if g.maxAttempts > 0 then g.maxAttempts
      else if g.strategy == Fallback then Max(1, Min(8, |g.sources|))
      else 1
  }

  function RejectedBeforeGeneration(s: Source, status: int): bool {
    if s.adapter !in {OpenAI, Anthropic, Gemini} then false
    else
      match s.kind
      case VendorApi | CloudApi | AggregatorApi | CustomApi | LocalModel => status == 401 || status == 403 || status == 429
      case _ => false
  }

  /** The policy allows an n-th attempt: every request has one; a stateless one that names a group which is
      not a fixed selection has as many as the group asks for, or else, when the group falls back, one for
      every source up to eight. */
  predicate Allows(c: Config, q: Query, n: int) {
    || n <= 1
    || (&& !q.stateful
        && var group := if "auto/" <= q.model then "auto" else q.model;
           group in c.groups && AllowsMore(c.groups[group], n))
  }

  predicate AllowsMore(g: Group, n: int) {
    && g.strategy != Select
    && (g.maxAttempts > 0 ==> n <= g.maxAttempts)
    && (g.maxAttempts <= 0 ==> g.strategy == Fallback && n <= 8 && n <= |g.sources|)
  }

  /** The attempt limit is the number of attempts the policy allows. */
  lemma AllowsIff(c: Config, q: Query, n: int)
    ensures n <= AttemptLimit(c, q) <==> Allows(c, q, n)
  {
  }

  // ----- the run of one request -----

  function SourceAt(t: Table, target: nat): Source
    requires target < |t.targets| && t.targets[target].source < |t.cfg.sources|
  {
    t.cfg.sources[t.targets[target].source]
  }

  predicate Placed(t: Table, target: nat) {
    target < |t.targets| && t.targets[target].source < |t.cfg.sources|
  }

  predicate SafeToReplay(t: Table, target: nat, reply: Reply)
    requires Placed(t, target)
  {
    match reply
    case Failed(before) => before
    case Answered(status, _) => RejectedBeforeGeneration(SourceAt(t, target), status)
  }

  function Cost(t: Table, target: nat, q: Query): real
    requires Placed(t, target)
  {
    var cost := EstimatedRequestCost(t.targets[target].model, q);
    if cost.Some? then cost.value else 0.0
  }

  /** The query for the next attempt: an answered attempt is charged, its source is excluded. */
  function After(t: Table, a: Attempt): Query
    requires Placed(t, a.target)
  {
    a.query.(spentUSD := a.query.spentUSD + (if a.reply.Answered? then Cost(t, a.target, a.query) else 0.0),
             excluded := a.query.excluded + [SourceAt(t, a.target).id])
  }

  predicate Replayed(t: Table, a: Attempt, n: nat, limit: int)
    requires Placed(t, a.target)
  {
    SafeToReplay(t, a.target, a.reply) && n + 1 < limit && !a.ended
  }

  ghost function AttemptOf(w: World, q: Query, n: nat): Attempt
    requires w.acquire(n, q).Leased?
  {
    var target := w.acquire(n, q).target;
    Attempt(target, q, w.call(n, target), w.ended(n))
  }

  /** All attempts from the n-th on. */
  ghost function Attempts(w: World, t: Table, q: Query, n: nat, limit: int): seq<Attempt>
    requires Admissible(w, t)
    decreases limit - n
  {
    if w.acquire(n, q).Refused? then []
    else
      var a := AttemptOf(w, q, n);
      if Replayed(t, a, n, limit) then [a] + Attempts(w, t, After(t, a), n + 1, limit) else [a]
  }

  /** What the caller gets: the last attempt, unless it was given up for a next one that the
      scheduler then refused. */
  ghost function Settled(w: World, t: Table, q: Query, n: nat, limit: int): Result
    requires Admissible(w, t)
    decreases limit - n
  {
    if w.acquire(n, q).Refused? then Unserved(w.acquire(n, q).code)
    else
      var a := AttemptOf(w, q, n);
      if Replayed(t, a, n, limit) then Settled(w, t, After(t, a), n + 1, limit) else Served(a.target, a.reply)
  }

  function FreedBy(a: Attempt): Event {
    match a.reply
    case Failed(_) => Freed(a.target, 502, 0)
    case Answered(status, retryAfter) => Freed(a.target, status, retryAfter)
  }

  /** Takes and releases in order: every attempt but a served last one is released before the next. */
  function Ledger(trace: seq<Attempt>, served: bool): seq<Event> {
    if trace == [] then []
    else if |trace| == 1 && served then [Took(trace[0].target)]
    else [Took(trace[0].target), FreedBy(trace[0])] + Ledger(trace[1..], served)
  }

  /** The leases of one request. A second lease cannot be taken while one is held. */
  class Desk {
    var held: bool
    ghost var events: seq<Event>

    constructor ()
      ensures !held && events == []
    {
      held, events := false, [];
    }

    method Acquire(w: World, n: nat, q: Query) returns (a: Acquired)
      requires !held
      modifies this
      ensures a == w.acquire(n, q) && held == a.Leased?
      ensures events == old(events) + if a.Leased? then [Took(a.target)] else []
    {
      a := w.acquire(n, q);
      if a.Leased? {
        held, events := true, events + [Took(a.target)];
      }
    }

    method Release(target: nat, status: int, retryAfter: int)
      requires held
      modifies this
      ensures !held && events == old(events) + [Freed(target, status, retryAfter)]
    {
      held, events := false, events + [Freed(target, status, retryAfter)];
    }
  }

  lemma {:induction false} LedgerSplit(a: Attempt, rest: seq<Attempt>, served: bool)
    requires served ==> rest != []
    ensures Ledger([a] + rest, served) == [Took(a.target), FreedBy(a)] + Ledger(rest, served)
  {
    assert ([a] + rest)[1..] == rest;
  }

  /** Read one reply: whether it may be replayed, and what the lease reports on release. */
  method Classify(t: Table, target: nat, reply: Reply) returns (safe: bool, status: int, cooldown: int)
    requires Placed(t, target)
    ensures safe == SafeToReplay(t, target, reply)
    ensures reply.Failed? ==> status == 502 && cooldown == 0
    ensures reply.Answered? ==> status == reply.status && cooldown == reply.retryAfter
  {
    safe, status, cooldown := false, 502, 0;
    match reply {
      case Failed(before) => safe := before;
      case Answered(code, wait) =>
        status, cooldown := code, wait;
        safe := RejectedBeforeGeneration(SourceAt(t, target), status);
    }
  }

  /** An answered attempt is charged its admission estimate. */
  method Charge(t: Table, target: nat, q: Query, reply: Reply) returns (spent: real)
    requires Placed(t, target)
    ensures spent == q.spentUSD + if reply.Answered? then Cost(t, target, q) else 0.0
  {
    spent := q.spentUSD;
    if reply.Answered? {
      var cost := EstimatedRequestCost(t.targets[target].model, q);
      if cost.Some? {
        spent := spent + cost.value;
      }
    }
  }

  /** The attempt loop. It holds at most one lease, and holds one on return exactly when it hands
      the caller an attempt. */
  method AcquireResponse(desk: Desk, w: World, t: Table, q0: Query) returns (result: Result)
    requires !desk.held && Admissible(w, t)
    modifies desk
    ensures result == Settled(w, t, q0, 0, AttemptLimit(t.cfg, q0))
    ensures desk.held == result.Served?
    ensures desk.events == old(desk.events) + Ledger(Attempts(w, t, q0, 0, AttemptLimit(t.cfg, q0)), result.Served?)
  {
    hide ReasonAt, SafeToReplay, Cost, AttemptLimit, Ledger, Attempts, Settled;
    LedgerEnds();
    var q, attempt, limit := q0, 0, AttemptLimit(t.cfg, q0);
    ghost var served := Settled(w, t, q0, 0, limit).Served?;
    while true
      invariant 0 <= attempt && !desk.held
      invariant Settled(w, t, q, attempt, limit) == Settled(w, t, q0, 0, limit)
      invariant desk.events + Ledger(Attempts(w, t, q, attempt, limit), served)
             == old(desk.events) + Ledger(Attempts(w, t, q0, 0, limit), served)
      decreases limit - attempt
    {
      Unfold(w, t, q, attempt, limit);
      var lease := desk.Acquire(w, attempt, q);
      if lease.Refused? {
        return Unserved(lease.code);
      }
      var reply := w.call(attempt, lease.target);
      var safe, status, cooldown := Classify(t, lease.target, reply);
      if !safe || attempt + 1 >= limit || w.ended(attempt) {
        return Served(lease.target, reply);
      }
      ghost var a := AttemptOf(w, q, attempt);
      SettledHasAttempt(w, t, After(t, a), attempt + 1, limit);
      LedgerSplit(a, Attempts(w, t, After(t, a), attempt + 1, limit), served);
      var spent := Charge(t, lease.target, q, reply);
      q := q.(spentUSD := spent);
      desk.Release(lease.target, status, cooldown);
      q := q.(excluded := q.excluded + [SourceAt(t, lease.target).id]);
      assert q == After(t, a);
      attempt := attempt + 1;
    }
  }

  lemma Unfold(w: World, t: Table, q: Query, n: nat, limit: int)
    requires Admissible(w, t)
    ensures w.acquire(n, q).Refused? ==> Attempts(w, t, q, n, limit) == [] && Settled(w, t, q, n, limit) == Unserved(w.acquire(n, q).code)
    ensures w.acquire(n, q).Leased? ==>
      var a := AttemptOf(w, q, n);
      && Placed(t, a.target)
      && (!Replayed(t, a, n, limit) ==> Attempts(w, t, q, n, limit) == [a] && Settled(w, t, q, n, limit) == Served(a.target, a.reply))
      && (Replayed(t, a, n, limit) ==>
           && Attempts(w, t, q, n, limit) == [a] + Attempts(w, t, After(t, a), n + 1, limit)
           && Settled(w, t, q, n, limit) == Settled(w, t, After(t, a), n + 1, limit))
  {
    hide ReasonAt, SafeToReplay, After;
  }

  lemma LedgerEnds()
    ensures forall served :: Ledger([], served) == []
    ensures forall x: Attempt :: Ledger([x], true) == [Took(x.target)]
  {
  }

  lemma SettledHasAttempt(w: World, t: Table, q: Query, n: nat, limit: int)
    requires Admissible(w, t)
    ensures Settled(w, t, q, n, limit).Served? ==> Attempts(w, t, q, n, limit) != []
  {
  }

  // ----- what every run of attempts keeps -----

  function Id(t: Table, a: Attempt): string
    requires Placed(t, a.target)
  {
    SourceAt(t, a.target).id
  }

  ghost predicate AllPlaced(t: Table, trace: seq<Attempt>) {
    forall i :: 0 <= i < |trace| ==> Placed(t, trace[i].target)
  }

  ghost predicate Distinct(t: Table, trace: seq<Attempt>)
    requires AllPlaced(t, trace)
  {
    forall i, j :: 0 <= i < j < |trace| ==> Id(t, trace[i]) != Id(t, trace[j])
  }

  ghost predicate Avoids(t: Table, trace: seq<Attempt>, excluded: seq<string>)
    requires AllPlaced(t, trace)
  {
    forall i :: 0 <= i < |trace| ==> Id(t, trace[i]) !in excluded
  }

  lemma AdmissionExcludes(w: World, t: Table, q: Query, n: nat)
    requires Admissible(w, t) && w.acquire(n, q).Leased?
    ensures Placed(t, w.acquire(n, q).target) && SourceAt(t, w.acquire(n, q).target).id !in q.excluded
  {
    var a := w.acquire(n, q);
    assert LeaseAdmits(t, q, a);
    AdmittedShape(t.cfg, SourceAt(t, a.target), t.targets[a.target].model, a.enabled, a.blocked, q);
  }

  lemma {:induction false} AttemptsDistinct(w: World, t: Table, q: Query, n: nat, limit: int)
    requires Admissible(w, t)
    ensures var trace := Attempts(w, t, q, n, limit);
      AllPlaced(t, trace) && Distinct(t, trace) && Avoids(t, trace, q.excluded)
    ensures n < limit ==> |Attempts(w, t, q, n, limit)| <= limit - n
    decreases limit - n
  {
    hide ReasonAt, SafeToReplay, Admissible, Attempts;
    Unfold(w, t, q, n, limit);
    if w.acquire(n, q).Leased? {
      AdmissionExcludes(w, t, q, n);
      var a := AttemptOf(w, q, n);
      if Replayed(t, a, n, limit) {
        AttemptsDistinct(w, t, After(t, a), n + 1, limit);
        var rest := Attempts(w, t, After(t, a), n + 1, limit);
        var trace := [a] + rest;
        assert forall i :: 0 < i < |trace| ==> trace[i] == rest[i-1];
        assert Id(t, a) in After(t, a).excluded;
      }
    }
  }

  /** Why an attempt was given up for another one. */
  ghost predicate ProvenUnsubmitted(t: Table, a: Attempt)
    requires Placed(t, a.target)
  {
    var s := SourceAt(t, a.target);
    && !a.ended
    && (a.reply == Failed(true)
        || (a.reply.Answered? && a.reply.status in {401, 403, 429} && s.adapter in {OpenAI, Anthropic, Gemini}
            && s.kind in {VendorApi, CloudApi, AggregatorApi, CustomApi, LocalModel}))
  }

  lemma ReplayedIff(t: Table, a: Attempt, n: nat, limit: int)
    requires Placed(t, a.target)
    ensures Replayed(t, a, n, limit) <==> ProvenUnsubmitted(t, a) && n + 2 <= limit
  {
  }

  /** What an attempt adds to the bill: its price when an upstream answered and the price is known. */
  function Fee(t: Table, a: Attempt): real
    requires Placed(t, a.target)
  {
    var m, q := t.targets[a.target].model, a.query;
    if a.reply.Answered? && q.bytes >= 0 && q.outputTokens > 0 && m.inputUSD.Some? && m.outputUSD.Some?
    then q.bytes as real / 1000000.0 * m.inputUSD.value + q.outputTokens as real / 1000000.0 * m.outputUSD.value
    else 0.0
  }

  /** The query after an attempt differs in its bill and in the sources to leave out, and in nothing else. */
  ghost predicate Follows(t: Table, a: Attempt, next: Query) {
    && Placed(t, a.target)
    && next == a.query.(spentUSD := a.query.spentUSD + Fee(t, a),
                        excluded := a.query.excluded + [t.cfg.sources[t.targets[a.target].source].id])
  }

  lemma AfterFollows(t: Table, a: Attempt)
    requires Placed(t, a.target)
    ensures Follows(t, a, After(t, a))
  {
  }

  /** The n-th attempt is what the environment did with its query. */
  ghost predicate Happened(w: World, t: Table, n: nat, a: Attempt) {
    && Placed(t, a.target) && w.acquire(n, a.query).Leased? && w.acquire(n, a.query).target == a.target
    && a.reply == w.call(n, a.target) && a.ended == w.ended(n)
  }

  /** An attempt that is given up for another one: provably not accepted, and one more is allowed. */
  ghost predicate GivenUp(t: Table, q: Query, a: Attempt, n: nat) {
    Placed(t, a.target) && ProvenUnsubmitted(t, a) && Allows(t.cfg, q, n + 2)
  }

  /** A run of attempts from the n-th on, step by step. */
  ghost predicate Attempted(w: World, t: Table, q: Query, n: nat, trace: seq<Attempt>, result: Result) {
    && (forall i :: 0 <= i < |trace| ==> Happened(w, t, n + i, trace[i]))
    && (trace != [] ==> trace[0].query == q)
    && (forall i :: 0 <= i < |trace| - 1 ==> GivenUp(t, q, trace[i], n + i) && Follows(t, trace[i], trace[i+1].query))
    && Ends(w, t, q, n, trace, result)
  }

  /** How a run ends: with an attempt that may not be given up, or with a refusal to lease again. */
  ghost predicate Ends(w: World, t: Table, q: Query, n: nat, trace: seq<Attempt>, result: Result) {
    if trace == [] then result.Unserved? && w.acquire(n, q) == Acquired.Refused(result.code)
    else
      var last := trace[|trace|-1];
      if GivenUp(t, q, last, n + |trace| - 1)
      then result.Unserved? && exists next :: Follows(t, last, next) && w.acquire(n + |trace|, next) == Acquired.Refused(result.code)
      else result == Served(last.target, last.reply)
  }

  /** The trace and the answer are those of the run that the environment dictates. */
  lemma {:induction false} AttemptsHappen(w: World, t: Table, q: Query, n: nat)
    requires Admissible(w, t)
    ensures var limit := AttemptLimit(t.cfg, q); Attempted(w, t, q, n, Attempts(w, t, q, n, limit), Settled(w, t, q, n, limit))
    decreases AttemptLimit(t.cfg, q) - n
  {
    hide ReasonAt, SafeToReplay, Admissible, Attempts, Settled, ProvenUnsubmitted, AttemptLimit, Allows, Happened, Ends, Follows, GivenUp;
    var limit := AttemptLimit(t.cfg, q);
    Unfold(w, t, q, n, limit);
    if w.acquire(n, q).Refused? {
      RefusedEnds(w, t, q, n);
    } else {
      var a := AttemptOf(w, q, n);
      AttemptHappens(w, t, q, n);
      FirstIs(w, t, q, n, a);
      if Replayed(t, a, n, limit) {
        var next := After(t, a);
        AfterFollows(t, a);
        SameLimit(t, a, q);
        ReplayedRoom(t, a, n, limit);
        AttemptsHappen(w, t, next, n + 1);
        Prepended(w, t, q, n, a, next, Attempts(w, t, next, n + 1, limit), Settled(w, t, next, n + 1, limit));
      }
    }
  }

  lemma ReplayedRoom(t: Table, a: Attempt, n: nat, limit: int)
    requires Placed(t, a.target) && Replayed(t, a, n, limit)
    ensures n + 1 < limit
  {
  }

  lemma RefusedEnds(w: World, t: Table, q: Query, n: nat)
    requires w.acquire(n, q).Refused?
    ensures Ends(w, t, q, n, [], Unserved(w.acquire(n, q).code))
  {
  }

  lemma AttemptHappens(w: World, t: Table, q: Query, n: nat)
    requires Admissible(w, t) && w.acquire(n, q).Leased?
    ensures Happened(w, t, n, AttemptOf(w, q, n)) && Placed(t, AttemptOf(w, q, n).target)
  {
    assert LeaseAdmits(t, q, w.acquire(n, q));
  }

  lemma FirstIs(w: World, t: Table, q: Query, n: nat, a: Attempt)
    requires Placed(t, a.target)
    ensures Replayed(t, a, n, AttemptLimit(t.cfg, q)) <==> GivenUp(t, q, a, n)
    ensures !GivenUp(t, q, a, n) ==> Ends(w, t, q, n, [a], Served(a.target, a.reply))
  {
    hide AttemptLimit, Allows, ProvenUnsubmitted, Replayed;
    AllowsIff(t.cfg, q, n + 2);
    ReplayedIff(t, a, n, AttemptLimit(t.cfg, q));
  }

  lemma SameLimit(t: Table, a: Attempt, q: Query)
    requires Placed(t, a.target) && a.query == q
    ensures AttemptLimit(t.cfg, After(t, a)) == AttemptLimit(t.cfg, q)
  {
  }

  lemma SamePolicy(t: Table, a: Attempt, next: Query)
    requires Follows(t, a, next)
    ensures forall n :: Allows(t.cfg, next, n) == Allows(t.cfg, a.query, n)
  {
  }

  lemma Prepended(w: World, t: Table, q: Query, n: nat, a: Attempt, next: Query, rest: seq<Attempt>, result: Result)
    requires a.query == q && Happened(w, t, n, a) && GivenUp(t, q, a, n) && Follows(t, a, next)
    requires Attempted(w, t, next, n + 1, rest, result)
    ensures Attempted(w, t, q, n, [a] + rest, result)
  {
    hide Allows, Happened, Follows, ProvenUnsubmitted;
    SamePolicy(t, a, next);
    var trace := [a] + rest;
    assert forall i :: 0 < i < |trace| ==> trace[i] == rest[i-1];
    forall i | 0 < i < |trace| ensures Happened(w, t, n + i, trace[i]) {
      assert Happened(w, t, n + 1 + (i - 1), rest[i-1]);
    }
    forall i | 0 < i < |trace| - 1 ensures GivenUp(t, q, trace[i], n + i) && Follows(t, trace[i], trace[i+1].query) {
      assert GivenUp(t, next, rest[i-1], n + 1 + (i - 1)) && Follows(t, rest[i-1], rest[i].query);
    }
    if rest == [] {
      assert trace[|trace|-1] == a;
      assert Follows(t, a, next) && w.acquire(n + |trace|, next) == Acquired.Refused(result.code);
    } else {
      assert trace[|trace|-1] == rest[|rest|-1];
    }
  }

  /** Retry safety: every attempt is within what the policy allows, no source is used twice, and an attempt
      is given up for another one exactly when it was provably not accepted upstream and one more is allowed. */
  lemma RetrySafety(w: World, t: Table, q: Query)
    requires Admissible(w, t)
    ensures var trace, result := Attempts(w, t, q, 0, AttemptLimit(t.cfg, q)), Settled(w, t, q, 0, AttemptLimit(t.cfg, q));
      Attempted(w, t, q, 0, trace, result) && AllPlaced(t, trace) && Distinct(t, trace) && Allows(t.cfg, q, |trace|)
  {
    hide Attempts, Settled, Admissible, AttemptLimit, Allows, Attempted;
    AttemptsHappen(w, t, q, 0);
    AttemptsDistinct(w, t, q, 0, AttemptLimit(t.cfg, q));
    AllowsIff(t.cfg, q, |Attempts(w, t, q, 0, AttemptLimit(t.cfg, q))|);
  }

  /** A release reports the status and cooldown of the reply, 502 for a call that failed. */
  predicate Reports(e: Event, a: Attempt) {
    match a.reply
    case Failed(_) => e == Freed(a.target, 502, 0)
    case Answered(status, retryAfter) => e == Freed(a.target, status, retryAfter)
  }

  /** Takes and releases alternate, with the status and cooldown of each reply; only the attempt that is
      handed out stays taken. */
  lemma {:induction false} LedgerMeans(trace: seq<Attempt>, served: bool, i: nat)
    requires i < |trace|
    ensures var ledger, a := Ledger(trace, served), trace[i];
      && |ledger| == 2 * |trace| - (if served then 1 else 0)
      && ledger[2*i] == Took(a.target)
      && (2 * i + 1 == |ledger| <==> served && i == |trace| - 1)
      && (2 * i + 1 < |ledger| ==> Reports(ledger[2*i+1], a))
  {
    if |trace| > 1 {
      var rest := trace[1..];
      assert trace == [trace[0]] + rest;
      LedgerSplit(trace[0], rest, served);
      LedgerMeans(rest, served, if i == 0 then 0 else i - 1);
      assert i > 0 ==> trace[i] == rest[i-1];
      Later([Took(trace[0].target), FreedBy(trace[0])], Ledger(rest, served), 2 * i);
    }
  }

  lemma Later<T>(a: seq<T>, b: seq<T>, k: nat)
    requires |a| == 2
    ensures 2 <= k < |a + b| ==> (a + b)[k] == b[k-2]
    ensures 2 <= k + 1 < |a + b| ==> (a + b)[k+1] == b[k-1]
  {
  }

  // ----- the budget -----

  /** The estimated cost of the attempts that reached an upstream. */
  function Charged(t: Table, trace: seq<Attempt>): real {
    if trace == [] then 0.0 else (if Placed(t, trace[0].target) then Fee(t, trace[0]) else 0.0) + Charged(t, trace[1..])
  }

  ghost predicate Budgeted(t: Table, q: Query, budget: real) {
    var group := if "auto/" <= q.model then "auto" else q.model;
    group in t.cfg.groups && t.cfg.groups[group].maxUSDPerRequest == Some(budget)
  }

  lemma FeeIsCost(t: Table, a: Attempt)
    requires Placed(t, a.target)
    ensures Fee(t, a) == if a.reply.Answered? then Cost(t, a.target, a.query) else 0.0
  {
  }

  lemma AdmissionIsAffordable(w: World, t: Table, q: Query, n: nat, budget: real)
    requires Admissible(w, t) && w.acquire(n, q).Leased? && Budgeted(t, q, budget) && Compiled(t)
    ensures Placed(t, w.acquire(n, q).target)
    ensures q.spentUSD >= 0.0 && q.spentUSD + Cost(t, w.acquire(n, q).target, q) <= budget
    ensures Cost(t, w.acquire(n, q).target, q) >= 0.0
  {
    var a := w.acquire(n, q);
    assert LeaseAdmits(t, q, a);
    AffordableShape(t.cfg, SourceAt(t, a.target), t.targets[a.target].model, a.enabled, a.blocked, q, budget);
    TargetModelValid(t, a.target);
    CostNonnegative(t.targets[a.target].model, q);
  }

  lemma AffordableShape(c: Config, s: Source, m: Model, enabled: bool, blocked: bool, q: Query, budget: real)
    requires Eligible(c, s, m, enabled, blocked, q) == Admitted
    requires Key(q.model) in c.groups && c.groups[Key(q.model)].maxUSDPerRequest == Some(budget)
    ensures EstimatedRequestCost(m, q).Some? && q.spentUSD >= 0.0 && q.spentUSD + EstimatedRequestCost(m, q).value <= budget
  {
  }

  lemma TargetModelValid(t: Table, idx: nat)
    requires Compiled(t) && Placed(t, idx)
    ensures ValidModel(t.targets[idx].model)
  {
    TargetIsListed(t.cfg, |t.cfg.sources|, idx);
    var s := t.cfg.sources[t.targets[idx].source];
    assert ValidSource(t.cfg, s);
  }

  lemma {:induction false} TargetIsListed(c: Config, n: nat, k: nat)
    requires n <= |c.sources| && k < |TargetTable(c, n)|
    ensures TargetTable(c, n)[k].source < n && TargetTable(c, n)[k].model in c.sources[TargetTable(c, n)[k].source].models
  {
    if n > 0 && k < |TargetTable(c, n - 1)| {
      TargetIsListed(c, n - 1, k);
    }
  }

  lemma CostNonnegative(m: Model, q: Query)
    requires ValidModel(m)
    ensures EstimatedRequestCost(m, q).Some? ==> EstimatedRequestCost(m, q).value >= 0.0
  {
    if EstimatedRequestCost(m, q).Some? {
      Product(q.bytes as real / 1000000.0, m.inputUSD.value);
      Product(q.outputTokens as real / 1000000.0, m.outputUSD.value);
    }
  }

  lemma Product(a: real, b: real)
    requires a >= 0.0 && b >= 0.0
    ensures a * b >= 0.0
  {
  }

  /** A request never costs more than its group allows: the attempts that reached an upstream,
      the last one included, stay within the budget together. */
  lemma {:induction false} AttemptsWithinBudget(w: World, t: Table, q: Query, n: nat, limit: int, budget: real)
    requires Admissible(w, t) && Budgeted(t, q, budget) && Compiled(t)
    ensures var trace := Attempts(w, t, q, n, limit); trace != [] ==> q.spentUSD + Charged(t, trace) <= budget
    decreases limit - n
  {
    hide ReasonAt, SafeToReplay, Admissible, Attempts, Compiled, Cost, Fee;
    Unfold(w, t, q, n, limit);
    if w.acquire(n, q).Leased? {
      AdmissionIsAffordable(w, t, q, n, budget);
      var a := AttemptOf(w, q, n);
      FeeIsCost(t, a);
      assert Charged(t, [a]) == Fee(t, a) + Charged(t, []);
      if Replayed(t, a, n, limit) {
        var next := After(t, a);
        var rest := Attempts(w, t, next, n + 1, limit);
        AttemptsWithinBudget(w, t, next, n + 1, limit, budget);
        assert ([a] + rest)[1..] == rest;
      }
    }
  }
}
