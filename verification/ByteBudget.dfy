/** The shared byte budget: every request reserves before it buffers and gives back on every way out.
    A step is one atomic access to the shared counter; reserving is a load and a compare-and-swap. */
module ByteBudget {
  import opened Policy

  datatype Limits = Limits(budget: int, body: nat, stream: nat)

  datatype Purpose = Body | Stream | Capture | Check

  const CHECK_AMOUNT := 0x80_0000 // a source check reserves 8 MiB

  /** A reservation between its load and its swap. */
  datatype Attempt = Attempt(purpose: Purpose, amount: nat, seen: int)

  datatype Stage = Entered | Reserved | Inspected | Leased | Relaying | Checking

  /** One request, generating or checking a source. `defers` are the give-backs registered so far, run last to first on every exit. */
  datatype Request = Request(
    stage: Stage, size: nat, body: int, stream: int, capture: int, check: int, attempt: Option<Attempt>, capturing: bool,
    defers: seq<Purpose>, leaving: bool)

  datatype Ledger = Ledger(buffered: int, requests: seq<Request>)

  datatype Step =
    | Enter(size: nat)
    | EnterCheck
    | Load(request: nat, purpose: Purpose, amount: nat)
    | Swap(request: nat)
    | Shrink(request: nat, capacity: nat, length: nat)
    | Lease(request: nat)
    | StartRelay(request: nat, drop: bool)
    | Leave(request: nat)  // return or abort, anywhere
    | Unwind(request: nat) // run the next deferred give-back

  function Held(r: Request): int { r.body + r.stream + r.capture + r.check }

  function Sum(rs: seq<Request>): int { if rs == [] then 0 else Held(rs[0]) + Sum(rs[1..]) }

  /** Input and a possible rewritten copy, one byte over to detect an oversized body. */
  function BodyAmount(size: nat): nat { 2 * (size + 1) + 8192 }

  function Retained(capacity: nat, length: nat): nat { capacity + length + 8192 }

  // ----- steps -----

  predicate MayReserve(l: Limits, r: Request, purpose: Purpose, amount: nat) {
    match purpose
    case Body => r.stage == Entered && amount == BodyAmount(r.size)
    case Stream => r.stage == Inspected && Stream !in r.defers && amount == l.stream
    case Capture => r.stage == Relaying && r.capturing
    case Check => r.stage == Checking && r.defers == [] && amount == CHECK_AMOUNT
  }

  predicate Enabled(l: Limits, s: Ledger, step: Step) {
    match step
    case Enter(size) => size <= l.body
    case EnterCheck => true
    case Load(i, purpose, amount) =>
      i < |s.requests| && !s.requests[i].leaving && s.requests[i].attempt.None? && MayReserve(l, s.requests[i], purpose, amount)
    case Swap(i) => i < |s.requests| && s.requests[i].attempt.Some?
    case Shrink(i, capacity, length) =>
      i < |s.requests| && !s.requests[i].leaving && s.requests[i].stage == Reserved
      && length <= s.requests[i].size && capacity <= s.requests[i].size + 1
    case Lease(i) => i < |s.requests| && !s.requests[i].leaving && s.requests[i].attempt.None? && s.requests[i].stage == Inspected
    case StartRelay(i, _) => i < |s.requests| && !s.requests[i].leaving && s.requests[i].stage == Leased
    case Leave(i) => i < |s.requests| && !s.requests[i].leaving && s.requests[i].attempt.None?
    case Unwind(i) => i < |s.requests| && s.requests[i].leaving && s.requests[i].defers != []
  }

  /** A load that sees too little room refuses: the request leaves, or only stops capturing usage. */
  function Loaded(l: Limits, buffered: int, r: Request, purpose: Purpose, amount: nat): Request {
    if amount <= l.budget - buffered then r.(attempt := Some(Attempt(purpose, amount, buffered)))
    else if purpose == Capture then r.(capturing := false)
    else r.(leaving := true)
  }

  /** A swap that finds the counter changed is tried again from the load. */
  function Swapped(buffered: int, r: Request): (int, Request)
    requires r.attempt.Some?
  {
    var a, idle := r.attempt.value, r.(attempt := None);
    if buffered != a.seen then (buffered, idle)
    else
      (buffered + a.amount,
       match a.purpose
       case Body => idle.(body := r.body + a.amount, stage := Reserved, defers := r.defers + [Body])
       case Stream => idle.(stream := r.stream + a.amount, defers := r.defers + [Stream])
       case Capture => idle.(capture := r.capture + a.amount)
       case Check => idle.(check := r.check + a.amount, defers := r.defers + [Check]))
  }

  function Shrunk(r: Request, capacity: nat, length: nat): Request {
    var kept := Retained(capacity, length);
    r.(stage := Inspected, body := if kept < r.body then kept else r.body)
  }

  /** Run the last deferred give-back: it returns what its purpose holds at that time. */
  function Unwound(r: Request): Request
    requires r.defers != []
  {
    var rest := r.(defers := r.defers[..|r.defers|-1]);
    match r.defers[|r.defers|-1]
    case Body => rest.(body := 0)
    case Stream => rest.(stream := 0)
    case Capture => rest.(capture := 0)
    case Check => rest.(check := 0)
  }

  function Next(l: Limits, s: Ledger, step: Step): Ledger
    requires Enabled(l, s, step)
  {
    match step
    case Enter(size) => s.(requests := s.requests + [Request(Entered, size, 0, 0, 0, 0, None, true, [], false)])
    case EnterCheck => s.(requests := s.requests + [Request(Checking, 0, 0, 0, 0, 0, None, true, [], false)])
    case Load(i, purpose, amount) => s.(requests := s.requests[i := Loaded(l, s.buffered, s.requests[i], purpose, amount)])
    case Swap(i) => var (buffered, r) := Swapped(s.buffered, s.requests[i]); Ledger(buffered, s.requests[i := r])
    case Shrink(i, capacity, length) =>
      var kept := Retained(capacity, length);
      var r := s.requests[i];
      Ledger(if kept < r.body then s.buffered + (kept - r.body) else s.buffered, s.requests[i := Shrunk(r, capacity, length)])
    case Lease(i) => s.(requests := s.requests[i := s.requests[i].(stage := Leased, defers := s.requests[i].defers + [Capture])])
    case StartRelay(i, drop) =>
      var r := s.requests[i].(stage := Relaying);
      if drop then Ledger(s.buffered - r.body, s.requests[i := r.(body := 0)]) else s.(requests := s.requests[i := r])
    case Leave(i) => s.(requests := s.requests[i := s.requests[i].(leaving := true)])
    case Unwind(i) =>
      var r := s.requests[i];
      var amount := match r.defers[|r.defers|-1] case Body => r.body case Stream => r.stream case Capture => r.capture case Check => r.check;
      Ledger(s.buffered - amount, s.requests[i := Unwound(r)])
  }

  // ----- what every step keeps -----

  ghost predicate Distinct(ps: seq<Purpose>) { forall i, j :: 0 <= i < j < |ps| ==> ps[i] != ps[j] }

  /** Whatever a request holds, a deferred give-back for it is registered. */
  ghost predicate Accounted(l: Limits, r: Request) {
    && r.body >= 0 && r.stream >= 0 && r.capture >= 0 && r.check >= 0 && (r.check > 0 ==> Check in r.defers)
    && (r.body > 0 ==> Body in r.defers) && (r.stream > 0 ==> Stream in r.defers) && (r.capture > 0 ==> Capture in r.defers)
    && Distinct(r.defers)
    && (r.stage == Entered ==> r.defers == [])
    && (Capture in r.defers ==> r.stage in {Leased, Relaying})
    && (!r.leaving && r.stage in {Leased, Relaying} ==> Capture in r.defers)
    && (!r.leaving && r.stage == Reserved ==> r.body == BodyAmount(r.size))
    && (r.attempt.Some? ==> !r.leaving && r.attempt.value.amount <= l.budget - r.attempt.value.seen
                            && MayReserve(l, r, r.attempt.value.purpose, r.attempt.value.amount))
  }

  ghost predicate Inv(l: Limits, s: Ledger) {
    && s.buffered == Sum(s.requests) && 0 <= s.buffered <= l.budget
    && forall i :: 0 <= i < |s.requests| ==> Accounted(l, s.requests[i])
  }

  lemma {:induction false} SumUpdate(rs: seq<Request>, i: nat, r: Request)
    requires i < |rs|
    ensures Sum(rs[i := r]) == Sum(rs) - Held(rs[i]) + Held(r)
  {
    if i == 0 {
      assert rs[0 := r][1..] == rs[1..];
    } else {
      assert rs[i := r][1..] == rs[1..][i-1 := r];
      SumUpdate(rs[1..], i - 1, r);
    }
  }

  lemma {:induction false} SumSnoc(rs: seq<Request>, r: Request)
    ensures Sum(rs + [r]) == Sum(rs) + Held(r)
  {
    if rs == [] {
      assert rs + [r] == [r];
    } else {
      assert (rs + [r])[1..] == rs[1..] + [r];
      SumSnoc(rs[1..], r);
    }
  }

  lemma {:induction false} SumNonnegative(l: Limits, rs: seq<Request>)
    requires forall i :: 0 <= i < |rs| ==> Accounted(l, rs[i])
    ensures Sum(rs) >= 0
  {
    hide Accounted;
    if rs != [] {
      HeldNonnegative(l, rs[0]);
      SumNonnegative(l, rs[1..]);
    }
  }

  lemma HeldNonnegative(l: Limits, r: Request)
    requires Accounted(l, r)
    ensures Held(r) >= 0
  {
  }

  /** The body that was read fits the room that was reserved for it, so shrinking only gives back. */
  lemma ShrinkGivesBack(size: nat, capacity: nat, length: nat)
    requires length <= size && capacity <= size + 1
    ensures Retained(capacity, length) < BodyAmount(size)
  {
  }

  /** The request a step touches, after it. */
  function Touched(l: Limits, s: Ledger, step: Step): Request
    requires Enabled(l, s, step)
  {
    if step.Enter? || step.EnterCheck? then Next(l, s, step).requests[|s.requests|] else Next(l, s, step).requests[step.request]
  }

  /** The counter moves by what the touched request's holdings moved, and stays within the budget. */
  lemma CounterMoves(l: Limits, s: Ledger, step: Step)
    requires Inv(l, s) && Enabled(l, s, step)
    ensures Next(l, s, step).buffered - s.buffered
      == Held(Touched(l, s, step)) - if step.Enter? || step.EnterCheck? then 0 else Held(s.requests[step.request])
    ensures Next(l, s, step).buffered <= l.budget
  {
    hide Sum, Distinct, MayReserve;
    if !step.Enter? && !step.EnterCheck? {
      assert Accounted(l, s.requests[step.request]);
    }
  }

  /** The touched request stays accounted for. */
  lemma TouchedAccounted(l: Limits, s: Ledger, step: Step)
    requires Inv(l, s) && Enabled(l, s, step)
    ensures Accounted(l, Touched(l, s, step))
  {
    hide Sum, Unwound, Swapped;
    if !step.Enter? && !step.EnterCheck? {
      assert Accounted(l, s.requests[step.request]);
    }
    if step.Unwind? {
      UnwoundAccounted(l, s.requests[step.request]);
    } else if step.Swap? {
      SwappedAccounted(l, s.buffered, s.requests[step.request]);
    }
  }

  lemma SwappedAccounted(l: Limits, buffered: int, r: Request)
    requires Accounted(l, r) && r.attempt.Some?
    ensures Accounted(l, Swapped(buffered, r).1)
  {
  }

  lemma UnwoundAccounted(l: Limits, r: Request)
    requires Accounted(l, r) && r.leaving && r.defers != []
    ensures Accounted(l, Unwound(r))
  {
    hide Distinct, MayReserve;
    LastOff(r.defers);
  }

  lemma LastOff(ps: seq<Purpose>)
    requires ps != [] && Distinct(ps)
    ensures var rest := ps[..|ps|-1];
      Distinct(rest) && forall p :: p in rest <==> p in ps && p != ps[|ps|-1]
  {
    var n := |ps| - 1;
    assert ps == ps[..n] + [ps[n]];
  }

  lemma StepKeeps(l: Limits, s: Ledger, step: Step)
    requires Inv(l, s) && Enabled(l, s, step)
    ensures var kept := Inv(l, Next(l, s, step)); kept
  {
    hide Accounted, Sum, Held;
    TouchedAccounted(l, s, step);
    CounterMoves(l, s, step);
    var s' := Next(l, s, step);
    if step.Enter? || step.EnterCheck? {
      SumSnoc(s.requests, Touched(l, s, step));
    } else {
      assert s'.requests == s.requests[step.request := Touched(l, s, step)];
      SumUpdate(s.requests, step.request, Touched(l, s, step));
    }
    SumNonnegative(l, s'.requests);
  }

  /** After reading, a body keeps what its buffer and its copy take, and everything else that was reserved
      for it is back in the budget. */
  lemma ShrinkReturnsTheRest(l: Limits, s: Ledger, step: Step)
    requires Inv(l, s) && Enabled(l, s, step) && step.Shrink?
    ensures var r, s' := s.requests[step.request], Next(l, s, step);
      && s'.requests[step.request].body == step.capacity + step.length + 8192 && s'.requests[step.request].stage == Inspected
      && s'.buffered == s.buffered - (2 * (r.size + 1) - step.capacity - step.length) < s.buffered
  {
    hide Sum, Distinct, MayReserve;
    assert Accounted(l, s.requests[step.request]);
  }

  /** A relay that needs its body no more gives all of it back. */
  lemma RelayReturnsTheBody(l: Limits, s: Ledger, step: Step)
    requires Inv(l, s) && Enabled(l, s, step) && step.StartRelay?
    ensures var r, s' := s.requests[step.request], Next(l, s, step);
      && s'.requests[step.request].body == (if step.drop then 0 else r.body) && s'.requests[step.request].stage == Relaying
      && s'.buffered == s.buffered - if step.drop then r.body else 0
  {
  }

  /** A reservation is admitted exactly when it fits what is free at its load. One that fits and is not
      overtaken takes exactly its amount; one that does not changes no count and turns the request away, or
      ends its capture. */
  lemma AdmittedIffItFits(l: Limits, s: Ledger, step: Step)
    requires Inv(l, s) && Enabled(l, s, step) && step.Load?
    ensures var i, s1 := step.request, Next(l, s, step);
      && s1.buffered == s.buffered && Held(s1.requests[i]) == Held(s.requests[i])
      && (s1.requests[i].attempt.Some? <==> s.buffered + step.amount <= l.budget)
      && (s1.requests[i].attempt.None? ==> if step.purpose == Capture then !s1.requests[i].capturing else s1.requests[i].leaving)
      && (s1.requests[i].attempt.Some? ==>
            && Enabled(l, s1, Swap(i)) && s1.requests[i].leaving == s.requests[i].leaving
            && var s2 := Next(l, s1, Swap(i));
               s2.buffered == s.buffered + step.amount && Reserves(s.requests[i], s2.requests[i], step.purpose, step.amount))
  {
    hide Sum, MayReserve, Accounted;
  }

  /** The reservation is held under its own purpose, and the body's or the stream's give-back is registered. */
  predicate Reserves(r: Request, r': Request, purpose: Purpose, amount: nat) {
    && r'.body == r.body + (if purpose == Body then amount else 0)
    && r'.stream == r.stream + (if purpose == Stream then amount else 0)
    && r'.capture == r.capture + (if purpose == Capture then amount else 0)
    && r'.check == r.check + (if purpose == Check then amount else 0)
    && r'.attempt == None && r'.stage == (if purpose == Body then Reserved else r.stage)
    && r'.defers == (if purpose == Capture then r.defers else r.defers + [purpose])
  }

  /** A swap that was overtaken takes nothing and loads again. */
  lemma OvertakenLoadsAgain(l: Limits, s: Ledger, step: Step)
    requires Enabled(l, s, step) && step.Swap? && s.buffered != s.requests[step.request].attempt.value.seen
    ensures Next(l, s, step) == s.(requests := s.requests[step.request := s.requests[step.request].(attempt := None)])
  {
  }

  ghost predicate IsRun(l: Limits, trace: seq<Ledger>, steps: seq<Step>) {
    && l.budget >= 0 && |trace| == |steps| + 1 && trace[0] == Ledger(0, [])
    && (forall i :: 0 <= i < |steps| ==> Enabled(l, trace[i], steps[i]) && trace[i+1] == Next(l, trace[i], steps[i]))
  }

  /** In every interleaving the counter is the sum of what live requests hold, within the budget. */
  lemma {:induction false} LedgerBalances(l: Limits, trace: seq<Ledger>, steps: seq<Step>, i: nat)
    requires IsRun(l, trace, steps) && i < |trace|
    ensures Inv(l, trace[i])
  {
    hide Inv, Next, Enabled;
    if i == 0 {
      EmptyBalances(l);
    } else {
      LedgerBalances(l, trace, steps, i - 1);
      StepKeeps(l, trace[i-1], steps[i-1]);
    }
  }

  lemma EmptyBalances(l: Limits)
    requires l.budget >= 0
    ensures Inv(l, Ledger(0, []))
  {
  }

  predicate Gone(r: Request) { r.leaving && r.defers == [] }

  /** A request that has left holds nothing, however it left; when all have, the budget is whole. */
  lemma {:induction false} AllReturned(l: Limits, trace: seq<Ledger>, steps: seq<Step>, i: nat)
    requires IsRun(l, trace, steps) && i < |trace|
    ensures forall k :: 0 <= k < |trace[i].requests| && Gone(trace[i].requests[k]) ==> Held(trace[i].requests[k]) == 0
    ensures (forall k :: 0 <= k < |trace[i].requests| ==> Gone(trace[i].requests[k])) ==> trace[i].buffered == 0
  {
    LedgerBalances(l, trace, steps, i);
    var rs := trace[i].requests;
    forall k | 0 <= k < |rs| && Gone(rs[k]) ensures Held(rs[k]) == 0 {
      assert Accounted(l, rs[k]);
    }
    if forall k :: 0 <= k < |rs| ==> Gone(rs[k]) {
      SumOfNothing(rs);
    }
  }

  lemma {:induction false} SumOfNothing(rs: seq<Request>)
    requires forall k :: 0 <= k < |rs| ==> Held(rs[k]) == 0
    ensures Sum(rs) == 0
  {
    if rs != [] {
      SumOfNothing(rs[1..]);
    }
  }
}
