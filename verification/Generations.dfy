/** Runtime generations: requests pin one, a publish retires the current one, and whoever drops the
    last reference of a retired one closes its server. Deciding to close happens under the mutex,
    closing itself after it is released. */
module Generations {
  import opened Policy
  import opened Counters

  /** `doomed` counts decisions to close the server, `closes` the calls that have run. */
  datatype Generation = Generation(refs: int, retired: bool, doomed: nat, closes: nat)

  /** `holders` says which generation each running request pinned. */
  datatype Plane = Plane(generations: seq<Generation>, current: nat, closed: bool, holders: map<nat, Option<nat>>)

  datatype Step = Acquire(request: nat) | Release(request: nat) | Publish | Shutdown | RunClose(generation: nat)

  const FRESH := Generation(0, false, 0, 0)

  function Start(): Plane { Plane([FRESH], 0, false, map[]) }

  predicate Enabled(s: Plane, step: Step) {
    s.current < |s.generations| &&
    match step
    case Acquire(request) => request !in s.holders
    case Release(request) => request in s.holders && s.holders[request].Some? && s.holders[request].value < |s.generations|
    case Publish => !s.closed
    case Shutdown => true
    case RunClose(g) => g < |s.generations| && s.generations[g].closes < s.generations[g].doomed
  }

  /** Retire a generation; with nobody holding it, it is to be closed at once. */
  function Retired(g: Generation): Generation {
    g.(retired := true, doomed := if g.refs == 0 then g.doomed + 1 else g.doomed)
  }

  function Dropped(g: Generation): Generation {
    var left := g.(refs := g.refs - 1);
    if left.retired && left.refs == 0 then left.(doomed := left.doomed + 1) else left
  }

  function Next(s: Plane, step: Step): Plane
    requires s.current < |s.generations| && (!step.Publish? ==> Enabled(s, step))
  {
    match step
    case Acquire(request) =>
      if s.closed then s
      else
        var g := s.generations[s.current];
        s.(generations := s.generations[s.current := g.(refs := g.refs + 1)], holders := s.holders[request := Some(s.current)])
    case Release(request) =>
      var g := s.holders[request].value;
      s.(generations := s.generations[g := Dropped(s.generations[g])], holders := s.holders - {request})
    case Publish =>
      s.(generations := s.generations[s.current := Retired(s.generations[s.current])] + [FRESH], current := |s.generations|)
    case Shutdown =>
      if s.closed then s
      else s.(generations := s.generations[s.current := Retired(s.generations[s.current])], closed := true)
    case RunClose(g) =>
      s.(generations := s.generations[g := s.generations[g].(closes := s.generations[g].closes + 1)])
  }

  ghost function Refs(gs: seq<Generation>): seq<int> { seq(|gs|, i requires 0 <= i < |gs| => gs[i].refs) }

  /** The lifecycle of one generation: it is to be closed, once, exactly when it is retired and
      nobody holds it. */
  ghost predicate Lifecycle(g: Generation) {
    g.refs >= 0 && g.doomed == (if g.retired && g.refs == 0 then 1 else 0) && g.closes <= g.doomed
  }

  ghost predicate Inv(s: Plane) {
    && s.current < |s.generations|
    && Counts(Refs(s.generations), s.holders)
    && (forall r :: r in s.holders ==> s.holders[r].Some?)
    && (forall g :: 0 <= g < |s.generations| ==> Lifecycle(s.generations[g]))
    && (forall g :: 0 <= g < |s.generations| ==> (s.generations[g].retired <==> g != s.current || s.closed))
  }

  lemma StartOk()
    ensures Inv(Start())
  {
    assert On(map[], 0) == {};
  }

  lemma AcquireKeeps(s: Plane, request: nat)
    requires Inv(s) && Enabled(s, Acquire(request))
    ensures var kept := Inv(Next(s, Acquire(request))); kept
  {
    if !s.closed {
      var s' := Next(s, Acquire(request));
      Take(Refs(s.generations), s.holders, request, Some(s.current));
      assert Refs(s'.generations) == Plus(Refs(s.generations), Some(s.current), 1);
    }
  }

  lemma ReleaseKeeps(s: Plane, request: nat)
    requires Inv(s) && Enabled(s, Release(request))
    ensures var kept := Inv(Next(s, Release(request))); kept
  {
    var s', g := Next(s, Release(request)), s.holders[request].value;
    assert request in On(s.holders, g);
    GiveBack(Refs(s.generations), s.holders, request);
    assert Refs(s'.generations) == Plus(Refs(s.generations), Some(g), -1);
    assert s.generations[g].refs == |On(s.holders, g)| >= 1;
  }

  lemma PublishKeeps(s: Plane)
    requires Inv(s) && !s.closed
    ensures var kept := Inv(Next(s, Publish)); kept
  {
    var s' := Next(s, Publish);
    Grow(Refs(s.generations), s.holders, [0]);
    assert Refs(s'.generations) == Refs(s.generations) + [0];
  }

  lemma ShutdownKeeps(s: Plane)
    requires Inv(s)
    ensures var kept := Inv(Next(s, Shutdown)); kept
  {
    assert Refs(Next(s, Shutdown).generations) == Refs(s.generations);
  }

  lemma RunCloseKeeps(s: Plane, g: nat)
    requires Inv(s) && Enabled(s, RunClose(g))
    ensures var kept := Inv(Next(s, RunClose(g))); kept
  {
    assert Refs(Next(s, RunClose(g)).generations) == Refs(s.generations);
  }

  lemma StepKeeps(s: Plane, step: Step)
    requires Inv(s) && Enabled(s, step)
    ensures var kept := Inv(Next(s, step)); kept
  {
    hide Inv, Next;
    match step
    case Acquire(request) => AcquireKeeps(s, request);
    case Release(request) => ReleaseKeeps(s, request);
    case Publish => PublishKeeps(s);
    case Shutdown => ShutdownKeeps(s);
    case RunClose(g) => RunCloseKeeps(s, g);
  }

  /** What a step does to the requests and the generations; how many hold a generation and whether it is to
      be closed follow from the invariant. */
  lemma StepMeans(s: Plane, step: Step)
    requires Inv(s) && Enabled(s, step)
    ensures var s' := Next(s, step);
      && (step.Acquire? ==> s'.holders == if s.closed then s.holders else s.holders[step.request := Some(s.current)])
      && (step.Release? ==> s'.holders == s.holders - {step.request})
      && (!step.Acquire? && !step.Release? ==> s'.holders == s.holders)
      && s'.current == (if step.Publish? then |s.generations| else s.current)
      && |s'.generations| == |s.generations| + (if step.Publish? then 1 else 0)
      && (s'.closed <==> s.closed || step.Shutdown?)
      && (forall g :: 0 <= g < |s.generations| ==>
            && s'.generations[g].closes == s.generations[g].closes + (if step == RunClose(g) then 1 else 0)
            && (s'.generations[g].retired <==> s.generations[g].retired || (g == s.current && (step.Publish? || step.Shutdown?))))
  {
  }

  ghost predicate IsRun(trace: seq<Plane>, steps: seq<Step>) {
    && |trace| == |steps| + 1 && trace[0] == Start()
    && (forall i :: 0 <= i < |steps| ==> Enabled(trace[i], steps[i]) && trace[i+1] == Next(trace[i], steps[i]))
  }

  lemma {:induction false} RunKeeps(trace: seq<Plane>, steps: seq<Step>, i: nat)
    requires IsRun(trace, steps) && i < |trace|
    ensures Inv(trace[i])
  {
    hide Inv, Next;
    if i == 0 {
      StartOk();
    } else {
      RunKeeps(trace, steps, i - 1);
      StepKeeps(trace[i-1], steps[i-1]);
    }
  }

  /** In every run: a server that was closed, or is about to be, has no request holding it; it is
      closed at most once; a retired one without holders is already being closed; and the current
      one is open until shutdown. */
  lemma GenerationsAreSafe(trace: seq<Plane>, steps: seq<Step>, i: nat, g: nat)
    requires IsRun(trace, steps) && i < |trace| && g < |trace[i].generations|
    ensures var s := trace[i]; var x := s.generations[g];
      && (x.closes > 0 || x.doomed > 0 ==> On(s.holders, g) == {})
      && x.closes <= x.doomed <= 1
      && (x.doomed == 1 <==> x.retired && On(s.holders, g) == {})
      && (g == s.current && !s.closed ==> x.doomed == 0 && x.closes == 0)
  {
    hide IsRun;
    RunKeeps(trace, steps, i);
    var s := trace[i];
    assert Refs(s.generations)[g] == |On(s.holders, g)|;
    assert Lifecycle(s.generations[g]);
    if s.generations[g].refs == 0 {
      assert On(s.holders, g) == {};
    }
  }

  /** A request runs on an open server: the generation it pinned has not been closed. */
  lemma HeldIsOpen(trace: seq<Plane>, steps: seq<Step>, i: nat, request: nat)
    requires IsRun(trace, steps) && i < |trace| && request in trace[i].holders
    ensures trace[i].holders[request].Some? && trace[i].holders[request].value < |trace[i].generations|
    ensures trace[i].generations[trace[i].holders[request].value].closes == 0
  {
    RunKeeps(trace, steps, i);
    var g := trace[i].holders[request].value;
    assert request in On(trace[i].holders, g);
    GenerationsAreSafe(trace, steps, i, g);
  }

  /** Publishing keeps the lifecycle exactly while the plane is open: after shutdown it would close
      the old server twice when nobody holds it, and leave a new one that nothing will ever close. */
  lemma PublishSafeIff(s: Plane)
    requires Inv(s)
    ensures Inv(Next(s, Publish)) <==> !s.closed
    ensures s.closed && s.generations[s.current].refs == 0 ==> Next(s, Publish).generations[s.current].doomed == 2
  {
    if !s.closed {
      PublishKeeps(s);
    } else {
      var s' := Next(s, Publish);
      assert s'.generations[s'.current] == FRESH;
    }
  }

  // ----- the control plane -----

  class ControlPlane {
    var generations: seq<Generation>
    var current: nat
    var closed: bool
    ghost var holders: map<nat, Option<nat>>

    ghost function Value(): Plane
      reads this
    {
      Plane(generations, current, closed, holders)
    }

    constructor ()
      ensures Value() == Start()
    {
      generations, current, closed, holders := [FRESH], 0, false, map[];
    }

    /** The pinned generation, or none once the plane is closed. */
    method Pin(ghost request: nat) returns (g: Option<nat>)
      requires Enabled(Value(), Acquire(request))
      modifies this
      ensures Value() == Next(old(Value()), Acquire(request))
      ensures g == if old(closed) then None else Some(old(current))
    {
      if closed {
        return None;
      }
      g := Some(current);
      generations := generations[current := generations[current].(refs := generations[current].refs + 1)];
      holders := holders[request := g];
    }

    /** Whether the caller must close the server, after it left the mutex. */
    method Unpin(ghost request: nat, g: nat) returns (closeIt: bool)
      requires Enabled(Value(), Release(request)) && holders[request] == Some(g)
      modifies this
      ensures Value() == Next(old(Value()), Release(request))
      ensures closeIt <==> generations[g].doomed > old(generations)[g].doomed
    {
      var x := generations[g].(refs := generations[g].refs - 1);
      closeIt := x.retired && x.refs == 0;
      generations := generations[g := if closeIt then x.(doomed := x.doomed + 1) else x];
      holders := holders - {request};
    }

    method RetireCurrent() returns (closeIt: bool)
      requires current < |generations|
      modifies this`generations
      ensures generations == old(generations)[current := Retired(old(generations)[current])]
      ensures closeIt <==> old(generations)[current].refs == 0
    {
      var old_ := generations[current];
      closeIt := old_.refs == 0;
      generations := generations[current := old_.(retired := true, doomed := if closeIt then old_.doomed + 1 else old_.doomed)];
    }

    method Install() returns (closeOld: bool)
      requires current < |generations|
      modifies this
      ensures Value() == Next(old(Value()), Publish)
      ensures closeOld <==> old(generations)[old(current)].refs == 0
    {
      closeOld := RetireCurrent();
      generations, current := generations + [FRESH], |generations|;
    }

    method Close() returns (closeIt: bool)
      requires current < |generations|
      modifies this
      ensures Value() == Next(old(Value()), Shutdown)
      ensures closeIt <==> !old(closed) && old(generations)[old(current)].refs == 0
    {
      if closed {
        return false;
      }
      closed := true;
      closeIt := RetireCurrent();
    }
  }

  /** Opening, shutting down and then publishing dooms the first server twice. */
  lemma PublishAfterShutdown()
    ensures var s := Next(Start(), Shutdown);
      Inv(s) && Next(s, Publish).generations[0].doomed == 2 && !Next(s, Publish).generations[1].retired
  {
    StartOk();
    ShutdownKeeps(Start());
  }
}
