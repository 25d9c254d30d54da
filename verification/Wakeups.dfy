/** No lost wakeups and first-in-first-out service among requests that can run. */
module Wakeups {
  import opened Policy
  import opened Index
  import opened Selection
  import opened Choosing
  import opened Scheduler
  import opened Conservation
  import opened Steps

  /** A waiter that will run without further help: a buffered token, already out of its select,
      or its own context has ended. */
  predicate Alert(w: Waiter) { w.token || w.awake || w.cancelled }

  /** The first waiter that must be woken is alert. */
  ghost predicate FirstAlert(v: View, now: int, queue: seq<Waiter>)
    requires Shaped(v)
  {
    forall k :: 0 <= k < |queue| && Actionable(v, now, queue[k]) && (forall j :: 0 <= j < k ==> !Actionable(v, now, queue[j]))
      ==> Alert(queue[k])
  }

  ghost predicate NoLostWakeup(s: System)
    requires Formed(s)
  {
    FirstAlert(At(s, s.current), s.now, QueueOf(s, s.current)) && RetiredAlert(s)
  }

  ghost predicate AllAlert(queue: seq<Waiter>) { forall k :: 0 <= k < |queue| ==> Alert(queue[k]) }

  /** Everyone still queued on a retired router has been told to leave. */
  ghost predicate RetiredAlert(s: System) {
    forall r :: 0 <= r < |s.routers| && r != s.current ==> AllAlert(s.routers[r].queue)
  }

  // ----- signalling -----

  lemma {:induction false} SignalAlerts(v: View, now: int, queue: seq<Waiter>)
    requires Shaped(v)
    ensures FirstAlert(v, now, SignalQueue(v, now, queue))
  {
    hide Choose, Shaped;
    var q := SignalQueue(v, now, queue);
    if queue != [] {
      SignalAlerts(v, now, queue[1..]);
      if Actionable(v, now, queue[0]) {
        assert q[0] == queue[0].(token := true) && Actionable(v, now, q[0]);
      } else {
        var rest := SignalQueue(v, now, queue[1..]);
        assert q == [queue[0]] + rest;
        forall k | 0 <= k < |q| && Actionable(v, now, q[k]) && (forall j :: 0 <= j < k ==> !Actionable(v, now, q[j]))
          ensures Alert(q[k])
        {
          assert q[k] == rest[k-1];
          forall j | 0 <= j < k - 1
            ensures !Actionable(v, now, rest[j])
          {
            assert rest[j] == q[j+1];
          }
        }
      }
    }
  }

  lemma ViewIgnoresQueue(s: System, r: nat, queue: seq<Waiter>, at: nat)
    requires Inv(s) && r < |s.routers| && at < |s.routers| && Inv(SetQueue(s, r, queue))
    ensures At(SetQueue(s, r, queue), at) == At(s, at)
  {
    hide Conserved, Wired, Bounded, Sane, Shaped, LinkOk, CellsOk;
  }

  /** Signalling the current router re-establishes the property whatever happened before. */
  lemma SignalRestores(s: System)
    requires Inv(s) && RetiredAlert(s)
    ensures Inv(Signal(s, s.current)) && NoLostWakeup(Signal(s, s.current))
  {
    hide Conserved, Wired, Bounded, LinkOk, CellsOk, SignalQueue, FirstAlert, AllAlert;
    var v, queue := At(s, s.current), QueueOf(s, s.current);
    SignalKeeps(s, s.current);
    SignalAlerts(v, s.now, queue);
    ViewIgnoresQueue(s, s.current, SignalQueue(v, s.now, queue), s.current);
  }

  // ----- more load never makes a waiter actionable -----

  /** `v'` is `v` with counters raised, and nothing else that admission depends on changed. */
  ghost predicate Busier(v: View, v': View) {
    && v.table == v'.table && v.retired == v'.retired && v.active <= v'.active
    && |v.states| == |v'.states| && |v.quotas| == |v'.quotas| && |v.accounts| == |v'.accounts|
    && (forall i :: 0 <= i < |v.states| ==>
          v.states[i].active <= v'.states[i].active && v.states[i].cooldown == v'.states[i].cooldown
          && v.states[i].enabled == v'.states[i].enabled && v.states[i].blocked == v'.states[i].blocked)
    && (forall i :: 0 <= i < |v.quotas| ==>
          v.quotas[i].active <= v'.quotas[i].active && v.quotas[i].limit == v'.quotas[i].limit && v.quotas[i].cooldown == v'.quotas[i].cooldown)
    && (forall i :: 0 <= i < |v.accounts| ==> (v.accounts[i].Some? <==> v'.accounts[i].Some?))
    && (forall i :: 0 <= i < |v.accounts| && v.accounts[i].Some? ==>
          v.accounts[i].value.active <= v'.accounts[i].value.active && v.accounts[i].value.limit == v'.accounts[i].value.limit)
  }

  lemma BusierAvailable(v: View, v': View, q: Query, now: int, idx: nat)
    requires Shaped(v) && Shaped(v') && Busier(v, v') && Available(v', q, now, idx)
    ensures Available(v, q, now, idx)
  {
  }

  /** Dispatchability is monotone in load and eligibility does not depend on it. */
  lemma BusierChoice(v: View, v': View, q: Query, now: int)
    requires Sane(v) && Sane(v') && Shaped(v) && Shaped(v') && Busier(v, v')
    ensures Choose(v', q, now).best >= 0 ==> Choose(v, q, now).best >= 0
    ensures Choose(v', q, now).eligible == Choose(v, q, now).eligible
  {
    hide Sane, Shaped, Available, PoolAdmits, FullScan;
    BusierEligible(v, v', q);
    ChooseIffIndexed(v, q, now);
    ChooseIffIndexed(v', q, now);
    if Choose(v', q, now).best >= 0 {
      var idx :| idx in Candidates(v', q) && Available(v', q, now, idx);
      BusierAvailable(v, v', q, now, idx);
    }
  }

  lemma BusierEligible(v: View, v': View, q: Query)
    requires Shaped(v) && Shaped(v') && Busier(v, v')
    ensures AnyEligible(v, q) <==> AnyEligible(v', q)
  {
    forall i: nat | i < |v.table.targets|
      ensures Verdict(v, q, i) == Verdict(v', q, i)
    {
    }
  }

  lemma GrantBusier(s: System, idx: nat, q: Query)
    requires CanGrant(s, idx) && Grantable(s, s.routers[s.current].link, idx)
    requires Inv(Grant(s, s.current, idx, q))
    ensures Busier(At(s, s.current), At(Grant(s, s.current, idx, q), s.current))
  {
    hide Conserved, Wired, Sane, Shaped, Compiled;
  }

  // ----- the steps that do not signal -----

  lemma FirstAlertSame(v: View, v': View, now: int, now': int, queue: seq<Waiter>)
    requires Shaped(v) && Shaped(v') && FirstAlert(v, now, queue)
    requires forall k :: 0 <= k < |queue| ==> (Actionable(v, now, queue[k]) <==> Actionable(v', now', queue[k]))
    ensures FirstAlert(v', now', queue)
  {
    hide Actionable, Shaped;
  }

  /** Nobody in the queue can be served, so a grant to a newcomer changes no waiter's standing. */
  lemma GrantToNewcomer(s: System, idx: nat, q: Query)
    requires Inv(s) && CanGrant(s, idx) && Grantable(s, s.routers[s.current].link, idx) && NoLostWakeup(s)
    requires Turn(At(s, s.current), s.now, QueueOf(s, s.current), |QueueOf(s, s.current)|)
    ensures Inv(Grant(s, s.current, idx, q)) && NoLostWakeup(Grant(s, s.current, idx, q))
  {
    hide Conserved, Wired, Bounded, LinkOk, CellsOk, Sane, Shaped, Choose, FirstAlert, AllAlert, Busier;
    GrantKeeps(s, idx, q);
    var s' := Grant(s, s.current, idx, q);
    var v, v', queue := At(s, s.current), At(s', s.current), QueueOf(s, s.current);
    GrantBusier(s, idx, q);
    forall k | 0 <= k < |queue|
      ensures Actionable(v, s.now, queue[k]) <==> Actionable(v', s'.now, queue[k])
    {
      BusierChoice(v, v', queue[k].query, s.now);
    }
    FirstAlertSame(v, v', s.now, s'.now, queue);
  }

  lemma FirstAlertAppend(v: View, now: int, queue: seq<Waiter>, w: Waiter)
    requires Shaped(v) && FirstAlert(v, now, queue)
    requires Actionable(v, now, w) ==> exists j :: 0 <= j < |queue| && Actionable(v, now, queue[j])
    ensures FirstAlert(v, now, queue + [w])
  {
    hide Actionable, Shaped;
    var q := queue + [w];
    assert forall j :: 0 <= j < |queue| ==> q[j] == queue[j];
  }

  /** Changing one waiter's flags is harmless when it stays alert, or was not first in line. */
  lemma FirstAlertUpdate(v: View, now: int, queue: seq<Waiter>, k: nat, w: Waiter)
    requires Shaped(v) && FirstAlert(v, now, queue) && k < |queue| && w.query == queue[k].query
    requires w.cancelled == queue[k].cancelled || w.cancelled
    requires Alert(w) || !Actionable(v, now, queue[k]) || exists j :: 0 <= j < k && Actionable(v, now, queue[j])
    requires !Alert(w) ==> w.cancelled == queue[k].cancelled
    ensures FirstAlert(v, now, queue[k := w])
  {
    hide Choose, Shaped;
    var q := queue[k := w];
    forall i | 0 <= i < |q| && Actionable(v, now, q[i]) && (forall j :: 0 <= j < i ==> !Actionable(v, now, q[j]))
      ensures Alert(q[i])
    {
      assert forall j :: 0 <= j < |queue| && j != k ==> q[j] == queue[j];
      assert Actionable(v, now, queue[k]) ==> Actionable(v, now, q[k]);
    }
  }

  // ----- step by step -----

  ghost predicate Calm(s: System) { Inv(s) && NoLostWakeup(s) }

  lemma EditWaiter(s: System, r: nat, k: nat, w: Waiter)
    requires Calm(s) && r < |s.routers| && k < |QueueOf(s, r)|
    requires w.query == QueueOf(s, r)[k].query && w.thread == QueueOf(s, r)[k].thread
    requires w.cancelled == QueueOf(s, r)[k].cancelled || w.cancelled
    requires !Alert(w) ==> w.cancelled == QueueOf(s, r)[k].cancelled
    requires r != s.current ==> Alert(w)
    requires r != s.current || Alert(w) || !Actionable(At(s, r), s.now, QueueOf(s, r)[k])
      || exists j :: 0 <= j < k && Actionable(At(s, r), s.now, QueueOf(s, r)[j])
    ensures var kept := Calm(SetWaiter(s, r, k, w)); kept
  {
    hide Conserved, Wired, Bounded, LinkOk, CellsOk, Sane, Shaped, Actionable, FirstAlert;
    SetWaiterKeeps(s, r, k, w);
    var queue := QueueOf(s, r)[k := w];
    ViewIgnoresQueue(s, r, queue, s.current);
    if r == s.current {
      FirstAlertUpdate(At(s, r), s.now, QueueOf(s, r), k, w);
    }
  }

  /** Leaving passes the baton: afterwards the property holds even if it did not before. */
  lemma LeaveRestores(s: System, r: nat, k: nat)
    requires Inv(s) && RetiredAlert(s) && r < |s.routers| && k < |QueueOf(s, r)|
    requires r != s.current ==> NoLostWakeup(s)
    ensures var kept := Calm(Leave(s, r, k)); kept
  {
    hide Conserved, Wired, Bounded, LinkOk, CellsOk, Sane, Shaped, Actionable, FirstAlert, SignalQueue;
    WithoutKeeps(s, r, k);
    var s1 := SetQueue(s, r, Without(QueueOf(s, r), k));
    assert RetiredAlert(s1);
    if r == s.current {
      SignalRestores(s1);
    } else {
      SignalKeeps(s1, r);
      SignalQueueKeeps(At(s1, r), s.now, QueueOf(s1, r));
      var queue := SignalQueue(At(s1, r), s.now, QueueOf(s1, r));
      ViewIgnoresQueue(s, r, Without(QueueOf(s, r), k), s.current);
      ViewIgnoresQueue(s1, r, queue, s.current);
    }
  }

  lemma RetiredNeverStays(s: System, r: nat, q: Query, cancelled: bool, k: nat)
    requires Inv(s) && r < |s.routers| && r != s.current && k <= |QueueOf(s, r)|
    ensures Judge(s, r, q, cancelled, k).GiveUp?
  {
    hide Conserved, Wired, Bounded, LinkOk, CellsOk, Sane;
  }

  lemma ArriveCalm(s: System, r: nat, thread: nat, q: Query, cancelled: bool)
    requires Calm(s) && Enabled(s, Arrive(r, thread, q, cancelled))
    ensures var kept := Calm(Arrived(s, r, thread, q, cancelled)); kept
  {
    hide Conserved, Wired, LinkOk, CellsOk, Sane, Shaped, Choose, FirstAlert, Grant;
    var n := |QueueOf(s, r)|;
    match Judge(s, r, q, cancelled, n)
    case Granted(idx) =>
      JudgedGrantable(s, r, q, cancelled, n);
      GrantToNewcomer(s, idx, q);
    case GiveUp =>
    case Stay =>
      if r != s.current {
        RetiredNeverStays(s, r, q, cancelled, n);
      } else if n < s.routers[r].link.table.cfg.maxQueued {
        var w := Waiter(thread, q, false, false, false, s.now + RETRY_MS);
        ArriveKeeps(s, r, thread, q, cancelled);
        ViewIgnoresQueue(s, r, QueueOf(s, r) + [w], r);
        FirstAlertAppend(At(s, r), s.now, QueueOf(s, r), w);
      }
  }

  lemma ResumeCalm(s: System, r: nat, k: nat)
    requires Calm(s) && r < |s.routers| && k < |QueueOf(s, r)|
    ensures var kept := Calm(Resumed(s, r, k)); kept
  {
    hide Conserved, Wired, LinkOk, CellsOk, Sane, Shaped, Choose, FirstAlert, Grant, Leave, SetWaiter;
    var w := QueueOf(s, r)[k];
    match Judge(s, r, w.query, w.cancelled, k)
    case Granted(idx) =>
      JudgedGrantable(s, r, w.query, w.cancelled, k);
      GrantKeeps(s, idx, w.query);
      GrantRetired(s, idx, w.query);
      LeaveRestores(Grant(s, r, idx, w.query), r, k);
    case GiveUp =>
      LeaveRestores(s, r, k);
    case Stay =>
      if r != s.current {
        RetiredNeverStays(s, r, w.query, w.cancelled, k);
      } else {
        EditWaiter(s, r, k, w.(awake := false, deadline := s.now + RETRY_MS));
      }
  }

  lemma GrantRetired(s: System, idx: nat, q: Query)
    requires Inv(s) && RetiredAlert(s) && Grantable(s, s.routers[s.current].link, idx)
    ensures RetiredAlert(Grant(s, s.current, idx, q))
    ensures s.current < |Grant(s, s.current, idx, q).routers| && Grant(s, s.current, idx, q).current == s.current
    ensures QueueOf(Grant(s, s.current, idx, q), s.current) == QueueOf(s, s.current)
  {
    hide Conserved, Wired, Bounded, LinkOk, AllAlert;
  }

  lemma ReleaseCalm(s: System, id: nat, o: Outcome)
    requires Inv(s) && RetiredAlert(s) && o.elapsed >= 0.0 && id in s.leases
    ensures var kept := Calm(Released(s, id, o)); kept
  {
    hide Conserved, Wired, Bounded, LinkOk, CellsOk, Signal;
    ReleaseKeeps(s, id, o);
    SignalRestores(Returned(s, id, o));
  }

  lemma ToggleCalm(s: System, id: string, on: bool)
    requires Inv(s) && RetiredAlert(s) && id in Ids(s.routers[s.current].link.table.cfg.sources)
    ensures var kept := Calm(Toggled(s, id, on)); kept
  {
    hide Conserved, Wired, Bounded, LinkOk, CellsOk, Signal;
    SwitchKeeps(s, id, on);
    SwitchRange(s, id);
    SignalRestores(Switched(s, id, on));
  }

  lemma ToggleAnyCalm(s: System, id: string, on: bool)
    requires Calm(s)
    ensures var kept := Calm(Toggled(s, id, on)); kept
  {
    hide Conserved, Wired, Bounded, LinkOk, CellsOk, Signal, FirstAlert, Switched;
    if id in Ids(s.routers[s.current].link.table.cfg.sources) {
      ToggleCalm(s, id, on);
    }
  }

  lemma SwapRetired(s: System, table: Table)
    requires Inv(s) && RetiredAlert(s) && Adoptable(s, table)
    ensures RetiredAlert(Swapped(s, table))
  {
    hide Conserved, Wired, Bounded, LinkOk, CellsOk, Linked, Compiled;
    var s' := Swapped(s, table);
    forall r | 0 <= r < |s'.routers| && r != s'.current
      ensures AllAlert(s'.routers[r].queue)
    {
      if r == s.current {
        assert s'.routers[r].queue == WakeAll(s.routers[r].queue);
      }
    }
  }

  lemma AdoptCalm(s: System, table: Table)
    requires Inv(s) && RetiredAlert(s) && Adoptable(s, table)
    ensures var kept := Calm(Replaced(s, table)); kept
  {
    hide Conserved, Wired, Bounded, LinkOk, CellsOk, Swapped, Signal, RetiredAlert;
    SwapKeeps(s, table);
    SwapRetired(s, table);
    SignalRestores(Swapped(s, table));
  }

  // ----- time -----

  /** Moving the clock ends no cooldown that the current router looks at. */
  ghost predicate NoExpiry(s: System, now: int) {
    s.current < |s.routers| &&
    var k := s.routers[s.current].link;
    && (forall i :: 0 <= i < |k.stateRefs| && k.stateRefs[i] < |s.states| ==>
          (s.now < s.states[k.stateRefs[i]].cooldown <==> now < s.states[k.stateRefs[i]].cooldown))
    && (forall i :: 0 <= i < |k.quotaRefs| && k.quotaRefs[i] < |s.quotas| ==>
          (s.now < s.quotas[k.quotaRefs[i]].cooldown <==> now < s.quotas[k.quotaRefs[i]].cooldown))
  }

  lemma SteadyChoice(v: View, q: Query, now: int, now': int)
    requires Sane(v) && Shaped(v)
    requires forall i :: 0 <= i < |v.states| ==> (now < v.states[i].cooldown <==> now' < v.states[i].cooldown)
    requires forall i :: 0 <= i < |v.quotas| ==> (now < v.quotas[i].cooldown <==> now' < v.quotas[i].cooldown)
    ensures Choose(v, q, now).best >= 0 <==> Choose(v, q, now').best >= 0
    ensures Choose(v, q, now).eligible == Choose(v, q, now').eligible
  {
    hide Sane, Verdict;
    ChooseIffIndexed(v, q, now);
    ChooseIffIndexed(v, q, now');
    assert forall idx: nat :: Available(v, q, now, idx) <==> Available(v, q, now', idx);
  }

  lemma TickCalm(s: System, now: int)
    requires Calm(s) && NoExpiry(s, now)
    ensures var kept := Calm(s.(now := now)); kept
  {
    hide Conserved, Wired, Bounded, LinkOk, CellsOk, Sane, Shaped, Choose, FirstAlert, Compiled;
    TickKeeps(s, now);
    var s' := s.(now := now);
    var v, queue := At(s, s.current), QueueOf(s, s.current);
    assert At(s', s.current) == v;
    TickSteady(s, now);
    forall k | 0 <= k < |queue|
      ensures Actionable(v, s.now, queue[k]) <==> Actionable(v, now, queue[k])
    {
      SteadyChoice(v, queue[k].query, s.now, now);
    }
    FirstAlertSame(v, v, s.now, now, queue);
  }

  lemma TickSteady(s: System, now: int)
    requires Formed(s) && NoExpiry(s, now)
    ensures var v := At(s, s.current);
      && (forall i :: 0 <= i < |v.states| ==> (s.now < v.states[i].cooldown <==> now < v.states[i].cooldown))
      && (forall i :: 0 <= i < |v.quotas| ==> (s.now < v.quotas[i].cooldown <==> now < v.quotas[i].cooldown))
  {
    hide Sane, Shaped, Compiled;
  }

  /** No step loses a wakeup, as long as the clock does not end a cooldown. */
  lemma NextCalm(s: System, step: Step)
    requires Calm(s) && Enabled(s, step) && (step.Tick? ==> NoExpiry(s, step.now))
    ensures var kept := Calm(Next(s, step)); kept
  {
    hide Conserved, Wired, Bounded, Formed, Arrived, Resumed, SetWaiter, FirstAlert, RetiredAlert, Replaced;
    match step
    case Arrive(r, thread, q, cancelled) => ArriveCalm(s, r, thread, q, cancelled);
    case Wake(r, k, consume) =>
      var w := QueueOf(s, r)[k];
      EditWaiter(s, r, k, w.(awake := true, token := w.token && !consume));
    case Resume(r, k) => ResumeCalm(s, r, k);
    case Cancel(r, k) => EditWaiter(s, r, k, QueueOf(s, r)[k].(cancelled := true));
    case Release(id, o) =>
      if id in s.leases {
        ReleaseCalm(s, id, o);
      }
    case SetEnabled(id, on) =>
      ToggleAnyCalm(s, id, on);
    case Adopt(table) => AdoptCalm(s, table);
    case Tick(now) => TickCalm(s, now);
  }

  // ----- signals restore it -----

  /** Steps that signal the current router: giving a lease back, switching a known source, a hot
      swap, and leaving its queue with or without a lease. */
  ghost predicate Signals(s: System, step: Step) {
    && Inv(s) && Enabled(s, step)
    && match step
       case Release(id, _) => id in s.leases
       case SetEnabled(id, _) => id in Ids(s.routers[s.current].link.table.cfg.sources)
       case Adopt(_) => true
       case Resume(r, k) => r == s.current && !Judge(s, r, QueueOf(s, r)[k].query, QueueOf(s, r)[k].cancelled, k).Stay?
       case _ => false
  }

  /** The clock ends a cooldown that the current router looks at. */
  ghost predicate Expires(s: System, step: Step) { step.Tick? && !NoExpiry(s, step.now) }

  lemma SignalledLeave(s: System, k: nat)
    requires Inv(s) && RetiredAlert(s) && k < |QueueOf(s, s.current)|
    requires var w := QueueOf(s, s.current)[k]; !Judge(s, s.current, w.query, w.cancelled, k).Stay?
    ensures var kept := Calm(Resumed(s, s.current, k)); kept
  {
    hide Conserved, Wired, LinkOk, CellsOk, Sane, Shaped, Choose, FirstAlert, Grant, Leave, SetWaiter;
    var w := QueueOf(s, s.current)[k];
    match Judge(s, s.current, w.query, w.cancelled, k)
    case Granted(idx) =>
      JudgedGrantable(s, s.current, w.query, w.cancelled, k);
      GrantKeeps(s, idx, w.query);
      GrantRetired(s, idx, w.query);
      LeaveRestores(Grant(s, s.current, idx, w.query), s.current, k);
    case GiveUp =>
      LeaveRestores(s, s.current, k);
  }

  /** After a step that signals the current router nothing is lost, whatever was lost before. */
  lemma SignalStepCalm(s: System, step: Step)
    requires RetiredAlert(s) && Signals(s, step)
    ensures var kept := Calm(Next(s, step)); kept
  {
    hide Conserved, Wired, Bounded, Formed, Resumed, Released, Toggled, Replaced, FirstAlert, RetiredAlert, Judge;
    match step
    case Release(id, o) => ReleaseCalm(s, id, o);
    case SetEnabled(id, on) => ToggleCalm(s, id, on);
    case Adopt(table) => AdoptCalm(s, table);
    case Resume(_, k) => SignalledLeave(s, k);
  }

  // ----- retired queues -----

  lemma SetQueueRetired(s: System, r: nat, queue: seq<Waiter>)
    requires RetiredAlert(s) && r < |s.routers| && (r != s.current ==> AllAlert(queue))
    ensures RetiredAlert(SetQueue(s, r, queue))
  {
    hide AllAlert;
  }

  lemma SignalRetired(s: System, r: nat)
    requires Formed(s) && RetiredAlert(s) && r < |s.routers|
    ensures RetiredAlert(Signal(s, r))
  {
    hide Formed, SignalQueue;
    SignalQueueKeeps(At(s, r), s.now, QueueOf(s, r));
    SetQueueRetired(s, r, SignalQueue(At(s, r), s.now, QueueOf(s, r)));
  }

  lemma LeaveRetired(s: System, r: nat, k: nat)
    requires Inv(s) && RetiredAlert(s) && r < |s.routers| && k < |QueueOf(s, r)|
    ensures RetiredAlert(Leave(s, r, k))
  {
    hide Conserved, Wired, Bounded, Formed, Signal;
    WithoutKeeps(s, r, k);
    SetQueueRetired(s, r, Without(QueueOf(s, r), k));
    SignalRetired(SetQueue(s, r, Without(QueueOf(s, r), k)), r);
  }

  lemma ArriveRetired(s: System, r: nat, thread: nat, q: Query, cancelled: bool)
    requires Inv(s) && RetiredAlert(s) && Enabled(s, Arrive(r, thread, q, cancelled))
    ensures RetiredAlert(Arrived(s, r, thread, q, cancelled))
  {
    hide Conserved, Wired, Bounded, LinkOk, Judge, Grant, AllAlert;
    match Judge(s, r, q, cancelled, |QueueOf(s, r)|)
    case Granted(idx) =>
      JudgedGrantable(s, r, q, cancelled, |QueueOf(s, r)|);
      GrantRetired(s, idx, q);
    case GiveUp =>
    case Stay =>
      if r != s.current {
        RetiredNeverStays(s, r, q, cancelled, |QueueOf(s, r)|);
      } else {
        SetQueueRetired(s, r, QueueOf(s, r) + [Waiter(thread, q, false, false, false, s.now + RETRY_MS)]);
      }
  }

  lemma ResumeRetired(s: System, r: nat, k: nat)
    requires Inv(s) && RetiredAlert(s) && r < |s.routers| && k < |QueueOf(s, r)|
    ensures RetiredAlert(Resumed(s, r, k))
  {
    hide Conserved, Wired, Bounded, LinkOk, Judge, Grant, Leave, AllAlert;
    var w := QueueOf(s, r)[k];
    match Judge(s, r, w.query, w.cancelled, k)
    case Granted(idx) =>
      JudgedGrantable(s, r, w.query, w.cancelled, k);
      GrantKeeps(s, idx, w.query);
      GrantRetired(s, idx, w.query);
      LeaveRetired(Grant(s, r, idx, w.query), r, k);
    case GiveUp => LeaveRetired(s, r, k);
    case Stay =>
      if r != s.current {
        RetiredNeverStays(s, r, w.query, w.cancelled, k);
      } else {
        SetQueueRetired(s, r, QueueOf(s, r)[k := w.(awake := false, deadline := s.now + RETRY_MS)]);
      }
  }

  /** Everyone on a retired router stays told, through every step, expiring ticks included. */
  lemma NextRetired(s: System, step: Step)
    requires Inv(s) && RetiredAlert(s) && Enabled(s, step)
    ensures RetiredAlert(Next(s, step))
  {
    hide Conserved, Wired, Bounded, LinkOk, Arrived, Resumed, Released, Toggled, Replaced, FirstAlert, CellsOk;
    match step
    case Arrive(r, thread, q, cancelled) => ArriveRetired(s, r, thread, q, cancelled);
    case Resume(r, k) => ResumeRetired(s, r, k);
    case Wake(r, k, consume) =>
      SetQueueRetired(s, r, QueueOf(s, r)[k := QueueOf(s, r)[k].(awake := true, token := QueueOf(s, r)[k].token && !consume)]);
    case Cancel(r, k) => SetQueueRetired(s, r, QueueOf(s, r)[k := QueueOf(s, r)[k].(cancelled := true)]);
    case Release(id, o) => ReleaseRetired(s, id, o);
    case SetEnabled(id, on) => ToggleRetired(s, id, on);
    case Adopt(table) => AdoptCalm(s, table);
    case Tick(now) =>
  }

  lemma ReleaseRetired(s: System, id: nat, o: Outcome)
    requires Inv(s) && RetiredAlert(s) && o.elapsed >= 0.0
    ensures RetiredAlert(Released(s, id, o))
  {
    hide Conserved, Wired, Bounded, LinkOk, Signal, FirstAlert, AllAlert;
    if id in s.leases {
      ReleaseCalm(s, id, o);
    }
  }

  lemma ToggleRetired(s: System, id: string, on: bool)
    requires Inv(s) && RetiredAlert(s)
    ensures RetiredAlert(Toggled(s, id, on))
  {
    hide Conserved, Wired, Bounded, LinkOk, Signal, FirstAlert, AllAlert, Switched;
    if id in Ids(s.routers[s.current].link.table.cfg.sources) {
      ToggleCalm(s, id, on);
    }
  }

  /** The exception is real and has exactly this shape: when the clock ends a cooldown, a sleeping
      waiter without a token that can be served from then on, with nobody to wake before it, is not
      told. */
  lemma ExpiryTellsNobody(s: System, now: int, k: nat)
    requires Calm(s) && Enabled(s, Tick(now)) && k < |QueueOf(s, s.current)| && !Alert(QueueOf(s, s.current)[k])
    requires var v, queue := At(s, s.current), QueueOf(s, s.current);
      && Choose(v, queue[k].query, now).best >= 0 && forall j :: 0 <= j < k ==> !Actionable(v, now, queue[j])
    ensures !Calm(Next(s, Tick(now))) && Expires(s, Tick(now))
  {
    hide Conserved, Wired, Bounded, LinkOk, CellsOk, Sane, Shaped, Choose, Compiled, RetiredAlert;
    TickKeeps(s, now);
    var s', queue := s.(now := now), QueueOf(s, s.current);
    TickView(s, now);
    assert Actionable(At(s', s.current), now, queue[k]);
    if NoExpiry(s, now) {
      TickCalm(s, now);
    }
  }

  lemma TickView(s: System, now: int)
    requires Formed(s) && Formed(s.(now := now))
    ensures At(s.(now := now), s.current) == At(s, s.current)
  {
    hide Sane, Shaped, Compiled, LinkOk, CellsOk;
  }
}
