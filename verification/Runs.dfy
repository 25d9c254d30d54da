/** What holds in every state of every run of the scheduler. */
module Runs {
  import opened Policy
  import opened Index
  import opened Selection
  import opened Choosing
  import opened Counters
  import opened Scheduler
  import opened Conservation
  import opened Steps
  import opened Wakeups

  /** A run from a fresh router: every step is enabled where it is taken. A step is only defined on
      consistent states; that all states are consistent is what the theorems below establish. */
  ghost predicate IsRun(table: Table, now: int, trace: seq<System>, steps: seq<Step>) {
    && Compiled(table) && |trace| == |steps| + 1 && trace[0] == Init(table, now)
    && (forall i :: 0 <= i < |steps| ==> trace[i].current < |trace[i].routers| && Enabled(trace[i], steps[i]))
    && (forall i :: 0 <= i < |steps| && Inv(trace[i]) ==> trace[i+1] == Next(trace[i], steps[i]))
  }

  // ----- the initial state -----

  lemma EmptyLeasesCount(active: seq<int>, h: Holders, known: map<string, nat>, names: map<nat, string>)
    requires h == map[] && Injective(known) && forall id :: id in known ==> known[id] < |active|
    requires forall c :: 0 <= c < |active| ==> active[c] == 0
    ensures Counts(active, h) && Reachable(known, names, h, |active|)
  {
    forall c: nat ensures On(h, c) == {} {
    }
  }

  lemma InitConserves(table: Table, now: int)
    ensures var s := Init(table, now); Conserved(s) && CellsOk(s.states)
  {
    var s := Init(table, now);
    BroughtOk(0, table.cfg.sources);
    EmptyLeasesCount(StateActive(s.states), StateHolders(s.leases), s.stateOf, SourceNames(s.leases));
    EmptyLeasesCount(QuotaActive(s.quotas), QuotaHolders(s.leases), s.quotaOf, DomainNames(s.leases));
    EmptyLeasesCount(QuotaActive(s.accounts), AccountHolders(s.leases), s.accountOf, AccountNames(s.leases));
  }

  lemma InitOk(table: Table, now: int)
    requires Compiled(table)
    ensures var kept := Calm(Init(table, now)); kept
  {
    hide Conserved, Compiled, LinkOk, Linked, CellsOk, Choose, Sane, Shaped;
    var s := Init(table, now);
    InitConserves(table, now);
    BroughtOk(0, table.cfg.sources);
    LinkedOk(table, s.stateOf, s.quotaOf, s.accountOf, |s.states|, |s.quotas|, |s.accounts|);
    LinkedTable(table, s.stateOf, s.quotaOf, s.accountOf);
    EmptyQueueOk(table);
    InitCapacity(table);
  }

  lemma InitCapacity(table: Table)
    requires Compiled(table)
    ensures table.cfg.maxInflight >= 1
  {
  }

  // ----- every run -----

  /** All states of all runs are consistent, whatever the interleaving. */
  lemma {:induction false} RunKeeps(table: Table, now: int, trace: seq<System>, steps: seq<Step>, i: nat)
    requires IsRun(table, now, trace, steps) && i < |trace|
    ensures Inv(trace[i])
  {
    hide Inv, Init, Next, Enabled;
    if i == 0 {
      InitOk(table, now);
    } else {
      RunKeeps(table, now, trace, steps, i - 1);
      NextKeeps(trace[i-1], steps[i-1]);
    }
  }

  /** A counter looked up by id; an id that is not in the table counts nothing. */
  ghost function Active(known: map<string, nat>, active: seq<int>, id: string): int {
    if id in known && known[id] < |active| then active[known[id]] else 0
  }

  lemma SourceById(cells: seq<SourceState>, known: map<string, nat>, leases: Leases, id: string)
    requires StatesConserved(cells, known, leases)
    ensures |set l | l in leases && leases[l].source == id| == Active(known, StateActive(cells), id)
  {
    CountById(StateActive(cells), known, SourceNames(leases), StateHolders(leases), id);
    assert Under(SourceNames(leases), StateHolders(leases), id) == set l | l in leases && leases[l].source == id;
  }

  lemma DomainById(cells: seq<Quota>, known: map<string, nat>, leases: Leases, id: string)
    requires QuotasConserved(cells, known, leases)
    ensures |set l | l in leases && leases[l].domain == id| == Active(known, QuotaActive(cells), id)
  {
    CountById(QuotaActive(cells), known, DomainNames(leases), QuotaHolders(leases), id);
    assert Under(DomainNames(leases), QuotaHolders(leases), id) == set l | l in leases && leases[l].domain == id;
  }

  lemma AccountById(cells: seq<Quota>, known: map<string, nat>, leases: Leases, id: string)
    requires AccountsConserved(cells, known, leases)
    ensures |set l | l in leases && leases[l].accountRef.Some? && leases[l].account == id| == Active(known, QuotaActive(cells), id)
  {
    CountById(QuotaActive(cells), known, AccountNames(leases), AccountHolders(leases), id);
    assert Under(AccountNames(leases), AccountHolders(leases), id)
      == set l | l in leases && leases[l].accountRef.Some? && leases[l].account == id;
  }

  /** Capacity is conserved across hot updates: in every state of every run the global counter is
      the number of outstanding leases and within its limit, and each source, quota-domain and
      account counter, looked up by id, is the number of outstanding leases taken under that id
      in any generation. */
  lemma CapacityConserved(table: Table, now: int, trace: seq<System>, steps: seq<Step>, i: nat, id: string)
    requires IsRun(table, now, trace, steps) && i < |trace|
    ensures var s := trace[i];
      && s.active == |s.leases| && s.current < |s.routers| && s.active <= s.routers[s.current].link.table.cfg.maxInflight
      && |set l | l in s.leases && s.leases[l].source == id| == Active(s.stateOf, StateActive(s.states), id)
      && |set l | l in s.leases && s.leases[l].domain == id| == Active(s.quotaOf, QuotaActive(s.quotas), id)
      && |set l | l in s.leases && s.leases[l].accountRef.Some? && s.leases[l].account == id|
           == Active(s.accountOf, QuotaActive(s.accounts), id)
  {
    hide Wired, LinkOk, QueueOk, CellsOk, StatesConserved, QuotasConserved, AccountsConserved, IsRun;
    RunKeeps(table, now, trace, steps, i);
    var s := trace[i];
    SourceById(s.states, s.stateOf, s.leases, id);
    DomainById(s.quotas, s.quotaOf, s.leases, id);
    AccountById(s.accounts, s.accountOf, s.leases, id);
  }

  /** Everyone left on a retired router has been told to leave, in every state of every run. */
  lemma {:induction false} RunTellsRetired(table: Table, now: int, trace: seq<System>, steps: seq<Step>, i: nat)
    requires IsRun(table, now, trace, steps) && i < |trace|
    ensures RetiredAlert(trace[i])
  {
    hide Inv, Init, Next, Enabled, RetiredAlert;
    if i == 0 {
      InitOk(table, now);
      CalmIsInv(trace[0]);
    } else {
      RunTellsRetired(table, now, trace, steps, i - 1);
      RunKeeps(table, now, trace, steps, i - 1);
      NextRetired(trace[i-1], steps[i-1]);
    }
  }

  /** An expired cooldown that no step has signalled since. */
  ghost predicate Unsignalled(trace: seq<System>, steps: seq<Step>, j: nat, i: nat)
    requires i <= |steps| <= |trace|
  {
    j < i && Expires(trace[j], steps[j]) && forall m :: j < m < i ==> !Signals(trace[m], steps[m])
  }

  /** No wakeup is lost in any state of any run: the first waiter that is cancelled, dispatchable or
      no longer eligible is alert, and so is everyone left on a retired router. The one exception is
      the stretch between a cooldown that runs out and the next signal, whatever its cause, which the
      retry timer bounds. */
  lemma {:induction false} RunNeverLosesWakeup(table: Table, now: int, trace: seq<System>, steps: seq<Step>, i: nat)
    requires IsRun(table, now, trace, steps) && i < |trace|
    ensures Calm(trace[i]) || exists j: nat :: Unsignalled(trace, steps, j, i)
  {
    hide IsRun, Inv, Calm, Next, Enabled, Signals, Expires, RetiredAlert, Unsignalled;
    RunStarts(table, now, trace, steps);
    if i > 0 {
      RunNeverLosesWakeup(table, now, trace, steps, i - 1);
      RunTellsRetired(table, now, trace, steps, i - 1);
      Stepping(table, now, trace, steps, i - 1);
      WakeupStep(trace, steps, i - 1, i);
    }
  }

  lemma RunStarts(table: Table, now: int, trace: seq<System>, steps: seq<Step>)
    requires IsRun(table, now, trace, steps)
    ensures |trace| == |steps| + 1
    ensures var kept := Calm(trace[0]); kept
  {
    hide Calm, Inv, Init, Next, Enabled;
    InitOk(table, now);
  }

  /** One step of a run, as a step from a consistent state. */
  lemma Stepping(table: Table, now: int, trace: seq<System>, steps: seq<Step>, i: nat)
    requires IsRun(table, now, trace, steps) && i < |steps|
    ensures i + 1 < |trace| == |steps| + 1 && trace[i].current < |trace[i].routers| && Enabled(trace[i], steps[i])
    ensures var kept := Inv(trace[i]); kept
    ensures trace[i+1] == Next(trace[i], steps[i])
  {
    hide Inv, Init, Next, Enabled;
    RunKeeps(table, now, trace, steps, i);
  }

  lemma WakeupStep(trace: seq<System>, steps: seq<Step>, i: nat, n: nat)
    requires n == i + 1 && n < |trace| == |steps| + 1 && trace[i].current < |trace[i].routers|
    requires Inv(trace[i]) && RetiredAlert(trace[i]) && Enabled(trace[i], steps[i]) && trace[n] == Next(trace[i], steps[i])
    requires Calm(trace[i]) || exists j: nat :: Unsignalled(trace, steps, j, i)
    ensures Calm(trace[n]) || exists j: nat :: Unsignalled(trace, steps, j, n)
  {
    hide Inv, Calm, Next, Enabled, Signals, Expires, RetiredAlert;
    if Expires(trace[i], steps[i]) {
      assert Unsignalled(trace, steps, i, n);
    } else if Signals(trace[i], steps[i]) {
      SignalStepCalm(trace[i], steps[i]);
    } else if Calm(trace[i]) {
      QuietStepCalm(trace[i], steps[i]);
    } else {
      var j: nat :| Unsignalled(trace, steps, j, i);
      assert Unsignalled(trace, steps, j, n);
    }
  }

  lemma QuietStepCalm(s: System, step: Step)
    requires Calm(s) && s.current < |s.routers| && Enabled(s, step) && !Expires(s, step)
    ensures Inv(s) && var kept := Calm(Next(s, step)); kept
  {
    hide Next, Inv, NoLostWakeup, Enabled;
    CalmIsInv(s);
    NextCalm(s, step);
  }

  lemma CalmIsInv(s: System)
    requires Calm(s)
    ensures var kept := Inv(s); kept
    ensures RetiredAlert(s)
  {
    hide Inv, FirstAlert, AllAlert;
  }
}
