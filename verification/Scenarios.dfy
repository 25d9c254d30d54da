/** Short runs of one source that show where a promise ends: a throttle cut short by a later one, and
    a cooldown that runs out while its waiter sleeps. */
module Scenarios {
  import opened Policy
  import opened Index
  import opened Selection
  import opened Choosing
  import opened Counters
  import opened Scheduler
  import opened Conservation
  import opened Steps
  import opened Dispatching
  import opened Wakeups
  import opened Runs
  import opened Penalties
  import opened Acquiring

  // ----- one source with room for two -----

  function TheModel(): Model { Model("m", "m", ["chat"], -1, Native, false, 1, None, None, None, None) }

  function TheSource(): Source {
    Source("s", "", "", "d", 2, 2, 1, true, true, false, UnsetKind, UnknownBilling, OpenAI, [TheModel()])
  }

  function TheConfig(): Config { Config(2, 1, map[], map[], [TheSource()], map[]) }

  function TheQuery(): Query { Query(false, [], map[], "m", "chat", false, 0, 0, 0.0, false, false) }

  lemma ConfigValid()
    ensures Valid(TheConfig())
  {
    var c := TheConfig();
    assert TheModel().id[0] != "auto"[0];
    assert ValidModel(TheModel()) && TheSource().models[0] == TheModel();
    assert ValidSource(c, TheSource()) && c.sources[0] == TheSource();
  }

  /** The router compiled from it. */
  ghost predicate TheTable(table: Table) { Compiled(table) && table.cfg == TheConfig() }

  lemma TableFacts(table: Table)
    requires TheTable(table)
    ensures table.targets == [Target(0, TheModel())]
    ensures Lookup(table.candidates, "m") == [0]
    ensures ReasonAt(table, true, false, TheQuery(), 0) == Admitted
    ensures Key("m") == "m" && !Shadowed(table.cfg)
  {
    var c := table.cfg;
    assert TargetTable(c, 1) == TargetTable(c, 0) + SourceTargets(0, [TheModel()]);
    assert table.targets == [Target(0, TheModel())];
    assert Named(c, table.targets[0], "m");
    assert NamedIn(c, table.targets, "m", 1) == NamedIn(c, table.targets, "m", 0) + [0];
    assert CandidateList(c, table.targets, "m") == [0];
    assert TheSource().id != "auto";
  }

  // ----- its states -----

  ghost function TheLink(table: Table): Link { Link(table, [0], [0], [None]) }

  /** A state of a router with this one source and no other generation. */
  ghost function Situation(table: Table, now: int, st: SourceState, qu: Quota, cursor: nat, queue: seq<Waiter>, leases: Leases, log: seq<Dispatch>): System {
    System(now, st.active, 0, [st], [qu], [FreshQuota(0)], map["s" := 0], map["d" := 0], map[],
      [Router(TheLink(table), false, cursor, queue)], 0, leases, log)
  }

  lemma InitSituation(table: Table, now: int)
    requires TheTable(table)
    ensures Init(table, now) == Situation(table, now, FreshState(TheSource()), FreshQuota(2), 0, [], map[], [])
  {
    var src := table.cfg.sources;
    assert src == [TheSource()] && src[0] == TheSource();
    assert Ids(src) == {"s"} && Domains(src) == {"d"} && AccountIds(src) == {};
    assert BroughtStates(0, src) == map["s" := 0] && BroughtQuotas(0, src) == map["d" := 0] && BroughtAccounts(0, src) == map[];
    var s := Init(table, now);
    assert s.states == [FreshState(TheSource())] && s.quotas == [FreshQuota(2)];
    assert s.accounts == [FreshQuota(AccountLimit(table.cfg, src[0]))];
    assert s.routers[0].link == TheLink(table);
  }

  /** The source is switched on, has room on its counters and no block. */
  predicate Healthy(st: SourceState, qu: Quota) {
    st.enabled && !st.blocked && 0 <= st.active < 2 && qu.active < 2 && qu.limit == 2
  }

  predicate Cool(st: SourceState, qu: Quota, now: int) { st.cooldown <= now && qu.cooldown <= now }

  /** What the chooser says: the one target, unless it is cooling. */
  lemma Chosen(table: Table, v: View, now: int)
    requires TheTable(table) && Sane(v) && Shaped(v) && v.table == table && !v.retired && v.active < 2
    requires |v.states| == 1 && v.accounts == [None] && Healthy(v.states[0], v.quotas[0])
    ensures Choose(v, TheQuery(), now) == Choice(if Cool(v.states[0], v.quotas[0], now) then 0 else -1, true)
  {
    hide Choose, Compiled, Sane;
    var q := TheQuery();
    TableFacts(table);
    assert Verdict(v, q, 0) == Admitted;
    assert Available(v, q, now, 0) <==> Cool(v.states[0], v.quotas[0], now);
    ChooseIffIndexed(v, q, now);
    ChooseEligible(v, q, now);
    if Choose(v, q, now).best >= 0 {
      ChosenIsAdmitted(v, q, now);
    } else {
      ChooseLow(v, q, now);
    }
  }

  lemma ChooseLow(v: View, q: Query, now: int)
    requires Shaped(v)
    ensures Choose(v, q, now).best >= -1
  {
  }

  // ----- its steps -----

  ghost predicate StepsTo(s: System, step: Step, s': System) { Inv(s) && Enabled(s, step) && s' == Next(s, step) }

  lemma SituationView(table: Table, now: int, st: SourceState, qu: Quota, cursor: nat, queue: seq<Waiter>, leases: Leases, log: seq<Dispatch>)
    requires Formed(Situation(table, now, st, qu, cursor, queue, leases, log))
    ensures var v := At(Situation(table, now, st, qu, cursor, queue, leases, log), 0);
      v == View(table, false, cursor, st.active, [st], [qu], [None])
  {
    hide Compiled, CellsOk;
  }

  /** The ruling of one hold with nobody ahead. */
  lemma Ruled(table: Table, now: int, st: SourceState, qu: Quota, cursor: nat, leases: Leases, log: seq<Dispatch>)
    requires TheTable(table) && Healthy(st, qu) && Inv(Situation(table, now, st, qu, cursor, [], leases, log))
    ensures Formed(Situation(table, now, st, qu, cursor, [], leases, log))
    ensures Judge(Situation(table, now, st, qu, cursor, [], leases, log), 0, TheQuery(), false, 0) == if Cool(st, qu, now) then Granted(0) else Stay
  {
    hide Choose, Conserved, Wired, Bounded, Compiled, LinkOk, CellsOk, Sane, Shaped, TheTable;
    SituationView(table, now, st, qu, cursor, [], leases, log);
    Chosen(table, At(Situation(table, now, st, qu, cursor, [], leases, log), 0), now);
  }

  function TheLease(): Lease { Lease("s", "d", "", 0, 0, None) }

  function Taken(st: SourceState): SourceState { st.(active := st.active + 1, virtualFinish := st.virtualFinish + 1.0) }

  /** A newcomer finds room. */
  lemma Served(table: Table, now: int, st: SourceState, qu: Quota, cursor: nat, leases: Leases, log: seq<Dispatch>, thread: nat)
    requires TheTable(table) && Healthy(st, qu) && Cool(st, qu, now) && Inv(Situation(table, now, st, qu, cursor, [], leases, log))
    ensures StepsTo(Situation(table, now, st, qu, cursor, [], leases, log), Arrive(0, thread, TheQuery(), false),
      Situation(table, now, Taken(st), Bump(qu), cursor + 1, [], leases[|log| := TheLease()], log + [Dispatch(0, 0, TheQuery())]))
  {
    hide Inv, Judge, Arrived;
    var s := Situation(table, now, st, qu, cursor, [], leases, log);
    Ruled(table, now, st, qu, cursor, leases, log);
    ArrivedCases(s, 0, thread, TheQuery(), false);
    TableFacts(table);
    var s' := Grant(s, 0, 0, TheQuery());
    assert s'.states == [Taken(st)] && s'.quotas == [Bump(qu)];
    assert s'.routers == [Router(TheLink(table), false, cursor + 1, [])];
  }

  /** A newcomer finds the source cooling and goes to sleep. */
  lemma Parked(table: Table, now: int, st: SourceState, qu: Quota, cursor: nat, leases: Leases, log: seq<Dispatch>, thread: nat)
    requires TheTable(table) && Healthy(st, qu) && !Cool(st, qu, now) && Inv(Situation(table, now, st, qu, cursor, [], leases, log))
    ensures StepsTo(Situation(table, now, st, qu, cursor, [], leases, log), Arrive(0, thread, TheQuery(), false),
      Situation(table, now, st, qu, cursor, [Waiter(thread, TheQuery(), false, false, false, now + 250)], leases, log))
  {
    hide Inv, Judge, Arrived;
    var s := Situation(table, now, st, qu, cursor, [], leases, log);
    Ruled(table, now, st, qu, cursor, leases, log);
    ArrivedCases(s, 0, thread, TheQuery(), false);
    var w := Waiter(thread, TheQuery(), false, false, false, now + 250);
    assert QueueOf(s, 0) + [w] == [w];
    assert SetQueue(s, 0, [w]).routers == [Router(TheLink(table), false, cursor, [w])];
  }

  /** A lease comes back while nobody waits. */
  lemma Returning(table: Table, now: int, st: SourceState, qu: Quota, cursor: nat, leases: Leases, log: seq<Dispatch>, id: nat, o: Outcome)
    requires Inv(Situation(table, now, st, qu, cursor, [], leases, log)) && id in leases && leases[id] == TheLease() && o.elapsed >= 0.0
    ensures StepsTo(Situation(table, now, st, qu, cursor, [], leases, log), Release(id, o),
      Situation(table, now, ReleasedState(st, now, o), ReleasedQuota(qu, now, o), cursor, [], leases - {id}, log))
  {
    hide Inv, Released;
    var s := Situation(table, now, st, qu, cursor, [], leases, log);
    ReturnedRouter(s, id, o);
    var s' := Returned(s, id, o);
    EmptySignal(s', 0);
    assert s'.states == [ReleasedState(st, now, o)] && s'.quotas == [ReleasedQuota(qu, now, o)];
  }

  lemma EmptySignal(s: System, r: nat)
    requires Formed(s) && r < |s.routers| && s.routers[r].queue == []
    ensures Signal(s, r) == s
  {
    hide Formed, Shaped, Sane, Choose;
    assert s.routers[r := s.routers[r].(queue := [])] == s.routers;
  }

  /** Time passes; nobody's timer is due. */
  lemma Ticking(table: Table, now: int, st: SourceState, qu: Quota, cursor: nat, queue: seq<Waiter>, leases: Leases, log: seq<Dispatch>, later: int)
    requires Inv(Situation(table, now, st, qu, cursor, queue, leases, log)) && now <= later && QueueReaches(queue, later)
    ensures StepsTo(Situation(table, now, st, qu, cursor, queue, leases, log), Tick(later),
      Situation(table, later, st, qu, cursor, queue, leases, log))
  {
    hide Inv;
  }

  // ----- runs, step by step -----

  /** Each step leads from its state to the next, wherever that state is consistent. */
  ghost predicate Leads(table: Table, now: int, trace: seq<System>, steps: seq<Step>) {
    && Compiled(table) && |trace| == |steps| + 1 && trace[0] == Init(table, now)
    && forall i :: 0 <= i < |steps| && Inv(trace[i]) ==> StepsTo(trace[i], steps[i], trace[i+1])
  }

  lemma {:induction false} LeadsInv(table: Table, now: int, trace: seq<System>, steps: seq<Step>, i: nat)
    requires Leads(table, now, trace, steps) && i < |trace|
    ensures var kept := Inv(trace[i]); kept
    ensures i < |steps| ==> StepsTo(trace[i], steps[i], trace[i+1])
  {
    hide Inv, StepsTo, Init;
    if i == 0 {
      InitOk(table, now);
      CalmIsInv(trace[0]);
    } else {
      LeadsInv(table, now, trace, steps, i - 1);
      Stepped(trace[i-1], steps[i-1], trace[i]);
    }
  }

  lemma Stepped(s: System, step: Step, s': System)
    requires StepsTo(s, step, s')
    ensures s.current < |s.routers| && Enabled(s, step)
    ensures var kept := Inv(s) && Inv(s'); kept
    ensures s' == Next(s, step)
  {
    hide Inv, Enabled, Next;
    InvCurrent(s);
    NextKeeps(s, step);
  }

  lemma LeadsIsRun(table: Table, now: int, trace: seq<System>, steps: seq<Step>)
    requires Leads(table, now, trace, steps)
    ensures IsRun(table, now, trace, steps)
  {
    hide Inv, Enabled, Next, Init, Compiled, StepsTo;
    forall i | 0 <= i < |steps|
      ensures trace[i].current < |trace[i].routers| && Enabled(trace[i], steps[i])
      ensures Inv(trace[i]) && trace[i+1] == Next(trace[i], steps[i])
    {
      LeadsInv(table, now, trace, steps, i);
      Stepped(trace[i], steps[i], trace[i+1]);
    }
  }

  lemma InvCurrent(s: System)
    requires Inv(s)
    ensures s.current < |s.routers|
  {
  }

  // ----- a throttle cut short -----

  const LONG := Outcome(429, 100000, 0.0)
  const SHORT := Outcome(429, 1000, 0.0)

  ghost function Entry(): Dispatch { Dispatch(0, 0, TheQuery()) }

  ghost function Cells(active: int, finish: real, cooldown: int): (SourceState, Quota) {
    (SourceState(active, true, false, 0, finish, 0.0), Quota(active, 2, cooldown, 0, 0.0))
  }

  /** The states of the run: two leases, both throttled, and a moment after the second delay. */
  ghost function ThrottleState(table: Table, n: nat): System {
    var l := TheLease();
    match n
    case 0 => Situation(table, 0, Cells(0, 0.0, 0).0, Cells(0, 0.0, 0).1, 0, [], map[], [])
    case 1 => Situation(table, 0, Cells(1, 1.0, 0).0, Cells(1, 1.0, 0).1, 1, [], map[0 := l], [Entry()])
    case 2 => Situation(table, 0, Cells(2, 2.0, 0).0, Cells(2, 2.0, 0).1, 2, [], map[0 := l, 1 := l], [Entry(), Entry()])
    case 3 => Situation(table, 0, Cells(1, 2.0, 100000).0, Cells(1, 2.0, 100000).1, 2, [], map[1 := l], [Entry(), Entry()])
    case 4 => Situation(table, 0, Cells(0, 2.0, 1000).0, Cells(0, 2.0, 1000).1, 2, [], map[], [Entry(), Entry()])
    case _ => Situation(table, 2000, Cells(0, 2.0, 1000).0, Cells(0, 2.0, 1000).1, 2, [], map[], [Entry(), Entry()])
  }

  ghost function ThrottleSteps(): seq<Step> {
    [Arrive(0, 0, TheQuery(), false), Arrive(0, 1, TheQuery(), false), Release(0, LONG), Release(1, SHORT), Tick(2000)]
  }

  lemma ThrottleStep(table: Table, n: nat)
    requires TheTable(table) && n < 5 && Inv(ThrottleState(table, n))
    ensures StepsTo(ThrottleState(table, n), ThrottleSteps()[n], ThrottleState(table, n + 1))
  {
    hide Inv, StepsTo, TheTable;
    var c := if n == 0 then Cells(0, 0.0, 0) else if n == 1 then Cells(1, 1.0, 0) else if n == 2 then Cells(2, 2.0, 0)
             else if n == 3 then Cells(1, 2.0, 100000) else Cells(0, 2.0, 1000);
    var l := TheLease();
    match n {
      case 0 =>
        Served(table, 0, c.0, c.1, 0, map[], [], 0);
        assert [] + [Entry()] == [Entry()];
      case 1 =>
        Served(table, 0, c.0, c.1, 1, map[0 := l], [Entry()], 1);
        assert map[0 := l][1 := l] == map[0 := l, 1 := l] && [Entry()] + [Entry()] == [Entry(), Entry()];
      case 2 =>
        Returning(table, 0, c.0, c.1, 2, map[0 := l, 1 := l], [Entry(), Entry()], 0, LONG);
        assert map[0 := l, 1 := l] - {0} == map[1 := l];
      case 3 =>
        Returning(table, 0, c.0, c.1, 2, map[1 := l], [Entry(), Entry()], 1, SHORT);
        assert map[1 := l] - {1} == map[];
      case 4 =>
        Ticking(table, 0, c.0, c.1, 2, [], map[], [Entry(), Entry()], 2000);
    }
  }

  ghost function ThrottleTrace(table: Table): seq<System> { seq(6, n requires 0 <= n < 6 => ThrottleState(table, n)) }

  lemma ThrottleRun(table: Table)
    requires TheTable(table)
    ensures IsRun(table, 0, ThrottleTrace(table), ThrottleSteps())
    ensures var kept := Inv(ThrottleState(table, 5)); kept
  {
    hide Inv, TheTable, Situation, StepsTo, Init, IsRun;
    var trace, steps := ThrottleTrace(table), ThrottleSteps();
    InitSituation(table, 0);
    TheTableCompiled(table);
    ThrottleStart(table);
    forall i | 0 <= i < |steps| && Inv(trace[i]) ensures StepsTo(trace[i], steps[i], trace[i+1]) {
      ThrottleStep(table, i);
    }
    LeadsIsRun(table, 0, trace, steps);
    LeadsInv(table, 0, trace, steps, 5);
  }

  lemma ThrottleStart(table: Table)
    ensures ThrottleState(table, 0) == Situation(table, 0, FreshState(TheSource()), FreshQuota(2), 0, [], map[], [])
  {
  }

  /** Two requests of one quota domain are throttled, the first for a hundred seconds, the second for
      one. After two seconds the domain has room again, ninety-eight seconds early. */
  lemma ThrottleCutShort(table: Table)
    requires TheTable(table)
    ensures IsRun(table, 0, ThrottleTrace(table), ThrottleSteps())
    ensures var trace, steps := ThrottleTrace(table), ThrottleSteps();
      && Throttles(trace[2], steps[2], 0) && trace[5].now < Deadline(trace, steps, 2)
      && Formed(trace[5]) && 0 < |At(trace[5], 0).table.cfg.sources| && Room(At(trace[5], 0), trace[5].now, 0)
  {
    hide Inv, IsRun, Throttles, Formed, Room, At, ThrottleState;
    ThrottleRun(table);
    ThrottleEnd(table);
    assert ThrottleTrace(table)[2] == ThrottleState(table, 2) && ThrottleTrace(table)[5] == ThrottleState(table, 5);
  }

  lemma TheTableCompiled(table: Table)
    requires TheTable(table)
    ensures Compiled(table)
  {
  }

  lemma ThrottleEnd(table: Table)
    requires TheTable(table) && Inv(ThrottleState(table, 5))
    ensures Throttles(ThrottleState(table, 2), ThrottleSteps()[2], 0)
    ensures ThrottleState(table, 2).now == 0 && ThrottleState(table, 5).now == 2000
    ensures Formed(ThrottleState(table, 5)) && |ThrottleState(table, 5).routers| == 1
    ensures 0 < |At(ThrottleState(table, 5), 0).table.cfg.sources| && Room(At(ThrottleState(table, 5), 0), 2000, 0)
  {
    hide Conserved, Wired, Bounded, Compiled, LinkOk, CellsOk, Sane, Shaped;
    var c := Cells(0, 2.0, 1000);
    SituationView(table, 2000, c.0, c.1, 2, [], map[], [Entry(), Entry()]);
  }

  // ----- a cooldown that runs out over a sleeper -----

  const BROKEN := Outcome(500, 0, 0.0)

  ghost function Sleeper(): Waiter { Waiter(1, TheQuery(), false, false, false, 5150) }

  ghost function Cooled(): (SourceState, Quota) { (SourceState(0, true, false, 5000, 1.0, 0.0), Quota(0, 2, 0, 0, 0.0)) }

  /** The states of the run: a failed attempt, a request that arrives just before the cooldown ends. */
  ghost function SleepState(table: Table, n: nat): System {
    match n
    case 0 => Situation(table, 0, Cells(0, 0.0, 0).0, Cells(0, 0.0, 0).1, 0, [], map[], [])
    case 1 => Situation(table, 0, Cells(1, 1.0, 0).0, Cells(1, 1.0, 0).1, 1, [], map[0 := TheLease()], [Entry()])
    case 2 => Situation(table, 0, Cooled().0, Cooled().1, 1, [], map[], [Entry()])
    case 3 => Situation(table, 4900, Cooled().0, Cooled().1, 1, [], map[], [Entry()])
    case 4 => Situation(table, 4900, Cooled().0, Cooled().1, 1, [Sleeper()], map[], [Entry()])
    case _ => Situation(table, 5000, Cooled().0, Cooled().1, 1, [Sleeper()], map[], [Entry()])
  }

  ghost function SleepSteps(): seq<Step> {
    [Arrive(0, 0, TheQuery(), false), Release(0, BROKEN), Tick(4900), Arrive(0, 1, TheQuery(), false), Tick(5000)]
  }

  ghost function SleepTrace(table: Table): seq<System> { seq(6, n requires 0 <= n < 6 => SleepState(table, n)) }

  lemma SleepStep(table: Table, n: nat)
    requires TheTable(table) && n < 5 && Inv(SleepState(table, n))
    ensures StepsTo(SleepState(table, n), SleepSteps()[n], SleepState(table, n + 1))
  {
    hide Inv, StepsTo, TheTable;
    var c, l := Cooled(), TheLease();
    match n {
      case 0 =>
        Served(table, 0, Cells(0, 0.0, 0).0, Cells(0, 0.0, 0).1, 0, map[], [], 0);
        assert [] + [Entry()] == [Entry()];
      case 1 =>
        Returning(table, 0, Cells(1, 1.0, 0).0, Cells(1, 1.0, 0).1, 1, map[0 := l], [Entry()], 0, BROKEN);
        assert map[0 := l] - {0} == map[];
      case 2 => Ticking(table, 0, c.0, c.1, 1, [], map[], [Entry()], 4900);
      case 3 => Parked(table, 4900, c.0, c.1, 1, map[], [Entry()], 1);
      case 4 => Ticking(table, 4900, c.0, c.1, 1, [Sleeper()], map[], [Entry()], 5000);
    }
  }

  lemma SleepStart(table: Table)
    ensures SleepState(table, 0) == Situation(table, 0, FreshState(TheSource()), FreshQuota(2), 0, [], map[], [])
  {
  }

  lemma SleepRun(table: Table)
    requires TheTable(table)
    ensures IsRun(table, 0, SleepTrace(table), SleepSteps())
    ensures var kept := Inv(SleepState(table, 4)) && Inv(SleepState(table, 5)); kept
  {
    hide Inv, TheTable, Situation, StepsTo, Init, IsRun;
    var trace, steps := SleepTrace(table), SleepSteps();
    InitSituation(table, 0);
    TheTableCompiled(table);
    SleepStart(table);
    forall i | 0 <= i < |steps| && Inv(trace[i]) ensures StepsTo(trace[i], steps[i], trace[i+1]) {
      SleepStep(table, i);
    }
    LeadsIsRun(table, 0, trace, steps);
    LeadsInv(table, 0, trace, steps, 4);
    LeadsInv(table, 0, trace, steps, 5);
  }

  lemma SleeperServable(table: Table)
    requires TheTable(table) && Inv(SleepState(table, 5))
    ensures Formed(SleepState(table, 5)) && Choose(At(SleepState(table, 5), 0), TheQuery(), 5000).best == 0
  {
    hide Conserved, Wired, Bounded, Compiled, LinkOk, CellsOk, Sane, Shaped, Choose, TheTable;
    var c := Cooled();
    SituationView(table, 5000, c.0, c.1, 1, [Sleeper()], map[], [Entry()]);
    Chosen(table, At(SleepState(table, 5), 0), 5000);
  }

  /** The clock reaches the end of the cooldown, the waiter could be served, and nobody tells it. */
  lemma SleeperForgotten(table: Table)
    requires TheTable(table)
    ensures IsRun(table, 0, SleepTrace(table), SleepSteps())
    ensures var kept := Inv(SleepTrace(table)[5]); kept
    ensures !Calm(SleepTrace(table)[5])
  {
    hide Conserved, Wired, Bounded, LinkOk, CellsOk, Sane, Shaped, Choose, TheTable, IsRun, RetiredAlert;
    SleepRun(table);
    SleeperServable(table);
    var s := SleepState(table, 5);
    assert SleepTrace(table)[5] == s && s.routers[s.current].queue == [Sleeper()] && s.now == 5000;
    assert Actionable(At(s, s.current), s.now, QueueOf(s, s.current)[0]);
  }

  /** Both runs exist: the configuration is valid and compiles. */
  method Compiles() returns (table: Table)
    ensures TheTable(table) && IsRun(table, 0, ThrottleTrace(table), ThrottleSteps()) && IsRun(table, 0, SleepTrace(table), SleepSteps())
  {
    hide IsRun;
    ConfigValid();
    table := Compile(TheConfig());
    ThrottleCutShort(table);
    SleeperForgotten(table);
  }
}
