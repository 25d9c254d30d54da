/** What one hold of Acquire decides, and what it does to the queue. */
module Holds {
  import opened Policy
  import opened Index
  import opened Selection
  import opened Choosing
  import opened Scheduler
  import opened Conservation
  import opened Steps
  import opened Dispatching
  import opened Acquiring

  /** A request is granted exactly when it is live, can be dispatched, and nobody live ahead of it can; it
      gives up exactly when its context ended, its router retired, or no target of the table admits it. */
  lemma RulingMeans(s: System, r: nat, q: Query, cancelled: bool, k: nat)
    requires Inv(s) && r < |s.routers| && k <= |QueueOf(s, r)| && !Shadowed(s.routers[r].link.table.cfg)
    ensures Formed(s)
    ensures var v, queue, ruling := At(s, r), QueueOf(s, r), Judge(s, r, q, cancelled, k);
      && (ruling.Granted? <==>
           && !cancelled && Dispatchable(v, q, s.now)
           && forall j :: 0 <= j < k ==> queue[j].cancelled || !Dispatchable(v, queue[j].query, s.now))
      && (ruling.GiveUp? <==>
           cancelled || s.routers[r].retired || forall idx :: 0 <= idx < |v.table.targets| ==> Verdict(v, q, idx) != Admitted)
  {
    hide Conserved, Wired, Bounded, LinkOk, CellsOk, Sane, Shaped, Choose, Dispatchable, Verdict;
    var v, queue := At(s, r), QueueOf(s, r);
    ChooseIffDispatchable(v, q, s.now);
    ChooseEligible(v, q, s.now);
    ChosenIsEligible(v, q, s.now);
    forall j | 0 <= j < k ensures Choose(v, queue[j].query, s.now).best >= 0 <==> Dispatchable(v, queue[j].query, s.now) {
      ChooseIffDispatchable(v, queue[j].query, s.now);
    }
  }

  lemma ChosenIsEligible(v: View, q: Query, now: int)
    requires Shaped(v)
    ensures Choose(v, q, now).best >= 0 ==> Choose(v, q, now).eligible
  {
    hide FullScan, AnyEligible;
  }

  /** A newcomer joins the tail, asleep for a quarter of a second, exactly when it must wait and there is
      room; otherwise its queue is as it was. A lease is recorded exactly when it is granted. */
  lemma ArrivalMeans(s: System, step: Step)
    requires Inv(s) && Enabled(s, step) && step.Arrive?
    ensures Formed(s) && step.router < |Next(s, step).routers|
    ensures var r, s' := step.router, Next(s, step);
      var queue, ruling := QueueOf(s, r), Judge(s, r, step.query, step.cancelled, |QueueOf(s, r)|);
      && s'.now == s.now
      && (s'.log != s.log <==> ruling.Granted?)
      && QueueOf(s', r) == (if ruling.Stay? && |queue| < s.routers[r].link.table.cfg.maxQueued
           then queue + [Waiter(step.thread, step.query, false, false, false, s.now + 250)] else queue)
      && (!ruling.Granted? ==> s' == SetQueue(s, r, QueueOf(s', r)))
  {
    hide Inv, Judge, Grant, Arrived, SetQueue;
    InvForms(s);
    LogIsService(s, step);
    var r := step.router;
    ArrivedCases(s, r, step.thread, step.query, step.cancelled);
    var ruling := Judge(s, r, step.query, step.cancelled, |QueueOf(s, r)|);
    SetQueueIs(s, r, QueueOf(s, r));
    SetQueueIs(s, r, QueueOf(s, r) + [Waiter(step.thread, step.query, false, false, false, s.now + 250)]);
    if ruling.Granted? {
      GrantRouter(s, r, ruling.target, step.query);
      GrantClock(s, r, ruling.target, step.query);
    }
  }

  lemma SetQueueIs(s: System, r: nat, queue: seq<Waiter>)
    requires r < |s.routers|
    ensures var s' := SetQueue(s, r, queue); r < |s'.routers| && QueueOf(s', r) == queue && s'.now == s.now
    ensures queue == QueueOf(s, r) ==> SetQueue(s, r, queue) == s
  {
    if queue == QueueOf(s, r) {
      assert s.routers[r := s.routers[r].(queue := queue)] == s.routers;
    }
  }

  /** Two entries of a queue stand for the same request, whether or not it was told to look again. */
  predicate SameRequest(a: Waiter, b: Waiter) { a == b || a == b.(token := true) }

  /** Everyone but the waiter at `k`, in order. */
  ghost predicate Departs(queue: seq<Waiter>, k: nat, queue': seq<Waiter>) {
    && k < |queue| && |queue'| == |queue| - 1
    && forall j :: 0 <= j < |queue'| ==> SameRequest(queue'[j], queue[if j < k then j else j + 1])
  }

  /** A queued request that looks again leaves the queue when it is granted or gives up, and nobody else
      does; one that must stay keeps its place and sleeps for another quarter of a second. */
  lemma ResumeMeans(s: System, step: Step)
    requires Inv(s) && Enabled(s, step) && step.Resume?
    ensures Formed(s) && step.router < |Next(s, step).routers|
    ensures var r, k, s' := step.router, step.k, Next(s, step);
      var queue := QueueOf(s, r);
      var ruling := Judge(s, r, queue[k].query, queue[k].cancelled, k);
      && (s'.log != s.log <==> ruling.Granted?)
      && (if ruling.Stay? then s' == SetQueue(s, r, queue[k := queue[k].(awake := false, deadline := s.now + 250)])
          else Departs(queue, k, QueueOf(s', r)))
  {
    hide Inv, Judge, Grant, Resumed, Leave, Departs, CanGrant, Grantable;
    InvForms(s);
    LogIsService(s, step);
    var r, k := step.router, step.k;
    var w := QueueOf(s, r)[k];
    ResumedCases(s, r, k);
    var ruling := Judge(s, r, w.query, w.cancelled, k);
    if ruling.Granted? {
      GrantRouter(s, r, ruling.target, w.query);
      LeaveDeparts(Grant(s, r, ruling.target, w.query), r, k);
    } else if ruling.GiveUp? {
      LeaveDeparts(s, r, k);
    }
  }

  lemma LeaveDeparts(s: System, r: nat, k: nat)
    requires Inv(s) && r < |s.routers| && k < |QueueOf(s, r)|
    ensures r < |Leave(s, r, k).routers| && Departs(QueueOf(s, r), k, QueueOf(Leave(s, r, k), r))
  {
    hide Conserved, Wired, Bounded, LinkOk, SignalQueue;
    WithoutKeeps(s, r, k);
    var s1 := SetQueue(s, r, Without(QueueOf(s, r), k));
    SignalQueueKeeps(At(s1, r), s.now, QueueOf(s1, r));
  }

  /** A counter just made is idle, open and rested, with the limits of its configuration; so are all of a
      fresh router's. */
  lemma FreshMeans(s: System, table: Table, i: nat)
    requires i < |table.cfg.sources|
    ensures var src, s' := table.cfg.sources[i], FreshCells(s, table);
      && s'.states == s.states + s'.states[|s.states|..] && s'.quotas == s.quotas + s'.quotas[|s.quotas|..]
      && s'.accounts == s.accounts + s'.accounts[|s.accounts|..]
      && |s'.states| - |s.states| == |s'.quotas| - |s.quotas| == |s'.accounts| - |s.accounts| == |table.cfg.sources|
      && s'.states[|s.states| + i] == SourceState(0, src.enabled, false, 0, 0.0, 0.0)
      && s'.quotas[|s.quotas| + i] == Quota(0, src.quotaMaxInflight, 0, 0, 0.0)
      && (src.accountId in table.cfg.accounts ==>
            s'.accounts[|s.accounts| + i] == Quota(0, table.cfg.accounts[src.accountId].maxInflight, 0, 0, 0.0))
  {
  }

  /** A success takes the first measurement as the latency, and moves a later one by a fifth of the way;
      nothing else moves it. */
  lemma LatencyMeans(st: SourceState, now: int, o: Outcome)
    ensures var st' := ReleasedState(st, now, o);
      if 200 <= o.status < 300 then
        (if st.latency == 0.0 then st'.latency == o.elapsed else 5.0 * (st'.latency - st.latency) == o.elapsed - st.latency)
      else st'.latency == st.latency
    ensures ReleasedState(st, now, o).virtualFinish == st.virtualFinish && ReleasedState(st, now, o).enabled == st.enabled
  {
  }
}
