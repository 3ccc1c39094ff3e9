/**
 The verdict that pending tasks can never run (src/agent/cpp/master_agent.cpp, end of
 schedule_tasks): it is passed when tasks are pending while nothing is ready and nothing runs.

 A pending task gets hope from a report that is being handled or still owed, and from a handler
 that is about to requeue a task. The verdict looks at none of these.
 */
module Verdict {
  import opened TaskLifecycle
  import opened LateReports
  import G = DependencyGraphs

  // ---------------------------------------------------------------------------
  // What can still make a task ready
  // ---------------------------------------------------------------------------

  ghost predicate Idle(m: Master) { m.graph.ready == {} && NoneRunning(m) }

  /** Some report being handled is about to mark d. */
  ghost predicate CanMark(m: Master, d: G.Data) {
    exists r :: r in m.reports && !m.reports[r].failed && d in m.reports[r].unmarked
  }

  /** A report still owed may have written anything. */
  ghost predicate Covered(m: Master, d: G.Data) { m.owed != multiset{} || CanMark(m, d) }

  ghost predicate Reachable(m: Master, inputs: seq<G.Data>) {
    forall d :: d in inputs ==> d in m.graph.available || Covered(m, d)
  }

  /** t was never removed from the graph, is listed under data still to come, and needs nothing
      else. */
  ghost predicate PendingHope(m: Master, t: G.Id, d: G.Data) {
    && t in m.graph.pending && t in m.graph.deps && t !in m.graph.completed && (d, t) in m.graph.index
    && Covered(m, d) && Reachable(m, m.graph.deps[t])
  }

  /** The handler of w has t on its list and will find it. */
  ghost predicate ListedHope(m: Master, w: nat, t: G.Id) {
    Recovers(m, w, t) && (w, t) !in m.lookups && t in m.meta && Reachable(m, m.meta[t].inputs)
  }

  /** The handler of w has looked t up and will add it again. */
  ghost predicate LookupHope(m: Master, w: nat, t: G.Id) {
    (w, t) in m.lookups && Reachable(m, m.lookups[(w, t)])
  }

  ghost predicate Hope(m: Master) {
    || (exists t, d :: PendingHope(m, t, d))
    || (exists w, t :: ListedHope(m, w, t))
    || (exists w, t :: LookupHope(m, w, t))
  }

  /** Neither a submission nor a write from outside. */
  ghost predicate Quiet(e: Event) {
    match e
    case OnTask(x) => !x.Submit?
    case OnData(x) => !x.OutsideWrite?
    case _ => true
  }

  ghost predicate QuietRun(es: seq<Event>) { forall i :: 0 <= i < |es| ==> Quiet(es[i]) }

  // ---------------------------------------------------------------------------
  // Without hope nothing ever becomes ready
  // ---------------------------------------------------------------------------

  ghost predicate NoNewData(m: Master, m': Master) {
    forall d ::
      && (Covered(m', d) ==> Covered(m, d))
      && (d in m'.graph.available ==> d in m.graph.available || Covered(m, d))
  }

  /** A task that data can still promote was one before. */
  ghost predicate NoNewPending(g: G.Graph, g': G.Graph) {
    forall t :: t in g'.pending && t in g'.deps && t !in g'.completed ==>
      && t in g.pending && t in g.deps && t !in g.completed && g'.deps[t] == g.deps[t]
      && forall d :: (d, t) in g'.index ==> (d, t) in g.index
  }

  ghost predicate NoNewRequeue(m: Master, m': Master) {
    && (forall w: nat, t: G.Id :: Recovers(m', w, t) && (w, t) !in m'.lookups && t in m'.meta ==>
          Recovers(m, w, t) && (w, t) !in m.lookups && t in m.meta && m'.meta[t].inputs == m.meta[t].inputs)
    && (forall w: nat, t: G.Id :: (w, t) in m'.lookups ==>
          || ((w, t) in m.lookups && m'.lookups[(w, t)] == m.lookups[(w, t)])
          || (Recovers(m, w, t) && (w, t) !in m.lookups && t in m.meta && m'.lookups[(w, t)] == m.meta[t].inputs))
  }

  lemma {:induction false} StillHopeless(m: Master, m': Master)
    requires !Hope(m) && NoNewData(m, m') && NoNewPending(m.graph, m'.graph) && NoNewRequeue(m, m')
    ensures !Hope(m')
  {
    hide Covered;
    forall t, d ensures !PendingHope(m', t, d) {
      assert !PendingHope(m, t, d);
    }
    forall w, t ensures !ListedHope(m', w, t) {
      assert !ListedHope(m, w, t);
    }
    forall w, t ensures !LookupHope(m', w, t) {
      assert !LookupHope(m, w, t) && !ListedHope(m, w, t);
    }
  }

  /** A step that leaves reports and lists alone, or shortens them, and brings no data. */
  lemma {:induction false} OnlyLess(m: Master, m': Master)
    requires Idle(m) && !Hope(m)
    requires m'.graph.ready == {} && m'.graph.available <= m.graph.available && NoNewPending(m.graph, m'.graph)
    requires m'.owed == m.owed && m'.lookups == m.lookups
    requires forall r :: r in m'.reports ==> r in m.reports && m'.reports[r] == m.reports[r]
    requires forall w, t :: Recovers(m', w, t) ==> Recovers(m, w, t)
    requires forall t :: t in m'.meta ==> t in m.meta && m'.meta[t].inputs == m.meta[t].inputs
                                          && (m'.meta[t].status == RUNNING ==> m.meta[t].status == RUNNING)
    ensures Idle(m') && !Hope(m')
  {
    forall d ensures Covered(m', d) ==> Covered(m, d) {
    }
    forall t ensures !IsRunning(m', t) {
      assert !IsRunning(m, t);
    }
    StillHopeless(m, m');
  }

  lemma {:induction false} FailLess(m: Master, m': Master, t: G.Id, status: Status, evict: set<G.Id>)
    requires Idle(m) && !Hope(m) && status != RUNNING
    requires m'.graph == G.RemoveTask(m.graph, t) && m'.meta == Evicted(WithStatus(m.meta, t, status), evict)
    requires m'.owed == m.owed && m'.lookups == m.lookups
    requires forall r :: r in m'.reports ==> r in m.reports && m'.reports[r] == m.reports[r]
    requires forall w, u :: Recovers(m', w, u) ==> Recovers(m, w, u)
    ensures Idle(m') && !Hope(m')
  {
    hide Hope;
    OnlyLess(m, m');
  }

  lemma {:induction false} PicksNeedReady(m: Master, picks: seq<Pick>)
    requires LegalPicks(m, picks)
    ensures picks != [] ==> m.graph.ready != {}
  {
    if picks != [] {
      assert picks[0].t in m.graph.ready;
    }
  }

  lemma {:induction false} NothingPicked(m: Master)
    ensures Assign(Decide(m, []), []) == m
  {
  }

  lemma {:induction false} HopelessFails(m: Master, ts: set<G.Id>)
    requires Idle(m) && !Hope(m)
    ensures Idle(FailTasks(m, ts)) && !Hope(FailTasks(m, ts))
  {
    hide Hope;
    OnlyLess(m, FailTasks(m, ts));
  }

  lemma {:induction false} HopelessSchedule(m: Master, e: TaskEvent)
    requires Idle(m) && !Hope(m) && e.Schedule? && TaskEnabled(m, e)
    ensures Idle(TaskStep(m, e)) && !Hope(TaskStep(m, e))
  {
    PicksNeedReady(m, e.picks);
    NothingPicked(m);
    hide Hope, Decide, Assign, FailTasks, RemoveAll, Unresolvable;
    HopelessFails(m, m.graph.pending);
    HopelessFails(Judge(m), e.deadlocked);
    var m2 := FailTasks(Judge(m), e.deadlocked);
    OnlyLess(m2, m2.(meta := Evicted(m2.meta, e.evict)));
  }

  lemma {:induction false} HopelessTask(m: Master, e: TaskEvent)
    requires Idle(m) && !Hope(m) && TaskEnabled(m, e) && !e.Submit?
    ensures Idle(TaskStep(m, e)) && !Hope(TaskStep(m, e))
  {
    hide Hope, Idle, ScheduleSection, G.RemoveTask;
    match e
    case Submit(_, _) =>
    case Schedule(_, _, _) => HopelessSchedule(m, e);
    case FastExit(t, evict) => FailLess(m, TaskStep(m, e), t, FAILED, evict);
    case LostDataFail(t, evict) => FailLess(m, TaskStep(m, e), t, FAILED, evict);
    case Forget(t) => HopelessForget(m, e);
  }

  lemma {:induction false} HopelessForget(m: Master, e: TaskEvent)
    requires Idle(m) && !Hope(m) && e.Forget?
    ensures Idle(TaskStep(m, e)) && !Hope(TaskStep(m, e))
  {
    hide Hope;
    OnlyLess(m, TaskStep(m, e));
  }

  lemma {:induction false} HopelessData(m: Master, e: DataEvent)
    requires Idle(m) && !Hope(m) && !e.OutsideWrite? && (e.TaskWrites? ==> IsRunning(m, e.t))
    ensures Idle(DataStep(m, e)) && !Hope(DataStep(m, e))
  {
    hide Hope;
    assert e.Vanishes?;
    OnlyLess(m, DataStep(m, e));
  }

  /** The mark a report makes completes no pending task. */
  lemma {:induction false} HopelessMark(m: Master, r: nat, d: G.Data)
    requires Idle(m) && !Hope(m) && ReportEnabled(m, Marks(r, d))
    ensures Idle(Marked(m, r, d)) && !Hope(Marked(m, r, d))
  {
    var m' := Marked(m, r, d);
    assert Covered(m, d);
    forall t ensures t !in G.Promoted(m.graph, d) {
      assert !PendingHope(m, t, d);
    }
    assert G.Promoted(m.graph, d) == {};
    forall t ensures !IsRunning(m', t) {
      assert !IsRunning(m, t);
    }
    assert NoNewPending(m.graph, m'.graph);
    assert NoNewRequeue(m, m');
    assert NoNewData(m, m') by {
      forall x | CanMark(m', x) ensures CanMark(m, x) {
      }
    }
    StillHopeless(m, m');
  }

  lemma {:induction false} HopelessArrival(m: Master, e: ReportEvent)
    requires Idle(m) && !Hope(m) && e.Arrives? && ReportEnabled(m, e)
    ensures Idle(ReportStep(m, e)) && !Hope(ReportStep(m, e))
  {
    var m' := ReportStep(m, e);
    assert m.owed != multiset{};
    assert m'.graph == m.graph && m'.meta == m.meta && m'.lookups == m.lookups && m'.recovering == m.recovering;
    hide ReportStep, ReportEnabled, Hope;
    forall t ensures !IsRunning(m', t) {
      assert !IsRunning(m, t);
    }
    assert NoNewData(m, m');
    StillHopeless(m, m');
  }

  lemma {:induction false} HopelessReport(m: Master, e: ReportEvent)
    requires Idle(m) && !Hope(m) && ReportEnabled(m, e)
    ensures Idle(ReportStep(m, e)) && !Hope(ReportStep(m, e))
  {
    hide Hope, Idle, Marked, G.RemoveTask;
    match e
    case Arrives(_, _, _, _, _) => HopelessArrival(m, e);
    case Marks(r, d) => HopelessMark(m, r, d);
    case ApplyComplete(r, evict) => FailLess(m, ReportStep(m, e), m.reports[r].t, COMPLETED, evict);
    case ApplyFailed(r, evict) => FailLess(m, ReportStep(m, e), m.reports[r].t, FAILED, evict);
  }

  lemma {:induction false} HopelessWorker(m: Master, e: WorkerEvent)
    requires Idle(m) && !Hope(m)
    ensures Idle(WorkerStep(m, e)) && !Hope(WorkerStep(m, e))
  {
    hide Hope;
    forall w ensures RunningOn(m, w) == {} {
      assert forall t :: t in RunningOn(m, w) ==> IsRunning(m, t);
    }
    OnlyLess(m, WorkerStep(m, e));
  }

  /** A requeued task counts as completed, so data that comes later does not help it. */
  lemma {:induction false} HopelessRequeue(m: Master, w: nat, t: G.Id)
    requires Idle(m) && !Hope(m) && (w, t) in m.lookups
    ensures Idle(RequeueTogether(m, w, t)) && !Hope(RequeueTogether(m, w, t))
  {
    var m' := RequeueTogether(m, w, t);
    assert !LookupHope(m, w, t);
    assert !G.AllMet(m.graph.available, m.lookups[(w, t)]);
    forall u ensures !IsRunning(m', u) {
      assert !IsRunning(m, u);
    }
    assert NoNewPending(m.graph, m'.graph);
    assert NoNewData(m, m');
    assert NoNewRequeue(m, m');
    StillHopeless(m, m');
  }

  lemma {:induction false} HopelessLookup(m: Master, e: RecoveryEvent)
    requires Idle(m) && !Hope(m) && e.Lookup? && RecoveryEnabled(m, e)
    ensures Idle(RecoveryStep(m, e)) && !Hope(RecoveryStep(m, e))
  {
    var m' := RecoveryStep(m, e);
    forall u ensures !IsRunning(m', u) {
      assert !IsRunning(m, u);
    }
    assert NoNewData(m, m');
    assert NoNewRequeue(m, m');
    StillHopeless(m, m');
  }

  lemma {:induction false} HopelessRecovery(m: Master, e: RecoveryEvent)
    requires Idle(m) && !Hope(m) && RecoveryEnabled(m, e)
    ensures Idle(RecoveryStep(m, e)) && !Hope(RecoveryStep(m, e))
  {
    hide Hope, RequeueTogether, G.RemoveTask;
    match e
    case Lookup(_, _) => HopelessLookup(m, e);
    case Requeue(w, t) => HopelessRequeue(m, w, t);
    case DrainFail(_, t, evict) => FailLess(m, RecoveryStep(m, e), t, FAILED, evict);
    case ExitFail(_, t, evict) =>
      assert !IsRunning(m, t);
      OnlyLess(m, RecoveryStep(m, e));
  }

  lemma {:induction false} HopelessStep(m: Master, e: Event)
    requires Idle(m) && !Hope(m) && Enabled(m, e) && Quiet(e)
    ensures Idle(Step(m, e)) && !Hope(Step(m, e))
  {
    hide Hope, Idle, TaskStep, DataStep, ReportStep, WorkerStep, RecoveryStep, TaskEnabled, ReportEnabled,
      RecoveryEnabled;
    match e
    case OnTask(x) => HopelessTask(m, x);
    case OnData(x) => HopelessData(m, x);
    case OnReport(x) => HopelessReport(m, x);
    case OnWorker(x) => HopelessWorker(m, x);
    case OnRecovery(x) => HopelessRecovery(m, x);
  }

  lemma {:induction false} HopelessForever(m: Master, es: seq<Event>)
    requires Idle(m) && !Hope(m) && IsRun(m, es) && QuietRun(es)
    ensures Idle(After(m, es)) && !Hope(After(m, es))
    decreases |es|
  {
    hide Hope, Idle, Enabled, Step, Quiet;
    if es != [] {
      HopelessStep(m, es[0]);
      HopelessForever(Step(m, es[0]), es[1..]);
    }
  }

  // ---------------------------------------------------------------------------
  // With hope some run makes a task ready
  // ---------------------------------------------------------------------------

  /** Quiet, and no restart forgets a task either. */
  ghost predicate Calm(e: Event) { Quiet(e) && !(e.OnTask? && e.task.Forget?) }

  ghost predicate CalmRun(es: seq<Event>) { forall i :: 0 <= i < |es| ==> Calm(es[i]) }

  lemma {:induction false} FreshNumber(used: set<nat>) returns (r: nat)
    ensures forall x :: x in used ==> x < r
    decreases |used|
  {
    if used == {} {
      r := 0;
    } else {
      var x :| x in used;
      var r' := FreshNumber(used - {x});
      r := if x < r' then r' else x + 1;
      assert forall y :: y in used ==> y == x || y in used - {x};
    }
  }

  lemma {:induction false} OneStep(m: Master, e: Event)
    requires Enabled(m, e) && Calm(e)
    ensures Leads(m, [e], Step(m, e)) && CalmRun([e])
  {
  }

  /** What the rest of the run needs from the state. */
  ghost predicate SameHope(m: Master, m': Master) {
    m'.lookups == m.lookups && m'.graph.deps == m.graph.deps && m'.graph.completed == m.graph.completed
  }

  /** t has been made ready, or still waits under d. */
  ghost predicate Waits(m: Master, t: G.Id, d: G.Data) {
    || t in m.graph.ready
    || (t in m.graph.pending && t in m.graph.deps && t !in m.graph.completed && (d, t) in m.graph.index)
  }

  lemma {:induction false} MarkStep(m: Master, r: nat, x: G.Data, t: G.Id, d: G.Data)
    requires ReportEnabled(m, Marks(r, x))
    ensures var m' := Marked(m, r, x);
            && SameHope(m, m') && m'.graph.available == m.graph.available + {x} && m.graph.ready <= m'.graph.ready
            && (Waits(m, t, d) ==> Waits(m', t, d))
            && (forall y :: y != x && CanMark(m, y) ==> CanMark(m', y))
            && (Waits(m, t, d) && x == d && t in m.graph.deps && G.AllMet(m.graph.available + {d}, m.graph.deps[t]) ==>
                  t in m'.graph.ready)
  {
    var m' := Marked(m, r, x);
    forall y | y != x && CanMark(m, y) ensures CanMark(m', y) {
      var q :| q in m.reports && !m.reports[q].failed && y in m.reports[q].unmarked;
      assert q in m'.reports && !m'.reports[q].failed && y in m'.reports[q].unmarked;
    }
  }

  /** All of xs get marked, and d can still be. */
  lemma {:induction false} MarkAll(m: Master, xs: seq<G.Data>, t: G.Id, d: G.Data) returns (es: seq<Event>, m': Master)
    requires forall x :: x in xs ==> x in m.graph.available || x == d || CanMark(m, x)
    ensures Leads(m, es, m') && CalmRun(es) && SameHope(m, m')
    ensures forall x :: x in xs && x != d ==> x in m'.graph.available
    ensures m.graph.available <= m'.graph.available && m.graph.ready <= m'.graph.ready
    ensures (Waits(m, t, d) ==> Waits(m', t, d)) && (CanMark(m, d) ==> CanMark(m', d))
    decreases |xs|
  {
    if xs == [] {
      es, m' := [], m;
      LeadsNone(m);
    } else if xs[0] in m.graph.available || xs[0] == d {
      es, m' := MarkAll(m, xs[1..], t, d);
    } else {
      var r :| r in m.reports && !m.reports[r].failed && xs[0] in m.reports[r].unmarked;
      var e, m1 := OnReport(Marks(r, xs[0])), Marked(m, r, xs[0]);
      MarkStep(m, r, xs[0], t, d);
      assert Enabled(m, e) && Step(m, e) == m1 && Calm(e);
      hide CanMark, Waits, Marked, Enabled, Step, Calm, ReportEnabled;
      var fs;
      fs, m' := MarkAll(m1, xs[1..], t, d);
      es := [e] + fs;
      LeadsFirst(m, e, fs, m');
    }
  }

  /** A report still owed is accepted, and it wrote everything in ds. */
  lemma {:induction false} AcceptOwed(m: Master, r: nat, w: nat, t: G.Id, ds: set<G.Data>)
    requires (w, t) in m.owed && r !in m.reports && !Stale(m, w, t)
    ensures var e := Arrives(r, w, t, false, ds);
            && ReportEnabled(m, e) && ReportStep(m, e).graph == m.graph && ReportStep(m, e).lookups == m.lookups
            && forall d :: d in ds ==> CanMark(ReportStep(m, e), d)
  {
    var m' := ReportStep(m, Arrives(r, w, t, false, ds));
    assert r in m'.reports && m'.reports[r] == Report(w, t, false, ds);
  }

  /** With nothing running, a task that makes a report stale is finished; it is evicted. */
  lemma {:induction false} EvictFirst(m: Master, w: nat, t: G.Id)
    requires Settled(m) && Idle(m) && Stale(m, w, t)
    ensures var m1 := TaskStep(m, LostDataFail(t, {t}));
            && !Stale(m1, w, t) && m1.lookups == m.lookups && m1.owed == m.owed && m1.reports == m.reports
            && SamePending(m, m1)
  {
    assert !IsRunning(m, t);
    G.RemoveKeeps(m.graph, t);
    assert t !in m.graph.pending && t !in m.graph.ready;
  }

  /** The graph has changed in nothing but finished tasks. */
  ghost predicate SamePending(m: Master, m': Master) {
    && m'.graph == m.graph.(completed := m'.graph.completed)
    && forall p :: p in m.graph.deps ==> (p in m'.graph.completed <==> p in m.graph.completed)
  }

  lemma {:induction false} OwedReportComes(m: Master, ds: set<G.Data>) returns (es: seq<Event>, m': Master)
    requires m.owed != multiset{} && Settled(m) && Idle(m)
    ensures Leads(m, es, m') && CalmRun(es) && SamePending(m, m') && m'.lookups == m.lookups
    ensures forall d :: d in ds ==> CanMark(m', d)
  {
    hide TaskStep, ReportStep, ReportEnabled, Stale, CanMark, Settled, Idle;
    var pair :| pair in m.owed;
    var w, t := pair.0, pair.1;
    var r := FreshNumber(m.reports.Keys);
    var evict, arrive := OnTask(LostDataFail(t, {t})), OnReport(Arrives(r, w, t, false, ds));
    if Stale(m, w, t) {
      EvictFirst(m, w, t);
      var m1 := Step(m, evict);
      AcceptOwed(m1, r, w, t, ds);
      m' := Step(m1, arrive);
      OneStep(m, evict);
      OneStep(m1, arrive);
      es := [evict] + [arrive];
      LeadsBoth(m, [evict], m1, [arrive], m');
    } else {
      AcceptOwed(m, r, w, t, ds);
      m' := Step(m, arrive);
      OneStep(m, arrive);
      es := [arrive];
    }
  }

  /** Everything reachable is available or about to be marked. */
  lemma {:induction false} Supply(m: Master, inputs: seq<G.Data>, d: G.Data) returns (es: seq<Event>, m': Master)
    requires Reachable(m, inputs) && Settled(m) && Idle(m)
    ensures Leads(m, es, m') && CalmRun(es) && SamePending(m, m') && m'.lookups == m.lookups
    ensures forall x :: x in inputs ==> x in m'.graph.available || CanMark(m', x)
    ensures Covered(m, d) ==> CanMark(m', d)
  {
    if m.owed != multiset{} {
      es, m' := OwedReportComes(m, {d} + set x | x in inputs);
    } else {
      es, m' := [], m;
      LeadsNone(m);
    }
  }

  lemma {:induction false} PendingCanRun(m: Master, t: G.Id, d: G.Data) returns (es: seq<Event>, m': Master)
    requires PendingHope(m, t, d) && Settled(m) && Idle(m)
    ensures Leads(m, es, m') && CalmRun(es) && m'.graph.ready != {}
  {
    var inputs := m.graph.deps[t];
    var es1, m1 := Supply(m, inputs, d);
    var es2, m2 := MarkAll(m1, inputs, t, d);
    var r :| r in m2.reports && !m2.reports[r].failed && d in m2.reports[r].unmarked;
    var e := OnReport(Marks(r, d));
    MarkStep(m2, r, d, t, d);
    OneStep(m2, e);
    m' := Step(m2, e);
    assert t in m'.graph.ready;
    LeadsBoth(m, es1, m1, es2, m2);
    LeadsBoth(m, es1 + es2, m2, [e], m');
    es := es1 + es2 + [e];
  }

  lemma {:induction false} RequeuedReady(m: Master, w: nat, t: G.Id)
    requires (w, t) in m.lookups && G.AllMet(m.graph.available, m.lookups[(w, t)])
    ensures Enabled(m, OnRecovery(Requeue(w, t))) && t in Step(m, OnRecovery(Requeue(w, t))).graph.ready
  {
  }

  lemma {:induction false} LookupCanRun(m: Master, w: nat, t: G.Id) returns (es: seq<Event>, m': Master)
    requires LookupHope(m, w, t) && Settled(m) && Idle(m)
    ensures Leads(m, es, m') && CalmRun(es) && m'.graph.ready != {}
  {
    var inputs := m.lookups[(w, t)];
    var d := NotAmong(inputs);
    var es1, m1 := Supply(m, inputs, d);
    var es2, m2 := MarkAll(m1, inputs, t, d);
    var e := OnRecovery(Requeue(w, t));
    RequeuedReady(m2, w, t);
    OneStep(m2, e);
    m' := Step(m2, e);
    LeadsBoth(m, es1, m1, es2, m2);
    LeadsBoth(m, es1 + es2, m2, [e], m');
    es := es1 + es2 + [e];
  }

  /** Some name is not among the given ones. */
  lemma {:induction false} NotAmong(names: seq<G.Data>) returns (d: G.Data)
    ensures d != "" && forall x :: x in names ==> |x| < |d|
    decreases |names|
  {
    if names == [] {
      d := "x";
    } else {
      var d' := NotAmong(names[1..]);
      d := d' + names[0];
    }
  }

  lemma {:induction false} ListedCanRun(m: Master, w: nat, t: G.Id) returns (es: seq<Event>, m': Master)
    requires ListedHope(m, w, t) && Settled(m) && Idle(m)
    ensures Leads(m, es, m') && CalmRun(es) && m'.graph.ready != {}
  {
    var e := OnRecovery(Lookup(w, t));
    var m1 := Step(m, e);
    OneStep(m, e);
    assert LookupHope(m1, w, t) by {
      assert forall d :: CanMark(m1, d) <==> CanMark(m, d);
    }
    forall u ensures !IsRunning(m1, u) {
      assert !IsRunning(m, u);
    }
    var es1;
    es1, m' := LookupCanRun(m1, w, t);
    LeadsBoth(m, [e], m1, es1, m');
    es := [e] + es1;
  }

  lemma {:induction false} HopeCanCome(m: Master)
    requires Hope(m) && Settled(m) && Idle(m)
    ensures exists es :: IsRun(m, es) && CalmRun(es) && After(m, es).graph.ready != {}
  {
    var es, m';
    if t, d :| PendingHope(m, t, d) {
      es, m' := PendingCanRun(m, t, d);
    } else if w, t :| ListedHope(m, w, t) {
      es, m' := ListedCanRun(m, w, t);
    } else {
      var w, t :| LookupHope(m, w, t);
      es, m' := LookupCanRun(m, w, t);
    }
    assert IsRun(m, es) && CalmRun(es) && After(m, es).graph.ready != {};
  }

  ghost predicate MakesReady(m: Master, es: seq<Event>) { IsRun(m, es) && After(m, es).graph.ready != {} }

  /** With nothing ready and nothing running, the verdict is wrong exactly when a pending or about to
      be requeued task has hope: then some calm run makes a task ready, and otherwise no run without
      submissions and outside writes ever does, whatever restarts forget. */
  lemma {:induction false} VerdictIsRightIff(m: Master)
    requires Idle(m) && Settled(m)
    ensures Hope(m) <==> exists es :: MakesReady(m, es) && CalmRun(es)
    ensures Hope(m) <==> exists es :: MakesReady(m, es) && QuietRun(es)
  {
    if Hope(m) {
      HopeCanCome(m);
      var es :| IsRun(m, es) && CalmRun(es) && After(m, es).graph.ready != {};
      assert MakesReady(m, es) && QuietRun(es);
    } else {
      forall es | IsRun(m, es) && QuietRun(es) ensures !MakesReady(m, es) {
        HopelessForever(m, es);
      }
      assert forall es :: CalmRun(es) ==> QuietRun(es);
    }
  }

  /** In particular the verdict is right when every execution was reported, every report has marked
      what it wrote, and every task a handler will requeue misses an input. */
  lemma {:induction false} VerdictIsSound(m: Master, es: seq<Event>)
    requires Unresolvable(m) && m.owed == multiset{} && (forall d :: !CanMark(m, d))
    requires forall w, t :: Recovers(m, w, t) && t in m.meta ==> !G.AllMet(m.graph.available, m.meta[t].inputs)
    requires forall k :: k in m.lookups ==> !G.AllMet(m.graph.available, m.lookups[k])
    requires IsRun(m, es) && QuietRun(es)
    ensures After(m, es).graph.ready == {}
  {
    assert forall inputs :: Reachable(m, inputs) ==> G.AllMet(m.graph.available, inputs);
    forall w: nat, t: G.Id ensures !LookupHope(m, w, t) {
      assert (w, t) in m.lookups ==> !G.AllMet(m.graph.available, m.lookups[(w, t)]);
    }
    assert !Hope(m);
    HopelessForever(m, es);
  }

  // ---------------------------------------------------------------------------
  // A report marks its data before its task leaves RUNNING
  // ---------------------------------------------------------------------------

  /** The report r about task t is being handled and has writes still to mark, or all of them are
      marked. */
  ghost predicate MarkedOrRunning(m: Master, r: nat, t: G.Id, writes: set<G.Data>) {
    || writes <= m.graph.available
    || (&& r in m.reports && m.reports[r].t == t && !m.reports[r].failed
        && writes <= m.graph.available + m.reports[r].unmarked && IsRunning(m, t) && t !in G.Tasks(m.graph))
  }

  /** The step takes t away from the run that is being reported, or loses written data. */
  ghost predicate Interferes(m: Master, e: Event, r: nat, t: G.Id, writes: set<G.Data>)
    requires Enabled(m, e)
  {
    match e
    case OnTask(FastExit(u, _)) => u == t
    case OnTask(LostDataFail(u, _)) => u == t
    case OnTask(Forget(u)) => u == t
    case OnData(Vanishes(d)) => d in writes
    case OnReport(ApplyComplete(q, _)) => q != r && m.reports[q].t == t
    case OnReport(ApplyFailed(q, _)) => q != r && m.reports[q].t == t
    case OnRecovery(Requeue(_, u)) => u == t
    case OnRecovery(DrainFail(_, u, _)) => u == t
    case OnRecovery(ExitFail(_, u, _)) => u == t
    case _ => false
  }

  ghost predicate NoInterference(m: Master, es: seq<Event>, r: nat, t: G.Id, writes: set<G.Data>)
    requires IsRun(m, es)
    decreases |es|
  {
    es == [] || (!Interferes(m, es[0], r, t, writes) && NoInterference(Step(m, es[0]), es[1..], r, t, writes))
  }

  /** What a scheduling section does not touch. */
  lemma {:induction false} ScheduleFrame(m: Master, e: TaskEvent)
    requires e.Schedule?
    ensures TaskStep(m, e).graph.available == m.graph.available && TaskStep(m, e).reports == m.reports
  {
  }

  lemma {:induction false} FailsOthers(m: Master, ts: set<G.Id>, t: G.Id)
    requires IsRunning(m, t) && t !in ts
    ensures IsRunning(FailTasks(m, ts), t)
  {
  }

  lemma {:induction false} ScheduleLeavesRunning(m: Master, e: TaskEvent, t: G.Id)
    requires G.Valid(m.graph) && e.Schedule? && TaskEnabled(m, e) && IsRunning(m, t) && t !in G.Tasks(m.graph)
    ensures IsRunning(TaskStep(m, e), t)
  {
    NotAssigned(m, OnTask(e), t);
    var m1 := Assign(Decide(m, e.picks), e.picks);
    PartsAreTasks(m.graph);
    RemoveAllKeeps(m.graph, Picked(e.picks));
    NotPicked(m, e.picks, t);
    assert IsRunning(m1, t) && t !in m1.graph.pending && t !in m1.graph.ready;
    hide Assign, Decide, LegalPicks, G.Valid, RemoveAll;
    assert !Unresolvable(m1);
    assert Judge(m1) == m1;
    FailsOthers(m1, e.deadlocked, t);
  }

  lemma {:induction false} TaskKeepsMarks(m: Master, e: TaskEvent, r: nat, t: G.Id, writes: set<G.Data>)
    requires G.Valid(m.graph) && MarkedOrRunning(m, r, t, writes) && TaskEnabled(m, e)
    requires !Interferes(m, OnTask(e), r, t, writes)
    ensures MarkedOrRunning(TaskStep(m, e), r, t, writes)
  {
    if e.Schedule? {
      ScheduleFrame(m, e);
      if r in m.reports && IsRunning(m, t) && t !in G.Tasks(m.graph) {
        ScheduleLeavesRunning(m, e, t);
        ScheduleKeepsValid(m, e);
      }
      hide TaskStep, TaskEnabled, G.Valid;
    } else {
      hide TaskEnabled, ScheduleSection, G.Valid, G.Misses, G.Entries;
    }
  }

  lemma {:induction false} ReportKeepsMarks(m: Master, e: ReportEvent, r: nat, t: G.Id, writes: set<G.Data>)
    requires MarkedOrRunning(m, r, t, writes) && ReportEnabled(m, e)
    requires !Interferes(m, OnReport(e), r, t, writes)
    ensures MarkedOrRunning(ReportStep(m, e), r, t, writes)
  {
    hide G.Entries, G.Promoted;
  }

  lemma {:induction false} RecoveryKeepsMarks(m: Master, e: RecoveryEvent, r: nat, t: G.Id, writes: set<G.Data>)
    requires MarkedOrRunning(m, r, t, writes) && RecoveryEnabled(m, e)
    requires !Interferes(m, OnRecovery(e), r, t, writes)
    ensures MarkedOrRunning(RecoveryStep(m, e), r, t, writes)
  {
    hide G.Entries, G.Misses, G.AllMet;
  }

  lemma {:induction false} DataKeepsMarks(m: Master, e: DataEvent, r: nat, t: G.Id, writes: set<G.Data>)
    requires MarkedOrRunning(m, r, t, writes) && (e.Vanishes? ==> e.d !in writes)
    ensures MarkedOrRunning(DataStep(m, e), r, t, writes)
  {
  }

  lemma {:induction false} WorkerKeepsMarks(m: Master, e: WorkerEvent, r: nat, t: G.Id, writes: set<G.Data>)
    requires MarkedOrRunning(m, r, t, writes)
    ensures MarkedOrRunning(WorkerStep(m, e), r, t, writes)
  {
  }

  lemma {:induction false} StepKeepsMarks(m: Master, e: Event, r: nat, t: G.Id, writes: set<G.Data>)
    requires G.Valid(m.graph) && MarkedOrRunning(m, r, t, writes) && Enabled(m, e)
    requires !Interferes(m, e, r, t, writes)
    ensures MarkedOrRunning(Step(m, e), r, t, writes)
  {
    hide TaskStep, DataStep, ReportStep, WorkerStep, RecoveryStep, TaskEnabled, ReportEnabled, RecoveryEnabled, G.Valid,
      MarkedOrRunning;
    match e
    case OnTask(x) => TaskKeepsMarks(m, x, r, t, writes);
    case OnData(x) => DataKeepsMarks(m, x, r, t, writes);
    case OnReport(x) => ReportKeepsMarks(m, x, r, t, writes);
    case OnWorker(x) => WorkerKeepsMarks(m, x, r, t, writes);
    case OnRecovery(x) => RecoveryKeepsMarks(m, x, r, t, writes);
  }

  lemma {:induction false} RunKeepsMarks(m: Master, es: seq<Event>, r: nat, t: G.Id, writes: set<G.Data>)
    requires G.Valid(m.graph) && MarkedOrRunning(m, r, t, writes) && IsRun(m, es)
    requires NoInterference(m, es, r, t, writes)
    ensures MarkedOrRunning(After(m, es), r, t, writes)
    decreases |es|
  {
    hide G.Valid, MarkedOrRunning, Enabled, Step, Interferes;
    if es != [] {
      StepKeepsMarks(m, es[0], r, t, writes);
      StepKeepsValid(m, es[0]);
      RunKeepsMarks(Step(m, es[0]), es[1..], r, t, writes);
    }
  }

  /** From the moment the completion report of a running task is accepted, as long as nobody else
      takes the task and nothing it wrote is lost: whenever no task is running, and whenever the
      report can be applied, everything the task wrote is available. So the verdict never falls
      between the end of a task and the arrival of its data. */
  lemma {:induction false} MarkedBeforeLeaving(m: Master, e: ReportEvent, es: seq<Event>)
    requires G.Valid(m.graph) && e.Arrives? && !e.failed && ReportEnabled(m, e)
    requires IsRunning(m, e.t) && m.meta[e.t].worker == e.w && e.t !in G.Tasks(m.graph)
    requires IsRun(ReportStep(m, e), es) && NoInterference(ReportStep(m, e), es, e.r, e.t, e.writes)
    ensures var m' := After(ReportStep(m, e), es);
            && (NoneRunning(m') ==> e.writes <= m'.graph.available)
            && (forall evict :: Enabled(m', OnReport(ApplyComplete(e.r, evict))) ==> e.writes <= m'.graph.available)
  {
    RunKeepsMarks(ReportStep(m, e), es, e.r, e.t, e.writes);
  }

  /** With the assignment outside the decision's section, the verdict could be passed in between:
      a decided task is neither in the graph nor running, although it is about to produce data. */
  lemma {:induction false} SplitSectionMisjudges(m: Master, t: G.Id, w: nat, p: G.Id, d: G.Data)
    requires G.Valid(m.graph) && NoneRunning(m) && m.graph.ready == {t} && LegalPicks(m, [Pick(t, w, true)])
    requires t in m.meta && p in m.graph.pending && p in m.graph.deps && d in m.graph.deps[p]
    requires (d, p) in m.graph.index && p !in m.graph.completed && G.AllMet(m.graph.available + {d}, m.graph.deps[p])
    ensures var between := Decide(m, [Pick(t, w, true)]);
            && Unresolvable(between)
            && var later := Assign(between, [Pick(t, w, true)]);
            && !Unresolvable(later) && Enabled(later, OnData(TaskWrites(t, d)))
            && p in Step(later, OnData(TaskWrites(t, d))).graph.ready
  {
    var picks := [Pick(t, w, true)];
    var between := Decide(m, picks);
    forall u ensures !IsRunning(between, u) {
      assert !IsRunning(m, u);
    }
    assert picks[0] in picks;
    assert Picked(picks) == {t} by { assert picks[0].t == t; }
    RemoveAllKeeps(m.graph, {t});
    assert p != t && p in between.graph.pending;
    var later := Assign(between, picks);
    assert IsRunning(later, t);
    assert (d, p) in between.graph.index;
    assert p in G.Promoted(later.graph, d);
  }
}
