/**
 Runs of the master that show where a promise ends: what can go wrong between two sections of one
 handler. All of them begin alike: task 1 runs on worker 5, task 2 waits for "x", and then
 worker 5 is declared dead and its handler has looked task 1 up.
 */
module Scenarios {
  import opened TaskLifecycle
  import opened LateReports
  import opened Verdict
  import G = DependencyGraphs

  /** Task 2 waits for "x"; task 1 is ready or out of the graph. */
  ghost function TwoTasks(ready: bool, completed: set<G.Id>): G.Graph {
    if ready then G.Graph(map[1 := [], 2 := ["x"]], {}, {1}, {2}, completed, {("x", 2)})
    else G.Graph(map[2 := ["x"]], {}, {}, {2}, completed, {("x", 2)})
  }

  ghost function Metas(one: Meta): map<G.Id, Meta> { map[1 := one, 2 := Meta(PENDING, 0, ["x"])] }

  /** Assigning one ready task. */
  lemma {:induction false} SinglePick(m: Master, t: G.Id, w: nat)
    requires t in m.graph.ready && t in m.meta && w > 0 && w in m.workers && m.workers[w] == IDLE
    ensures var e := OnTask(Schedule([Pick(t, w, true)], {}, {}));
            && Enabled(m, e)
            && Step(m, e) == m.(graph := G.RemoveTask(m.graph, t), workers := m.workers[w := BUSY],
                                meta := m.meta[t := m.meta[t].(status := RUNNING, worker := w)],
                                owed := m.owed + multiset{(w, t)})
  {
    var picks := [Pick(t, w, true)];
    var m1 := Assign(Decide(m, picks), picks);
    assert picks[0] in picks;
    assert Picked(picks) == {t} && Chosen(picks) == {w} by { assert picks[0].t == t && picks[0].w == w; }
    assert Sent(picks) == multiset{(w, t)} by { assert picks[1..] == []; }
    assert m1.meta == m.meta[t := m.meta[t].(status := RUNNING, worker := w)];
    assert m1.workers == m.workers[w := BUSY];
    assert m1.graph == G.RemoveTask(m.graph, t);
    assert IsRunning(m1, t);
    FailNone(m1);
  }

  lemma {:induction false} FailNone(m: Master)
    ensures FailTasks(m, {}) == m && Evicted(m.meta, {}) == m.meta
  {
  }

  ghost function Prelude(): seq<Event> {
    [OnTask(Submit(1, [])), OnTask(Submit(2, ["x"])), OnWorker(Register(5)), OnWorker(Register(6)),
     OnTask(Schedule([Pick(1, 5, true)], {}, {}))]
  }

  ghost function Start(): seq<Event> { Prelude() + [OnWorker(MarkDead(5)), OnRecovery(Lookup(5, 1))] }

  ghost function LookedUp(): Master {
    Master(TwoTasks(false, {1}), Metas(Meta(RUNNING, 5, [])), map[5 := DEAD, 6 := IDLE], map[5 := {1}],
           map[(5, 1) := []], multiset{(5, 1)}, map[], false)
  }

  ghost function Submitted(): Master {
    Master(TwoTasks(true, {}), Metas(Meta(PENDING, 0, [])), map[5 := IDLE, 6 := IDLE], map[], map[], multiset{},
           map[], false)
  }

  ghost function Running(): Master {
    Master(TwoTasks(false, {1}), Metas(Meta(RUNNING, 5, [])), map[5 := BUSY, 6 := IDLE], map[], map[],
           multiset{(5, 1)}, map[], false)
  }

  lemma {:induction false} StartSubmits()
    ensures var m1 := TaskStep(Begin(), Submit(1, []));
            && TaskEnabled(Begin(), Submit(1, [])) && TaskEnabled(m1, Submit(2, ["x"]))
            && var m2 := TaskStep(m1, Submit(2, ["x"]));
            WorkerStep(WorkerStep(m2, Register(5)), Register(6)) == Submitted()
  {
  }

  lemma {:induction false} StartSchedules()
    ensures var e := OnTask(Schedule([Pick(1, 5, true)], {}, {}));
            Enabled(Submitted(), e) && Step(Submitted(), e) == Running()
  {
    hide Step, Enabled;
    SinglePick(Submitted(), 1, 5);
    TaskOneGoes({});
    assert Metas(Meta(PENDING, 0, []))[1 := Meta(RUNNING, 5, [])] == Metas(Meta(RUNNING, 5, []));
  }

  lemma {:induction false} TaskOneGoes(completed: set<G.Id>)
    ensures G.RemoveTask(TwoTasks(true, completed), 1) == TwoTasks(false, completed + {1})
  {
  }

  lemma {:induction false} TaskOneReturns(completed: set<G.Id>)
    ensures G.AddTask(G.RemoveTask(TwoTasks(false, completed), 1), 1, []) == TwoTasks(true, completed + {1})
  {
  }

  lemma {:induction false} StartLooksUp()
    ensures var m6 := WorkerStep(Running(), MarkDead(5));
            RecoveryEnabled(m6, Lookup(5, 1)) && RecoveryStep(m6, Lookup(5, 1)) == LookedUp()
  {
    assert RunningOn(Running(), 5) == {1} && RunningOn(Running(), 5) + {} == {1};
    var m6 := WorkerStep(Running(), MarkDead(5));
    assert m6.recovering == map[5 := {1}] && m6.workers == map[5 := DEAD, 6 := IDLE];
  }

  lemma {:induction false} PreludeLeads()
    ensures Leads(Begin(), Prelude(), Running())
  {
    StartSubmits();
    StartSchedules();
    hide TaskStep, WorkerStep, TaskEnabled, Begin, Submitted, Running;
    var s := Prelude();
    var m1 := Step(Begin(), s[0]);
    var m2 := Step(m1, s[1]);
    var m3 := Step(m2, s[2]);
    assert s == [s[0]] + ([s[1]] + ([s[2]] + ([s[3]] + ([s[4]] + []))));
    LeadsNone(Running());
    LeadsFirst(Submitted(), s[4], [], Running());
    LeadsFirst(m3, s[3], [s[4]] + [], Running());
    LeadsFirst(m2, s[2], [s[3]] + ([s[4]] + []), Running());
    LeadsFirst(m1, s[1], [s[2]] + ([s[3]] + ([s[4]] + [])), Running());
    LeadsFirst(Begin(), s[0], [s[1]] + ([s[2]] + ([s[3]] + ([s[4]] + []))), Running());
  }

  lemma {:induction false} StartLeads()
    ensures Leads(Begin(), Start(), LookedUp())
  {
    hide WorkerStep, RecoveryStep, RecoveryEnabled, Begin, Running, LookedUp, Prelude;
    StartLooksUp();
    var dead, lookup := OnWorker(MarkDead(5)), OnRecovery(Lookup(5, 1));
    var m6 := Step(Running(), dead);
    OneStep(Running(), dead);
    OneStep(m6, lookup);
    PreludeLeads();
    hide Step, Enabled;
    LeadsBoth(Running(), [dead], m6, [lookup], LookedUp());
    assert [dead, lookup] == [dead] + [lookup];
    LeadsBoth(Begin(), Prelude(), Running(), [dead, lookup], LookedUp());
  }

  // ---------------------------------------------------------------------------
  // The heartbeat monitor orphans a task
  // ---------------------------------------------------------------------------

  ghost function SilentRun(): seq<Event> { Prelude() + [OnWorker(Silent(5))] }

  /** Worker 5 falls silent with its connection open: it is marked dead, task 1 runs on it, and no
      handler has task 1 on its list. */
  lemma {:induction false} SilentWorkerOrphans()
    ensures IsRun(Begin(), SilentRun())
    ensures var m := After(Begin(), SilentRun());
            IsGone(m, 5) && 5 !in m.recovering && RunningOn(m, 5) == {1} && !NoOrphan(m)
  {
    SilentEffect();
    hide WorkerStep, Begin, Running, Prelude;
    var silent := OnWorker(Silent(5));
    OneStep(Running(), silent);
    PreludeLeads();
    hide Step, Enabled;
    LeadsBoth(Begin(), Prelude(), Running(), [silent], WorkerStep(Running(), Silent(5)));
  }

  lemma {:induction false} SilentEffect()
    ensures var m := WorkerStep(Running(), Silent(5));
            IsGone(m, 5) && 5 !in m.recovering && RunningOn(m, 5) == {1} && !NoOrphan(m)
  {
    var m := WorkerStep(Running(), Silent(5));
    assert 1 in RunningOn(m, 5) && !Recovers(m, 5, 1);
  }

  // ---------------------------------------------------------------------------
  // The metadata is evicted between lookup and requeue
  // ---------------------------------------------------------------------------

  ghost function LateReport(): seq<Event> { [OnReport(Arrives(9, 5, 1, false, {}))] }

  ghost function Accepted(): Master {
    LookedUp().(workers := map[5 := IDLE, 6 := IDLE], owed := multiset{}, reports := map[9 := Report(5, 1, false, {})])
  }

  lemma {:induction false} LateReportIsAccepted()
    ensures Leads(LookedUp(), LateReport(), Accepted())
  {
    var e := Arrives(9, 5, 1, false, {});
    assert ReportStep(LookedUp(), e) == Accepted();
    OneStep(LookedUp(), OnReport(e));
  }

  /** The late report of worker 5 completes task 1, whose metadata is evicted; the requeue that
      was already under way then adds task 1 to the graph again. */
  ghost function EvictedRun(): seq<Event> {
    Start() + LateReport() + [OnReport(ApplyComplete(9, {1})), OnRecovery(Requeue(5, 1))]
  }

  lemma {:induction false} AppliedAndEvicted()
    ensures ReportEnabled(Accepted(), ApplyComplete(9, {1}))
    ensures var m := ReportStep(Accepted(), ApplyComplete(9, {1}));
            1 !in m.meta && (5, 1) in m.lookups
  {
  }

  lemma {:induction false} RequeuedAnyway(m: Master)
    requires 1 !in m.meta && (5, 1) in m.lookups
    ensures RecoveryEnabled(m, Requeue(5, 1))
    ensures var m' := RecoveryStep(m, Requeue(5, 1));
            1 in G.Tasks(m'.graph) && 1 !in m'.meta
  {
  }

  lemma {:induction false} TablesCanDiverge()
    ensures IsRun(Begin(), EvictedRun())
    ensures var m := After(Begin(), EvictedRun());
            1 in G.Tasks(m.graph) && 1 !in m.meta && !Agree(m)
  {
    hide ReportStep, ReportEnabled, RecoveryStep, RecoveryEnabled, Begin, LookedUp, Accepted, Start, LateReport;
    var apply, requeue := OnReport(ApplyComplete(9, {1})), OnRecovery(Requeue(5, 1));
    AppliedAndEvicted();
    var m1 := ReportStep(Accepted(), apply.report);
    RequeuedAnyway(m1);
    var m2 := RecoveryStep(m1, requeue.recovery);
    OneStep(Accepted(), apply);
    OneStep(m1, requeue);
    StartLeads();
    LateReportIsAccepted();
    hide Step, Enabled;
    LeadsBoth(Begin(), Start(), LookedUp(), LateReport(), Accepted());
    LeadsBoth(Accepted(), [apply], m1, [requeue], m2);
    assert [apply, requeue] == [apply] + [requeue];
    LeadsBoth(Begin(), Start() + LateReport(), Accepted(), [apply, requeue], m2);
  }

  // ---------------------------------------------------------------------------
  // The task is given away between check and application
  // ---------------------------------------------------------------------------

  /** The report of worker 5 is accepted, task 1 is requeued and given to worker 6. */
  ghost function RaceRun(): seq<Event> {
    Start() + LateReport() + [OnRecovery(Requeue(5, 1)), OnTask(Schedule([Pick(1, 6, true)], {}, {}))]
  }

  ghost function Requeued(): Master {
    Accepted().(graph := TwoTasks(true, {1}), meta := Metas(Meta(PENDING, 0, [])),
                recovering := map[5 := {}], lookups := map[])
  }

  lemma {:induction false} AcceptedRequeues()
    ensures RecoveryEnabled(Accepted(), Requeue(5, 1)) && RecoveryStep(Accepted(), Requeue(5, 1)) == Requeued()
  {
    TaskOneReturns({1});
    assert {1} - {1} == {} && {1} + {1} == {1};
    assert Metas(Meta(RUNNING, 5, []))[1 := Meta(PENDING, 0, [])] == Metas(Meta(PENDING, 0, []));
    assert Accepted().lookups - {(5, 1)} == map[];
  }

  ghost function GivenAway(): Master {
    Requeued().(graph := TwoTasks(false, {1}), workers := map[5 := IDLE, 6 := BUSY],
                meta := Metas(Meta(RUNNING, 6, [])),
                owed := multiset{(6, 1)})
  }

  lemma {:induction false} RequeuedIsGivenAway()
    ensures var e := OnTask(Schedule([Pick(1, 6, true)], {}, {}));
            Enabled(Requeued(), e) && Step(Requeued(), e) == GivenAway()
  {
    hide Step, Enabled;
    SinglePick(Requeued(), 1, 6);
    TaskOneGoes({1});
    assert {1} + {1} == {1};
    assert Metas(Meta(PENDING, 0, []))[1 := Meta(RUNNING, 6, [])] == Metas(Meta(RUNNING, 6, []));
  }

  lemma {:induction false} RaceIsReachable()
    ensures Leads(Begin(), RaceRun(), GivenAway())
    ensures GivenAway().reports == map[9 := Report(5, 1, false, {})] && Stale(GivenAway(), 5, 1)
    ensures ReportEnabled(GivenAway(), ApplyComplete(9, {}))
    ensures TakesFromOther(GivenAway(), ReportStep(GivenAway(), ApplyComplete(9, {})), 5)
  {
    RaceRunLeads();
    assert IsRunning(GivenAway(), 1);
    hide TakesFromOther, Leads;
    ApplyTakesFromOtherIff(GivenAway(), ApplyComplete(9, {}));
  }

  lemma {:induction false} RaceRunLeads()
    ensures Leads(Begin(), RaceRun(), GivenAway())
  {
    hide RecoveryStep, RecoveryEnabled, Begin, LookedUp, Accepted, Requeued, GivenAway, Start, LateReport, TaskStep,
      TaskEnabled;
    var requeue, schedule := OnRecovery(Requeue(5, 1)), OnTask(Schedule([Pick(1, 6, true)], {}, {}));
    AcceptedRequeues();
    OneStep(Accepted(), requeue);
    RequeuedIsGivenAway();
    OneStep(Requeued(), schedule);
    StartLeads();
    LateReportIsAccepted();
    hide Step, Enabled;
    LeadsBoth(Begin(), Start(), LookedUp(), LateReport(), Accepted());
    LeadsBoth(Accepted(), [requeue], Requeued(), [schedule], GivenAway());
    assert [requeue, schedule] == [requeue] + [schedule];
    LeadsBoth(Begin(), Start() + LateReport(), Accepted(), [requeue, schedule], GivenAway());
  }

  // ---------------------------------------------------------------------------
  // The verdict is passed too early
  // ---------------------------------------------------------------------------

  /** Task 1 is requeued and fails because no worker can take it; the verdict on task 2 is due
      although worker 5 still owes its report. */
  ghost function EarlyRun(): seq<Event> {
    Start() + [OnRecovery(Requeue(5, 1)), OnTask(Schedule([], {1}, {}))]
  }

  ghost function Waiting(): Master {
    LookedUp().(graph := TwoTasks(true, {1}), meta := Metas(Meta(PENDING, 0, [])),
                recovering := map[5 := {}], lookups := map[])
  }

  ghost function Judged(): Master {
    Waiting().(graph := TwoTasks(false, {1}), meta := Metas(Meta(FAILED, 0, [])))
  }

  lemma {:induction false} WaitingFollows()
    ensures RecoveryEnabled(LookedUp(), Requeue(5, 1)) && RecoveryStep(LookedUp(), Requeue(5, 1)) == Waiting()
  {
    TaskOneReturns({1});
    assert {1} - {1} == {} && {1} + {1} == {1};
    assert Metas(Meta(RUNNING, 5, []))[1 := Meta(PENDING, 0, [])] == Metas(Meta(PENDING, 0, []));
    assert LookedUp().lookups - {(5, 1)} == map[];
  }

  lemma {:induction false} JudgedFollows()
    ensures TaskEnabled(Waiting(), Schedule([], {1}, {})) && TaskStep(Waiting(), Schedule([], {1}, {})) == Judged()
  {
    var m := Waiting();
    NothingPicked(m);
    assert Judge(m) == m;
    RemoveNone(m.graph);
    RemoveAllStep(m.graph, {}, 1);
    TaskOneGoes({1});
    assert {} + {1} == {1} && {1} + {1} == {1};
    assert FailAll(m.meta, {1}) == Metas(Meta(FAILED, 0, []));
    assert Evicted(Metas(Meta(FAILED, 0, [])), {}) == Metas(Meta(FAILED, 0, []));
  }

  lemma {:induction false} EarlyRunLeads()
    ensures Leads(Begin(), EarlyRun(), Judged())
  {
    hide RecoveryStep, TaskStep, RecoveryEnabled, TaskEnabled, Begin, LookedUp, Waiting, Judged, Start;
    var requeue, schedule := OnRecovery(Requeue(5, 1)), OnTask(Schedule([], {1}, {}));
    WaitingFollows();
    JudgedFollows();
    OneStep(LookedUp(), requeue);
    OneStep(Waiting(), schedule);
    StartLeads();
    hide Step, Enabled;
    LeadsBoth(LookedUp(), [requeue], Waiting(), [schedule], Judged());
    assert [requeue, schedule] == [requeue] + [schedule];
    LeadsBoth(Begin(), Start(), LookedUp(), [requeue, schedule], Judged());
  }

  lemma {:induction false} ReportStillComes()
    ensures ReportEnabled(Judged(), Arrives(9, 5, 1, false, {"x"}))
    ensures var m1 := ReportStep(Judged(), Arrives(9, 5, 1, false, {"x"}));
            ReportEnabled(m1, Marks(9, "x")) && 2 in ReportStep(m1, Marks(9, "x")).graph.ready
  {
    var m1 := ReportStep(Judged(), Arrives(9, 5, 1, false, {"x"}));
    assert m1.graph == TwoTasks(false, {1}) && m1.reports[9] == Report(5, 1, false, {"x"});
    assert 2 in G.Promoted(m1.graph, "x");
  }

  lemma {:induction false} TwoReportSteps(m: Master, e: ReportEvent, f: ReportEvent)
    requires ReportEnabled(m, e) && ReportEnabled(ReportStep(m, e), f)
    ensures Leads(m, [OnReport(e), OnReport(f)], ReportStep(ReportStep(m, e), f))
    ensures CalmRun([OnReport(e), OnReport(f)])
  {
    hide ReportEnabled, ReportStep;
    var m1 := ReportStep(m, e);
    OneStep(m, OnReport(e));
    OneStep(m1, OnReport(f));
    assert [OnReport(e), OnReport(f)] == [OnReport(e)] + [OnReport(f)];
    LeadsBoth(m, [OnReport(e)], m1, [OnReport(f)], ReportStep(m1, f));
  }

  /** The verdict would be passed, and yet the report comes and makes task 2 ready. */
  lemma {:induction false} LateReportDefiesVerdict()
    ensures Leads(Begin(), EarlyRun(), Judged()) && Unresolvable(Judged())
    ensures var late := [OnReport(Arrives(9, 5, 1, false, {"x"})), OnReport(Marks(9, "x"))];
            IsRun(Judged(), late) && CalmRun(late) && 2 in After(Judged(), late).graph.ready
  {
    hide *;
    EarlyRunLeads();
    JudgedIsIdle();
    ReportStillComes();
    TwoReportSteps(Judged(), Arrives(9, 5, 1, false, {"x"}), Marks(9, "x"));
    LeadsMeans(Judged(), [OnReport(Arrives(9, 5, 1, false, {"x"})), OnReport(Marks(9, "x"))],
               ReportStep(ReportStep(Judged(), Arrives(9, 5, 1, false, {"x"})), Marks(9, "x")));
  }

  lemma {:induction false} JudgedIsIdle()
    ensures Unresolvable(Judged())
  {
  }

  lemma {:induction false} LeadsMeans(m: Master, es: seq<Event>, m': Master)
    requires Leads(m, es, m')
    ensures IsRun(m, es) && After(m, es) == m'
  {
  }

  ghost function Alone(): Master {
    Begin().(graph := TwoTasks(false, {}), meta := map[2 := Meta(PENDING, 0, ["x"])])
  }

  lemma {:induction false} AloneFollows()
    ensures TaskEnabled(Begin(), Submit(2, ["x"])) && TaskStep(Begin(), Submit(2, ["x"])) == Alone()
  {
  }

  lemma {:induction false} AloneIsJudged()
    ensures TaskEnabled(Alone(), Schedule([], {}, {}))
    ensures var judged := TaskStep(Alone(), Schedule([], {}, {}));
            2 in judged.meta && judged.meta[2].status == FAILED && 2 !in DataStep(judged, OutsideWrite("x")).graph.ready
  {
    NothingPicked(Alone());
    assert Unresolvable(Alone());
    assert Judge(Alone()) == FailTasks(Alone(), {2});
    FailNone(FailTasks(Alone(), {2}));
  }

  /** A submission whose input the master itself is about to write is condemned at once. */
  lemma {:induction false} OutsideWriteDefiesVerdict()
    ensures TaskEnabled(Begin(), Submit(2, ["x"]))
    ensures var m := TaskStep(Begin(), Submit(2, ["x"]));
            && Unresolvable(m) && !Hope(m) && 2 in DataStep(m, OutsideWrite("x")).graph.ready
            && TaskEnabled(m, Schedule([], {}, {}))
            && var judged := TaskStep(m, Schedule([], {}, {}));
            && 2 in judged.meta && judged.meta[2].status == FAILED
            && 2 !in DataStep(judged, OutsideWrite("x")).graph.ready
  {
    AloneFollows();
    AloneIsJudged();
    hide TaskStep, TaskEnabled;
    assert 2 in G.Promoted(Alone().graph, "x");
  }
}
