/**
 The life of a task on the master (src/agent/cpp/master_agent.cpp): submission, scheduling,
 reports from workers, worker death and exit, lost data, fast exit.

 A task lives in two tables, the dependency graph and the task metadata. Every section under
 schedule_mutex_ is one step, and so is every action outside it that touches one table under its
 own lock; a handler is a series of such steps, and the steps of different handlers interleave
 freely.
 */
module TaskLifecycle {
  import opened Common
  import opened DependencyGraphs

  datatype Status = PENDING | RUNNING | COMPLETED | FAILED

  /** worker is the assigned worker, 0 for none. */
  datatype Meta = Meta(status: Status, worker: nat, inputs: seq<Data>)

  datatype WorkerStatus = IDLE | BUSY | DEAD | EXITED

  /** A report that passed the staleness check and is being handled; unmarked holds the written
      data its handler has not marked ready yet. */
  datatype Report = Report(w: nat, t: Id, failed: bool, unmarked: set<Data>)

  /** recovering holds what the death or exit handler of a worker still has to go through;
      lookups holds the inputs of the tasks such a handler has looked up and is about to requeue;
      owed holds the executions sent to workers and not reported yet; reports holds the reports
      being handled. */
  datatype Master = Master(graph: Graph, meta: map<Id, Meta>, workers: map<nat, WorkerStatus>,
                           recovering: map<nat, set<Id>>, lookups: map<(nat, Id), seq<Data>>,
                           owed: multiset<(nat, Id)>, reports: map<nat, Report>, draining: bool)

  /** A scheduling decision; connected tells whether assign_task_to_worker found the worker's
      connection. */
  datatype Pick = Pick(t: Id, w: nat, connected: bool)

  datatype TaskEvent =
    | Submit(t: Id, inputs: seq<Data>)
    | Schedule(picks: seq<Pick>, deadlocked: set<Id>, evict: set<Id>)
    | FastExit(t: Id, evict: set<Id>)
    | LostDataFail(t: Id, evict: set<Id>)
    | Forget(t: Id)

  /** Data becomes available because a running task wrote it or because it was written outside any
      task the master waits for. The handler of a report marks data, too. */
  datatype DataEvent = TaskWrites(t: Id, d: Data) | OutsideWrite(d: Data) | Vanishes(d: Data)

  datatype ReportEvent =
    | Arrives(r: nat, w: nat, t: Id, failed: bool, writes: set<Data>)
    | Marks(r: nat, d: Data)
    | ApplyComplete(r: nat, evict: set<Id>)
    | ApplyFailed(r: nat, evict: set<Id>)

  /** MarkDead and MarkExited are the sections of the death and exit handlers, which take their list.
      Silent is the mark of the heartbeat monitor, which takes none. Revive is a heartbeat of a
      worker that was gone when it was looked up; Internal and Cancelled are a backup or merge sent
      to a worker, and taken back. */
  datatype WorkerEvent =
    | Register(w: nat)
    | Reconnect(w: nat)
    | Revive(w: nat)
    | Internal(w: nat)
    | Cancelled(w: nat)
    | Silent(w: nat)
    | MarkDead(w: nat)
    | MarkExited(w: nat)
    | BeginDrain

  datatype RecoveryEvent =
    | Lookup(w: nat, t: Id)
    | Requeue(w: nat, t: Id)
    | DrainFail(w: nat, t: Id, evict: set<Id>)
    | ExitFail(w: nat, t: Id, evict: set<Id>)

  datatype Event =
    | OnTask(task: TaskEvent)
    | OnData(data: DataEvent)
    | OnReport(report: ReportEvent)
    | OnWorker(worker: WorkerEvent)
    | OnRecovery(recovery: RecoveryEvent)

  // ---------------------------------------------------------------------------
  // The two tables
  // ---------------------------------------------------------------------------

  ghost predicate IsRunning(m: Master, t: Id) { t in m.meta && m.meta[t].status == RUNNING }

  ghost function RunningOn(m: Master, w: nat): set<Id> {
    set t | t in m.meta && m.meta[t].status == RUNNING && m.meta[t].worker == w
  }

  ghost predicate NoneRunning(m: Master) { forall t :: !IsRunning(m, t) }

  ghost function WithStatus(meta: map<Id, Meta>, t: Id, status: Status): map<Id, Meta> {
    if t in meta then meta[t := meta[t].(status := status)] else meta
  }

  /** Terminal tasks may be evicted from the metadata whenever a task becomes terminal. */
  ghost function Evicted(meta: map<Id, Meta>, evict: set<Id>): (r: map<Id, Meta>)
    ensures forall t :: t in r ==> t in meta && r[t] == meta[t]
    ensures forall t :: t in meta && t !in r ==> meta[t].status == COMPLETED || meta[t].status == FAILED
  {
    map t | t in meta && !(t in evict && (meta[t].status == COMPLETED || meta[t].status == FAILED)) :: meta[t]
  }

  /** Removing several tasks from the graph, in any order. */
  ghost function RemoveAll(g: Graph, ts: set<Id>): Graph {
    g.(deps := g.deps - ts, ready := g.ready - ts, pending := g.pending - ts,
       completed := g.completed + ts, index := g.index - Entries(g, ts))
  }

  ghost function FailAll(meta: map<Id, Meta>, ts: set<Id>): (r: map<Id, Meta>)
    ensures r.Keys == meta.Keys
    ensures forall t :: t in r ==> r[t] == if t in ts then meta[t].(status := FAILED) else meta[t]
  {
    map t | t in meta :: if t in ts then meta[t].(status := FAILED) else meta[t]
  }

  ghost function Fail(m: Master, t: Id, evict: set<Id>): Master {
    m.(graph := RemoveTask(m.graph, t), meta := Evicted(WithStatus(m.meta, t, FAILED), evict))
  }

  // ---------------------------------------------------------------------------
  // The scheduling section
  // ---------------------------------------------------------------------------

  /** The scheduler picks ready tasks for idle workers, each task at most once; a worker can become
      idle again while the section goes on. */
  ghost predicate LegalPicks(m: Master, picks: seq<Pick>) {
    && (forall i :: 0 <= i < |picks| ==> picks[i].t in m.graph.ready && picks[i].w > 0
                                         && picks[i].w in m.workers && m.workers[picks[i].w] == IDLE)
    && (forall i, j :: 0 <= i < j < |picks| ==> picks[i].t != picks[j].t)
  }

  ghost function Picked(picks: seq<Pick>): set<Id> { set i | 0 <= i < |picks| :: picks[i].t }

  ghost function Chosen(picks: seq<Pick>): set<nat> { set i | 0 <= i < |picks| :: picks[i].w }

  /** The decision: picked tasks leave the graph and their workers become busy. */
  ghost function Decide(m: Master, picks: seq<Pick>): Master {
    m.(graph := RemoveAll(m.graph, Picked(picks)), workers := MadeBusy(m.workers, Chosen(picks)))
  }

  ghost function MadeBusy(workers: map<nat, WorkerStatus>, chosen: set<nat>): map<nat, WorkerStatus> {
    map w | w in workers :: if w in chosen then BUSY else workers[w]
  }

  /** The assignment: metadata says running, unless the worker's connection was gone. */
  ghost function Assign(m: Master, picks: seq<Pick>): Master {
    m.(meta := Assigned(m.meta, picks), owed := m.owed + Sent(picks))
  }

  /** The executions the workers now owe a report for. */
  ghost function Sent(picks: seq<Pick>): multiset<(nat, Id)>
    decreases |picks|
  {
    if picks == [] then multiset{}
    else Sent(picks[1..]) + if picks[0].connected then multiset{(picks[0].w, picks[0].t)} else multiset{}
  }

  ghost function Assigned(meta: map<Id, Meta>, picks: seq<Pick>): map<Id, Meta> {
    map t | t in meta ::
      if exists p :: p in picks && p.t == t && p.connected
      then meta[t].(status := RUNNING, worker := WorkerFor(picks, t))
      else meta[t]
  }

  ghost function WorkerFor(picks: seq<Pick>, t: Id): nat
    requires exists p :: p in picks && p.t == t && p.connected
  {
    var p :| p in picks && p.t == t && p.connected;
    p.w
  }

  /** The verdict: pending tasks, nothing ready, nothing running. */
  ghost predicate Unresolvable(m: Master) {
    m.graph.pending != {} && m.graph.ready == {} && NoneRunning(m)
  }

  ghost function FailTasks(m: Master, ts: set<Id>): Master {
    m.(graph := RemoveAll(m.graph, ts), meta := FailAll(m.meta, ts))
  }

  ghost function Judge(m: Master): Master {
    if Unresolvable(m) then FailTasks(m, m.graph.pending) else m
  }

  /** Decision, assignment, verdict, and the optional failing of tasks no worker can take. */
  ghost function ScheduleSection(m: Master, picks: seq<Pick>, deadlocked: set<Id>, evict: set<Id>): Master {
    var m1 := Judge(Assign(Decide(m, picks), picks));
    var m2 := FailTasks(m1, deadlocked);
    m2.(meta := Evicted(m2.meta, evict))
  }

  // ---------------------------------------------------------------------------
  // Steps
  // ---------------------------------------------------------------------------

  ghost predicate Stale(m: Master, w: nat, t: Id) {
    t in m.meta && m.meta[t].worker != 0 && m.meta[t].worker != w
  }

  ghost predicate Recovers(m: Master, w: nat, t: Id) { w in m.recovering && t in m.recovering[w] }

  ghost predicate TaskEnabled(m: Master, e: TaskEvent) {
    match e
    case Submit(t, _) => t !in m.meta && t !in Tasks(m.graph)
    case Schedule(picks, deadlocked, _) =>
      && LegalPicks(m, picks)
      && (deadlocked != {} ==> NoneRunning(Assign(Decide(m, picks), picks)))
      && deadlocked <= Judge(Assign(Decide(m, picks), picks)).graph.ready
    case _ => true
  }

  ghost predicate ReportEnabled(m: Master, e: ReportEvent) {
    match e
    case Arrives(r, w, t, _, _) => r !in m.reports && (w, t) in m.owed
    case Marks(r, d) => r in m.reports && !m.reports[r].failed && d in m.reports[r].unmarked
    case ApplyComplete(r, _) => r in m.reports && !m.reports[r].failed && m.reports[r].unmarked == {}
    case ApplyFailed(r, _) => r in m.reports && m.reports[r].failed
  }

  ghost predicate RecoveryEnabled(m: Master, e: RecoveryEvent) {
    match e
    case Lookup(w, t) => Recovers(m, w, t) && (w, t) !in m.lookups
    case Requeue(w, t) => (w, t) in m.lookups
    case DrainFail(w, t, _) => m.draining && Recovers(m, w, t)
    case ExitFail(w, t, _) => Recovers(m, w, t)
  }

  /** A handler tests whether the master drains once, before its loop, so neither the section of
      schedule_tasks nor a requeue stops when a drain begins. */
  ghost predicate Enabled(m: Master, e: Event) {
    match e
    case OnTask(x) => TaskEnabled(m, x)
    case OnData(x) => x.TaskWrites? ==> IsRunning(m, x.t)
    case OnReport(x) => ReportEnabled(m, x)
    case OnWorker(_) => true
    case OnRecovery(x) => RecoveryEnabled(m, x)
  }

  ghost function Recovered(m: Master, w: nat, t: Id): map<nat, set<Id>> {
    if w in m.recovering then m.recovering[w := m.recovering[w] - {t}] else m.recovering
  }

  /** A worker that is not known is left alone. */
  ghost function SetStatus(m: Master, w: nat, status: WorkerStatus): Master {
    m.(workers := if w in m.workers then m.workers[w := status] else m.workers)
  }

  ghost function Gone(m: Master, w: nat, status: WorkerStatus): Master {
    SetStatus(m, w, status).(
       recovering := m.recovering[w := RunningOn(m, w) + if w in m.recovering then m.recovering[w] else {}])
  }

  ghost function Accept(m: Master, r: nat, report: Report): Master {
    m.(reports := m.reports[r := report],
       workers := if report.w in m.workers then m.workers[report.w := IDLE] else m.workers)
  }

  /** The report is no longer owed; it is dropped if it is stale. */
  ghost function Checked(m: Master, r: nat, report: Report): Master {
    var m1 := m.(owed := m.owed - multiset{(report.w, report.t)});
    if Stale(m, report.w, report.t) then m1 else Accept(m1, r, report)
  }

  ghost function Marked(m: Master, r: nat, d: Data): Master
    requires r in m.reports
  {
    m.(graph := MarkDataReady(m.graph, d),
       reports := m.reports[r := m.reports[r].(unmarked := m.reports[r].unmarked - {d})])
  }

  ghost function Unassigned(meta: map<Id, Meta>, t: Id): map<Id, Meta> {
    if t in meta then meta[t := meta[t].(status := PENDING, worker := 0)] else meta
  }

  /** The inputs are those of the lookup; the metadata may be gone by now. */
  ghost function RequeueTogether(m: Master, w: nat, t: Id): Master
    requires (w, t) in m.lookups
  {
    m.(graph := AddTask(RemoveTask(m.graph, t), t, m.lookups[(w, t)]), meta := Unassigned(m.meta, t),
       recovering := Recovered(m, w, t), lookups := m.lookups - {(w, t)})
  }

  ghost function TaskStep(m: Master, e: TaskEvent): Master {
    match e
    case Submit(t, inputs) =>
      m.(meta := m.meta[t := Meta(PENDING, 0, inputs)], graph := AddTask(m.graph, t, inputs))
    case Schedule(picks, deadlocked, evict) => ScheduleSection(m, picks, deadlocked, evict)
    case FastExit(t, evict) => Fail(m, t, evict)
    case LostDataFail(t, evict) => Fail(m, t, evict)
    case Forget(t) => m.(meta := m.meta - {t})
  }

  ghost function DataStep(m: Master, e: DataEvent): Master {
    match e
    case TaskWrites(_, d) => m.(graph := MarkDataReady(m.graph, d))
    case OutsideWrite(d) => m.(graph := MarkDataReady(m.graph, d))
    case Vanishes(d) => m.(graph := MarkDataRemoved(m.graph, d))
  }

  ghost function ReportStep(m: Master, e: ReportEvent): Master
    requires ReportEnabled(m, e)
  {
    match e
    case Arrives(r, w, t, failed, writes) => Checked(m, r, Report(w, t, failed, writes))
    case Marks(r, d) => Marked(m, r, d)
    case ApplyComplete(r, evict) =>
      m.(graph := RemoveTask(m.graph, m.reports[r].t),
         meta := Evicted(WithStatus(m.meta, m.reports[r].t, COMPLETED), evict), reports := m.reports - {r})
    case ApplyFailed(r, evict) => Fail(m, m.reports[r].t, evict).(reports := m.reports - {r})
  }

  ghost function WorkerStep(m: Master, e: WorkerEvent): Master {
    match e
    case Register(w) => m.(workers := m.workers[w := IDLE])
    case Reconnect(w) =>
      if w in m.workers && m.workers[w] == BUSY then m else m.(workers := m.workers[w := IDLE])
    case Revive(w) => SetStatus(m, w, IDLE)
    case Internal(w) => SetStatus(m, w, BUSY)
    case Cancelled(w) => if w in m.workers && m.workers[w] == BUSY then SetStatus(m, w, IDLE) else m
    case Silent(w) => SetStatus(m, w, DEAD)
    case MarkDead(w) => Gone(m, w, DEAD)
    case MarkExited(w) => Gone(m, w, EXITED)
    case BeginDrain => m.(draining := true)
  }

  ghost function RecoveryStep(m: Master, e: RecoveryEvent): Master
    requires RecoveryEnabled(m, e)
  {
    match e
    case Lookup(w, t) =>
      if t in m.meta then m.(lookups := m.lookups[(w, t) := m.meta[t].inputs])
      else m.(recovering := Recovered(m, w, t))
    case Requeue(w, t) => RequeueTogether(m, w, t)
    case DrainFail(w, t, evict) => Fail(m, t, evict).(recovering := Recovered(m, w, t))
    case ExitFail(w, t, evict) =>
      var m1 := m.(recovering := Recovered(m, w, t));
      if IsRunning(m, t) then Fail(m1, t, evict) else m1
  }

  ghost function Step(m: Master, e: Event): Master
    requires Enabled(m, e)
  {
    match e
    case OnTask(x) => TaskStep(m, x)
    case OnData(x) => DataStep(m, x)
    case OnReport(x) => ReportStep(m, x)
    case OnWorker(x) => WorkerStep(m, x)
    case OnRecovery(x) => RecoveryStep(m, x)
  }

  ghost function Begin(): Master { Master(Empty(), map[], map[], map[], map[], multiset{}, map[], false) }

  ghost predicate IsRun(m: Master, es: seq<Event>)
    decreases |es|
  {
    es == [] || (Enabled(m, es[0]) && IsRun(Step(m, es[0]), es[1..]))
  }

  ghost function After(m: Master, es: seq<Event>): Master
    requires IsRun(m, es)
    decreases |es|
  {
    if es == [] then m else After(Step(m, es[0]), es[1..])
  }

  // ---------------------------------------------------------------------------
  // Graph and metadata never diverge
  // ---------------------------------------------------------------------------

  /** The graph holds exactly the tasks whose metadata says PENDING. */
  ghost predicate Agree(m: Master) {
    forall t :: t in Tasks(m.graph) <==> t in m.meta && m.meta[t].status == PENDING
  }

  ghost predicate Connected(picks: seq<Pick>) { forall i :: 0 <= i < |picks| ==> picks[i].connected }

  /** What the tables depend on: the worker picked for a task has its connection, the metadata of
      a task is still there when the task is requeued, and a restart forgets no waiting task. */
  ghost predicate Orderly(m: Master, e: Event) {
    match e
    case OnTask(Schedule(picks, _, _)) => Connected(picks)
    case OnTask(Forget(t)) => t !in Tasks(m.graph)
    case OnRecovery(Requeue(_, t)) => t in m.meta
    case _ => true
  }

  lemma {:induction false} RemoveAllKeeps(g: Graph, ts: set<Id>)
    requires Valid(g)
    ensures Valid(RemoveAll(g, ts)) && Tasks(RemoveAll(g, ts)) == Tasks(g) - ts
    ensures RemoveAll(g, ts).ready == g.ready - ts && RemoveAll(g, ts).pending == g.pending - ts
  {
  }

  /** Decision and assignment keep the tables together exactly when every worker picked still
      had its connection. */
  lemma {:induction false} AssignAgreesIff(m: Master, picks: seq<Pick>)
    requires Valid(m.graph) && Agree(m) && LegalPicks(m, picks)
    ensures Valid(Assign(Decide(m, picks), picks).graph)
    ensures Agree(Assign(Decide(m, picks), picks)) <==> Connected(picks)
  {
    var m' := Assign(Decide(m, picks), picks);
    RemoveAllKeeps(m.graph, Picked(picks));
    hide Valid, RemoveAll, Sent;
    forall i | 0 <= i < |picks|
      ensures picks[i].t !in Tasks(m'.graph) && picks[i].t in m'.meta
      ensures m'.meta[picks[i].t].status == if picks[i].connected then RUNNING else PENDING
    {
      PickLeaves(m, picks, i);
    }
    if Connected(picks) {
      forall t ensures t in Tasks(m'.graph) <==> t in m'.meta && m'.meta[t].status == PENDING {
        if t in Picked(picks) {
          var i :| 0 <= i < |picks| && picks[i].t == t;
        } else if t in m.meta {
          NotPicked(m, picks, t);
        }
      }
    }
  }

  lemma {:induction false} PickLeaves(m: Master, picks: seq<Pick>, i: nat)
    requires Valid(m.graph) && Agree(m) && LegalPicks(m, picks) && i < |picks|
    ensures var m' := Assign(Decide(m, picks), picks);
            && picks[i].t !in Tasks(m'.graph) && picks[i].t in m'.meta
            && m'.meta[picks[i].t].status == if picks[i].connected then RUNNING else PENDING
  {
  }

  lemma {:induction false} NotPicked(m: Master, picks: seq<Pick>, t: Id)
    requires t in m.meta && t !in Picked(picks)
    ensures Assign(Decide(m, picks), picks).meta[t] == m.meta[t]
  {
  }

  /** Failing tasks of the graph neither heals nor breaks the tables. */
  lemma {:induction false} FailTasksAgrees(m: Master, ts: set<Id>)
    requires Valid(m.graph) && ts <= Tasks(m.graph)
    ensures Valid(FailTasks(m, ts).graph) && (Agree(m) ==> Agree(FailTasks(m, ts)))
    ensures forall t :: t in m.meta && t !in Tasks(m.graph) ==>
              && t in FailTasks(m, ts).meta && FailTasks(m, ts).meta[t] == m.meta[t]
              && t !in Tasks(FailTasks(m, ts).graph)
  {
  }

  lemma {:induction false} ScheduleAgreesIff(m: Master, picks: seq<Pick>, deadlocked: set<Id>, evict: set<Id>)
    requires Valid(m.graph) && Agree(m) && LegalPicks(m, picks)
    requires deadlocked <= Judge(Assign(Decide(m, picks), picks)).graph.ready
    ensures Valid(ScheduleSection(m, picks, deadlocked, evict).graph)
    ensures Agree(ScheduleSection(m, picks, deadlocked, evict)) <==> Connected(picks)
  {
    hide Decide, Assign, FailTasks, RemoveAll, LegalPicks, Unresolvable, Valid, Connected;
    AssignAgreesIff(m, picks);
    var m1 := Assign(Decide(m, picks), picks);
    VerdictsAgree(m1, deadlocked, evict);
    if !Connected(picks) {
      var t := LostPick(m, picks);
      assert t in ScheduleSection(m, picks, deadlocked, evict).meta;
    }
  }

  /** A task whose worker had no connection is in neither table as it should be. */
  lemma {:induction false} LostPick(m: Master, picks: seq<Pick>) returns (t: Id)
    requires Valid(m.graph) && Agree(m) && LegalPicks(m, picks) && !Connected(picks)
    ensures var m1 := Assign(Decide(m, picks), picks);
            t in m1.meta && m1.meta[t].status == PENDING && t !in Tasks(m1.graph)
  {
    var i :| 0 <= i < |picks| && !picks[i].connected;
    t := picks[i].t;
    PickLeaves(m, picks, i);
  }

  /** Both verdicts of the section keep the tables together, and leave alone what is not in the
      graph. */
  lemma {:induction false} VerdictsAgree(m1: Master, deadlocked: set<Id>, evict: set<Id>)
    requires Valid(m1.graph) && deadlocked <= Judge(m1).graph.ready
    ensures var m2 := FailTasks(Judge(m1), deadlocked);
            && Valid(m2.graph) && (Agree(m1) ==> Agree(m2.(meta := Evicted(m2.meta, evict))))
            && forall t :: t in m1.meta && t !in Tasks(m1.graph) ==>
                 t in m2.meta && m2.meta[t] == m1.meta[t] && t !in Tasks(m2.graph)
  {
    PartsAreTasks(m1.graph);
    hide FailTasks, RemoveAll, Valid, Unresolvable;
    FailTasksAgrees(m1, m1.graph.pending);
    PartsAreTasks(Judge(m1).graph);
    FailTasksAgrees(Judge(m1), deadlocked);
  }

  lemma {:induction false} PartsAreTasks(g: Graph)
    requires Valid(g)
    ensures g.pending <= Tasks(g) && g.ready <= Tasks(g)
  {
  }

  lemma {:induction false} FailAgrees(m: Master, t: Id, evict: set<Id>)
    requires Valid(m.graph) && Agree(m)
    ensures Valid(Fail(m, t, evict).graph) && Agree(Fail(m, t, evict))
  {
  }

  lemma {:induction false} RequeueAgreesIff(m: Master, w: nat, t: Id)
    requires Valid(m.graph) && Agree(m) && (w, t) in m.lookups
    ensures Valid(RequeueTogether(m, w, t).graph)
    ensures Agree(RequeueTogether(m, w, t)) <==> t in m.meta
  {
    RemoveKeeps(m.graph, t);
    AddKeeps(RemoveTask(m.graph, t), t, m.lookups[(w, t)]);
    hide Valid, AddTask, RemoveTask;
    var m' := RequeueTogether(m, w, t);
    assert t in Tasks(m'.graph);
    assert forall u :: u != t ==> (u in Tasks(m'.graph) <==> u in Tasks(m.graph));
    assert forall u :: u != t ==> (u in m'.meta <==> u in m.meta) && (u in m.meta ==> m'.meta[u] == m.meta[u]);
  }

  lemma {:induction false} DataAgrees(m: Master, m': Master, d: Data)
    requires Valid(m.graph) && m'.meta == m.meta
    requires m'.graph == MarkDataReady(m.graph, d) || m'.graph == MarkDataRemoved(m.graph, d)
    ensures Valid(m'.graph) && Tasks(m'.graph) == Tasks(m.graph) && (Agree(m) ==> Agree(m'))
  {
  }

  lemma {:induction false} TaskStepAgreesIff(m: Master, e: TaskEvent)
    requires Valid(m.graph) && Agree(m) && TaskEnabled(m, e)
    ensures Valid(TaskStep(m, e).graph)
    ensures Agree(TaskStep(m, e)) <==> Orderly(m, OnTask(e))
  {
    hide Valid, ScheduleSection, AddTask, RemoveTask, Fail, Decide, Assign, Judge, LegalPicks, Connected;
    match e
    case Submit(t, inputs) => AddKeeps(m.graph, t, inputs);
    case Schedule(picks, deadlocked, evict) => ScheduleAgreesIff(m, picks, deadlocked, evict);
    case FastExit(t, evict) => FailAgrees(m, t, evict);
    case LostDataFail(t, evict) => FailAgrees(m, t, evict);
    case Forget(t) => assert Agree(TaskStep(m, e)) ==> t !in Tasks(m.graph);
  }

  lemma {:induction false} DataStepAgrees(m: Master, e: DataEvent)
    requires Valid(m.graph) && Agree(m)
    ensures Valid(DataStep(m, e).graph) && Agree(DataStep(m, e))
  {
  }

  lemma {:induction false} AcceptFrame(m: Master, r: nat, report: Report)
    ensures var m' := Accept(m, r, report);
            && m'.graph == m.graph && m'.meta == m.meta && m'.recovering == m.recovering && m'.lookups == m.lookups
            && m'.workers.Keys == m.workers.Keys
            && forall w :: w in m.workers ==> m'.workers[w] == if w == report.w then IDLE else m.workers[w]
  {
  }

  /** An arriving report touches no table of tasks, and no worker goes. */
  lemma {:induction false} ArrivalFrame(m: Master, r: nat, report: Report)
    ensures var m' := Checked(m, r, report);
            && m'.graph == m.graph && m'.meta == m.meta && m'.recovering == m.recovering && m'.lookups == m.lookups
            && m'.workers.Keys == m.workers.Keys
            && (forall w :: w in m.workers && w != report.w ==> m'.workers[w] == m.workers[w])
            && (report.w in m.workers ==>
                  m'.workers[report.w] ==
                  if Stale(m, report.w, report.t) then m.workers[report.w] else IDLE)
  {
    hide Stale, Accept;
    AcceptFrame(m.(owed := m.owed - multiset{(report.w, report.t)}), r, report);
  }

  lemma {:induction false} ReportStepAgrees(m: Master, e: ReportEvent)
    requires Valid(m.graph) && Agree(m) && ReportEnabled(m, e)
    ensures Valid(ReportStep(m, e).graph) && Agree(ReportStep(m, e))
  {
    hide Valid, RemoveTask, Fail, MarkDataReady, Checked;
    match e
    case Arrives(r, w, t, failed, writes) => ArrivalFrame(m, r, Report(w, t, failed, writes));
    case Marks(r, d) => DataAgrees(m, ReportStep(m, e), d);
    case ApplyComplete(r, _) => RemoveKeeps(m.graph, m.reports[r].t);
    case ApplyFailed(r, evict) => FailAgrees(m, m.reports[r].t, evict);
  }

  lemma {:induction false} RecoveryStepAgreesIff(m: Master, e: RecoveryEvent)
    requires Valid(m.graph) && Agree(m) && RecoveryEnabled(m, e)
    ensures Valid(RecoveryStep(m, e).graph)
    ensures Agree(RecoveryStep(m, e)) <==> Orderly(m, OnRecovery(e))
  {
    hide Valid, Fail, RequeueTogether;
    match e
    case Lookup(_, _) =>
    case Requeue(w, t) => RequeueAgreesIff(m, w, t);
    case DrainFail(_, t, evict) => FailAgrees(m, t, evict);
    case ExitFail(w, t, evict) => FailAgrees(m.(recovering := Recovered(m, w, t)), t, evict);
  }

  /** A step keeps the two tables together exactly when it is orderly. */
  lemma {:induction false} StepAgreesIff(m: Master, e: Event)
    requires Valid(m.graph) && Agree(m) && Enabled(m, e)
    ensures Valid(Step(m, e).graph)
    ensures Agree(Step(m, e)) <==> Orderly(m, e)
  {
    hide Valid, Agree, TaskEnabled, TaskStep, DataStep, ReportStep, RecoveryStep;
    match e
    case OnTask(x) => TaskStepAgreesIff(m, x);
    case OnData(x) => DataStepAgrees(m, x);
    case OnReport(x) => ReportStepAgrees(m, x);
    case OnWorker(x) => WorkerStepAgrees(m, x);
    case OnRecovery(x) => RecoveryStepAgreesIff(m, x);
  }

  lemma {:induction false} WorkerStepAgrees(m: Master, e: WorkerEvent)
    requires Agree(m)
    ensures WorkerStep(m, e).graph == m.graph && Agree(WorkerStep(m, e))
  {
  }

  ghost predicate OrderlyRun(m: Master, es: seq<Event>)
    requires IsRun(m, es)
    decreases |es|
  {
    es == [] || (Orderly(m, es[0]) && OrderlyRun(Step(m, es[0]), es[1..]))
  }

  ghost predicate AlwaysAgree(m: Master, es: seq<Event>)
    requires IsRun(m, es)
    decreases |es|
  {
    Agree(m) && (es == [] || AlwaysAgree(Step(m, es[0]), es[1..]))
  }

  /** Over every run of every handler. */
  lemma {:induction false} RunAgreesIff(m: Master, es: seq<Event>)
    requires Valid(m.graph) && Agree(m) && IsRun(m, es)
    ensures AlwaysAgree(m, es) <==> OrderlyRun(m, es)
    decreases |es|
  {
    hide Valid, Agree, Enabled, Step, Orderly;
    if es != [] {
      StepAgreesIff(m, es[0]);
      if Orderly(m, es[0]) {
        RunAgreesIff(Step(m, es[0]), es[1..]);
      }
    }
  }

  /** The graph holds exactly the waiting tasks at every moment of a run of the master, exactly
      when every step of the run is orderly. */
  lemma {:induction false} TablesNeverDiverge(es: seq<Event>)
    requires IsRun(Begin(), es)
    ensures AlwaysAgree(Begin(), es) <==> OrderlyRun(Begin(), es)
  {
    RunAgreesIff(Begin(), es);
  }

  // ---------------------------------------------------------------------------
  // How a worker comes and goes
  // ---------------------------------------------------------------------------

  /** A registration makes the worker idle, whatever it was; a reconnect within the grace period leaves
      a busy worker busy. All other workers stay as they are. */
  lemma {:induction false} ComingBack(m: Master, e: WorkerEvent)
    requires e.Register? || e.Reconnect?
    ensures var m' := WorkerStep(m, e);
            && e.w in m'.workers
            && m'.workers[e.w] == (if e.Reconnect? && e.w in m.workers && m.workers[e.w] == BUSY then BUSY else IDLE)
            && (forall v :: v != e.w ==> (v in m'.workers <==> v in m.workers))
            && (forall v :: v != e.w && v in m.workers ==> m'.workers[v] == m.workers[v])
            && m' == m.(workers := m'.workers)
  {
  }

  // ---------------------------------------------------------------------------
  // How a task ends
  // ---------------------------------------------------------------------------

  ghost predicate Terminal(status: Status) { status == COMPLETED || status == FAILED }

  /** Task t ends with the given status and leaves the graph. Of the others, only finished ones can
      go, and only if they are evicted. */
  ghost predicate Ends(m: Master, m': Master, t: Id, status: Status, evict: set<Id>) {
    && t !in Tasks(m'.graph) && (forall u :: u != t ==> (u in Tasks(m'.graph) <==> u in Tasks(m.graph)))
    && (t in m'.meta <==> t in m.meta && t !in evict)
    && (t in m'.meta ==> m'.meta[t] == m.meta[t].(status := status))
    && (forall u :: u != t ==> (u in m'.meta <==> u in m.meta && !(u in evict && Terminal(m.meta[u].status))))
    && (forall u :: u != t && u in m'.meta ==> m'.meta[u] == m.meta[u])
  }

  /** A completion report ends its task as COMPLETED, a failure report as FAILED. */
  lemma {:induction false} ReportDecides(m: Master, e: ReportEvent)
    requires (e.ApplyComplete? || e.ApplyFailed?) && ReportEnabled(m, e)
    ensures Ends(m, ReportStep(m, e), m.reports[e.r].t, if e.ApplyComplete? then COMPLETED else FAILED, e.evict)
    ensures e.r !in ReportStep(m, e).reports
  {
  }

  lemma {:induction false} FailEnds(m: Master, t: Id, evict: set<Id>)
    ensures Ends(m, Fail(m, t, evict), t, FAILED, evict)
  {
  }

  /** Handlers that fail a task of their own accord end it as FAILED. */
  lemma {:induction false} HandlerFails(m: Master, e: TaskEvent)
    requires e.FastExit? || e.LostDataFail?
    ensures Ends(m, TaskStep(m, e), e.t, FAILED, e.evict)
  {
    hide Fail, Ends;
    FailEnds(m, e.t, e.evict);
  }

  /** So do the death handler during a drain and the exit handler, which spares tasks that no longer
      run; in any case the task leaves the list. */
  lemma {:induction false} RecoveryFails(m: Master, e: RecoveryEvent)
    requires (e.DrainFail? || e.ExitFail?) && RecoveryEnabled(m, e)
    ensures e.DrainFail? || IsRunning(m, e.t) ==> Ends(m, RecoveryStep(m, e), e.t, FAILED, e.evict)
    ensures e.ExitFail? && !IsRunning(m, e.t) ==>
              RecoveryStep(m, e).meta == m.meta && RecoveryStep(m, e).graph == m.graph
    ensures !Recovers(RecoveryStep(m, e), e.w, e.t)
  {
    FailEnds(m, e.t, e.evict);
    FailEnds(m.(recovering := Recovered(m, e.w, e.t)), e.t, e.evict);
    hide RemoveTask;
  }

  // ---------------------------------------------------------------------------
  // The graph alone
  // ---------------------------------------------------------------------------

  /** The step adds t to the graph. */
  ghost predicate Enters(e: Event, t: Id) {
    match e
    case OnTask(Submit(u, _)) => u == t
    case OnRecovery(Requeue(_, u)) => u == t
    case _ => false
  }

  lemma {:induction false} ScheduleKeepsValid(m: Master, e: TaskEvent)
    requires Valid(m.graph) && e.Schedule? && TaskEnabled(m, e)
    ensures Valid(TaskStep(m, e).graph) && Tasks(TaskStep(m, e).graph) <= Tasks(m.graph)
  {
    RemoveAllKeeps(m.graph, Picked(e.picks));
    var m1 := Assign(Decide(m, e.picks), e.picks);
    assert Valid(m1.graph) && Tasks(m1.graph) <= Tasks(m.graph);
    hide Assign, Decide, Valid, RemoveAll, LegalPicks, Unresolvable;
    RemoveAllKeeps(m1.graph, m1.graph.pending);
    RemoveAllKeeps(Judge(m1).graph, e.deadlocked);
  }

  lemma {:induction false} TaskKeepsValid(m: Master, e: TaskEvent)
    requires Valid(m.graph) && TaskEnabled(m, e)
    ensures Valid(TaskStep(m, e).graph)
    ensures forall t :: t in Tasks(TaskStep(m, e).graph) ==> t in Tasks(m.graph) || Enters(OnTask(e), t)
  {
    hide Valid, ScheduleSection, AddTask, RemoveTask;
    match e
    case Submit(u, inputs) => AddKeeps(m.graph, u, inputs);
    case Schedule(_, _, _) => ScheduleKeepsValid(m, e);
    case FastExit(u, _) => RemoveKeeps(m.graph, u);
    case LostDataFail(u, _) => RemoveKeeps(m.graph, u);
    case Forget(_) =>
  }

  lemma {:induction false} ReportKeepsValid(m: Master, e: ReportEvent)
    requires Valid(m.graph) && ReportEnabled(m, e)
    ensures Valid(ReportStep(m, e).graph) && Tasks(ReportStep(m, e).graph) <= Tasks(m.graph)
  {
    hide Valid, RemoveTask, MarkDataReady, Checked;
    match e
    case Arrives(r, w, t, failed, writes) => ArrivalFrame(m, r, Report(w, t, failed, writes));
    case Marks(_, d) => DataAgrees(m, ReportStep(m, e), d);
    case ApplyComplete(r, _) => RemoveKeeps(m.graph, m.reports[r].t);
    case ApplyFailed(r, _) => RemoveKeeps(m.graph, m.reports[r].t);
  }

  lemma {:induction false} RecoveryKeepsValid(m: Master, e: RecoveryEvent)
    requires Valid(m.graph) && RecoveryEnabled(m, e)
    ensures Valid(RecoveryStep(m, e).graph)
    ensures forall t :: t in Tasks(RecoveryStep(m, e).graph) ==> t in Tasks(m.graph) || Enters(OnRecovery(e), t)
  {
    hide Valid, RemoveTask, AddTask;
    RemoveKeeps(m.graph, e.t);
    match e
    case Requeue(w, u) => AddKeeps(RemoveTask(m.graph, u), u, m.lookups[(w, u)]);
    case _ =>
  }

  lemma {:induction false} DataKeepsValid(m: Master, e: DataEvent)
    requires Valid(m.graph)
    ensures Valid(DataStep(m, e).graph) && Tasks(DataStep(m, e).graph) == Tasks(m.graph)
  {
    hide Valid, MarkDataReady, MarkDataRemoved;
    DataAgrees(m, DataStep(m, e), e.d);
  }

  /** Every step keeps the graph well formed, orderly or not, and only submissions and requeues
      add to it. */
  lemma {:induction false} StepKeepsValid(m: Master, e: Event)
    requires Valid(m.graph) && Enabled(m, e)
    ensures Valid(Step(m, e).graph)
    ensures forall t :: t in Tasks(Step(m, e).graph) ==> t in Tasks(m.graph) || Enters(e, t)
  {
    hide Valid, TaskStep, DataStep, ReportStep, WorkerStep, RecoveryStep, TaskEnabled, ReportEnabled, RecoveryEnabled,
      Enters;
    match e
    case OnTask(x) => TaskKeepsValid(m, x);
    case OnData(x) => DataKeepsValid(m, x);
    case OnReport(x) => ReportKeepsValid(m, x);
    case OnWorker(x) => WorkerFrame(m, x);
    case OnRecovery(x) => RecoveryKeepsValid(m, x);
  }

  // ---------------------------------------------------------------------------
  // What every run keeps, orderly or not
  // ---------------------------------------------------------------------------

  /** A known task of the graph is PENDING, and a PENDING task is assigned to nobody. */
  ghost predicate Settled(m: Master) {
    && Valid(m.graph)
    && (forall t :: t in m.meta && t in Tasks(m.graph) ==> m.meta[t].status == PENDING)
    && (forall t :: t in m.meta && m.meta[t].status == PENDING ==> m.meta[t].worker == 0)
  }

  /** A step after which the graph holds no other known tasks than before, and no task has become
      PENDING. */
  lemma {:induction false} StaysSettled(m: Master, m': Master)
    requires Settled(m) && Valid(m'.graph)
    requires forall t :: t in m'.meta && t in Tasks(m'.graph) ==>
               t in m.meta && t in Tasks(m.graph) && m'.meta[t] == m.meta[t]
    requires forall t :: t in m'.meta && m'.meta[t].status == PENDING ==> t in m.meta && m'.meta[t] == m.meta[t]
    ensures Settled(m')
  {
  }

  lemma {:induction false} ScheduleSettled(m: Master, e: TaskEvent)
    requires Settled(m) && e.Schedule? && TaskEnabled(m, e)
    ensures Settled(TaskStep(m, e))
  {
    ScheduleKeepsValid(m, e);
    var m1 := Assign(Decide(m, e.picks), e.picks);
    RemoveAllKeeps(m.graph, Picked(e.picks));
    assert Settled(m1) by {
      hide LegalPicks, Valid, RemoveAll, Sent;
      forall t | t in m1.meta && t !in Picked(e.picks) ensures m1.meta[t] == m.meta[t] {
        NotPicked(m, e.picks, t);
      }
    }
    hide Assign, Decide, LegalPicks, Unresolvable, RemoveAll, Valid;
    FailTasksSettled(m1, m1.graph.pending);
    FailTasksSettled(Judge(m1), e.deadlocked);
    StaysSettled(FailTasks(Judge(m1), e.deadlocked), TaskStep(m, e));
  }

  lemma {:induction false} FailTasksSettled(m: Master, ts: set<Id>)
    requires Settled(m)
    ensures Settled(FailTasks(m, ts))
  {
    RemoveAllKeeps(m.graph, ts);
  }

  lemma {:induction false} TaskStepSettled(m: Master, e: TaskEvent)
    requires Settled(m) && TaskEnabled(m, e)
    ensures Settled(TaskStep(m, e))
  {
    TaskKeepsValid(m, e);
    hide ScheduleSection, AddTask, RemoveTask, Valid;
    match e
    case Submit(t, inputs) => AddKeeps(m.graph, t, inputs);
    case Schedule(_, _, _) => ScheduleSettled(m, e);
    case FastExit(t, _) => RemoveKeeps(m.graph, t);
    case LostDataFail(t, _) => RemoveKeeps(m.graph, t);
    case Forget(_) =>
  }

  lemma {:induction false} ReportStepSettled(m: Master, e: ReportEvent)
    requires Settled(m) && ReportEnabled(m, e)
    ensures Settled(ReportStep(m, e))
  {
    ReportKeepsValid(m, e);
    hide RemoveTask, MarkDataReady, Valid, Checked;
    match e
    case Arrives(r, w, t, failed, writes) => ArrivalFrame(m, r, Report(w, t, failed, writes));
    case Marks(_, d) => DataAgrees(m, ReportStep(m, e), d);
    case ApplyComplete(r, _) => RemoveKeeps(m.graph, m.reports[r].t);
    case ApplyFailed(r, _) => RemoveKeeps(m.graph, m.reports[r].t);
  }

  lemma {:induction false} RequeueSettled(m: Master, w: nat, t: Id)
    requires Settled(m) && (w, t) in m.lookups
    ensures Settled(RequeueTogether(m, w, t))
  {
    RemoveKeeps(m.graph, t);
    AddKeeps(RemoveTask(m.graph, t), t, m.lookups[(w, t)]);
    hide RemoveTask, AddTask, Valid;
  }

  lemma {:induction false} FailSettled(m: Master, t: Id, evict: set<Id>, m': Master)
    requires Settled(m) && m'.graph == RemoveTask(m.graph, t) && m'.meta == Fail(m, t, evict).meta
    ensures Settled(m')
  {
    RemoveKeeps(m.graph, t);
    hide RemoveTask, Valid;
    StaysSettled(m, m');
  }

  lemma {:induction false} RecoveryStepSettled(m: Master, e: RecoveryEvent)
    requires Settled(m) && RecoveryEnabled(m, e)
    ensures Settled(RecoveryStep(m, e))
  {
    hide RemoveTask, RequeueTogether, Valid;
    match e
    case Lookup(_, _) =>
    case Requeue(w, t) => RequeueSettled(m, w, t);
    case DrainFail(_, t, evict) => FailSettled(m, t, evict, RecoveryStep(m, e));
    case ExitFail(_, t, evict) =>
      if IsRunning(m, t) {
        FailSettled(m, t, evict, RecoveryStep(m, e));
      }
  }

  lemma {:induction false} WorkerFrame(m: Master, e: WorkerEvent)
    ensures WorkerStep(m, e).graph == m.graph && WorkerStep(m, e).meta == m.meta
  {
  }

  lemma {:induction false} DataStepSettled(m: Master, e: DataEvent)
    requires Settled(m)
    ensures Settled(DataStep(m, e))
  {
    hide MarkDataReady, MarkDataRemoved, Valid;
    DataAgrees(m, DataStep(m, e), e.d);
  }

  /** Orderly or not, every step keeps this. */
  lemma {:induction false} StepKeepsSettled(m: Master, e: Event)
    requires Settled(m) && Enabled(m, e)
    ensures Settled(Step(m, e))
  {
    hide TaskStep, DataStep, ReportStep, WorkerStep, RecoveryStep, TaskEnabled, ReportEnabled, RecoveryEnabled, Valid;
    match e
    case OnTask(x) => TaskStepSettled(m, x);
    case OnData(x) => DataStepSettled(m, x);
    case OnReport(x) => ReportStepSettled(m, x);
    case OnWorker(x) => WorkerFrame(m, x);
    case OnRecovery(x) => RecoveryStepSettled(m, x);
  }

  lemma {:induction false} RunKeepsSettled(m: Master, es: seq<Event>)
    requires Settled(m) && IsRun(m, es)
    ensures Settled(After(m, es))
    decreases |es|
  {
    hide Settled, Enabled, Step;
    if es != [] {
      StepKeepsSettled(m, es[0]);
      RunKeepsSettled(Step(m, es[0]), es[1..]);
    }
  }

  lemma {:induction false} AlwaysSettled(es: seq<Event>)
    requires IsRun(Begin(), es)
    ensures Settled(After(Begin(), es))
  {
    RunKeepsSettled(Begin(), es);
  }

  // ---------------------------------------------------------------------------
  // No orphaned task
  // ---------------------------------------------------------------------------

  ghost predicate IsGone(m: Master, w: nat) {
    w in m.workers && (m.workers[w] == DEAD || m.workers[w] == EXITED)
  }

  /** A task running on a worker that is gone is still on the list of that worker's handler. */
  ghost predicate NoOrphan(m: Master) {
    && (forall t :: t in m.meta && m.meta[t].status == RUNNING ==> m.meta[t].worker in m.workers)
    && (forall t :: t in m.meta && m.meta[t].status == RUNNING && IsGone(m, m.meta[t].worker) ==>
          Recovers(m, m.meta[t].worker, t))
  }

  lemma {:induction false} AssignedToIdle(m: Master, picks: seq<Pick>, t: Id)
    requires LegalPicks(m, picks) && t in m.meta
    ensures var m' := Assign(Decide(m, picks), picks);
            && t in m'.meta
            && (m'.meta[t] == m.meta[t]
                || (m'.meta[t].status == RUNNING && m'.meta[t].worker in m'.workers && !IsGone(m', m'.meta[t].worker)))
  {
  }

  lemma {:induction false} BusyOrSame(m: Master, picks: seq<Pick>, w: nat)
    requires LegalPicks(m, picks)
    ensures var m' := Assign(Decide(m, picks), picks);
            (w in m'.workers <==> w in m.workers) && (IsGone(m', w) <==> IsGone(m, w))
  {
  }

  lemma {:induction false} FailTasksNoOrphan(m: Master, ts: set<Id>)
    requires NoOrphan(m)
    ensures NoOrphan(FailTasks(m, ts))
  {
  }

  lemma {:induction false} ScheduleNoOrphan(m: Master, picks: seq<Pick>, deadlocked: set<Id>, evict: set<Id>)
    requires NoOrphan(m) && LegalPicks(m, picks)
    ensures NoOrphan(ScheduleSection(m, picks, deadlocked, evict))
  {
    var m1 := Assign(Decide(m, picks), picks);
    assert NoOrphan(m1) by {
      hide LegalPicks, RemoveAll;
      forall t | t in m1.meta && m1.meta[t].status == RUNNING
        ensures m1.meta[t].worker in m1.workers
        ensures IsGone(m1, m1.meta[t].worker) ==> Recovers(m1, m1.meta[t].worker, t)
      {
        AssignedToIdle(m, picks, t);
        BusyOrSame(m, picks, m.meta[t].worker);
      }
    }
    hide Assign, Decide, RemoveAll, LegalPicks, NoOrphan, Unresolvable;
    FailTasksNoOrphan(m1, m1.graph.pending);
    FailTasksNoOrphan(Judge(m1), deadlocked);
    NothingStarts(FailTasks(Judge(m1), deadlocked), ScheduleSection(m, picks, deadlocked, evict));
  }

  /** No task starts running, no worker goes, and only tasks that no longer run leave a list. */
  lemma {:induction false} NothingStarts(m: Master, m': Master)
    requires NoOrphan(m) && m.workers.Keys <= m'.workers.Keys
    requires forall t :: t in m'.meta && m'.meta[t].status == RUNNING ==> t in m.meta && m'.meta[t] == m.meta[t]
    requires forall w :: IsGone(m', w) ==> IsGone(m, w)
    requires forall w, t :: Recovers(m, w, t) && t in m'.meta && m'.meta[t].status == RUNNING ==> Recovers(m', w, t)
    ensures NoOrphan(m')
  {
  }

  lemma {:induction false} FailNoOrphan(m: Master, t: Id, evict: set<Id>, m': Master)
    requires NoOrphan(m) && m'.workers == m.workers && m'.meta == Fail(m, t, evict).meta
    requires forall w, u :: Recovers(m, w, u) && u != t ==> Recovers(m', w, u)
    ensures NoOrphan(m')
  {
  }

  lemma {:induction false} TaskStepNoOrphan(m: Master, e: TaskEvent)
    requires NoOrphan(m) && TaskEnabled(m, e)
    ensures NoOrphan(TaskStep(m, e))
  {
    hide NoOrphan, RemoveTask, AddTask, ScheduleSection, LegalPicks, Judge;
    match e
    case Submit(_, _) => NothingStarts(m, TaskStep(m, e));
    case Schedule(picks, deadlocked, evict) => ScheduleNoOrphan(m, picks, deadlocked, evict);
    case FastExit(t, evict) => FailNoOrphan(m, t, evict, Fail(m, t, evict));
    case LostDataFail(t, evict) => FailNoOrphan(m, t, evict, Fail(m, t, evict));
    case Forget(_) => NothingStarts(m, TaskStep(m, e));
  }

  lemma {:induction false} ReportStepNoOrphan(m: Master, e: ReportEvent)
    requires NoOrphan(m) && ReportEnabled(m, e)
    ensures NoOrphan(ReportStep(m, e))
  {
    hide NoOrphan, RemoveTask, MarkDataReady, Checked;
    match e
    case Arrives(r, w, t, failed, writes) =>
      ArrivalFrame(m, r, Report(w, t, failed, writes));
      NothingStarts(m, Checked(m, r, Report(w, t, failed, writes)));
    case Marks(r, d) => NothingStarts(m, Marked(m, r, d));
    case ApplyComplete(_, _) => NothingStarts(m, ReportStep(m, e));
    case ApplyFailed(r, evict) => FailNoOrphan(m, m.reports[r].t, evict, ReportStep(m, e));
  }

  /** The mark of the heartbeat monitor would orphan no task. */
  ghost predicate Harmless(m: Master, e: Event) {
    e.OnWorker? && e.worker.Silent? && e.worker.w in m.workers ==>
      forall t :: t in RunningOn(m, e.worker.w) ==> Recovers(m, e.worker.w, t)
  }

  lemma {:induction false} SilentKeepsNoOrphanIff(m: Master, w: nat)
    requires NoOrphan(m)
    ensures NoOrphan(SetStatus(m, w, DEAD)) <==> Harmless(m, OnWorker(Silent(w)))
  {
    var m' := SetStatus(m, w, DEAD);
    if NoOrphan(m') && w in m.workers {
      forall t | t in RunningOn(m, w) ensures Recovers(m, w, t) {
        assert IsGone(m', w) && Recovers(m', w, t);
      }
    }
    if Harmless(m, OnWorker(Silent(w))) {
      forall t | t in m'.meta && m'.meta[t].status == RUNNING && IsGone(m', m'.meta[t].worker)
        ensures Recovers(m', m'.meta[t].worker, t)
      {
        assert m.meta[t].worker == w ==> t in RunningOn(m, w) && Recovers(m, w, t);
      }
    }
  }

  lemma {:induction false} WorkerStepNoOrphanIff(m: Master, e: WorkerEvent)
    requires NoOrphan(m)
    ensures NoOrphan(WorkerStep(m, e)) <==> Harmless(m, OnWorker(e))
  {
    hide NoOrphan;
    match e
    case Silent(w) => SilentKeepsNoOrphanIff(m, w);
    case MarkDead(w) => GoneNoOrphan(m, w, DEAD);
    case MarkExited(w) => GoneNoOrphan(m, w, EXITED);
    case _ => NothingStarts(m, WorkerStep(m, e));
  }

  lemma {:induction false} GoneNoOrphan(m: Master, w: nat, status: WorkerStatus)
    requires NoOrphan(m)
    ensures NoOrphan(Gone(m, w, status))
  {
    var m' := Gone(m, w, status);
    forall t | t in m'.meta && m'.meta[t].status == RUNNING && IsGone(m', m'.meta[t].worker)
      ensures Recovers(m', m'.meta[t].worker, t)
    {
      assert m.meta[t].worker == w ==> t in RunningOn(m, w);
    }
  }

  lemma {:induction false} RecoveryStepNoOrphan(m: Master, e: RecoveryEvent)
    requires NoOrphan(m) && RecoveryEnabled(m, e)
    ensures NoOrphan(RecoveryStep(m, e))
  {
    hide NoOrphan, RemoveTask, AddTask;
    match e
    case DrainFail(_, t, evict) => FailNoOrphan(m, t, evict, RecoveryStep(m, e));
    case ExitFail(_, t, evict) =>
      if IsRunning(m, t) {
        FailNoOrphan(m, t, evict, RecoveryStep(m, e));
      } else {
        NothingStarts(m, RecoveryStep(m, e));
      }
    case _ => NothingStarts(m, RecoveryStep(m, e));
  }

  /** Only the heartbeat monitor's mark can orphan a task, and it does exactly when a task running on
      the worker is not on a handler's list. */
  lemma {:induction false} StepNoOrphanIff(m: Master, e: Event)
    requires NoOrphan(m) && Enabled(m, e)
    ensures NoOrphan(Step(m, e)) <==> Harmless(m, e)
  {
    hide NoOrphan, TaskEnabled, TaskStep, ReportStep, WorkerStep, RecoveryStep, MarkDataReady, MarkDataRemoved;
    match e
    case OnTask(x) => TaskStepNoOrphan(m, x);
    case OnData(x) => NothingStarts(m, DataStep(m, x));
    case OnReport(x) => ReportStepNoOrphan(m, x);
    case OnWorker(x) => WorkerStepNoOrphanIff(m, x);
    case OnRecovery(x) => RecoveryStepNoOrphan(m, x);
  }

  ghost predicate HarmlessRun(m: Master, es: seq<Event>)
    requires IsRun(m, es)
    decreases |es|
  {
    es == [] || (Harmless(m, es[0]) && HarmlessRun(Step(m, es[0]), es[1..]))
  }

  ghost predicate NeverOrphans(m: Master, es: seq<Event>)
    requires IsRun(m, es)
    decreases |es|
  {
    NoOrphan(m) && (es == [] || NeverOrphans(Step(m, es[0]), es[1..]))
  }

  /** At every moment of a run of the master each task running on a gone worker is on the list of that
      worker's handler, exactly when every heartbeat mark of the run is harmless. */
  lemma {:induction false} RunNoOrphanIff(m: Master, es: seq<Event>)
    requires NoOrphan(m) && IsRun(m, es)
    ensures NeverOrphans(m, es) <==> HarmlessRun(m, es)
    decreases |es|
  {
    hide NoOrphan, Enabled, Step, Harmless;
    if es != [] {
      StepNoOrphanIff(m, es[0]);
      if Harmless(m, es[0]) {
        RunNoOrphanIff(Step(m, es[0]), es[1..]);
      }
    }
  }

  lemma {:induction false} OnlyHeartbeatOrphans(es: seq<Event>)
    requires IsRun(Begin(), es)
    ensures NeverOrphans(Begin(), es) <==> HarmlessRun(Begin(), es)
  {
    RunNoOrphanIff(Begin(), es);
  }

  // ---------------------------------------------------------------------------
  // The handler of a gone worker takes everything over
  // ---------------------------------------------------------------------------

  /** Worker w is gone, and everything that runs on it is on its handler's list. */
  ghost predicate TakenOver(m: Master, w: nat) {
    IsGone(m, w) && w in m.recovering && forall t :: t in RunningOn(m, w) ==> t in m.recovering[w]
  }

  /** The step brings w back: it registers, a heartbeat of it or a report of it is accepted, or a
      backup or merge is sent to it. */
  ghost predicate BringsBack(m: Master, e: Event, w: nat) {
    match e
    case OnWorker(x) => (x.Register? || x.Reconnect? || x.Revive? || x.Internal?) && x.w == w
    case OnReport(x) => x.Arrives? && x.w == w && !Stale(m, w, x.t)
    case _ => false
  }

  /** Whatever was orphaned before, too. */
  lemma {:induction false} HandlerTakesOver(m: Master, e: WorkerEvent)
    requires (e.MarkDead? || e.MarkExited?) && e.w in m.workers
    ensures TakenOver(WorkerStep(m, e), e.w)
  {
  }

  /** No task starts on w, w stays gone, and only tasks that no longer run leave its list. */
  lemma {:induction false} StaysTakenOver(m: Master, m': Master, w: nat)
    requires TakenOver(m, w) && IsGone(m', w) && w in m'.recovering
    requires forall t :: t in m'.meta && m'.meta[t].status == RUNNING && m'.meta[t].worker == w ==>
               t in m.meta && m'.meta[t] == m.meta[t]
    requires forall t :: Recovers(m, w, t) && IsRunning(m', t) && m'.meta[t].worker == w ==> Recovers(m', w, t)
    ensures TakenOver(m', w)
  {
    forall t | t in RunningOn(m', w) ensures t in m'.recovering[w] {
      assert t in RunningOn(m, w) && Recovers(m, w, t);
    }
  }

  lemma {:induction false} ScheduleTakenOver(m: Master, picks: seq<Pick>, deadlocked: set<Id>, evict: set<Id>, w: nat)
    requires TakenOver(m, w) && LegalPicks(m, picks)
    ensures TakenOver(ScheduleSection(m, picks, deadlocked, evict), w)
  {
    var m1 := Assign(Decide(m, picks), picks);
    BusyOrSame(m, picks, w);
    forall t | t in m1.meta && m1.meta[t].status == RUNNING && m1.meta[t].worker == w
      ensures t in m.meta && m1.meta[t] == m.meta[t]
    {
      AssignedToIdle(m, picks, t);
    }
    assert TakenOver(m1, w) by {
      hide Decide, Assign, LegalPicks;
      assert m1.recovering == m.recovering;
      StaysTakenOver(m, m1, w);
    }
    hide Decide, Assign, LegalPicks, RemoveAll, Unresolvable;
    var m2 := ScheduleSection(m, picks, deadlocked, evict);
    assert m2.recovering == m1.recovering && m2.workers == m1.workers;
    StaysTakenOver(m1, m2, w);
  }

  lemma {:induction false} TaskTakenOver(m: Master, e: TaskEvent, w: nat)
    requires TakenOver(m, w) && TaskEnabled(m, e)
    ensures TakenOver(TaskStep(m, e), w)
  {
    hide TakenOver, RemoveTask, AddTask, ScheduleSection, LegalPicks, Judge;
    TakenOverMeans(m, w);
    match e
    case Schedule(picks, deadlocked, evict) => ScheduleTakenOver(m, picks, deadlocked, evict, w);
    case _ => StaysTakenOver(m, TaskStep(m, e), w);
  }

  lemma {:induction false} TakenOverMeans(m: Master, w: nat)
    requires TakenOver(m, w)
    ensures IsGone(m, w) && w in m.recovering
  {
  }

  lemma {:induction false} ReportTakenOver(m: Master, e: ReportEvent, w: nat)
    requires TakenOver(m, w) && ReportEnabled(m, e) && !BringsBack(m, OnReport(e), w)
    ensures TakenOver(ReportStep(m, e), w)
  {
    hide TakenOver, RemoveTask, MarkDataReady;
    TakenOverMeans(m, w);
    match e
    case Arrives(r, v, t, failed, writes) =>
      ArrivalFrame(m, r, Report(v, t, failed, writes));
      StaysTakenOver(m, Checked(m, r, Report(v, t, failed, writes)), w);
    case Marks(r, d) => StaysTakenOver(m, Marked(m, r, d), w);
    case _ => StaysTakenOver(m, ReportStep(m, e), w);
  }

  lemma {:induction false} WorkerTakenOver(m: Master, e: WorkerEvent, w: nat)
    requires TakenOver(m, w) && !BringsBack(m, OnWorker(e), w)
    ensures TakenOver(WorkerStep(m, e), w)
  {
  }

  lemma {:induction false} RecoveryTakenOver(m: Master, e: RecoveryEvent, w: nat)
    requires TakenOver(m, w) && RecoveryEnabled(m, e)
    ensures TakenOver(RecoveryStep(m, e), w)
  {
    hide TakenOver, RemoveTask, AddTask;
    TakenOverMeans(m, w);
    StaysTakenOver(m, RecoveryStep(m, e), w);
  }

  lemma {:induction false} StepTakenOver(m: Master, e: Event, w: nat)
    requires TakenOver(m, w) && Enabled(m, e) && !BringsBack(m, e, w)
    ensures TakenOver(Step(m, e), w)
  {
    hide TaskEnabled, TaskStep, ReportStep, WorkerStep, RecoveryStep, MarkDataReady, MarkDataRemoved, BringsBack;
    match e
    case OnTask(x) => TaskTakenOver(m, x, w);
    case OnData(x) => StaysTakenOver(m, DataStep(m, x), w);
    case OnReport(x) => ReportTakenOver(m, x, w);
    case OnWorker(x) => WorkerTakenOver(m, x, w);
    case OnRecovery(x) => RecoveryTakenOver(m, x, w);
  }

  ghost predicate StaysAway(m: Master, es: seq<Event>, w: nat)
    requires IsRun(m, es)
    decreases |es|
  {
    es == [] || (!BringsBack(m, es[0], w) && StaysAway(Step(m, es[0]), es[1..], w))
  }

  lemma {:induction false} RunTakenOver(m: Master, es: seq<Event>, w: nat)
    requires TakenOver(m, w) && IsRun(m, es) && StaysAway(m, es, w)
    ensures TakenOver(After(m, es), w)
    decreases |es|
  {
    hide TakenOver, Enabled, Step, BringsBack;
    if es != [] {
      StepTakenOver(m, es[0], w);
      RunTakenOver(Step(m, es[0]), es[1..], w);
    }
  }

  /** From any state whatever, once a known worker w is declared dead or has exited, and in every run
      until it comes back: what runs on w is on its handler's list, so nothing does once the handler
      is through. */
  lemma {:induction false} HandlerLeavesNoOrphan(m: Master, e: WorkerEvent, es: seq<Event>)
    requires (e.MarkDead? || e.MarkExited?) && e.w in m.workers
    requires IsRun(WorkerStep(m, e), es) && StaysAway(WorkerStep(m, e), es, e.w)
    ensures var m' := After(WorkerStep(m, e), es);
            && IsGone(m', e.w) && e.w in m'.recovering && RunningOn(m', e.w) <= m'.recovering[e.w]
            && (m'.recovering[e.w] == {} ==> RunningOn(m', e.w) == {})
  {
    HandlerTakesOver(m, e);
    RunTakenOver(WorkerStep(m, e), es, e.w);
  }

  // ---------------------------------------------------------------------------
  // Runs given step by step
  // ---------------------------------------------------------------------------

  /** es is a run from m, and it ends in m'. */
  ghost predicate Leads(m: Master, es: seq<Event>, m': Master) { IsRun(m, es) && After(m, es) == m' }

  lemma {:induction false} LeadsNone(m: Master)
    ensures Leads(m, [], m)
  {
  }

  lemma {:induction false} LeadsFirst(m: Master, e: Event, es: seq<Event>, m': Master)
    requires Enabled(m, e) && Leads(Step(m, e), es, m')
    ensures Leads(m, [e] + es, m')
  {
  }

  lemma {:induction false} LeadsBoth(m: Master, es: seq<Event>, m1: Master, fs: seq<Event>, m2: Master)
    requires Leads(m, es, m1) && Leads(m1, fs, m2)
    ensures Leads(m, es + fs, m2)
    decreases |es|
  {
    hide Enabled, Step;
    if es == [] {
      assert es + fs == fs;
    } else {
      LeadsBoth(Step(m, es[0]), es[1..], m1, fs, m2);
      assert [es[0]] + (es[1..] + fs) == es + fs;
      LeadsFirst(m, es[0], es[1..] + fs, m2);
    }
  }

  // ---------------------------------------------------------------------------
  // The code of the sections
  // ---------------------------------------------------------------------------

  lemma {:induction false} RemoveAllStep(g: Graph, ts: set<Id>, t: Id)
    ensures RemoveTask(RemoveAll(g, ts), t) == RemoveAll(g, ts + {t})
  {
  }

  lemma {:induction false} RemoveNone(g: Graph)
    ensures RemoveAll(g, {}) == g
  {
  }

  lemma {:induction false} FailAllStep(meta: map<Id, Meta>, done: set<Id>, t: Id)
    ensures FailAll(meta, done + {t}) == WithStatus(FailAll(meta, done), t, FAILED)
  {
  }

  ghost function Requeued(meta: map<Id, Meta>, ts: set<Id>): map<Id, Meta> {
    map t | t in meta :: if t in ts then meta[t].(status := PENDING, worker := 0) else meta[t]
  }

  lemma {:induction false} RequeuedStep(meta: map<Id, Meta>, done: set<Id>, t: Id)
    requires t in meta
    ensures t in Requeued(meta, done)
    ensures Requeued(meta, done + {t}) ==
            Requeued(meta, done)[t := Requeued(meta, done)[t].(status := PENDING, worker := 0)]
  {
  }

  lemma {:induction false} PickedStep(picks: seq<Pick>, i: nat)
    requires i < |picks|
    ensures Picked(picks[..i + 1]) == Picked(picks[..i]) + {picks[i].t}
    ensures Chosen(picks[..i + 1]) == Chosen(picks[..i]) + {picks[i].w}
  {
  }

  lemma {:induction false} BusyStep(workers: map<nat, WorkerStatus>, chosen: set<nat>, w: nat)
    requires w in workers
    ensures MadeBusy(workers, chosen + {w}) == MadeBusy(workers, chosen)[w := BUSY]
  {
  }

  ghost predicate DistinctPicks(picks: seq<Pick>) {
    forall i, j :: 0 <= i < j < |picks| ==> picks[i].t != picks[j].t
  }

  /** The assignment of one more pick touches only its own task. */
  lemma {:induction false} AssignedStep(meta: map<Id, Meta>, picks: seq<Pick>, i: nat)
    requires i < |picks| && DistinctPicks(picks)
    ensures var p, before := picks[i], Assigned(meta, picks[..i]);
            Assigned(meta, picks[..i + 1]) ==
            if p.connected && p.t in before then before[p.t := before[p.t].(status := RUNNING, worker := p.w)]
            else before
  {
  }

  lemma {:induction false} PicksTakeEffect(meta: map<Id, Meta>, workers: map<nat, WorkerStatus>, picks: seq<Pick>)
    requires DistinctPicks(picks) && forall i :: 0 <= i < |picks| ==> picks[i].w in workers
    ensures forall i :: 0 <= i < |picks| ==>
              picks[i].w in MadeBusy(workers, Chosen(picks)) && MadeBusy(workers, Chosen(picks))[picks[i].w] == BUSY
    ensures forall i :: 0 <= i < |picks| && picks[i].connected && picks[i].t in meta ==>
              && picks[i].t in Assigned(meta, picks)
              && Assigned(meta, picks)[picks[i].t] == meta[picks[i].t].(status := RUNNING, worker := picks[i].w)
  {
    forall i | 0 <= i < |picks| ensures picks[i].w in Chosen(picks) {
    }
    forall i | 0 <= i < |picks| && picks[i].connected && picks[i].t in meta
      ensures Assigned(meta, picks)[picks[i].t] == meta[picks[i].t].(status := RUNNING, worker := picks[i].w)
    {
      assert picks[i] in picks;
      assert forall p :: p in picks && p.t == picks[i].t ==> p == picks[i];
    }
  }

  class MasterAgent {
    const graph: DependencyGraph
    var meta: map<Id, Meta>
    var workers: map<nat, WorkerStatus>

    constructor (graph: DependencyGraph)
      ensures this.graph == graph && meta == map[] && workers == map[]
    {
      this.graph, meta, workers := graph, map[], map[];
    }

    ghost predicate Together()
      reads this, graph
    {
      && Valid(graph.View())
      && forall t :: t in Tasks(graph.View()) <==> t in meta && meta[t].status == PENDING
    }

    /** The section of submit_task. */
    method SubmitTask(taskId: Id, inputs: seq<Data>)
      requires Together() && taskId !in meta && taskId !in Tasks(graph.View())
      modifies this, graph
      ensures Together() && workers == old(workers)
      ensures meta == old(meta)[taskId := Meta(PENDING, 0, inputs)]
      ensures graph.View() == AddTask(old(graph.View()), taskId, inputs)
    {
      AddKeeps(graph.View(), taskId, inputs);
      meta := meta[taskId := Meta(PENDING, 0, inputs)];
      graph.Add(taskId, inputs);
    }

    /** The section of on_task_complete, and with status FAILED that of on_task_failed. */
    method FinishTask(taskId: Id, status: Status)
      requires Together() && (status == COMPLETED || status == FAILED)
      modifies this, graph
      ensures Together() && workers == old(workers)
      ensures meta == WithStatus(old(meta), taskId, status)
      ensures meta.Keys == old(meta).Keys && forall t :: t in meta && t != taskId ==> meta[t] == old(meta)[t]
      ensures taskId in old(meta) ==> meta[taskId] == old(meta)[taskId].(status := status)
      ensures graph.View() == RemoveTask(old(graph.View()), taskId) && taskId !in Tasks(graph.View())
    {
      RemoveKeeps(graph.View(), taskId);
      graph.Remove(taskId);
      if taskId in meta {
        meta := meta[taskId := meta[taskId].(status := status)];
      }
    }

    /** fail_and_persist_tasks: every task leaves the graph and fails. */
    method FailAndPersist(ts: set<Id>)
      requires Together()
      modifies this, graph
      ensures Together() && workers == old(workers)
      ensures meta == FailAll(old(meta), ts) && graph.View() == RemoveAll(old(graph.View()), ts)
    {
      ghost var g := graph.View();
      ghost var done := {};
      var todo := ts;
      RemoveNone(g);
      assert FailAll(meta, {}) == meta;
      hide *;
      while todo != {}
        invariant done == ts - todo && todo <= ts && workers == old(workers) && Together()
        invariant graph.View() == RemoveAll(g, done) && meta == FailAll(old(meta), done)
        decreases |todo|
      {
        var t :| t in todo;
        RemoveAllStep(g, done, t);
        FailAllStep(old(meta), done, t);
        DoneStep(ts, todo, done, t, {});
        FinishTask(t, FAILED);
        done := done + {t};
        todo := todo - {t};
      }
      assert done == ts;
    }

    /** The decisions of the scheduler, then their assignments, in one section. */
    method AssignPicks(picks: seq<Pick>)
      requires Together() && DistinctPicks(picks)
      requires forall i :: 0 <= i < |picks| ==> picks[i].w in workers
      modifies this, graph
      ensures Valid(graph.View()) && graph.View() == RemoveAll(old(graph.View()), Picked(picks))
      ensures workers == MadeBusy(old(workers), Chosen(picks))
      ensures forall i :: 0 <= i < |picks| ==> workers[picks[i].w] == BUSY
      ensures meta == Assigned(old(meta), picks)
      ensures forall i :: 0 <= i < |picks| && picks[i].connected && picks[i].t in old(meta) ==>
                meta[picks[i].t] == old(meta)[picks[i].t].(status := RUNNING, worker := picks[i].w)
    {
      ghost var g, ws := graph.View(), workers;
      RemoveNone(g);
      assert Picked(picks[..0]) == {} && Chosen(picks[..0]) == {} && MadeBusy(ws, {}) == ws;
      assert Assigned(meta, picks[..0]) == meta;
      RemoveAllKeeps(g, Picked(picks));
      PicksTakeEffect(meta, workers, picks);
      hide *;
      for i := 0 to |picks|
        invariant graph.View() == RemoveAll(g, Picked(picks[..i])) && workers == MadeBusy(ws, Chosen(picks[..i]))
        invariant meta == old(meta)
      {
        PickedStep(picks, i);
        RemoveAllStep(g, Picked(picks[..i]), picks[i].t);
        BusyStep(ws, Chosen(picks[..i]), picks[i].w);
        workers := workers[picks[i].w := BUSY];
        graph.Remove(picks[i].t);
      }
      assert picks[..|picks|] == picks;
      for i := 0 to |picks|
        modifies `meta
        invariant meta == Assigned(old(meta), picks[..i])
      {
        AssignedStep(old(meta), picks, i);
        if picks[i].connected && picks[i].t in meta {
          meta := meta[picks[i].t := meta[picks[i].t].(status := RUNNING, worker := picks[i].w)];
        }
      }
    }

    /** Tasks running somewhere. */
    method AnyRunning() returns (running: bool)
      ensures running <==> exists t :: t in meta && meta[t].status == RUNNING
    {
      var found := set t | t in meta && meta[t].status == RUNNING;
      assert forall t :: t in found <==> t in meta && meta[t].status == RUNNING;
      running := found != {};
    }

    /** The verdict at the end of the scheduling section. */
    method JudgePending() returns (failed: set<Id>)
      requires Together()
      modifies this, graph
      ensures Together() && workers == old(workers)
      ensures failed == if old(graph.View().ready) == {}
                           && (forall t :: t in old(meta) ==> old(meta)[t].status != RUNNING)
                        then old(graph.View().pending) else {}
      ensures meta == FailAll(old(meta), failed) && graph.View() == RemoveAll(old(graph.View()), failed)
    {
      RemoveNone(graph.View());
      failed := {};
      if graph.pendingTasks != {} && graph.readyTasks == {} {
        var running := AnyRunning();
        if !running {
          failed := graph.pendingTasks;
          FailAndPersist(failed);
          return;
        }
      }
      assert FailAll(meta, {}) == meta;
    }

    /** Requeue one task after the other. */
    method RequeueAll(ts: set<Id>)
      requires Together() && ts <= meta.Keys
      modifies this, graph
      ensures Together() && workers == old(workers) && meta == Requeued(old(meta), ts)
    {
      ghost var done := {};
      var todo := ts;
      assert Requeued(meta, {}) == meta;
      hide *;
      while todo != {}
        invariant done == ts - todo && todo <= ts && ts <= meta.Keys && Together()
        invariant workers == old(workers) && meta == Requeued(old(meta), done)
        decreases |todo|
      {
        var t :| t in todo;
        DoneStep(ts, todo, done, t, {});
        RequeuedStep(old(meta), done, t);
        RequeueTask(t);
        done := done + {t};
        todo := todo - {t};
      }
      assert done == ts;
    }

    /** handle_worker_death outside drain, with no other handler in between: the worker is dead,
        its running tasks are back in the graph, unassigned, and nothing else changed. */
    method HandleWorkerDeath(workerId: nat)
      requires Together()
      modifies this, graph
      ensures Together()
      ensures workers == if workerId in old(workers) then old(workers)[workerId := DEAD] else old(workers)
      ensures meta == Requeued(old(meta), set t | t in old(meta) && old(meta)[t].status == RUNNING
                                                  && old(meta)[t].worker == workerId)
    {
      hide Valid;
      if workerId in workers {
        workers := workers[workerId := DEAD];
      }
      var tasksToRecover := set t | t in meta && meta[t].status == RUNNING && meta[t].worker == workerId;
      RequeueAll(tasksToRecover);
    }

    /** The requeue section. */
    method RequeueTask(t: Id)
      requires Together() && t in meta
      modifies this, graph
      ensures Together() && workers == old(workers)
      ensures meta == old(meta)[t := old(meta)[t].(status := PENDING, worker := 0)]
      ensures graph.View() == AddTask(RemoveTask(old(graph.View()), t), t, old(meta)[t].inputs)
      ensures graph.View().available == old(graph.View().available)
    {
      RemoveKeeps(graph.View(), t);
      graph.Remove(t);
      AddKeeps(graph.View(), t, meta[t].inputs);
      graph.Add(t, meta[t].inputs);
      meta := meta[t := meta[t].(status := PENDING, worker := 0)];
    }
  }
}
