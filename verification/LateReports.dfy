/**
 Reports that come late (src/agent/cpp/master_agent.cpp, on_task_complete and on_task_failed).

 A report is checked against the metadata when it arrives and applied in a later section. Between
 the two its task can be requeued and given to another worker.
 */
module LateReports {
  import opened TaskLifecycle
  import G = DependencyGraphs

  /** A report about a task that is assigned to another worker when it is checked is dropped, and
      no other report is. */
  lemma {:induction false} StaleReportChangesNothing(m: Master, e: ReportEvent)
    requires e.Arrives? && ReportEnabled(m, e)
    ensures ReportStep(m, e) == m.(owed := m.owed - multiset{(e.w, e.t)}) <==> Stale(m, e.w, e.t)
  {
  }

  /** A task running on a worker other than w is no longer running there. */
  ghost predicate TakesFromOther(m: Master, m': Master, w: nat) {
    exists t :: IsRunning(m, t) && m.meta[t].worker != 0 && m.meta[t].worker != w
                && !(IsRunning(m', t) && m'.meta[t] == m.meta[t])
  }

  /** Applying a report takes a task from another worker exactly when the report is stale by then
      and the other worker's run is still going. */
  lemma {:induction false} ApplyTakesFromOtherIff(m: Master, e: ReportEvent)
    requires (e.ApplyComplete? || e.ApplyFailed?) && ReportEnabled(m, e)
    ensures var report := m.reports[e.r];
            TakesFromOther(m, ReportStep(m, e), report.w) <==>
            Stale(m, report.w, report.t) && IsRunning(m, report.t)
  {
    var report, m' := m.reports[e.r], ReportStep(m, e);
    hide G.RemoveTask;
    assert report.t in m'.meta ==> m'.meta[report.t].status == if e.ApplyComplete? then COMPLETED else FAILED;
    forall t | IsRunning(m, t) && t != report.t ensures IsRunning(m', t) && m'.meta[t] == m.meta[t] {
    }
    if Stale(m, report.w, report.t) && IsRunning(m, report.t) {
      assert !IsRunning(m', report.t);
    }
  }

  // ---------------------------------------------------------------------------
  // When a report is stale
  // ---------------------------------------------------------------------------

  /** The worker a step leaves task t with, given the one it had. */
  ghost function AssigneeAfter(worker: nat, e: Event, t: G.Id): nat {
    match e
    case OnTask(Submit(u, _)) => if u == t then 0 else worker
    case OnTask(Schedule(picks, _, _)) =>
      if exists p :: p in picks && p.t == t && p.connected then WorkerFor(picks, t) else worker
    case OnRecovery(Requeue(_, u)) => if u == t then 0 else worker
    case _ => worker
  }

  /** The last worker t was given to, 0 when it was submitted or requeued since. */
  ghost function LastAssignee(worker: nat, es: seq<Event>, t: G.Id): nat
    decreases |es|
  {
    if es == [] then worker else LastAssignee(AssigneeAfter(worker, es[0], t), es[1..], t)
  }

  ghost predicate Holds(m: Master, t: G.Id, worker: nat) { t in m.meta ==> m.meta[t].worker == worker }

  lemma {:induction false} ScheduleAssigns(m: Master, e: TaskEvent, t: G.Id, worker: nat)
    requires e.Schedule? && Holds(m, t, worker)
    ensures Holds(TaskStep(m, e), t, AssigneeAfter(worker, OnTask(e), t))
  {
    var m1 := Assign(Decide(m, e.picks), e.picks);
    assert Holds(m1, t, AssigneeAfter(worker, OnTask(e), t));
    hide RemoveAll, Unresolvable, Assign, Decide, AssigneeAfter;
  }

  lemma {:induction false} TaskStepAssigns(m: Master, e: TaskEvent, t: G.Id, worker: nat)
    requires TaskEnabled(m, e) && Holds(m, t, worker)
    ensures Holds(TaskStep(m, e), t, AssigneeAfter(worker, OnTask(e), t))
  {
    if e.Schedule? {
      ScheduleAssigns(m, e, t, worker);
    } else {
      hide TaskEnabled, ScheduleSection, G.AddTask, G.RemoveTask;
    }
  }

  lemma {:induction false} OthersAssignNobody(worker: nat, e: Event, t: G.Id)
    requires e.OnData? || e.OnReport? || e.OnWorker?
    ensures AssigneeAfter(worker, e, t) == worker
  {
  }

  lemma {:induction false} ReportStepAssigns(m: Master, e: ReportEvent, t: G.Id, worker: nat)
    requires ReportEnabled(m, e) && Holds(m, t, worker)
    ensures Holds(ReportStep(m, e), t, worker)
  {
  }

  lemma {:induction false} RecoveryStepAssigns(m: Master, e: RecoveryEvent, t: G.Id, worker: nat)
    requires RecoveryEnabled(m, e) && Holds(m, t, worker)
    ensures Holds(RecoveryStep(m, e), t, AssigneeAfter(worker, OnRecovery(e), t))
  {
  }

  lemma {:induction false} StepAssigns(m: Master, e: Event, t: G.Id, worker: nat)
    requires Enabled(m, e) && Holds(m, t, worker)
    ensures Holds(Step(m, e), t, AssigneeAfter(worker, e, t))
  {
    hide TaskEnabled, TaskStep, ReportStep, RecoveryStep, ReportEnabled, RecoveryEnabled, AssigneeAfter;
    match e
    case OnTask(x) => TaskStepAssigns(m, x, t, worker);
    case OnData(x) => OthersAssignNobody(worker, e, t);
    case OnReport(x) =>
      ReportStepAssigns(m, x, t, worker);
      OthersAssignNobody(worker, e, t);
    case OnWorker(x) => OthersAssignNobody(worker, e, t);
    case OnRecovery(x) => RecoveryStepAssigns(m, x, t, worker);
  }

  lemma {:induction false} RunAssigns(m: Master, es: seq<Event>, t: G.Id, worker: nat)
    requires IsRun(m, es) && Holds(m, t, worker)
    ensures Holds(After(m, es), t, LastAssignee(worker, es, t))
    decreases |es|
  {
    hide Enabled, Step, AssigneeAfter, Holds;
    if es != [] {
      StepAssigns(m, es[0], t, worker);
      RunAssigns(Step(m, es[0]), es[1..], t, AssigneeAfter(worker, es[0], t));
    }
  }

  /** Whatever happens between the check and the application, a report from w is stale in the end
      exactly when the task is known and was last given to a third worker. This covers a report
      accepted while its task was unassigned (worker 0) or unknown. */
  lemma {:induction false} StaleIffGivenAway(m: Master, es: seq<Event>, w: nat, t: G.Id)
    requires IsRun(m, es)
    ensures var worker := if t in m.meta then m.meta[t].worker else 0;
            Stale(After(m, es), w, t) <==>
            t in After(m, es).meta && LastAssignee(worker, es, t) != 0 && LastAssignee(worker, es, t) != w
  {
    RunAssigns(m, es, t, if t in m.meta then m.meta[t].worker else 0);
  }

  /** A task that is out of the graph is picked by no scheduling section. */
  lemma {:induction false} NotAssigned(m: Master, e: Event, t: G.Id)
    requires G.Valid(m.graph) && t !in G.Tasks(m.graph) && Enabled(m, e) && !Enters(e, t)
    ensures forall worker :: AssigneeAfter(worker, e, t) == worker
  {
  }

  /** A report accepted for a task that left the graph with its own worker stays good until the
      task is requeued or submitted again. */
  lemma {:induction false} AcceptedReportStaysGood(m: Master, es: seq<Event>, w: nat, t: G.Id)
    requires G.Valid(m.graph) && t !in G.Tasks(m.graph) && Holds(m, t, w)
    requires IsRun(m, es) && forall i :: 0 <= i < |es| ==> !Enters(es[i], t)
    ensures !Stale(After(m, es), w, t)
    decreases |es|
  {
    if es != [] {
      var m' := Step(m, es[0]);
      StepKeepsValid(m, es[0]);
      NotAssigned(m, es[0], t);
      StepAssigns(m, es[0], t, w);
      hide G.Valid, Step, Enabled, Stale;
      AcceptedReportStaysGood(m', es[1..], w, t);
    }
  }
}
