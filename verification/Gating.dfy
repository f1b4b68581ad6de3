/** Invariants across aggregates: every run's dependency graph stays acyclic, tasks wait
    for their prerequisites and never longer, and a run's state says what its tasks did. */
module Gating {
  import opened Kernel
  import opened TaskGraph
  import opened Tasks
  import opened TaskHistory
  import opened Runs
  import opened Database
  import opened Steps

  ghost function EdgesIn(deps: set<DependencyRow>, run: Id): set<Dependency> {
    set row | row in deps && row.run == run :: row.edge
  }

  ghost predicate AcyclicRuns(db: Db) {
    forall run {:trigger EdgesIn(db.deps, run)} :: Acyclic(EdgesIn(db.deps, run))
  }

  /** A pending task misses a prerequisite; a task that is neither pending, failed nor
      cancelled misses none. */
  ghost predicate Gated(tasks: map<Id, Task>, deps: set<DependencyRow>, id: Id)
    requires id in tasks
  {
    var missing := Unaccepted(tasks, deps, tasks[id].runId, id);
    && (tasks[id].state == Pending ==> missing != {})
    && (tasks[id].state !in {Pending, Failed, Cancelled} ==> missing == {})
  }

  ghost predicate AllGated(db: Db) {
    forall id {:trigger Gated(db.tasks, db.deps, id)} :: id in db.tasks ==> Gated(db.tasks, db.deps, id)
  }

  ghost predicate AllIn(tasks: map<Id, Task>, run: Id, states: set<TaskState>) {
    forall id :: id in tasks && tasks[id].runId == run ==> tasks[id].state in states
  }

  ghost predicate HasTasks(tasks: map<Id, Task>, run: Id) {
    exists id :: id in tasks && tasks[id].runId == run
  }

  /** What a run's state says about its tasks. */
  ghost predicate GateHolds(state: RunState, tasks: map<Id, Task>, run: Id) {
    match state
    case DraftRun => !HasTasks(tasks, run)
    case SpecificationReview => !HasTasks(tasks, run)
    case TaskPlanning => !HasTasks(tasks, run)
    case TaskPlanReview => !HasTasks(tasks, run)
    case ReadyRun => HasTasks(tasks, run) && AllIn(tasks, run, {Pending, Ready})
    case ExecutingRun => HasTasks(tasks, run)
    case VerifyingRun => HasTasks(tasks, run) && AllIn(tasks, run, {Accepted})
    case ReviewingRun => HasTasks(tasks, run) && AllIn(tasks, run, {Accepted})
    case ApprovalPending => HasTasks(tasks, run) && AllIn(tasks, run, {Accepted})
    case MergeReady => HasTasks(tasks, run) && AllIn(tasks, run, {Accepted})
    case MergedRun => HasTasks(tasks, run) && AllIn(tasks, run, {Accepted})
    case RejectedRun => AllIn(tasks, run, {Accepted})
    case CancelledRun => AllIn(tasks, run, {Accepted, Failed, Cancelled})
    case FailedRun => true
  }

  ghost predicate Gates(db: Db) {
    forall run {:trigger db.runs[run]} :: run in db.runs ==> GateHolds(db.runs[run].state, db.tasks, run)
  }

  ghost predicate Sound(db: Db) {
    Tables(db) && AcyclicRuns(db) && AllGated(db) && Gates(db)
  }

  // ----- Task steps -----

  /** A task command only ever reaches an executing run. */
  lemma {:induction false} TaskStepsExecute(db: Db, c: TaskCommand, applied: Applied, woken: seq<Id>)
    requires TaskStep(db, c, applied, woken) && Gates(db)
    ensures db.runs[c.run].state == ExecutingRun && !c.CancelTask?
  {
    hide Apply;
    AppliedIdentity(db.tasks[c.id], c);
    assert GateHolds(db.runs[c.run].state, db.tasks, c.run);
  }

  /** The tasks after a task step, one by one. */
  lemma {:induction false} TaskStepTasks(db: Db, c: TaskCommand, applied: Applied, woken: seq<Id>)
    requires TaskStep(db, c, applied, woken)
    ensures var after := TaskWrites(db, c, applied, woken).db;
      && after.tasks.Keys == db.tasks.Keys && c.id !in woken
      && after.tasks[c.id] == applied.task
      && applied.task.id == c.id && applied.task.runId == c.run == db.tasks[c.id].runId
      && (forall id :: id in woken ==> id in db.tasks && id != c.id && db.tasks[id].state == Pending
                                       && db.tasks[id].runId == c.run
                                       && after.tasks[id] == Woken(db.tasks[id], c.meta.timestamp))
      && (forall id :: id in db.tasks && id != c.id && id !in woken ==> after.tasks[id] == db.tasks[id])
  {
    hide Apply, WakeEvents, AllFit;
    AppliedIdentity(db.tasks[c.id], c);
    var tasks := db.tasks[c.id := applied.task];
    forall id | id in woken
      ensures id in db.tasks && id != c.id && db.tasks[id].state == Pending && db.tasks[id].runId == c.run
    {
      assert Awakes(tasks, db.deps, applied.task, id);
    }
  }

  lemma {:induction false} TaskStepKeepsTables(db: Db, c: TaskCommand, applied: Applied, woken: seq<Id>)
    requires TaskStep(db, c, applied, woken)
    ensures Tables(TaskWrites(db, c, applied, woken).db)
  {
    hide Apply, WakeEvents, AllFit, WakeAll, Awakes, Inside, TaskStep;
    TaskStepTasks(db, c, applied, woken);
    var after := TaskWrites(db, c, applied, woken).db;
    StepOnTables(db, c, applied, woken);
    SameRows(db.tasks, after.tasks, db.deps);
  }

  lemma {:induction false} StepOnTables(db: Db, c: TaskCommand, applied: Applied, woken: seq<Id>)
    requires TaskStep(db, c, applied, woken)
    ensures Tables(db)
  {
    hide Apply, WakeEvents, AllFit, WakeAll, Awakes, Tables;
  }

  /** Rows stay inside their run when every task keeps its owner. */
  lemma {:induction false} SameRows(tasks: map<Id, Task>, after: map<Id, Task>, deps: set<DependencyRow>)
    requires forall row :: row in deps ==> Inside(tasks, row)
    requires tasks.Keys <= after.Keys && forall id :: id in tasks ==> after[id].runId == tasks[id].runId
    ensures forall row :: row in deps ==> Inside(after, row)
  {
    forall row | row in deps
      ensures Inside(after, row)
    {
      assert Inside(tasks, row);
    }
  }

  /** The prerequisites a task still misses after a step: those it missed, except the
      one that was accepted. */
  lemma {:induction false} MissingAfter(db: Db, c: TaskCommand, applied: Applied, woken: seq<Id>, id: Id)
    requires TaskStep(db, c, applied, woken) && id in db.tasks
    ensures var after := TaskWrites(db, c, applied, woken).db; var run := db.tasks[id].runId;
      && after.tasks[id].runId == run
      && Unaccepted(after.tasks, db.deps, run, id) == Unaccepted(db.tasks[c.id := applied.task], db.deps, run, id)
      && (forall row :: row in Unaccepted(after.tasks, db.deps, run, id) <==>
            row in Unaccepted(db.tasks, db.deps, run, id)
            && !(row.edge.dependsOn == c.id && applied.task.state == Accepted))
  {
    hide Apply, WakeEvents, AllFit, WakeAll, Awakes;
    TaskStepTasks(db, c, applied, woken);
    AppliedIdentity(db.tasks[c.id], c);
    var after := TaskWrites(db, c, applied, woken).db;
    var run := db.tasks[id].runId;
    var middle := db.tasks[c.id := applied.task];
    forall row | row in db.deps
      ensures row in Unaccepted(after.tasks, db.deps, run, id) <==> row in Unaccepted(middle, db.deps, run, id)
      ensures row in Unaccepted(after.tasks, db.deps, run, id) <==>
        row in Unaccepted(db.tasks, db.deps, run, id) && !(row.edge.dependsOn == c.id && applied.task.state == Accepted)
    {
      assert Inside(db.tasks, row);
    }
  }

  lemma {:induction false} TaskStepKeepsGating(db: Db, c: TaskCommand, applied: Applied, woken: seq<Id>, id: Id)
    requires TaskStep(db, c, applied, woken) && AllGated(db) && id in db.tasks
    ensures var after := TaskWrites(db, c, applied, woken).db;
      id in after.tasks && Gated(after.tasks, after.deps, id)
  {
    hide Apply, WakeEvents, AllFit, WakeAll;
    TaskStepTasks(db, c, applied, woken);
    MissingAfter(db, c, applied, woken, id);
    assert Gated(db.tasks, db.deps, id);
    var after := TaskWrites(db, c, applied, woken).db;
    var run := db.tasks[id].runId;
    if id == c.id {
      CommandedTaskIsFree(db.tasks[id], c);
    } else if id in woken {
      assert Awakes(db.tasks[c.id := applied.task], db.deps, applied.task, id);
    } else if db.tasks[id].state == Pending && Unaccepted(after.tasks, after.deps, run, id) == {} {
      LastPrerequisite(db, c, applied, woken, id);
    }
  }

  /** A task that misses nothing after a step, but missed something before, was woken. */
  lemma {:induction false} LastPrerequisite(db: Db, c: TaskCommand, applied: Applied, woken: seq<Id>, id: Id)
    requires TaskStep(db, c, applied, woken) && id in db.tasks && id != c.id
    requires db.tasks[id].state == Pending && Unaccepted(db.tasks, db.deps, db.tasks[id].runId, id) != {}
    requires Unaccepted(TaskWrites(db, c, applied, woken).db.tasks, db.deps, db.tasks[id].runId, id) == {}
    ensures id in woken
  {
    hide Apply, WakeEvents, AllFit, WakeAll;
    TaskStepTasks(db, c, applied, woken);
    MissingAfter(db, c, applied, woken, id);
    var run := db.tasks[id].runId;
    var row :| row in Unaccepted(db.tasks, db.deps, run, id);
    assert row !in Unaccepted(TaskWrites(db, c, applied, woken).db.tasks, db.deps, run, id);
    assert row == DependencyRow(run, Dependency(id, c.id));
    assert Inside(db.tasks, row);
    assert Awakes(db.tasks[c.id := applied.task], db.deps, applied.task, id);
  }

  /** A pending task can only fail or be cancelled by command, and any other task a
      command moves was free of prerequisites already. */
  lemma {:induction false} CommandedTaskIsFree(t: Task, c: TaskCommand)
    requires Apply(t, c).Ok?
    ensures var next := Apply(t, c).value.task;
      && t.state !in {Failed, Cancelled, Accepted} && next.state != Pending
      && (t.state == Pending ==> next.state in {Failed, Cancelled})
  {
    hide Apply, Decide;
    ApplyStamps(t, c);
  }

  lemma {:induction false} TaskStepKeepsGates(db: Db, c: TaskCommand, applied: Applied, woken: seq<Id>)
    requires TaskStep(db, c, applied, woken) && Gates(db)
    ensures Gates(TaskWrites(db, c, applied, woken).db)
  {
    hide Apply, WakeEvents, AllFit, WakeAll, Awakes;
    TaskStepTasks(db, c, applied, woken);
    TaskStepsExecute(db, c, applied, woken);
    var after := TaskWrites(db, c, applied, woken).db;
    forall run | run in after.runs
      ensures GateHolds(after.runs[run].state, after.tasks, run)
    {
      assert GateHolds(db.runs[run].state, db.tasks, run);
      if run == c.run {
        SameOwners(db.tasks, after.tasks, run);
      } else {
        GateFrame(db.runs[run].state, db.tasks, after.tasks, run);
      }
    }
  }

  /** A gate depends only on the run's own tasks. */
  lemma {:induction false} GateFrame(state: RunState, tasks: map<Id, Task>, after: map<Id, Task>, run: Id)
    requires GateHolds(state, tasks, run)
    requires forall id :: id in tasks && tasks[id].runId == run ==> id in after && after[id] == tasks[id]
    requires forall id :: id in after && after[id].runId == run ==> id in tasks && after[id] == tasks[id]
    ensures GateHolds(state, after, run)
  {
    if HasTasks(tasks, run) {
      var id :| id in tasks && tasks[id].runId == run;
      assert id in after && after[id].runId == run;
    }
  }

  lemma {:induction false} SameOwners(tasks: map<Id, Task>, after: map<Id, Task>, run: Id)
    requires tasks.Keys == after.Keys && forall id :: id in tasks ==> after[id].runId == tasks[id].runId
    ensures HasTasks(tasks, run) == HasTasks(after, run)
  {
    if HasTasks(tasks, run) {
      var id :| id in tasks && tasks[id].runId == run;
      assert id in after && after[id].runId == run;
    }
    if HasTasks(after, run) {
      var id :| id in after && after[id].runId == run;
      assert id in tasks && tasks[id].runId == run;
    }
  }

  lemma {:induction false} TaskStepKeepsSound(db: Db, c: TaskCommand, applied: Applied, woken: seq<Id>)
    requires TaskStep(db, c, applied, woken) && Sound(db)
    ensures Sound(TaskWrites(db, c, applied, woken).db)
  {
    hide TaskStep, Tables, Gates, Gated, Acyclic;
    TaskStepKeepsTables(db, c, applied, woken);
    TaskStepKeepsGates(db, c, applied, woken);
    var after := TaskWrites(db, c, applied, woken).db;
    assert after.deps == db.deps;
    forall id | id in after.tasks
      ensures Gated(after.tasks, after.deps, id)
    {
      TaskStepTasks(db, c, applied, woken);
      TaskStepKeepsGating(db, c, applied, woken, id);
    }
  }

  // ----- Run steps -----

  lemma {:induction false} PlanFacts(r: Run, c: RunCommand)
    requires c.ApproveTaskGraph? && Decision(r, c).Ok?
    ensures var d := Decision(r, c).value; var plan := PlannedTasks(r.id, c.tasks, c.dependencies, c.meta);
      && PlanAdmissible(r.id, c.tasks, c.dependencies) && r.state == TaskPlanReview && r.id == c.id
      && d.tasks == plan.tasks && d.dependencies == c.dependencies
      && d.events == [RunEvent(d.next, TaskGraphApproved, c.meta)] + plan.events
  {
    hide PlanAdmissible, PlannedTasks, ValidRun;
  }

  lemma {:induction false} PlantedRow(rows: seq<Task>, i: nat)
    requires i < |rows| && forall i, j :: 0 <= i < j < |rows| ==> rows[i].id != rows[j].id
    ensures rows[i].id in Planted(rows) && Planted(rows)[rows[i].id] == rows[i]
  {
    assert TaskIds(rows)[i] == rows[i].id;
    assert rows[i].id in Elements(TaskIds(rows));
  }

  lemma {:induction false} PlantedFrom(rows: seq<Task>, id: Id) returns (i: nat)
    requires id in Planted(rows) && forall i, j :: 0 <= i < j < |rows| ==> rows[i].id != rows[j].id
    ensures i < |rows| && rows[i].id == id && Planted(rows)[id] == rows[i]
  {
    assert id in TaskIds(rows);
    var k :| 0 <= k < |TaskIds(rows)| && TaskIds(rows)[k] == id;
    i := k;
    PlantedRow(rows, k);
  }

  /** A task row after a run step is new, swept or untouched. */
  lemma {:induction false} RunStepTasks(db: Db, c: RunCommand, d: RunDecision, swept: seq<Id>)
    requires RunStep(db, c, d, swept)
    ensures var after := RunWrites(db, c, d, swept).db;
      && after.tasks.Keys == db.tasks.Keys + Planted(d.tasks).Keys
      && db.tasks.Keys !! Planted(d.tasks).Keys
      && (forall id :: id in Planted(d.tasks) ==> after.tasks[id] == Planted(d.tasks)[id])
      && (forall id :: id in db.tasks ==>
            after.tasks[id] == if id in swept then Swept(db.tasks[id], c.meta.timestamp) else db.tasks[id])
      && (!c.ApproveTaskGraph? ==> d.tasks == [] && d.dependencies == [])
      && after.runs == db.runs[c.id := d.next]
  {
    hide RunCommandDecision, SweepEvents, AllFit, Planted, Moved, Tables, Unfinished;
    NoRows(db, c, d);
    forall id | id in Planted(d.tasks)
      ensures id !in db.tasks
    {
      var i := PlantedFrom(d.tasks, id);
    }
  }

  lemma {:induction false} NoRows(db: Db, c: RunCommand, d: RunDecision)
    requires RunCommandDecision(db, c) == Ok(d)
    ensures !c.ApproveTaskGraph? ==> d.tasks == [] && d.dependencies == []
    ensures d.next.id == c.id
  {
    hide RunCommandDecision;
    DecisionCases(db, c);
    if c.CreateRun? {
      CreationStarts(c);
    }
  }

  /** The rows a plan adds, and what they are. */
  ghost predicate PlanRows(c: RunCommand, rows: map<Id, Task>)
    requires c.ApproveTaskGraph?
  {
    && rows.Keys == DefinedIds(c.tasks)
    && (forall id :: id in rows ==>
          && rows[id].id == id && rows[id].runId == c.id
          && rows[id].state == (if HasPrerequisite(c.dependencies, id) then Pending else Ready))
  }

  lemma {:induction false} PlanPlants(c: RunCommand)
    requires c.ApproveTaskGraph? && PlanAdmissible(c.id, c.tasks, c.dependencies)
    ensures PlanRows(c, Planted(PlannedTasks(c.id, c.tasks, c.dependencies, c.meta).tasks))
  {
    hide Planted, HasPrerequisite, ValidDependencies, Acyclic;
    var rows := PlannedTasks(c.id, c.tasks, c.dependencies, c.meta).tasks;
    assert forall i :: 0 <= i < |rows| ==> rows[i].id == c.tasks[i].id;
    forall id | id in Planted(rows)
      ensures id in DefinedIds(c.tasks) && Planted(rows)[id].id == id && Planted(rows)[id].runId == c.id
      ensures Planted(rows)[id].state == (if HasPrerequisite(c.dependencies, id) then Pending else Ready)
    {
      var i := PlantedFrom(rows, id);
    }
    forall i | 0 <= i < |c.tasks|
      ensures c.tasks[i].id in Planted(rows)
    {
      PlantedRow(rows, i);
    }
  }

  /** The planning step, put together. */
  ghost predicate PlanStep(db: Db, c: RunCommand, rows: map<Id, Task>, after: Db) {
    && c.ApproveTaskGraph? && Tables(db) && c.id in db.runs && db.runs[c.id].state == TaskPlanReview
    && PlanAdmissible(c.id, c.tasks, c.dependencies)
    && PlanRows(c, rows) && rows.Keys !! db.tasks.Keys
    && after.tasks == db.tasks + rows
    && after.deps == db.deps + NewRows(c.id, c.dependencies)
    && after.runs.Keys == db.runs.Keys && after.runs[c.id].state == ReadyRun && after.runs[c.id].id == c.id
    && (forall run :: run in db.runs && run != c.id ==> after.runs[run] == db.runs[run])
  }

  lemma {:induction false} ApprovalPlans(db: Db, c: RunCommand, d: RunDecision, swept: seq<Id>)
    requires RunStep(db, c, d, swept) && c.ApproveTaskGraph?
    ensures PlanStep(db, c, Planted(d.tasks), RunWrites(db, c, d, swept).db)
  {
    hide RunCommandDecision, SweepEvents, SweepAll, AllFit, Planted, PlanAdmissible, PlanRows, PlannedTasks, TasksFit,
      Unfinished, Tables;
    DecisionCases(db, c);
    PlanFacts(db.runs[c.id], c);
    PlanPlants(c);
    RunStepTasks(db, c, d, swept);
    var after := RunWrites(db, c, d, swept).db;
    var rows := Planted(d.tasks);
    assert after.tasks == db.tasks + rows;
  }

  lemma {:induction false} RowInside(db: Db, row: DependencyRow)
    requires Tables(db) && row in db.deps
    ensures Inside(db.tasks, row)
  {
  }

  lemma {:induction false} NewRowInside(c: RunCommand, rows: map<Id, Task>, row: DependencyRow)
    requires c.ApproveTaskGraph? && PlanAdmissible(c.id, c.tasks, c.dependencies) && PlanRows(c, rows)
    requires row in NewRows(c.id, c.dependencies)
    ensures Inside(rows, row) && row.run == c.id && row.edge in c.dependencies
  {
    hide PlanAdmissible, HasPrerequisite, DefinedIds;
    AdmissibleEdges(c);
  }

  lemma {:induction false} PlanKeepsRows(db: Db, c: RunCommand, rows: map<Id, Task>, after: Db)
    requires PlanStep(db, c, rows, after)
    ensures forall row :: row in after.deps ==> Inside(after.tasks, row)
  {
    hide PlanAdmissible, PlanRows, NewRows, Tables;
    forall row | row in after.deps
      ensures Inside(after.tasks, row)
    {
      if row in db.deps {
        RowInside(db, row);
      } else {
        NewRowInside(c, rows, row);
      }
    }
  }

  lemma {:induction false} PlanKeepsTables(db: Db, c: RunCommand, rows: map<Id, Task>, after: Db)
    requires PlanStep(db, c, rows, after)
    ensures Tables(after)
  {
    hide PlanAdmissible, HasPrerequisite, NewRows, Inside, DefinedIds;
    PlanKeepsRows(db, c, rows, after);
  }

  lemma {:induction false} AdmissibleEdges(c: RunCommand)
    requires c.ApproveTaskGraph? && PlanAdmissible(c.id, c.tasks, c.dependencies)
    ensures forall d :: d in c.dependencies ==> d.task in DefinedIds(c.tasks) && d.dependsOn in DefinedIds(c.tasks)
    ensures Acyclic(Elements(c.dependencies)) && DefinedIds(c.tasks) != {}
  {
    hide Acyclic;
    assert c.tasks[0].id in DefinedIds(c.tasks);
  }

  lemma {:induction false} PlanKeepsAcyclic(db: Db, c: RunCommand, rows: map<Id, Task>, after: Db)
    requires PlanStep(db, c, rows, after) && AcyclicRuns(db) && !HasTasks(db.tasks, c.id)
    ensures AcyclicRuns(after)
  {
    hide PlanAdmissible, Acyclic, PlanRows, Tables;
    AdmissibleEdges(c);
    forall run
      ensures Acyclic(EdgesIn(after.deps, run))
    {
      if run == c.id {
        forall row | row in db.deps
          ensures row.run != c.id
        {
          RowInside(db, row);
        }
        forall d | d in c.dependencies
          ensures DependencyRow(c.id, d) in after.deps
        {
          assert DependencyRow(c.id, d) in NewRows(c.id, c.dependencies);
        }
        assert EdgesIn(after.deps, run) == Elements(c.dependencies);
      } else {
        assert EdgesIn(after.deps, run) == EdgesIn(db.deps, run);
      }
    }
  }

  /** A plan adds no prerequisite to a task that was there before it. */
  lemma {:induction false} PlanKeepsOldGating(db: Db, c: RunCommand, rows: map<Id, Task>, after: Db, id: Id)
    requires PlanStep(db, c, rows, after) && AllGated(db) && id in db.tasks
    ensures id in after.tasks && Gated(after.tasks, after.deps, id)
  {
    hide PlanAdmissible, PlanRows, NewRows, Tables;
    assert Gated(db.tasks, db.deps, id);
    var missing := Unaccepted(after.tasks, after.deps, after.tasks[id].runId, id);
    forall row
      ensures row in missing <==> row in Unaccepted(db.tasks, db.deps, db.tasks[id].runId, id)
    {
      if row in db.deps {
        RowInside(db, row);
      } else if row in NewRows(c.id, c.dependencies) {
        NewRowInside(c, rows, row);
      }
    }
  }

  /** A planned task starts pending exactly when the plan gives it a prerequisite. */
  lemma {:induction false} PlanGatesNew(db: Db, c: RunCommand, rows: map<Id, Task>, after: Db, id: Id)
    requires PlanStep(db, c, rows, after) && id in rows
    ensures id in after.tasks && Gated(after.tasks, after.deps, id)
  {
    hide PlanAdmissible, Tables, Inside, NewRows;
    var missing := Unaccepted(after.tasks, after.deps, after.tasks[id].runId, id);
    if HasPrerequisite(c.dependencies, id) {
      var i :| 0 <= i < |c.dependencies| && c.dependencies[i].task == id;
      PlannedRowMissing(db, c, rows, after, c.dependencies[i]);
    } else {
      forall row | row in missing
        ensures false
      {
        NoPlannedRow(db, c, rows, after, row, id);
      }
    }
  }

  lemma {:induction false} PlannedRowMissing(db: Db, c: RunCommand, rows: map<Id, Task>, after: Db, d: Dependency)
    requires PlanStep(db, c, rows, after) && d in c.dependencies
    ensures DependencyRow(c.id, d) in Unaccepted(after.tasks, after.deps, c.id, d.task)
  {
    hide PlanAdmissible, Tables, HasPrerequisite, DefinedIds;
    AdmissibleEdges(c);
  }

  lemma {:induction false} NoPlannedRow(db: Db, c: RunCommand, rows: map<Id, Task>, after: Db, row: DependencyRow, id: Id)
    requires PlanStep(db, c, rows, after) && id in rows && !HasPrerequisite(c.dependencies, id)
    ensures !(row in after.deps && row.edge.task == id)
  {
    hide PlanAdmissible, Tables, PlanRows;
    if row in after.deps && row.edge.task == id {
      if row in db.deps {
        RowInside(db, row);
      } else {
        NewRowInside(c, rows, row);
      }
    }
  }

  lemma {:induction false} PlanKeepsGates(db: Db, c: RunCommand, rows: map<Id, Task>, after: Db)
    requires PlanStep(db, c, rows, after) && Gates(db)
    ensures Gates(after)
  {
    hide PlanAdmissible, HasPrerequisite, Tables, NewRows, GateHolds, DefinedIds;
    AdmissibleEdges(c);
    forall run | run in after.runs
      ensures GateHolds(after.runs[run].state, after.tasks, run)
    {
      if run == c.id {
        PlannedRunIsReady(db, c, rows, after);
      } else {
        GateFrame(db.runs[run].state, db.tasks, after.tasks, run);
      }
    }
  }

  lemma {:induction false} PlannedRunIsReady(db: Db, c: RunCommand, rows: map<Id, Task>, after: Db)
    requires PlanStep(db, c, rows, after) && Gates(db)
    ensures GateHolds(ReadyRun, after.tasks, c.id)
  {
    hide PlanAdmissible, HasPrerequisite, Tables, NewRows, DefinedIds;
    AdmissibleEdges(c);
    assert GateHolds(db.runs[c.id].state, db.tasks, c.id);
    var id :| id in rows;
    assert id in after.tasks && after.tasks[id].runId == c.id;
  }

  lemma {:induction false} PlanKeepsSound(db: Db, c: RunCommand, rows: map<Id, Task>, after: Db)
    requires PlanStep(db, c, rows, after) && Sound(db)
    ensures Sound(after)
  {
    hide Tables, Gates, Gated, AcyclicRuns, GateHolds, HasTasks, PlanAdmissible, PlanRows, NewRows;
    PlanReview(db, c, rows, after);
    PlanKeepsTables(db, c, rows, after);
    PlanKeepsAcyclic(db, c, rows, after);
    PlanKeepsGates(db, c, rows, after);
    forall id | id in after.tasks
      ensures Gated(after.tasks, after.deps, id)
    {
      if id in db.tasks {
        PlanKeepsOldGating(db, c, rows, after, id);
      } else {
        PlanGatesNew(db, c, rows, after, id);
      }
    }
  }

  lemma {:induction false} PlanReview(db: Db, c: RunCommand, rows: map<Id, Task>, after: Db)
    requires PlanStep(db, c, rows, after) && Gates(db)
    ensures !HasTasks(db.tasks, c.id)
  {
    hide PlanAdmissible, Tables, PlanRows;
    assert GateHolds(db.runs[c.id].state, db.tasks, c.id);
  }

  /** Every other run step: no new rows, and only a cancellation touches tasks. */
  ghost predicate MoveStep(db: Db, c: RunCommand, d: RunDecision, swept: seq<Id>, after: Db) {
    && Tables(db) && RunCommandDecision(db, c) == Ok(d)
    && (forall id :: id in swept <==> c.CancelRun? && id in Unfinished(db.tasks, c.id))
    && after.deps == db.deps && after.runs == db.runs[c.id := d.next] && d.next.id == c.id
    && after.tasks.Keys == db.tasks.Keys
    && (forall id :: id in db.tasks ==>
          after.tasks[id] == if id in swept then Swept(db.tasks[id], c.meta.timestamp) else db.tasks[id])
  }

  lemma {:induction false} OthersMove(db: Db, c: RunCommand, d: RunDecision, swept: seq<Id>)
    requires RunStep(db, c, d, swept) && !c.ApproveTaskGraph?
    ensures MoveStep(db, c, d, swept, RunWrites(db, c, d, swept).db)
  {
    hide RunCommandDecision, SweepEvents, SweepAll, AllFit, Planted, Tables, Unfinished, TasksFit;
    RunStepTasks(db, c, d, swept);
    NoRows(db, c, d);
    NothingPlanted();
    assert NewRows(c.id, []) == {};
  }

  lemma {:induction false} NothingPlanted()
    ensures Planted([]) == map[]
  {
    assert TaskIds([]) == [];
  }

  lemma {:induction false} MoveKeepsTables(db: Db, c: RunCommand, d: RunDecision, swept: seq<Id>, after: Db)
    requires MoveStep(db, c, d, swept, after)
    ensures Tables(after)
  {
    hide RunCommandDecision, Unfinished;
    forall row | row in after.deps
      ensures Inside(after.tasks, row)
    {
      RowInside(db, row);
    }
  }

  lemma {:induction false} MoveKeepsGating(db: Db, c: RunCommand, d: RunDecision, swept: seq<Id>, after: Db, id: Id)
    requires MoveStep(db, c, d, swept, after) && AllGated(db) && id in db.tasks
    ensures id in after.tasks && Gated(after.tasks, after.deps, id)
  {
    hide RunCommandDecision, Tables;
    assert Gated(db.tasks, db.deps, id);
    var run := db.tasks[id].runId;
    forall row
      ensures row in Unaccepted(after.tasks, after.deps, run, id) <==> row in Unaccepted(db.tasks, db.deps, run, id)
    {
    }
  }

  /** A legal move carries the gate from the old state to the new one. */
  lemma {:induction false} MoveKeepsGate(r: Run, c: RunCommand, d: RunDecision, tasks: map<Id, Task>, after: map<Id, Task>)
    requires Moved(r, c, d) && !c.ApproveTaskGraph? && !c.CancelRun? && !c.CreateRun?
    requires RunTaskGate(tasks, c).Pass? && GateHolds(r.state, tasks, r.id) && after == tasks
    ensures GateHolds(d.next.state, after, r.id)
  {
    if NeedsAccepted(c) {
      var id :| id in TasksOf(tasks, c.id);
      assert id in tasks && tasks[id].runId == r.id;
      forall id | id in tasks && tasks[id].runId == r.id
        ensures tasks[id].state == Accepted
      {
        assert id in TasksOf(tasks, c.id);
      }
    }
  }

  lemma {:induction false} CancelFinishes(db: Db, c: RunCommand, d: RunDecision, swept: seq<Id>, after: Db)
    requires MoveStep(db, c, d, swept, after) && c.CancelRun?
    ensures AllIn(after.tasks, c.id, {Accepted, Failed, Cancelled})
  {
    hide RunCommandDecision, Tables;
    forall id | id in after.tasks && after.tasks[id].runId == c.id
      ensures after.tasks[id].state in {Accepted, Failed, Cancelled}
    {
      assert id in Unfinished(db.tasks, c.id) <==> id in swept;
    }
  }

  lemma {:induction false} CreationHasNoTasks(db: Db, c: RunCommand, d: RunDecision, swept: seq<Id>, after: Db)
    requires MoveStep(db, c, d, swept, after) && c.id !in db.runs
    ensures !HasTasks(after.tasks, c.id)
  {
    hide RunCommandDecision, Unfinished, Inside;
  }

  lemma {:induction false} MoveGatesOwn(db: Db, c: RunCommand, d: RunDecision, swept: seq<Id>, after: Db)
    requires MoveStep(db, c, d, swept, after) && Gates(db) && !c.ApproveTaskGraph?
    ensures GateHolds(after.runs[c.id].state, after.tasks, c.id)
  {
    hide RunCommandDecision, Decision, Unfinished, RunTaskGate, Tables;
    DecisionCases(db, c);
    if c.CreateRun? {
      CreationStarts(c);
      CreationHasNoTasks(db, c, d, swept, after);
    } else if c.CancelRun? {
      CancelFinishes(db, c, d, swept, after);
    } else {
      assert forall id :: id in db.tasks ==> id !in swept;
      assert after.tasks == db.tasks;
      MoveKeepsGate(db.runs[c.id], c, d, db.tasks, after.tasks);
    }
  }

  lemma {:induction false} MoveKeepsGates(db: Db, c: RunCommand, d: RunDecision, swept: seq<Id>, after: Db)
    requires MoveStep(db, c, d, swept, after) && Gates(db) && !c.ApproveTaskGraph?
    ensures Gates(after)
  {
    hide RunCommandDecision, GateHolds, Tables;
    MoveGatesOwn(db, c, d, swept, after);
    forall run | run in after.runs
      ensures GateHolds(after.runs[run].state, after.tasks, run)
    {
      if run != c.id {
        GateFrame(db.runs[run].state, db.tasks, after.tasks, run);
      }
    }
  }

  lemma {:induction false} MoveKeepsSound(db: Db, c: RunCommand, d: RunDecision, swept: seq<Id>, after: Db)
    requires MoveStep(db, c, d, swept, after) && Sound(db) && !c.ApproveTaskGraph?
    ensures Sound(after)
  {
    hide RunCommandDecision, Tables, Gates, Gated, Acyclic, Unfinished;
    MoveKeepsTables(db, c, d, swept, after);
    MoveKeepsGates(db, c, d, swept, after);
    forall id | id in after.tasks
      ensures Gated(after.tasks, after.deps, id)
    {
      MoveKeepsGating(db, c, d, swept, after, id);
    }
  }

  // ----- Every run -----

  /** Every delivery, whatever its request, fault or row order, keeps the tables sound. */
  lemma {:induction false} DeliverKeepsSound(db: Db, delivery: Delivery)
    requires Sound(db)
    ensures Sound(Deliver(db, delivery))
  {
    hide TaskTransaction, RunTransaction, Tables, AcyclicRuns, AllGated, Gates, TaskStep, RunStep, TaskWrites, RunWrites,
      TaskDecision, RunCommandDecision, Replayed, PlanStep, MoveStep;
    if Transaction(db, delivery).Ok? {
      match delivery.request
      case TaskRequest(c) =>
        if c.meta.commandId in db.commands {
          TaskReplayStays(db, c, delivery.fault, delivery.order);
        } else {
          TaskTransactionSteps(db, c, delivery.fault, delivery.order);
          var applied := TaskDecision(db, c).value;
          TaskStepKeepsSound(db, c, applied, WokenBy(db, applied.task, delivery.order));
        }
      case RunRequest(c) =>
        if c.meta.commandId in db.commands {
          RunReplayStays(db, c, delivery.fault, delivery.order);
        } else {
          RunTransactionSteps(db, c, delivery.fault, delivery.order);
          var d := RunCommandDecision(db, c).value;
          RunStepKeepsSound(db, c, d, SweptBy(db, c, delivery.order));
        }
    }
  }

  lemma {:induction false} RunStepKeepsSound(db: Db, c: RunCommand, d: RunDecision, swept: seq<Id>)
    requires RunStep(db, c, d, swept) && Sound(db)
    ensures Sound(RunWrites(db, c, d, swept).db)
  {
    hide RunStep, Sound, RunWrites, PlanStep, MoveStep;
    var after := RunWrites(db, c, d, swept).db;
    if c.ApproveTaskGraph? {
      ApprovalPlans(db, c, d, swept);
      PlanKeepsSound(db, c, Planted(d.tasks), after);
    } else {
      OthersMove(db, c, d, swept);
      MoveKeepsSound(db, c, d, swept, after);
    }
  }

  lemma {:induction false} TaskReplayStays(db: Db, c: TaskCommand, fault: FaultPoint, order: seq<Id>)
    requires c.meta.commandId in db.commands && TaskTransaction(db, c, fault, order).Ok?
    ensures TaskTransaction(db, c, fault, order).value.db == db
  {
    hide ValidTaskCommand;
  }

  lemma {:induction false} RunReplayStays(db: Db, c: RunCommand, fault: FaultPoint, order: seq<Id>)
    requires c.meta.commandId in db.commands && RunTransaction(db, c, fault, order).Ok?
    ensures RunTransaction(db, c, fault, order).value.db == db
  {
    hide ValidRunCommand;
  }

  lemma {:induction false} EmptyIsSound()
    ensures Sound(EMPTY)
  {
    forall run
      ensures Acyclic(EdgesIn(EMPTY.deps, run))
    {
      assert EdgesIn(EMPTY.deps, run) == {};
      forall c
        ensures !IsCycle({}, c)
      {
        assert |c| >= 2 && IsWalk({}, c) ==> Leads({}, c, 0);
      }
    }
  }

  /** Every state the store can reach is sound. */
  lemma {:induction false} ReachableIsSound(ds: seq<Delivery>)
    ensures Sound(RunAll(EMPTY, ds))
  {
    hide Sound, Deliver;
    if ds == [] {
      EmptyIsSound();
    } else {
      ReachableIsSound(ds[..|ds| - 1]);
      DeliverKeepsSound(RunAll(EMPTY, ds[..|ds| - 1]), ds[|ds| - 1]);
    }
  }

  /** A task that is neither finished nor waiting. */
  ghost predicate Active(tasks: map<Id, Task>, run: Id, id: Id) {
    id in tasks && tasks[id].runId == run && tasks[id].state != Pending && !tasks[id].state.Terminal()
  }

  /** An approved graph never gets stuck on its own dependencies. */
  lemma {:induction false} Progress(ds: seq<Delivery>, run: Id)
    requires var db := RunAll(EMPTY, ds);
      && run in db.runs && db.runs[run].state == ExecutingRun
      && (forall id :: id in db.tasks && db.tasks[id].runId == run ==> db.tasks[id].state !in {Failed, Cancelled})
    ensures var tasks := RunAll(EMPTY, ds).tasks;
      && HasTasks(tasks, run)
      && (AllIn(tasks, run, {Accepted}) || exists id :: Active(tasks, run, id))
  {
    hide RunAll, Gated, AcyclicRuns, Tables;
    ReachableIsSound(ds);
    var db := RunAll(EMPTY, ds);
    assert GateHolds(db.runs[run].state, db.tasks, run);
    if !AllIn(db.tasks, run, {Accepted}) {
      var id := ActiveTask(db, run);
    }
  }

  lemma {:induction false} ActiveTask(db: Db, run: Id) returns (id: Id)
    requires Sound(db) && !AllIn(db.tasks, run, {Accepted})
    requires forall id :: id in db.tasks && db.tasks[id].runId == run ==> db.tasks[id].state !in {Failed, Cancelled}
    ensures Active(db.tasks, run, id)
  {
    hide Gated, AcyclicRuns, Tables, Gates;
    if AllIn(db.tasks, run, {Pending, Accepted}) {
      var cycle := PendingHoldsCycle(db, run);
      NoCycle(db, run, cycle);
      assert false;
    }
    id :| id in db.tasks && db.tasks[id].runId == run && db.tasks[id].state !in {Pending, Accepted};
  }

  /** If every unfinished task of a run waits, the run's graph has a cycle. */
  lemma {:induction false} PendingHoldsCycle(db: Db, run: Id) returns (cycle: seq<Id>)
    requires Tables(db) && AllGated(db)
    requires AllIn(db.tasks, run, {Pending, Accepted}) && !AllIn(db.tasks, run, {Accepted})
    ensures IsCycle(EdgesIn(db.deps, run), cycle)
  {
    hide Gated, Tables, IsCycle;
    var edges := EdgesIn(db.deps, run);
    var nodes := TasksOf(db.tasks, run);
    var done := set id | id in nodes && db.tasks[id].state == Accepted;
    forall e | e in edges
      ensures e.dependsOn in nodes
    {
      RowInside(db, DependencyRow(run, e));
    }
    forall x | x in nodes - done
      ensures Unmet(edges, x, done) != {}
    {
      PendingMisses(db, run, x, done);
    }
    var waiting :| waiting in db.tasks && db.tasks[waiting].runId == run && db.tasks[waiting].state != Accepted;
    assert waiting in nodes - done;
    cycle := StuckHoldsCycle(nodes, edges, done);
  }

  lemma {:induction false} PendingMisses(db: Db, run: Id, x: Id, done: set<Id>)
    requires AllGated(db) && x in db.tasks && db.tasks[x].runId == run && db.tasks[x].state == Pending
    requires forall id :: id in done ==> id in db.tasks && db.tasks[id].state == Accepted
    ensures Unmet(EdgesIn(db.deps, run), x, done) != {}
  {
    assert Gated(db.tasks, db.deps, x);
    var row :| row in Unaccepted(db.tasks, db.deps, run, x);
    assert row.edge in EdgesIn(db.deps, run);
    assert row.edge in Unmet(EdgesIn(db.deps, run), x, done);
  }

  lemma {:induction false} NoCycle(db: Db, run: Id, cycle: seq<Id>)
    requires AcyclicRuns(db)
    ensures !IsCycle(EdgesIn(db.deps, run), cycle)
  {
    assert Acyclic(EdgesIn(db.deps, run));
  }

  /** No lost wake-up, and no early one: in every reachable state a pending task has an
      unaccepted prerequisite in its own run, and a task in any state but pending, failed
      or cancelled has none. */
  lemma {:induction false} DependencyGating(ds: seq<Delivery>, id: Id)
    requires id in RunAll(EMPTY, ds).tasks
    ensures var db := RunAll(EMPTY, ds);
      && (db.tasks[id].state == Pending ==>
            exists row :: row in db.deps && row.edge.task == id && row.edge.dependsOn in db.tasks
                          && db.tasks[row.edge.dependsOn].state != Accepted)
      && (db.tasks[id].state !in {Pending, Failed, Cancelled} ==>
            forall row :: row in db.deps && row.edge.task == id ==>
              row.edge.dependsOn in db.tasks && db.tasks[row.edge.dependsOn].state == Accepted)
  {
    hide RunAll, Tables, AcyclicRuns, Gates;
    ReachableIsSound(ds);
    var db := RunAll(EMPTY, ds);
    assert Gated(db.tasks, db.deps, id);
    var missing := Unaccepted(db.tasks, db.deps, db.tasks[id].runId, id);
    if db.tasks[id].state == Pending {
      var row :| row in missing;
    } else if db.tasks[id].state !in {Failed, Cancelled} {
      forall row | row in db.deps && row.edge.task == id
        ensures row.edge.dependsOn in db.tasks && db.tasks[row.edge.dependsOn].state == Accepted
      {
        RowInside(db, row);
        assert row !in missing;
      }
    }
  }

  /** From verification on, a run has tasks and all of them are accepted; a cancelled run
      has only finished tasks. */
  lemma {:induction false} CompletionGates(ds: seq<Delivery>, run: Id)
    requires run in RunAll(EMPTY, ds).runs
    ensures var db := RunAll(EMPTY, ds); var state := db.runs[run].state;
      && (state in {VerifyingRun, ReviewingRun, ApprovalPending, MergeReady, MergedRun} ==>
            HasTasks(db.tasks, run) && AllIn(db.tasks, run, {Accepted}))
      && (state == CancelledRun ==> AllIn(db.tasks, run, {Accepted, Failed, Cancelled}))
  {
    hide RunAll, Tables, AcyclicRuns, AllGated;
    ReachableIsSound(ds);
    var db := RunAll(EMPTY, ds);
    assert GateHolds(db.runs[run].state, db.tasks, run);
  }

  /** So cancelling a single task through the store never succeeds. */
  lemma {:induction false} CancelTaskNeverCommits(ds: seq<Delivery>, c: TaskCommand, fault: FaultPoint, order: seq<Id>)
    requires c.CancelTask? && c.meta.commandId !in RunAll(EMPTY, ds).commands
    ensures TaskTransaction(RunAll(EMPTY, ds), c, fault, order).Err?
  {
    hide RunAll, TaskTransaction, TaskDecision, TaskStep, Sound, TaskWrites;
    ReachableIsSound(ds);
    var db := RunAll(EMPTY, ds);
    SoundParts(db);
    if TaskTransaction(db, c, fault, order).Ok? {
      TaskTransactionSteps(db, c, fault, order);
      var applied := TaskDecision(db, c).value;
      TaskStepsExecute(db, c, applied, WokenBy(db, applied.task, order));
    }
  }

  lemma {:induction false} SoundParts(db: Db)
    requires Sound(db)
    ensures Tables(db) && Gates(db)
  {
  }

  /** And the start gate never refuses a ready run. */
  lemma {:induction false} StartGatePasses(ds: seq<Delivery>, c: RunCommand)
    requires var db := RunAll(EMPTY, ds); c.StartRun? && c.id in db.runs && db.runs[c.id].state == ReadyRun
    ensures RunTaskGate(RunAll(EMPTY, ds).tasks, c).Pass?
  {
    hide RunAll, Tables, AcyclicRuns, AllGated;
    ReachableIsSound(ds);
    StartGateOpens(RunAll(EMPTY, ds), c);
  }

  lemma {:induction false} StartGateOpens(db: Db, c: RunCommand)
    requires Gates(db) && c.StartRun? && c.id in db.runs && db.runs[c.id].state == ReadyRun
    ensures RunTaskGate(db.tasks, c).Pass?
  {
    assert GateHolds(db.runs[c.id].state, db.tasks, c.id);
    var id :| id in db.tasks && db.tasks[id].runId == c.id;
    assert id in TasksOf(db.tasks, c.id);
  }

  /** The completion gate opens exactly for a run that has tasks and has them all accepted. */
  lemma {:induction false} CompletionGateExactly(tasks: map<Id, Task>, c: RunCommand)
    requires NeedsAccepted(c)
    ensures RunTaskGate(tasks, c).Pass? <==> HasTasks(tasks, c.id) && AllIn(tasks, c.id, {Accepted})
  {
    var own := TasksOf(tasks, c.id);
    assert forall id :: id in own <==> id in tasks && tasks[id].runId == c.id;
    if own != {} {
      var id :| id in own;
    }
  }

  /** A run is cancelled only by a human: from any other actor, the workflow service included,
      the command never commits and nothing changes, in any store. */
  lemma {:induction false} OnlyHumansCancel(db: Db, d: Delivery)
    requires d.request.RunRequest? && d.request.run.CancelRun? && d.request.run.meta.actor.kind != Human
    ensures Deliver(db, d) == db
    ensures d.request.run.meta.commandId !in db.commands ==> Transaction(db, d).Err?
  {
    hide PersistRun, RunWrites, ValidRun, ValidRunCommand, ValidReason, SweptBy;
  }
}
