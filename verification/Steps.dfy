/** What a committed transaction is known to have done, stated once so that the
    invariants never look inside a transaction. */
module Steps {
  import opened Kernel
  import opened TaskGraph
  import opened Tasks
  import opened Runs
  import opened Database

  /** Rows and references agree: every key is its row's identity, every task has its
      run, and every dependency joins two tasks of its run. */
  ghost predicate Tables(db: Db) {
    && (forall id :: id in db.runs ==> db.runs[id].id == id)
    && (forall id :: id in db.tasks ==> db.tasks[id].id == id && db.tasks[id].runId in db.runs)
    && (forall row :: row in db.deps ==> Inside(db.tasks, row))
  }

  ghost predicate Inside(tasks: map<Id, Task>, row: DependencyRow) {
    && row.edge.task in tasks && tasks[row.edge.task].runId == row.run
    && row.edge.dependsOn in tasks && tasks[row.edge.dependsOn].runId == row.run
  }

  /** A pending task whose last missing prerequisite is the one just accepted. */
  ghost predicate Awakes(tasks: map<Id, Task>, deps: set<DependencyRow>, accepted: Task, id: Id) {
    && accepted.state == Accepted
    && id in PendingDependents(tasks, deps, accepted.runId, accepted.id)
    && Unaccepted(tasks, deps, accepted.runId, id) == {}
  }

  ghost predicate TaskStep(db: Db, c: TaskCommand, applied: Applied, woken: seq<Id>) {
    && Tables(db)
    && c.meta.commandId !in db.commands
    && TaskRunGate(db.runs, c).Pass?
    && c.id in db.tasks && db.tasks[c.id].runId == c.run
    && Apply(db.tasks[c.id], c) == Ok(applied)
    && Distinct(woken)
    && (forall id :: id in woken <==> Awakes(db.tasks[c.id := applied.task], db.deps, applied.task, id))
    && AllFit(db.log, [applied.event] + WakeEvents(db.tasks[c.id := applied.task], woken, c.meta))
  }

  ghost predicate RunStep(db: Db, c: RunCommand, d: RunDecision, swept: seq<Id>) {
    && Tables(db)
    && c.meta.commandId !in db.commands
    && RunCommandDecision(db, c) == Ok(d)
    && Distinct(swept)
    && (forall id :: id in swept <==> c.CancelRun? && id in Unfinished(db.tasks, c.id))
    && AllFit(db.log, d.events + SweepEvents(db.tasks, swept, c.meta))
    && TasksFit(db.tasks, d.tasks)
  }

  lemma {:induction false} UnlockedRows(tasks: map<Id, Task>, deps: set<DependencyRow>, run: Id, rows: seq<Id>)
    requires Distinct(rows)
    ensures var u := Unlocked(tasks, deps, run, rows);
      Distinct(u) && forall id :: id in u <==> id in rows && Unaccepted(tasks, deps, run, id) == {}
  {
    hide Unaccepted;
    if rows != [] {
      var rest, last := rows[..|rows| - 1], rows[|rows| - 1];
      assert rows == rest + [last];
      assert last !in rest;
      UnlockedRows(tasks, deps, run, rest);
    }
  }

  lemma {:induction false} WokenExactly(db: Db, next: Task, order: seq<Id>)
    ensures var woken := WokenBy(db, next, order);
      Distinct(woken) && forall id :: id in woken <==> Awakes(db.tasks[next.id := next], db.deps, next, id)
  {
    hide PendingDependents, Unaccepted;
    if next.state == Accepted {
      var tasks := db.tasks[next.id := next];
      var rows := Arrange(PendingDependents(tasks, db.deps, next.runId, next.id), order);
      UnlockedRows(tasks, db.deps, next.runId, rows);
      forall id
        ensures id in rows <==> id in PendingDependents(tasks, db.deps, next.runId, next.id)
      {
        assert id in rows <==> id in Elements(rows);
      }
    }
  }

  lemma {:induction false} AppliedIdentity(t: Task, c: TaskCommand)
    requires Apply(t, c).Ok?
    ensures var n := Apply(t, c).value;
      && n.task.id == t.id == c.id && n.task.runId == t.runId && !t.state.Terminal()
      && n.event == NewEvent(c.meta.commandId, TaskAggregate, t.id, t.revision + 1, n.event.eventType, c.meta)
      && n.task.revision == t.revision + 1
  {
    hide Decide, ValidTask;
  }

  /** The two insertions of a task transaction are one. */
  lemma {:induction false} FitsFirst(log: seq<Event>, e: Event, rest: seq<Event>)
    requires Fits(log, e) && AllFit(log + [e], rest)
    ensures AllFit(log, [e] + rest)
  {
    hide Fits;
    var all := [e] + rest;
    forall i | 0 <= i < |all|
      ensures Fits(log + all[..i], all[i])
    {
      if i == 0 {
        assert log + all[..0] == log;
      } else {
        assert log + all[..i] == log + [e] + rest[..i - 1];
        assert Fits(log + [e] + rest[..i - 1], rest[i - 1]);
      }
    }
  }

  /** A delivery replays, fails, or takes exactly one step. */
  lemma {:induction false} TaskTransactionSteps(db: Db, c: TaskCommand, fault: FaultPoint, order: seq<Id>)
    requires Tables(db) && TaskTransaction(db, c, fault, order).Ok? && c.meta.commandId !in db.commands
    ensures ValidTaskCommand(c) && TaskDecision(db, c).Ok?
    ensures var applied := TaskDecision(db, c).value; var woken := WokenBy(db, applied.task, order);
      && TaskStep(db, c, applied, woken)
      && TaskTransaction(db, c, fault, order) == Ok(TaskWrites(db, c, applied, woken))
  {
    hide Apply, ValidTask, WokenBy, AllFit, Fits, WakeEvents, Awakes, TaskWrites;
    var applied := TaskDecision(db, c).value;
    var woken := WokenBy(db, applied.task, order);
    AppliedIdentity(db.tasks[c.id], c);
    WokenExactly(db, applied.task, order);
    FitsFirst(db.log, applied.event, WakeEvents(db.tasks[c.id := applied.task], woken, c.meta));
  }

  lemma {:induction false} RunTransactionSteps(db: Db, c: RunCommand, fault: FaultPoint, order: seq<Id>)
    requires Tables(db) && RunTransaction(db, c, fault, order).Ok? && c.meta.commandId !in db.commands
    ensures ValidRunCommand(c) && RunCommandDecision(db, c).Ok?
    ensures var d := RunCommandDecision(db, c).value; var swept := SweptBy(db, c, order);
      && RunStep(db, c, d, swept)
      && RunTransaction(db, c, fault, order) == Ok(RunWrites(db, c, d, swept))
  {
    hide RunCommandDecision, AllFit, SweepEvents, RunWrites, TasksFit, Unfinished;
    var swept := SweptBy(db, c, order);
    forall id
      ensures id in swept <==> c.CancelRun? && id in Unfinished(db.tasks, c.id)
    {
      assert id in swept <==> id in Elements(swept);
    }
  }

  // ----- Run decisions -----

  /** A decision on an existing run: one legal move and one event of its own. */
  ghost predicate Moved(r: Run, c: RunCommand, d: RunDecision) {
    && d.next.id == r.id == c.id && d.next.revision == r.revision + 1
    && RunLegal(r.state, RunEventType(c), d.next.state)
    && |d.events| >= 1 && d.events[0] == RunEvent(d.next, RunEventType(c), c.meta)
    && (!c.ApproveTaskGraph? ==> d.tasks == [] && d.dependencies == [] && |d.events| == 1)
  }

  lemma {:induction false} ApplicationMoves(r: Run, c: RunCommand)
    requires ApplyRun(r, c).Ok?
    ensures Moved(r, c, ApplyRun(r, c).value) && !c.CreateRun? && !c.ApproveTaskGraph? && ValidRunCommand(c)
    ensures ValidRun(r) && ValidRun(ApplyRun(r, c).value.next) && c.meta.timestamp != 0
  {
    hide DecideRun, ValidBinding, IsCommit, RunLegal;
  }

  lemma {:induction false} ApprovalMoves(r: Run, c: RunCommand)
    requires c.ApproveTaskGraph? && ApproveGraph(r, c).Ok?
    ensures Moved(r, c, ApproveGraph(r, c).value) && ValidRunCommand(c)
    ensures ValidRun(r) && ValidRun(ApproveGraph(r, c).value.next) && c.meta.timestamp != 0
  {
    hide PlanTasks, ValidBinding, IsCommit;
  }

  lemma {:induction false} DecisionMoves(r: Run, c: RunCommand)
    requires Decision(r, c).Ok?
    ensures Moved(r, c, Decision(r, c).value) && !c.CreateRun? && ValidRunCommand(c)
    ensures ValidRun(r) && ValidRun(Decision(r, c).value.next) && c.meta.timestamp != 0
  {
    hide ApplyRun, ApproveGraph, Moved, ValidRun, ValidRunCommand;
    if c.ApproveTaskGraph? {
      ApprovalMoves(r, c);
    } else {
      ApplicationMoves(r, c);
    }
  }

  lemma {:induction false} CreationStarts(c: RunCommand)
    requires c.CreateRun? && NewRun(c).Ok?
    ensures var d := NewRun(c).value;
      && d.next.id == c.id && d.next.state == DraftRun && d.next.revision == 1
      && d.tasks == [] && d.dependencies == [] && d.events == [RunEvent(d.next, RunCreated, c.meta)]
      && ValidRun(d.next)
  {
  }

  /** A run command's decision creates the run or moves it. */
  lemma {:induction false} DecisionCases(db: Db, c: RunCommand)
    requires RunCommandDecision(db, c).Ok?
    ensures var d := RunCommandDecision(db, c).value;
      && d.next.id == c.id
      && (c.CreateRun? ==> c.id !in db.runs && NewRun(c) == Ok(d))
      && (!c.CreateRun? ==>
            c.id in db.runs && RunTaskGate(db.tasks, c).Pass? && Decision(db.runs[c.id], c) == Ok(d)
            && Moved(db.runs[c.id], c, d))
  {
    hide ValidRun, Decision, NewRun, RunTaskGate, Moved;
    if c.CreateRun? {
      CreationStarts(c);
    } else {
      DecisionMoves(db.runs[c.id], c);
      MovedIdentity(db.runs[c.id], c, RunCommandDecision(db, c).value);
    }
  }

  lemma {:induction false} MovedIdentity(r: Run, c: RunCommand, d: RunDecision)
    requires Moved(r, c, d)
    ensures d.next.id == r.id == c.id
  {
  }
}
