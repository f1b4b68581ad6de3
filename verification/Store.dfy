/** The store itself: tables updated row by row, a loop over dependents, a loop over the
    tasks of a cancelled run, and a rollback whenever a step fails. Each operation is
    proved to be the transaction of the same request. */
module Store {
  import opened Kernel
  import opened TaskGraph
  import opened Tasks
  import opened Runs
  import opened Database
  import opened Steps
  import opened Gating

  class Store {
    var runs: map<Id, Run>
    var tasks: map<Id, Task>
    var deps: set<DependencyRow>
    var commands: map<Id, CommandRecord>
    var log: seq<Event>

    ghost function State(): Db
      reads this
    {
      Db(runs, tasks, deps, commands, log)
    }

    constructor ()
      ensures State() == EMPTY
    {
      runs, tasks, deps, commands, log := map[], map[], {}, map[], [];
    }

    // ----- Rows -----

    method InsertEvent(e: Event) returns (check: Check)
      modifies `log
      ensures check == Need(Fits(old(log), e), StorageFailure)
      ensures log == if check.Pass? then old(log) + [e] else old(log)
    {
      for i := 0 to |log|
        invariant forall k :: 0 <= k < i ==> !Collides(log[k], e)
        invariant log == old(log)
      {
        var row := log[i];
        if row.id == e.id || (row.kind == e.kind && row.aggregate == e.aggregate && row.revision == e.revision) {
          assert Collides(log[i], e);
          return Fail(StorageFailure);
        }
      }
      log := log + [e];
      return Pass;
    }

    method InsertEvents(events: seq<Event>) returns (check: Check)
      modifies `log
      ensures check == Need(AllFit(old(log), events), StorageFailure)
      ensures check.Pass? ==> log == old(log) + events
    {
      hide Fits;
      for i := 0 to |events|
        invariant log == old(log) + events[..i]
        invariant forall k :: 0 <= k < i ==> Fits(old(log) + events[..k], events[k])
      {
        var inserted := InsertEvent(events[i]);
        if inserted.Fail? {
          return inserted;
        }
        assert events[..i + 1] == events[..i] + [events[i]];
      }
      assert events[..|events|] == events;
      return Pass;
    }

    method InsertTasks(rows: seq<Task>) returns (check: Check)
      modifies `tasks
      ensures check == Need(TasksFit(old(tasks), rows), StorageFailure)
      ensures check.Pass? ==> tasks == old(tasks) + Planted(rows)
    {
      hide Planted;
      NothingPlanted();
      for i := 0 to |rows|
        invariant TasksFit(old(tasks), rows[..i])
        invariant tasks == old(tasks) + Planted(rows[..i])
      {
        if rows[i].id in tasks {
          RowTaken(old(tasks), rows, i);
          return Fail(StorageFailure);
        }
        RowFree(old(tasks), rows, i);
        tasks := tasks[rows[i].id := rows[i]];
      }
      assert rows[..|rows|] == rows;
      return Pass;
    }

    method InsertDependencies(run: Id, dependencies: seq<Dependency>) returns (check: Check)
      modifies `deps
      ensures check == Need(RowsFit(old(deps), run, dependencies), StorageFailure)
      ensures check.Pass? ==> deps == old(deps) + NewRows(run, dependencies)
    {
      for i := 0 to |dependencies|
        invariant RowsFit(old(deps), run, dependencies[..i])
        invariant deps == old(deps) + NewRows(run, dependencies[..i])
      {
        var row := DependencyRow(run, dependencies[i]);
        if row in deps {
          EdgeTaken(old(deps), run, dependencies, i);
          return Fail(StorageFailure);
        }
        EdgeFree(old(deps), run, dependencies, i);
        deps := deps + {row};
      }
      assert dependencies[..|dependencies|] == dependencies;
      return Pass;
    }

    // ----- Dependents and cancellation -----

    /** Read a set of rows in whatever order they come. */
    static method ReadRows(rows: set<Id>) returns (ids: seq<Id>)
      ensures Enumerates(ids, rows)
    {
      ids := [];
      var left := rows;
      while left != {}
        invariant left <= rows && Enumerates(ids, rows - left)
      {
        var id :| id in left;
        ElementsSnoc(ids, id);
        assert forall i :: 0 <= i < |ids| ==> ids[i] in Elements(ids);
        ids := ids + [id];
        left := left - {id};
        assert Elements(ids) == rows - left;
      }
      assert rows - left == rows;
    }

    method MakeDependentsReady(accepted: Task, meta: Envelope) returns (events: seq<Event>, ghost rows: seq<Id>)
      modifies `tasks
      ensures Enumerates(rows, PendingDependents(old(tasks), deps, accepted.runId, accepted.id))
      ensures var woken := Unlocked(old(tasks), deps, accepted.runId, rows);
        && tasks == WakeAll(old(tasks), woken, meta.timestamp)
        && events == WakeEvents(old(tasks), woken, meta)
    {
      hide Unaccepted;
      var run := accepted.runId;
      var candidates := ReadRows(PendingDependents(tasks, deps, run, accepted.id));
      rows := candidates;
      events := [];
      WakeNone(old(tasks), meta);
      for i := 0 to |candidates|
        invariant tasks == WakeAll(old(tasks), Unlocked(old(tasks), deps, run, rows[..i]), meta.timestamp)
        invariant events == WakeEvents(old(tasks), Unlocked(old(tasks), deps, run, rows[..i]), meta)
      {
        ghost var before := Unlocked(old(tasks), deps, run, rows[..i]);
        var id := candidates[i];
        NextCandidate(old(tasks), deps, run, accepted.id, rows, i, meta);
        UnlockedSnoc(old(tasks), deps, run, rows, i);
        if Unaccepted(tasks, deps, run, id) == {} {
          // The guarded update finds the row as it was read.
          assert id in tasks && tasks[id] == old(tasks)[id] && tasks[id].state == Pending;
          WakeOneMore(old(tasks), before, id, meta);
          events := events + [WakeEvent(tasks, id, meta)];
          tasks := tasks[id := Woken(tasks[id], meta.timestamp)];
        }
      }
      assert rows[..|rows|] == rows;
    }

    method CancelRunTasks(run: Id, meta: Envelope) returns (events: seq<Event>, ghost rows: seq<Id>)
      modifies `tasks
      ensures Enumerates(rows, Unfinished(old(tasks), run))
      ensures tasks == SweepAll(old(tasks), rows, meta.timestamp)
      ensures events == SweepEvents(old(tasks), rows, meta)
    {
      var cancellable := ReadRows(Unfinished(tasks, run));
      rows := cancellable;
      events := [];
      SweepNone(old(tasks), meta);
      for i := 0 to |cancellable|
        invariant tasks == SweepAll(old(tasks), rows[..i], meta.timestamp)
        invariant events == SweepEvents(old(tasks), rows[..i], meta)
      {
        var id := cancellable[i];
        SweepOneMore(old(tasks), run, rows, i, meta);
        events := events + [SweepEvent(tasks, id, meta)];
        tasks := tasks[id := Swept(tasks[id], meta.timestamp)];
      }
      assert rows[..|rows|] == rows;
    }

    /** Cancelling a run takes its unfinished tasks along; no other command touches them. */
    method CancelWithRun(c: RunCommand) returns (events: seq<Event>, ghost order: seq<Id>)
      modifies `tasks
      ensures var swept := SweptBy(old(State()), c, order);
        && tasks == SweepAll(old(tasks), swept, c.meta.timestamp)
        && events == SweepEvents(old(tasks), swept, c.meta)
    {
      hide Unfinished, SweepAll, SweepEvents, Enumerates;
      events, order := [], [];
      if c.CancelRun? {
        events, order := CancelRunTasks(c.id, c.meta);
      } else {
        SweepNone(tasks, c.meta);
      }
    }

    // ----- Transactions -----

    method PersistTaskTransition(c: TaskCommand, fault: FaultPoint, applied: Applied)
        returns (check: Check, events: seq<Event>, ghost order: seq<Id>)
      modifies this
      ensures runs == old(runs) && deps == old(deps)
      ensures var woken := WokenBy(old(State()), applied.task, order); var rows := old(tasks)[applied.task.id := applied.task];
        && check == PersistTask(old(State()), c, fault, applied, woken)
        && (check.Pass? ==>
              && events == [applied.event] + WakeEvents(rows, woken, c.meta)
              && log == old(log) + events
              && tasks == WakeAll(rows, woken, c.meta.timestamp)
              && commands == old(commands)[c.meta.commandId := CommandRecord(TaskRequest(c), None)])
    {
      hide Fits, AllFit, PendingDependents, WakeAll, WakeEvents, Unlocked, Enumerates;
      events, order := [], [];
      var next := applied.task;
      commands := commands[c.meta.commandId := CommandRecord(TaskRequest(c), None)];
      if fault == BeforeEvents {
        return Fail(InjectedFault), [], [];
      }
      check := InsertEvent(applied.event);
      if check.Fail? {
        return;
      }
      if fault == BeforeSnapshot {
        return Fail(InjectedFault), [], [];
      }
      tasks := tasks[next.id := next];
      var readyEvents := [];
      if next.state == Accepted {
        readyEvents, order := MakeDependentsReady(next, c.meta);
      } else {
        WakeNone(tasks, c.meta);
      }
      check := InsertEvents(readyEvents);
      events := [applied.event] + readyEvents;
      assert old(log) + events == old(log) + [applied.event] + readyEvents;
    }

    method ExecuteTaskTransaction(c: TaskCommand, fault: FaultPoint)
        returns (r: Result<CommandResult>, ghost order: seq<Id>)
      requires ValidTaskCommand(c)
      modifies this
      ensures var t := TaskTransaction(old(State()), c, fault, order);
        match r { case Ok(result) => t == Ok(Commit(State(), result)) case Err(error) => t == Err(error) }
    {
      hide ValidTaskCommand, TaskDecision, PersistTask, WokenBy, WakeAll, WakeEvents;
      ghost var db := State();
      order := [];
      if c.meta.commandId in commands {
        r := Replayed(commands[c.meta.commandId], TaskRequest(c));
        return;
      }
      var decided := TaskDecision(Db(runs, tasks, deps, commands, log), c);
      if decided.Err? {
        return Err(decided.error), [];
      }
      var check, events;
      check, events, order := PersistTaskTransition(c, fault, decided.value);
      if check.Fail? {
        return Err(check.error), order;
      }
      var next := decided.value.task;
      var result := CommandResult(next.id, TaskIn(next.state), next.revision, EventIds(events), [], false);
      commands := commands[c.meta.commandId := CommandRecord(TaskRequest(c), Some(result))];
      if fault == BeforeCommit {
        return Err(InjectedFault), order;
      }
      RecordTwice(db.commands, c.meta.commandId, CommandRecord(TaskRequest(c), None),
                  CommandRecord(TaskRequest(c), Some(result)));
      r := Ok(result);
    }

    /** One task command: the whole transaction or nothing. */
    method ExecuteTask(c: TaskCommand, fault: FaultPoint) returns (r: Result<CommandResult>, ghost d: Delivery)
      modifies this
      ensures d.request == TaskRequest(c) && d.fault == fault
      ensures State() == Deliver(old(State()), d) && r == Reply(old(State()), d)
    {
      hide TaskTransaction, ValidTaskCommand;
      d := Delivery(TaskRequest(c), fault, []);
      if !ValidTaskCommand(c) {
        InvalidTask(State(), c, fault);
        return Err(Invalid), d;
      }
      var saved := (runs, tasks, deps, commands, log);
      ghost var order;
      r, order := ExecuteTaskTransaction(c, fault);
      d := Delivery(TaskRequest(c), fault, order);
      if r.Err? {
        runs, tasks, deps, commands, log := saved.0, saved.1, saved.2, saved.3, saved.4;
      }
    }

    method DecideRunCommand(c: RunCommand) returns (d: Result<RunDecision>)
      ensures d == RunCommandDecision(State(), c)
    {
      hide ApproveGraph, ApplyRun, NewRun, ValidRun;
      var current := LoadRun(runs, c.id);
      if c.CreateRun? {
        if current.Ok? {
          return Err(InvalidTransition);
        }
        if current.error != NotFound {
          return Err(current.error);
        }
        return NewRun(c);
      }
      if current.Err? {
        return Err(current.error);
      }
      var gate := RunTaskGate(tasks, c);
      if gate.Fail? {
        return Err(gate.error);
      }
      if c.ApproveTaskGraph? {
        d := ApplyApproval(current.value, c);
      } else {
        d := ApplyRun(current.value, c);
      }
    }

    method PersistRunTransition(c: RunCommand, fault: FaultPoint, d: RunDecision, events: seq<Event>) returns (check: Check)
      modifies this
      ensures commands == old(commands)[c.meta.commandId := CommandRecord(RunRequest(c), None)]
      ensures check == (if fault == BeforeEvents then Fail(InjectedFault)
                        else if !AllFit(old(log), events) then Fail(StorageFailure)
                        else if !(TasksFit(old(tasks), d.tasks) && RowsFit(old(deps), d.next.id, d.dependencies))
                        then Fail(StorageFailure)
                        else Need(fault != BeforeSnapshot, InjectedFault))
      ensures check.Pass? ==>
        && log == old(log) + events
        && tasks == old(tasks) + Planted(d.tasks)
        && deps == old(deps) + NewRows(d.next.id, d.dependencies)
        && runs == old(runs)[d.next.id := d.next]
    {
      hide AllFit, TasksFit, RowsFit, Planted, NewRows;
      commands := commands[c.meta.commandId := CommandRecord(RunRequest(c), None)];
      if fault == BeforeEvents {
        return Fail(InjectedFault);
      }
      check := InsertEvents(events);
      if check.Fail? {
        return;
      }
      check := InsertTasks(d.tasks);
      if check.Fail? {
        return;
      }
      check := InsertDependencies(d.next.id, d.dependencies);
      if check.Fail? {
        return;
      }
      if fault == BeforeSnapshot {
        return Fail(InjectedFault);
      }
      runs := runs[d.next.id := d.next];
    }

    /** The cancellations and writes of a decided run command. */
    method WriteRun(c: RunCommand, fault: FaultPoint, d: RunDecision)
        returns (check: Check, events: seq<Event>, ghost order: seq<Id>)
      modifies this
      ensures var swept := SweptBy(old(State()), c, order);
        && check == PersistRun(old(State()), c, fault, d, swept)
        && (check.Pass? ==>
              && events == d.events + SweepEvents(old(tasks), swept, c.meta)
              && log == old(log) + events
              && tasks == SweepAll(old(tasks), swept, c.meta.timestamp) + Planted(d.tasks)
              && deps == old(deps) + NewRows(d.next.id, d.dependencies)
              && runs == old(runs)[d.next.id := d.next]
              && commands == old(commands)[c.meta.commandId := CommandRecord(RunRequest(c), None)])
    {
      hide AllFit, SweptBy, SweepAll, SweepEvents, TasksFit, RowsFit, Planted, NewRows;
      ghost var before := tasks;
      var cancelEvents;
      cancelEvents, order := CancelWithRun(c);
      SweepKeepsKeys(before, SweptBy(old(State()), c, order), c.meta.timestamp, d.tasks);
      events := d.events + cancelEvents;
      check := PersistRunTransition(c, fault, d, events);
    }

    method ExecuteRunTransaction(c: RunCommand, fault: FaultPoint)
        returns (r: Result<CommandResult>, ghost order: seq<Id>)
      requires ValidRunCommand(c)
      modifies this
      ensures var t := RunTransaction(old(State()), c, fault, order);
        match r { case Ok(result) => t == Ok(Commit(State(), result)) case Err(error) => t == Err(error) }
    {
      hide ValidRunCommand, SweptBy, SweepAll, SweepEvents, RunCommandDecision, PersistRun, Planted, NewRows, EventIds, TaskIds;
      ghost var db := State();
      order := [];
      if c.meta.commandId in commands {
        r := Replayed(commands[c.meta.commandId], RunRequest(c));
        return;
      }
      var decided := DecideRunCommand(c);
      if decided.Err? {
        return Err(decided.error), [];
      }
      var d := decided.value;
      var check, events;
      check, events, order := WriteRun(c, fault, d);
      if check.Fail? {
        return Err(check.error), order;
      }
      var result := CommandResult(d.next.id, RunIn(d.next.state), d.next.revision, EventIds(events), TaskIds(d.tasks),
                                  false);
      commands := commands[c.meta.commandId := CommandRecord(RunRequest(c), Some(result))];
      if fault == BeforeCommit {
        return Err(InjectedFault), order;
      }
      RecordTwice(db.commands, c.meta.commandId, CommandRecord(RunRequest(c), None),
                  CommandRecord(RunRequest(c), Some(result)));
      r := Ok(result);
    }

    /** One run command: the whole transaction or nothing. */
    method ExecuteRun(c: RunCommand, fault: FaultPoint) returns (r: Result<CommandResult>, ghost d: Delivery)
      modifies this
      ensures d.request == RunRequest(c) && d.fault == fault
      ensures State() == Deliver(old(State()), d) && r == Reply(old(State()), d)
    {
      hide RunTransaction, ValidRunCommand;
      d := Delivery(RunRequest(c), fault, []);
      if !ValidRunCommand(c) {
        InvalidRun(State(), c, fault);
        return Err(Invalid), d;
      }
      var saved := (runs, tasks, deps, commands, log);
      ghost var order;
      r, order := ExecuteRunTransaction(c, fault);
      d := Delivery(RunRequest(c), fault, order);
      if r.Err? {
        runs, tasks, deps, commands, log := saved.0, saved.1, saved.2, saved.3, saved.4;
      }
    }
  }

  // ----- Lemmas the loops use -----

  lemma {:induction false} InvalidTask(db: Db, c: TaskCommand, fault: FaultPoint)
    requires !ValidTaskCommand(c)
    ensures TaskTransaction(db, c, fault, []) == Err(Invalid)
  {
  }

  lemma {:induction false} InvalidRun(db: Db, c: RunCommand, fault: FaultPoint)
    requires !ValidRunCommand(c)
    ensures RunTransaction(db, c, fault, []) == Err(Invalid)
  {
  }

  lemma {:induction false} RecordTwice(commands: map<Id, CommandRecord>, id: Id, reserved: CommandRecord, done: CommandRecord)
    ensures commands[id := reserved][id := done] == commands[id := done]
  {
  }

  lemma {:induction false} RowTaken(tasks: map<Id, Task>, rows: seq<Task>, i: nat)
    requires i < |rows| && TasksFit(tasks, rows[..i]) && rows[i].id in tasks + Planted(rows[..i])
    ensures !TasksFit(tasks, rows)
  {
    if rows[i].id !in tasks {
      var k := PlantedFrom(rows[..i], rows[i].id);
      assert rows[k].id == rows[i].id;
    }
  }

  lemma {:induction false} RowFree(tasks: map<Id, Task>, rows: seq<Task>, i: nat)
    requires i < |rows| && TasksFit(tasks, rows[..i]) && rows[i].id !in tasks + Planted(rows[..i])
    ensures TasksFit(tasks, rows[..i + 1])
    ensures Planted(rows[..i + 1]) == Planted(rows[..i])[rows[i].id := rows[i]]
  {
    hide Planted;
    var before, after := rows[..i], rows[..i + 1];
    forall k | 0 <= k < i
      ensures before[k].id != rows[i].id
    {
      PlantedRow(before, k);
    }
    assert TasksFit(tasks, after);
    forall id
      ensures id in Planted(after) <==> id in Planted(before) || id == rows[i].id
      ensures id in Planted(after) ==> Planted(after)[id] == Planted(before)[rows[i].id := rows[i]][id]
    {
      PlantedSnoc(before, rows[i], id);
      assert after == before + [rows[i]];
    }
  }

  lemma {:induction false} PlantedSnoc(rows: seq<Task>, row: Task, id: Id)
    requires forall i, j :: 0 <= i < j < |rows + [row]| ==> (rows + [row])[i].id != (rows + [row])[j].id
    ensures id in Planted(rows + [row]) <==> id in Planted(rows) || id == row.id
    ensures id in Planted(rows + [row]) ==> Planted(rows + [row])[id] == Planted(rows)[row.id := row][id]
  {
    hide Planted;
    var all := rows + [row];
    forall i, j | 0 <= i < j < |rows|
      ensures rows[i].id != rows[j].id
    {
      assert all[i].id != all[j].id;
    }
    PlantedRow(all, |rows|);
    if id in Planted(all) && id != row.id {
      var k := PlantedFrom(all, id);
      PlantedRow(rows, k);
    }
    if id in Planted(rows) {
      var k := PlantedFrom(rows, id);
      PlantedRow(all, k);
    }
  }

  lemma {:induction false} EdgeTaken(deps: set<DependencyRow>, run: Id, dependencies: seq<Dependency>, i: nat)
    requires i < |dependencies| && DependencyRow(run, dependencies[i]) in deps + NewRows(run, dependencies[..i])
    ensures !RowsFit(deps, run, dependencies)
  {
    if DependencyRow(run, dependencies[i]) !in deps {
      assert dependencies[i] in dependencies[..i];
      var k :| 0 <= k < i && dependencies[k] == dependencies[i];
    }
  }

  lemma {:induction false} EdgeFree(deps: set<DependencyRow>, run: Id, dependencies: seq<Dependency>, i: nat)
    requires i < |dependencies| && RowsFit(deps, run, dependencies[..i])
    requires DependencyRow(run, dependencies[i]) !in deps + NewRows(run, dependencies[..i])
    ensures RowsFit(deps, run, dependencies[..i + 1])
    ensures NewRows(run, dependencies[..i + 1]) == NewRows(run, dependencies[..i]) + {DependencyRow(run, dependencies[i])}
  {
    var before, after := dependencies[..i], dependencies[..i + 1];
    assert after == before + [dependencies[i]];
    forall k | 0 <= k < i
      ensures before[k] != dependencies[i]
    {
      assert DependencyRow(run, before[k]) in NewRows(run, before);
    }
  }

  lemma {:induction false} WakeNone(tasks: map<Id, Task>, meta: Envelope)
    ensures WakeAll(tasks, [], meta.timestamp) == tasks && WakeEvents(tasks, [], meta) == []
  {
  }

  lemma {:induction false} SweepNone(tasks: map<Id, Task>, meta: Envelope)
    ensures SweepAll(tasks, [], meta.timestamp) == tasks && SweepEvents(tasks, [], meta) == []
  {
  }

  lemma {:induction false} UnlockedSnoc(tasks: map<Id, Task>, deps: set<DependencyRow>, run: Id, rows: seq<Id>, i: nat)
    requires i < |rows|
    ensures Unlocked(tasks, deps, run, rows[..i + 1])
         == Unlocked(tasks, deps, run, rows[..i])
            + (if Unaccepted(tasks, deps, run, rows[i]) == {} then [rows[i]] else [])
  {
    hide Unaccepted;
    assert rows[..i + 1][..i] == rows[..i];
  }

  /** Waking candidates changes neither what a later candidate misses nor its row. */
  lemma {:induction false} NextCandidate(tasks: map<Id, Task>, deps: set<DependencyRow>, run: Id, on: Id, rows: seq<Id>,
                                         i: nat, meta: Envelope)
    requires i < |rows| && Enumerates(rows, PendingDependents(tasks, deps, run, on))
    ensures var now := WakeAll(tasks, Unlocked(tasks, deps, run, rows[..i]), meta.timestamp); var id := rows[i];
      && id in tasks && id !in Unlocked(tasks, deps, run, rows[..i])
      && now[id] == tasks[id] && tasks[id].state == Pending
      && Unaccepted(now, deps, run, id) == Unaccepted(tasks, deps, run, id)
  {
    var id := rows[i];
    forall k | 0 <= k < |rows|
      ensures rows[k] in PendingDependents(tasks, deps, run, on)
    {
      assert rows[k] in Elements(rows);
    }
    UnlockedRows(tasks, deps, run, rows[..i]);
    assert id !in rows[..i];
    var woken := Unlocked(tasks, deps, run, rows[..i]);
    forall x | x in woken
      ensures x in tasks && tasks[x].state == Pending
    {
      assert x in rows[..i];
    }
  }

  lemma {:induction false} WakeOneMore(tasks: map<Id, Task>, woken: seq<Id>, id: Id, meta: Envelope)
    requires id in tasks && id !in woken
    ensures var now := WakeAll(tasks, woken, meta.timestamp);
      && WakeAll(tasks, woken + [id], meta.timestamp) == now[id := Woken(now[id], meta.timestamp)]
      && WakeEvents(tasks, woken + [id], meta) == WakeEvents(tasks, woken, meta) + [WakeEvent(now, id, meta)]
  {
  }

  lemma {:induction false} SweepOneMore(tasks: map<Id, Task>, run: Id, rows: seq<Id>, i: nat, meta: Envelope)
    requires i < |rows| && Enumerates(rows, Unfinished(tasks, run))
    ensures var now := SweepAll(tasks, rows[..i], meta.timestamp); var id := rows[i];
      && id in now && now[id] == tasks[id]
      && SweepAll(tasks, rows[..i + 1], meta.timestamp) == now[id := Swept(now[id], meta.timestamp)]
      && SweepEvents(tasks, rows[..i + 1], meta) == SweepEvents(tasks, rows[..i], meta) + [SweepEvent(now, id, meta)]
  {
    assert rows[i] in Elements(rows);
    assert rows[..i + 1] == rows[..i] + [rows[i]];
    assert rows[i] !in rows[..i];
  }

  lemma {:induction false} SweepKeepsKeys(tasks: map<Id, Task>, swept: seq<Id>, at: Time, rows: seq<Task>)
    ensures TasksFit(SweepAll(tasks, swept, at), rows) == TasksFit(tasks, rows)
  {
    assert SweepAll(tasks, swept, at).Keys == tasks.Keys;
  }
}
