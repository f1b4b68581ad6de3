/** The workflow tables and what one serialized transaction does to them. Each
    transaction either commits everything it writes or changes nothing. */
module Database {
  import opened Kernel
  import opened TaskGraph
  import opened Tasks
  import opened Runs

  /** A command of either aggregate. Its digest covers its type and all its fields, so
      two requests share a digest exactly when they are equal. */
  datatype Request = RunRequest(run: RunCommand) | TaskRequest(task: TaskCommand)

  datatype StateName = RunIn(run: RunState) | TaskIn(task: TaskState)

  datatype CommandResult = CommandResult(
    aggregate: Id,
    state: StateName,
    revision: nat,
    eventIds: seq<Id>,
    taskIds: seq<Id>,
    replay: bool)

  datatype CommandRecord = CommandRecord(request: Request, result: Option<CommandResult>)

  datatype DependencyRow = DependencyRow(run: Id, edge: Dependency)

  datatype Db = Db(
    runs: map<Id, Run>,
    tasks: map<Id, Task>,
    deps: set<DependencyRow>,
    commands: map<Id, CommandRecord>,
    log: seq<Event>)

  const EMPTY: Db := Db(map[], map[], {}, map[], [])

  /** Where a transaction may be made to fail. */
  datatype FaultPoint = NoFault | BeforeEvents | BeforeSnapshot | BeforeCommit

  datatype Commit = Commit(db: Db, result: CommandResult)

  // ----- Row order -----

  ghost predicate Enumerates(rows: seq<Id>, s: set<Id>) {
    Distinct(rows) && Elements(rows) == s
  }

  ghost function Enumeration(s: set<Id>): (rows: seq<Id>)
    ensures Enumerates(rows, s)
  {
    if s == {} then []
    else
      var x :| x in s;
      var rest := Enumeration(s - {x});
      ElementsSnoc(rest, x);
      rest + [x]
  }

  /** The order a query returns its rows in: the hinted one when it lists exactly these
      rows, and some fixed one otherwise. */
  ghost function Arrange(s: set<Id>, hint: seq<Id>): (rows: seq<Id>)
    ensures Enumerates(rows, s)
  {
    if Enumerates(hint, s) then hint else Enumeration(s)
  }

  // ----- Table access -----

  /** Event identities are unique, and so are an aggregate's revisions. */
  ghost predicate Collides(a: Event, b: Event) {
    a.id == b.id || (a.kind == b.kind && a.aggregate == b.aggregate && a.revision == b.revision)
  }

  ghost predicate Fits(log: seq<Event>, e: Event) {
    forall i :: 0 <= i < |log| ==> !Collides(log[i], e)
  }

  /** The events can be appended one after the other. */
  ghost predicate AllFit(log: seq<Event>, events: seq<Event>) {
    forall i :: 0 <= i < |events| ==> Fits(log + events[..i], events[i])
  }

  function LoadRun(runs: map<Id, Run>, id: Id): Result<Run> {
    if id !in runs then Err(NotFound)
    else if !ValidRun(runs[id]) then Err(Invalid)
    else Ok(runs[id])
  }

  function LoadTask(tasks: map<Id, Task>, run: Id, id: Id): Result<Task> {
    if id !in tasks || tasks[id].runId != run then Err(NotFound)
    else if !ValidTask(tasks[id]) then Err(Invalid)
    else Ok(tasks[id])
  }

  /** The stored answer to a command identity that was seen before. */
  function Replayed(record: CommandRecord, request: Request): Result<CommandResult> {
    if record.request != request || record.result.None? then Err(CommandConflict)
    else Ok(record.result.value.(replay := true))
  }

  function TasksOf(tasks: map<Id, Task>, run: Id): set<Id> {
    set id | id in tasks && tasks[id].runId == run
  }

  // ----- Gates -----

  function TaskRunGate(runs: map<Id, Run>, c: TaskCommand): Check {
    if c.run !in runs then Fail(NotFound)
    else Need(runs[c.run].state == (if c.CancelTask? then CancelledRun else ExecutingRun), InvalidTransition)
  }

  predicate NeedsAccepted(c: RunCommand) {
    || c.RecordRunExecution? || c.RecordRunVerification? || c.RecordRunReview? || c.ApproveRun? || c.RejectRun?
    || c.RecordDraftPullRequest? || c.RecordMerge?
  }

  function RunTaskGate(tasks: map<Id, Task>, c: RunCommand): Check {
    var own := TasksOf(tasks, c.id);
    if c.StartRun? then
      Need(own != {} && forall id :: id in own ==> tasks[id].state !in {Failed, Cancelled}, InvalidTransition)
    else if NeedsAccepted(c) then
      Need(own != {} && forall id :: id in own ==> tasks[id].state == Accepted, InvalidTransition)
    else Pass
  }

  // ----- Task transactions -----

  /** The prerequisites of a task that are not accepted. */
  function Unaccepted(tasks: map<Id, Task>, deps: set<DependencyRow>, run: Id, id: Id): set<DependencyRow> {
    set row | row in deps && row.run == run && row.edge.task == id && row.edge.dependsOn in tasks
              && tasks[row.edge.dependsOn].runId == run && tasks[row.edge.dependsOn].state != Accepted
  }

  /** The pending tasks of a run that depend on one task. */
  function PendingDependents(tasks: map<Id, Task>, deps: set<DependencyRow>, run: Id, on: Id): set<Id> {
    set id | id in tasks && tasks[id].runId == run && tasks[id].state == Pending
             && DependencyRow(run, Dependency(id, on)) in deps
  }

  /** The rows whose prerequisites are now all accepted, in row order. */
  ghost function Unlocked(tasks: map<Id, Task>, deps: set<DependencyRow>, run: Id, rows: seq<Id>): seq<Id> {
    if rows == [] then []
    else
      var before := Unlocked(tasks, deps, run, rows[..|rows| - 1]);
      var id := rows[|rows| - 1];
      if Unaccepted(tasks, deps, run, id) == {} then before + [id] else before
  }

  function WakeEvent(tasks: map<Id, Task>, id: Id, meta: Envelope): Event {
    NewEvent(Named(meta.commandId, id, "ready"), TaskAggregate, id,
             if id in tasks then tasks[id].revision + 1 else 1, TaskReady, meta)
  }

  function SweepEvent(tasks: map<Id, Task>, id: Id, meta: Envelope): Event {
    NewEvent(Named(meta.commandId, id, "cancel"), TaskAggregate, id,
             if id in tasks then tasks[id].revision + 1 else 1, TaskCancelled, meta)
  }

  ghost function WakeEvents(tasks: map<Id, Task>, ids: seq<Id>, meta: Envelope): seq<Event> {
    seq(|ids|, i requires 0 <= i < |ids| => WakeEvent(tasks, ids[i], meta))
  }

  ghost function SweepEvents(tasks: map<Id, Task>, ids: seq<Id>, meta: Envelope): seq<Event> {
    seq(|ids|, i requires 0 <= i < |ids| => SweepEvent(tasks, ids[i], meta))
  }

  ghost function WakeAll(tasks: map<Id, Task>, ids: seq<Id>, at: Time): map<Id, Task> {
    map id | id in tasks :: if id in ids then Woken(tasks[id], at) else tasks[id]
  }

  ghost function SweepAll(tasks: map<Id, Task>, ids: seq<Id>, at: Time): map<Id, Task> {
    map id | id in tasks :: if id in ids then Swept(tasks[id], at) else tasks[id]
  }

  function EventIds(events: seq<Event>): seq<Id> {
    seq(|events|, i requires 0 <= i < |events| => events[i].id)
  }

  function TaskIds(tasks: seq<Task>): seq<Id> {
    seq(|tasks|, i requires 0 <= i < |tasks| => tasks[i].id)
  }

  /** Gate, load and decide one task command. */
  function TaskDecision(db: Db, c: TaskCommand): Result<Applied> {
    var gate := TaskRunGate(db.runs, c);
    :- gate;
    var current :- LoadTask(db.tasks, c.run, c.id);
    Apply(current, c)
  }

  /** The tasks an accepted task lets go of. */
  ghost function WokenBy(db: Db, next: Task, order: seq<Id>): seq<Id> {
    if next.state != Accepted then []
    else
      var tasks := db.tasks[next.id := next];
      Unlocked(tasks, db.deps, next.runId,
               Arrange(PendingDependents(tasks, db.deps, next.runId, next.id), order))
  }

  /** Everything a committed task command writes. */
  ghost function TaskWrites(db: Db, c: TaskCommand, applied: Applied, woken: seq<Id>): Commit {
    var tasks := db.tasks[applied.task.id := applied.task];
    var events := [applied.event] + WakeEvents(tasks, woken, c.meta);
    var result := CommandResult(applied.task.id, TaskIn(applied.task.state), applied.task.revision,
                                EventIds(events), [], false);
    Commit(Db(db.runs, WakeAll(tasks, woken, c.meta.timestamp), db.deps,
              db.commands[c.meta.commandId := CommandRecord(TaskRequest(c), Some(result))],
              db.log + events),
           result)
  }

  /** The ways writing a decided task command can fail, in the order they arise. */
  ghost function PersistTask(db: Db, c: TaskCommand, fault: FaultPoint, applied: Applied, woken: seq<Id>): Check {
    if fault == BeforeEvents then Fail(InjectedFault)
    else if !Fits(db.log, applied.event) then Fail(StorageFailure)
    else if fault == BeforeSnapshot then Fail(InjectedFault)
    else
      Need(AllFit(db.log + [applied.event], WakeEvents(db.tasks[applied.task.id := applied.task], woken, c.meta)),
           StorageFailure)
  }

  ghost function TaskTransaction(db: Db, c: TaskCommand, fault: FaultPoint, order: seq<Id>): Result<Commit> {
    var id := c.meta.commandId;
    :- Need(ValidTaskCommand(c), Invalid);
    if id in db.commands then
      var result :- Replayed(db.commands[id], TaskRequest(c));
      Ok(Commit(db, result))
    else
      var applied :- TaskDecision(db, c);
      var woken := WokenBy(db, applied.task, order);
      :- PersistTask(db, c, fault, applied, woken);
      :- Need(fault != BeforeCommit, InjectedFault);
      Ok(TaskWrites(db, c, applied, woken))
  }

  // ----- Run transactions -----

  /** Load, gate and decide one run command. */
  ghost function RunCommandDecision(db: Db, c: RunCommand): Result<RunDecision> {
    if c.CreateRun? then
      var existing := LoadRun(db.runs, c.id);
      if existing.Ok? then Err(InvalidTransition)
      else if existing.error != NotFound then Err(existing.error)
      else NewRun(c)
    else
      var current :- LoadRun(db.runs, c.id);
      :- RunTaskGate(db.tasks, c);
      Decision(current, c)
  }

  function Unfinished(tasks: map<Id, Task>, run: Id): set<Id> {
    set id | id in tasks && tasks[id].runId == run && !tasks[id].state.Terminal()
  }

  /** The tasks a cancelled run takes down with it. */
  ghost function SweptBy(db: Db, c: RunCommand, order: seq<Id>): seq<Id> {
    if c.CancelRun? then Arrange(Unfinished(db.tasks, c.id), order) else []
  }

  ghost function NewRows(run: Id, dependencies: seq<Dependency>): set<DependencyRow> {
    set d | d in dependencies :: DependencyRow(run, d)
  }

  ghost function Planted(tasks: seq<Task>): map<Id, Task> {
    map id | id in Elements(TaskIds(tasks)) :: var i :| 0 <= i < |tasks| && tasks[i].id == id; tasks[i]
  }

  /** None of the new task rows exists yet. */
  ghost predicate TasksFit(tasks: map<Id, Task>, rows: seq<Task>) {
    && (forall i :: 0 <= i < |rows| ==> rows[i].id !in tasks)
    && (forall i, j :: 0 <= i < j < |rows| ==> rows[i].id != rows[j].id)
  }

  ghost predicate RowsFit(deps: set<DependencyRow>, run: Id, dependencies: seq<Dependency>) {
    && (forall i :: 0 <= i < |dependencies| ==> DependencyRow(run, dependencies[i]) !in deps)
    && Distinct(dependencies)
  }

  /** Everything a committed run command writes. */
  ghost function RunWrites(db: Db, c: RunCommand, d: RunDecision, swept: seq<Id>): Commit {
    var events := d.events + SweepEvents(db.tasks, swept, c.meta);
    var result := CommandResult(d.next.id, RunIn(d.next.state), d.next.revision, EventIds(events), TaskIds(d.tasks),
                                false);
    Commit(Db(db.runs[d.next.id := d.next],
              SweepAll(db.tasks, swept, c.meta.timestamp) + Planted(d.tasks),
              db.deps + NewRows(d.next.id, d.dependencies),
              db.commands[c.meta.commandId := CommandRecord(RunRequest(c), Some(result))],
              db.log + events),
           result)
  }

  /** The ways writing a decided run command can fail, in the order they arise. */
  ghost function PersistRun(db: Db, c: RunCommand, fault: FaultPoint, d: RunDecision, swept: seq<Id>): Check {
    if fault == BeforeEvents then Fail(InjectedFault)
    else if !AllFit(db.log, d.events + SweepEvents(db.tasks, swept, c.meta)) then Fail(StorageFailure)
    else if !(TasksFit(db.tasks, d.tasks) && RowsFit(db.deps, d.next.id, d.dependencies)) then Fail(StorageFailure)
    else Need(fault != BeforeSnapshot, InjectedFault)
  }

  ghost function RunTransaction(db: Db, c: RunCommand, fault: FaultPoint, order: seq<Id>): Result<Commit> {
    var id := c.meta.commandId;
    :- Need(ValidRunCommand(c), Invalid);
    if id in db.commands then
      var result :- Replayed(db.commands[id], RunRequest(c));
      Ok(Commit(db, result))
    else
      var d :- RunCommandDecision(db, c);
      var swept := SweptBy(db, c, order);
      :- PersistRun(db, c, fault, d, swept);
      :- Need(fault != BeforeCommit, InjectedFault);
      Ok(RunWrites(db, c, d, swept))
  }

  // ----- Deliveries -----

  /** One delivery of a request, with the fault it meets and the order its rows come in. */
  datatype Delivery = Delivery(request: Request, fault: FaultPoint, order: seq<Id>)

  ghost function Transaction(db: Db, d: Delivery): Result<Commit> {
    match d.request
    case RunRequest(c) => RunTransaction(db, c, d.fault, d.order)
    case TaskRequest(c) => TaskTransaction(db, c, d.fault, d.order)
  }

  ghost function Deliver(db: Db, d: Delivery): Db {
    var r := Transaction(db, d);
    if r.Ok? then r.value.db else db
  }

  ghost function Reply(db: Db, d: Delivery): Result<CommandResult> {
    var commit :- Transaction(db, d);
    Ok(commit.result)
  }

  ghost function RunAll(db: Db, ds: seq<Delivery>): Db {
    if ds == [] then db else Deliver(RunAll(db, ds[..|ds| - 1]), ds[|ds| - 1])
  }

  function CommandId(request: Request): Id {
    match request
    case RunRequest(c) => c.meta.commandId
    case TaskRequest(c) => c.meta.commandId
  }
}
