/** Commands take effect exactly once, however often and in whatever company they are
    delivered. */
module ExactlyOnce {
  import opened Kernel
  import opened TaskGraph
  import opened Tasks
  import opened Runs
  import opened Database
  import opened Steps
  import opened Gating

  /** The delivery is accepted and its command identity is new. */
  ghost predicate FirstAccepted(db: Db, d: Delivery) {
    Transaction(db, d).Ok? && CommandId(d.request) !in db.commands
  }

  /** The deliveries that were the first accepted ones of their identity. */
  ghost function Kept(db: Db, ds: seq<Delivery>): seq<Delivery> {
    if ds == [] then []
    else
      var n := |ds| - 1;
      if FirstAccepted(RunAll(db, ds[..n]), ds[n]) then Kept(db, ds[..n]) + [ds[n]] else Kept(db, ds[..n])
  }

  ghost predicate Recorded(db: Db) {
    forall id :: id in db.commands ==>
      && CommandId(db.commands[id].request) == id
      && db.commands[id].result.Some? && !db.commands[id].result.value.replay
  }

  lemma {:induction false} TaskDeliveryRecords(db: Db, c: TaskCommand, fault: FaultPoint, order: seq<Id>)
    requires Tables(db) && TaskTransaction(db, c, fault, order).Ok? && c.meta.commandId !in db.commands
    ensures var commit := TaskTransaction(db, c, fault, order).value;
      && commit.db.commands == db.commands[c.meta.commandId := CommandRecord(TaskRequest(c), Some(commit.result))]
      && !commit.result.replay
  {
    hide TaskTransaction, TaskDecision, TaskStep, WakeAll, WakeEvents;
    TaskTransactionSteps(db, c, fault, order);
  }

  lemma {:induction false} RunDeliveryRecords(db: Db, c: RunCommand, fault: FaultPoint, order: seq<Id>)
    requires Tables(db) && RunTransaction(db, c, fault, order).Ok? && c.meta.commandId !in db.commands
    ensures var commit := RunTransaction(db, c, fault, order).value;
      && commit.db.commands == db.commands[c.meta.commandId := CommandRecord(RunRequest(c), Some(commit.result))]
      && !commit.result.replay
  {
    hide RunTransaction, RunCommandDecision, RunStep, SweepAll, SweepEvents, Planted, NewRows;
    RunTransactionSteps(db, c, fault, order);
  }

  /** A first accepted delivery records its request and its answer; any other one
      changes nothing. */
  lemma {:induction false} DeliveryRecords(db: Db, d: Delivery)
    requires Tables(db)
    ensures FirstAccepted(db, d) ==>
      && Reply(db, d).Ok? && !Reply(db, d).value.replay
      && Deliver(db, d).commands
         == db.commands[CommandId(d.request) := CommandRecord(d.request, Some(Reply(db, d).value))]
    ensures !FirstAccepted(db, d) ==> Deliver(db, d) == db
  {
    hide TaskTransaction, RunTransaction, Tables;
    if Transaction(db, d).Ok? {
      match d.request
      case TaskRequest(c) =>
        if c.meta.commandId in db.commands {
          TaskReplayStays(db, c, d.fault, d.order);
        } else {
          TaskDeliveryRecords(db, c, d.fault, d.order);
        }
      case RunRequest(c) =>
        if c.meta.commandId in db.commands {
          RunReplayStays(db, c, d.fault, d.order);
        } else {
          RunDeliveryRecords(db, c, d.fault, d.order);
        }
    }
  }

  lemma {:induction false} ReachableTables(ds: seq<Delivery>)
    ensures Tables(RunAll(EMPTY, ds))
  {
    hide RunAll, Tables, AcyclicRuns, AllGated, Gates;
    ReachableIsSound(ds);
  }

  lemma {:induction false} ReachableRecorded(ds: seq<Delivery>)
    ensures Recorded(RunAll(EMPTY, ds))
  {
    hide Deliver, FirstAccepted, Reply, Tables;
    if ds != [] {
      var n := |ds| - 1;
      ReachableRecorded(ds[..n]);
      ReachableTables(ds[..n]);
      DeliveryRecords(RunAll(EMPTY, ds[..n]), ds[n]);
    }
  }

  /** Any sequence of deliveries, with faults, rejections and repetitions anywhere, reaches
      the state of its first accepted deliveries alone. */
  lemma {:induction false} DeliveredExactlyOnce(ds: seq<Delivery>)
    ensures RunAll(EMPTY, Kept(EMPTY, ds)) == RunAll(EMPTY, ds)
  {
    hide Deliver, FirstAccepted, Reply, Tables;
    if ds != [] {
      var n := |ds| - 1;
      DeliveredExactlyOnce(ds[..n]);
      ReachableTables(ds[..n]);
      DeliveryRecords(RunAll(EMPTY, ds[..n]), ds[n]);
      RunAllSnoc(EMPTY, Kept(EMPTY, ds[..n]), ds[n]);
    }
  }

  lemma {:induction false} RunAllSnoc(db: Db, ds: seq<Delivery>, d: Delivery)
    ensures RunAll(db, ds + [d]) == Deliver(RunAll(db, ds), d)
  {
    hide Deliver;
    assert (ds + [d])[..|ds|] == ds;
  }

  ghost function KeptIds(ds: seq<Delivery>): seq<Id> {
    seq(|ds|, i requires 0 <= i < |ds| => CommandId(ds[i].request))
  }

  /** The command table holds exactly the identities of the kept deliveries, each once. */
  lemma {:induction false} KeptAreTheCommands(ds: seq<Delivery>)
    ensures var ids := KeptIds(Kept(EMPTY, ds));
      && Distinct(ids)
      && (forall id :: id in ids <==> id in RunAll(EMPTY, ds).commands)
  {
    hide Deliver, Reply, Tables, Transaction, Distinct;
    if ds == [] {
      NoneDistinct();
    } else {
      var n := |ds| - 1;
      KeptAreTheCommands(ds[..n]);
      ReachableTables(ds[..n]);
      var db := RunAll(EMPTY, ds[..n]);
      DeliveryRecords(db, ds[n]);
      var before := KeptIds(Kept(EMPTY, ds[..n]));
      var id := CommandId(ds[n].request);
      if FirstAccepted(db, ds[n]) {
        assert id !in before;
        var ids := KeptIds(Kept(EMPTY, ds));
        assert ids == before + [id];
        DistinctSnoc(before, id);
      }
    }
  }

  lemma {:induction false} NoneDistinct()
    ensures Distinct<Id>([])
  {
  }

  lemma {:induction false} DistinctSnoc(ids: seq<Id>, id: Id)
    requires Distinct(ids) && id !in ids
    ensures Distinct(ids + [id])
  {
  }

  /** Commands stay on record. */
  lemma {:induction false} RecordsStay(ds: seq<Delivery>, more: seq<Delivery>, id: Id)
    requires id in RunAll(EMPTY, ds).commands
    ensures var db := RunAll(EMPTY, ds + more);
      id in db.commands && db.commands[id] == RunAll(EMPTY, ds).commands[id]
  {
    hide Deliver, Reply, Tables, Transaction;
    if more == [] {
      assert ds + more == ds;
    } else {
      var n := |more| - 1;
      RecordsStay(ds, more[..n], id);
      assert (ds + more)[..|ds + more| - 1] == ds + more[..n];
      ReachableTables(ds + more[..n]);
      DeliveryRecords(RunAll(EMPTY, ds + more[..n]), more[n]);
    }
  }

  predicate ValidRequest(request: Request) {
    match request
    case RunRequest(c) => ValidRunCommand(c)
    case TaskRequest(c) => ValidTaskCommand(c)
  }

  /** What an identity on record answers: its own request gets the stored result marked
      as a replay, any other request is a conflict, and neither changes anything. */
  lemma {:induction false} RecordedAnswers(db: Db, d: Delivery)
    requires CommandId(d.request) in db.commands && Recorded(db) && ValidRequest(d.request)
    ensures var record := db.commands[CommandId(d.request)];
      && Deliver(db, d) == db
      && Reply(db, d) == if record.request == d.request then Ok(record.result.value.(replay := true))
                         else Err(CommandConflict)
  {
    hide TaskDecision, RunCommandDecision, ValidTaskCommand, ValidRunCommand;
  }

  /** An accepted command, delivered again at any later time, under any fault and with any
      row order, gets its first answer with only the replay mark changed, and changes
      nothing; its identity on any other valid request is refused and changes nothing. */
  lemma {:induction false} RedeliveryReplays(ds: seq<Delivery>, d: Delivery, more: seq<Delivery>, again: Delivery)
    requires FirstAccepted(RunAll(EMPTY, ds), d)
    requires ValidRequest(again.request) && CommandId(again.request) == CommandId(d.request)
    ensures var db := RunAll(EMPTY, ds + [d] + more);
      && Reply(RunAll(EMPTY, ds), d).Ok?
      && Deliver(db, again) == db
      && (again.request == d.request ==>
            Reply(db, again) == Ok(Reply(RunAll(EMPTY, ds), d).value.(replay := true)))
      && (again.request != d.request ==> Reply(db, again) == Err(CommandConflict))
  {
    hide Deliver, Reply, Tables, Transaction, RunAll, ValidRequest;
    ReachableTables(ds);
    DeliveryRecords(RunAll(EMPTY, ds), d);
    RunAllSnoc(EMPTY, ds, d);
    RecordsStay(ds + [d], more, CommandId(d.request));
    ReachableRecorded(ds + [d] + more);
    RecordedAnswers(RunAll(EMPTY, ds + [d] + more), again);
  }

  // ----- What an answer says -----

  /** The answer names the aggregate's stored state and revision and exactly the events the
      command appended, all of them written in its name. */
  ghost predicate AnswerMatches(db: Db, after: Db, request: Request, result: CommandResult) {
    && |after.log| == |db.log| + |result.eventIds| && after.log[..|db.log|] == db.log
    && (forall i :: |db.log| <= i < |after.log| ==>
          after.log[i].id == result.eventIds[i - |db.log|] && after.log[i].commandId == CommandId(request))
    && match request {
         case TaskRequest(c) =>
           && result.aggregate == c.id && c.id in after.tasks
           && result.state == TaskIn(after.tasks[c.id].state) && result.revision == after.tasks[c.id].revision
         case RunRequest(c) =>
           && result.aggregate == c.id && c.id in after.runs
           && result.state == RunIn(after.runs[c.id].state) && result.revision == after.runs[c.id].revision
       }
  }

  lemma {:induction false} TaskAnswerDescribes(db: Db, c: TaskCommand, applied: Applied, woken: seq<Id>)
    requires TaskStep(db, c, applied, woken)
    ensures var commit := TaskWrites(db, c, applied, woken); AnswerMatches(db, commit.db, TaskRequest(c), commit.result)
  {
    hide Apply, WakeAll, AllFit, Awakes, Tables;
    TaskStepTasks(db, c, applied, woken);
    AppliedIdentity(db.tasks[c.id], c);
  }

  lemma {:induction false} DecisionEvents(db: Db, c: RunCommand, i: nat)
    requires RunCommandDecision(db, c).Ok? && i < |RunCommandDecision(db, c).value.events|
    ensures RunCommandDecision(db, c).value.events[i].commandId == c.meta.commandId
  {
    hide RunCommandDecision, Decision, NewRun, RunTaskGate, PlanAdmissible;
    DecisionCases(db, c);
    if c.CreateRun? {
      CreationStarts(c);
    } else if c.ApproveTaskGraph? {
      PlanFacts(db.runs[c.id], c);
    }
  }

  lemma {:induction false} RunAnswerDescribes(db: Db, c: RunCommand, d: RunDecision, swept: seq<Id>)
    requires RunStep(db, c, d, swept)
    ensures var commit := RunWrites(db, c, d, swept); AnswerMatches(db, commit.db, RunRequest(c), commit.result)
  {
    hide RunCommandDecision, SweepAll, AllFit, Planted, Tables, Unfinished, TasksFit, NewRows;
    NoRows(db, c, d);
    forall i | 0 <= i < |d.events|
      ensures d.events[i].commandId == c.meta.commandId
    {
      DecisionEvents(db, c, i);
    }
  }

  lemma {:induction false} AnswerDescribes(ds: seq<Delivery>, d: Delivery)
    requires FirstAccepted(RunAll(EMPTY, ds), d)
    ensures var db := RunAll(EMPTY, ds);
      Reply(db, d).Ok? && AnswerMatches(db, Deliver(db, d), d.request, Reply(db, d).value)
  {
    hide RunAll, TaskTransaction, RunTransaction, TaskStep, RunStep, TaskWrites, RunWrites, TaskDecision,
      RunCommandDecision, Tables, AnswerMatches;
    ReachableTables(ds);
    var db := RunAll(EMPTY, ds);
    match d.request
    case TaskRequest(c) =>
      TaskTransactionSteps(db, c, d.fault, d.order);
      var applied := TaskDecision(db, c).value;
      TaskAnswerDescribes(db, c, applied, WokenBy(db, applied.task, d.order));
    case RunRequest(c) =>
      RunTransactionSteps(db, c, d.fault, d.order);
      RunAnswerDescribes(db, c, RunCommandDecision(db, c).value, SweptBy(db, c, d.order));
  }
}
