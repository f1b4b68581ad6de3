/** Which runs the store can still bring to a merge, through every gate and whatever else it
    holds. */
module Liveness {
  import opened Kernel
  import opened TaskGraph
  import opened Tasks
  import opened TaskHistory
  import opened Runs
  import opened Database
  import opened Steps
  import opened Gating
  import opened EventLog
  import opened RunHistory

  /** Every task of the run is accepted or in an attempt, or has attempts left. */
  ghost predicate AllSalvageable(tasks: map<Id, Task>, run: Id) {
    forall id :: id in tasks && tasks[id].runId == run ==> Salvageable(tasks[id])
  }

  ghost predicate Mergeable(db: Db, run: Id)
    requires run in db.runs
  {
    || db.runs[run].state == MergedRun
    || (!db.runs[run].state.Terminal() && AllSalvageable(db.tasks, run))
  }

  ghost predicate Merged(db: Db, run: Id) {
    run in db.runs && db.runs[run].state == MergedRun
  }

  // ----- What is lost stays lost -----

  lemma {:induction false} TaskMoves(db: Db, after: Db, events: seq<Event>, id: Id)
    requires Extends(db, after, events) && id in db.tasks
    ensures id in after.tasks
    ensures after.tasks[id] == db.tasks[id] || exists e :: Next(db.tasks[id], e) == Some(after.tasks[id])
  {
    hide Next, Begin, EntryOf, RunSpeaks;
    var i := SilentOrSpeaks(db, after, events, TaskAggregate, id);
    if !Silent(events, TaskAggregate, id) {
      assert Speaking(db, after, events[i]) && About(events[i], TaskAggregate, id);
      assert Next(db.tasks[id], EntryOf(after.commands, events[i])) == Some(after.tasks[id]);
    }
  }

  lemma {:induction false} RunMoves(db: Db, after: Db, events: seq<Event>, id: Id)
    requires Extends(db, after, events) && id in db.runs
    ensures id in after.runs
    ensures after.runs[id] == db.runs[id] || exists c :: RunNext(db.runs[id], c) == Some(after.runs[id])
  {
    hide RunNext, RunBegin, RunCommandOf, TaskSpeaks;
    var i := SilentOrSpeaks(db, after, events, RunAggregate, id);
    if !Silent(events, RunAggregate, id) {
      assert Speaking(db, after, events[i]) && About(events[i], RunAggregate, id);
      assert RunNext(db.runs[id], RunCommandOf(after.commands, events[i])) == Some(after.runs[id]);
    }
  }

  lemma {:induction false} LostTaskStays(db: Db, after: Db, events: seq<Event>, id: Id)
    requires Extends(db, after, events) && id in db.tasks && !Salvageable(db.tasks[id])
    ensures id in after.tasks && !Salvageable(after.tasks[id]) && after.tasks[id].runId == db.tasks[id].runId
  {
    hide Next, Extends, Salvageable;
    TaskMoves(db, after, events, id);
    if after.tasks[id] != db.tasks[id] {
      var e :| Next(db.tasks[id], e) == Some(after.tasks[id]);
      LostStays(db.tasks[id], e);
      TransitionKeepsIdentity(db.tasks[id], e);
    }
  }

  lemma {:induction false} FinishedRunStays(db: Db, after: Db, events: seq<Event>, run: Id)
    requires Extends(db, after, events) && run in db.runs && db.runs[run].state.Terminal()
    ensures run in after.runs && after.runs[run] == db.runs[run]
  {
    hide RunNext, Extends;
    RunMoves(db, after, events, run);
    if after.runs[run] != db.runs[run] {
      var c :| RunNext(db.runs[run], c) == Some(after.runs[run]);
      NextIsLegal(db.runs[run], c);
    }
  }

  /** No delivery makes a run mergeable again. */
  lemma {:induction false} LostRunStays(db: Db, d: Delivery, run: Id)
    requires Sound(db) && run in db.runs && !Mergeable(db, run)
    ensures run in Deliver(db, d).runs && !Mergeable(Deliver(db, d), run)
  {
    hide Deliver, Extends, Tables, AcyclicRuns, AllGated, Salvageable;
    var events := DeliveryExtends(db, d);
    var after := Deliver(db, d);
    RunMoves(db, after, events, run);
    if db.runs[run].state.Terminal() {
      FinishedRunStays(db, after, events, run);
    } else {
      var id :| id in db.tasks && db.tasks[id].runId == run && !Salvageable(db.tasks[id]);
      LostTaskStays(db, after, events, id);
      DeliverKeepsSound(db, d);
      assert GateHolds(after.runs[run].state, after.tasks, run);
      LostIsNotAccepted(after.tasks[id]);
    }
  }

  lemma {:induction false} LostIsNotAccepted(t: Task)
    requires !Salvageable(t)
    ensures t.state != Accepted
  {
  }

  lemma {:induction false} LostForEver(db: Db, more: seq<Delivery>, run: Id)
    requires Sound(db) && run in db.runs && !Mergeable(db, run)
    ensures var after := RunAll(db, more); Sound(after) && run in after.runs && !Mergeable(after, run)
  {
    hide Deliver, Sound, Mergeable;
    if more != [] {
      var n := |more| - 1;
      LostForEver(db, more[..n], run);
      DeliverKeepsSound(RunAll(db, more[..n]), more[n]);
      LostRunStays(RunAll(db, more[..n]), more[n], run);
    }
  }

  // ----- Fresh identities -----

  /** One more than the number a name starts from. */
  function Height(id: Id): nat {
    match id
    case Parsed(n) => n + 1
    case Named(space, _, _) => Height(space)
    case Malformed(_) => 0
  }

  ghost function Names(db: Db): set<Id> {
    db.commands.Keys + db.tasks.Keys + (set i | 0 <= i < |db.log| :: db.log[i].id)
  }

  ghost predicate Fresh(db: Db, n: nat) {
    forall id :: id in Names(db) ==> Height(id) <= n
  }

  lemma {:induction false} Heights(ids: set<Id>) returns (n: nat)
    ensures forall id :: id in ids ==> Height(id) <= n
  {
    n := 0;
    if ids != {} {
      var x :| x in ids;
      var rest := Heights(ids - {x});
      n := if Height(x) > rest then Height(x) else rest;
      assert forall id :: id in ids ==> id == x || id in ids - {x};
    }
  }

  lemma {:induction false} FreshIsUnused(db: Db, n: nat)
    requires Fresh(db, n)
    ensures Parsed(n) !in db.commands && Parsed(n) !in db.tasks
    ensures forall i :: 0 <= i < |db.log| ==> Height(db.log[i].id) <= n
  {
    assert Height(Parsed(n)) == n + 1;
    assert Parsed(n) !in Names(db);
    forall i | 0 <= i < |db.log|
      ensures Height(db.log[i].id) <= n
    {
      assert db.log[i].id in Names(db);
    }
  }

  lemma {:induction false} EventsGrow(log: seq<Event>, k: nat, kind: AggregateKind, id: Id)
    requires k <= |log|
    ensures |Events(log[..k], kind, id)| <= |Events(log, kind, id)|
    decreases |log|
  {
    if k == |log| {
      assert log[..k] == log;
    } else {
      var n := |log| - 1;
      EventsGrow(log[..n], k, kind, id);
      assert log[..n][..k] == log[..k];
    }
  }

  /** An event that carries its aggregate's next revision and a fresh name fits the log. */
  lemma {:induction false} FreshFits(db: Db, n: nat, e: Event)
    requires LogAgrees(db) && Fresh(db, n) && Height(e.id) > n
    requires e.revision == |Events(db.log, e.kind, e.aggregate)| + 1
    ensures Fits(db.log, e)
  {
    hide TaskExplained, RunExplained, Rooted, Fresh;
    FreshIsUnused(db, n);
    forall i | 0 <= i < |db.log|
      ensures !Collides(db.log[i], e)
    {
      assert Numbered(db.log, i);
      if About(db.log[i], e.kind, e.aggregate) {
        EventsGrow(db.log, i + 1, e.kind, e.aggregate);
        assert db.log[..i + 1][..i] == db.log[..i];
      }
    }
  }

  ghost predicate Apart(events: seq<Event>) {
    forall i, j :: 0 <= i < j < |events| ==> !Collides(events[i], events[j])
  }

  lemma {:induction false} AllFreshFit(log: seq<Event>, events: seq<Event>)
    requires Apart(events) && forall i :: 0 <= i < |events| ==> Fits(log, events[i])
    ensures AllFit(log, events)
  {
    hide Collides;
    forall i | 0 <= i < |events|
      ensures Fits(log + events[..i], events[i])
    {
      var all := log + events[..i];
      assert Fits(log, events[i]);
      forall k | 0 <= k < |all|
        ensures !Collides(all[k], events[i])
      {
        if k < |log| {
          assert all[k] == log[k];
        } else {
          assert all[k] == events[k - |log|];
        }
      }
    }
  }

  lemma {:induction false} FitsRest(log: seq<Event>, e: Event, rest: seq<Event>)
    requires AllFit(log, [e] + rest)
    ensures Fits(log, e) && AllFit(log + [e], rest)
  {
    hide Fits;
    var all := [e] + rest;
    assert log + all[..0] == log && all[0] == e;
    assert Fits(log + all[..0], all[0]);
    forall i | 0 <= i < |rest|
      ensures Fits(log + [e] + rest[..i], rest[i])
    {
      assert log + all[..i + 1] == log + [e] + rest[..i] && all[i + 1] == rest[i];
      assert Fits(log + all[..i + 1], all[i + 1]);
    }
  }

  // ----- Bringing a task forward -----

  ghost predicate Good(db: Db) {
    Sound(db) && LogAgrees(db)
  }

  lemma {:induction false} DeliverKeepsGood(db: Db, d: Delivery)
    requires Good(db)
    ensures Good(Deliver(db, d))
  {
    hide Sound, LogAgrees, Deliver;
    DeliverKeepsSound(db, d);
    DeliverKeepsLog(db, d);
  }

  lemma {:induction false} GoodParts(db: Db)
    requires Good(db)
    ensures Tables(db) && Gates(db) && Sound(db) && LogAgrees(db)
    ensures forall id :: id in db.tasks ==> TaskExplained(db, id)
    ensures forall id :: id in db.runs ==> RunExplained(db, id)
  {
    hide Tables, Gates, TaskExplained, RunExplained, Numbered, Rooted, AcyclicRuns, AllGated;
  }

  lemma {:induction false} WokenTask(db: Db, c: TaskCommand, applied: Applied, id: Id)
    requires Tables(db) && c.id in db.tasks && Apply(db.tasks[c.id], c) == Ok(applied)
    requires Awakes(db.tasks[c.id := applied.task], db.deps, applied.task, id)
    ensures id in db.tasks && id != c.id
  {
    hide Apply, Unaccepted;
    AppliedIdentity(db.tasks[c.id], c);
  }

  /** The events of a task command under a fresh identity all fit. */
  lemma {:induction false} TaskEventsFit(db: Db, n: nat, c: TaskCommand, applied: Applied, woken: seq<Id>)
    requires Good(db) && Fresh(db, n) && c.meta.commandId == Parsed(n)
    requires c.id in db.tasks && Apply(db.tasks[c.id], c) == Ok(applied)
    requires Distinct(woken) && forall id :: id in woken ==> id in db.tasks && id != c.id
    ensures AllFit(db.log, [applied.event] + WakeEvents(db.tasks[c.id := applied.task], woken, c.meta))
  {
    hide Apply, Good, Events, LogAgrees, Fresh, AllFit, Fits, TaskExplained, RunExplained, ValidTask, Tables, Gates, Sound;
    GoodParts(db);
    AppliedIdentity(db.tasks[c.id], c);
    var events := [applied.event] + WakeEvents(db.tasks[c.id := applied.task], woken, c.meta);
    forall i | 0 <= i < |events|
      ensures Fits(db.log, events[i])
    {
      var e := events[i];
      assert db.tasks[c.id].id == c.id;
      var id := if i == 0 then c.id else woken[i - 1];
      assert id in db.tasks && e.aggregate == id && e.kind == TaskAggregate;
      assert TaskExplained(db, id);
      TaskRevisionCounts(db, id);
      assert e.revision == db.tasks[id].revision + 1;
      assert Height(e.id) == n + 1;
      FreshFits(db, n, e);
    }
    forall i, j | 0 <= i < j < |events|
      ensures !Collides(events[i], events[j])
    {
      if i > 0 {
        assert woken[i - 1] != woken[j - 1];
      }
    }
    AllFreshFit(db.log, events);
  }

  /** An executing run's task takes any command it accepts, if the identity is fresh. */
  lemma {:induction false} TaskDeliveryCommits(db: Db, n: nat, c: TaskCommand)
    requires Good(db) && Fresh(db, n) && c.meta.commandId == Parsed(n) && ValidTaskCommand(c)
    requires c.id in db.tasks && db.tasks[c.id].runId == c.run && TaskRunGate(db.runs, c).Pass?
    requires Apply(db.tasks[c.id], c).Ok?
    ensures var applied := Apply(db.tasks[c.id], c).value; var woken := WokenBy(db, applied.task, []);
      && TaskStep(db, c, applied, woken)
      && TaskTransaction(db, c, NoFault, []) == Ok(TaskWrites(db, c, applied, woken))
  {
    hide Apply, Good, Fresh, AllFit, Fits, Tables, WokenBy, Awakes, WakeEvents, TaskWrites, ValidTask, TaskRunGate;
    GoodParts(db);
    FreshIsUnused(db, n);
    var applied := Apply(db.tasks[c.id], c).value;
    var woken := WokenBy(db, applied.task, []);
    AppliedIdentity(db.tasks[c.id], c);
    AppliedIsValid(db.tasks[c.id], c);
    WokenExactly(db, applied.task, []);
    forall id | id in woken
      ensures id in db.tasks && id != c.id
    {
      WokenTask(db, c, applied, id);
    }
    TaskEventsFit(db, n, c, applied, woken);
    FitsRest(db.log, applied.event, WakeEvents(db.tasks[c.id := applied.task], woken, c.meta));
  }

  lemma {:induction false} AppliedIsValid(t: Task, c: TaskCommand)
    requires Apply(t, c).Ok?
    ensures ValidTask(t)
  {
    hide Decide, ValidTask;
  }

  /** Nothing gets worse: a task that was accepted stays so, and a salvageable one too. */
  ghost predicate Preserved(t: Task, n: Task) {
    n.runId == t.runId && (Salvageable(t) ==> Salvageable(n)) && (t.state == Accepted ==> n.state == Accepted)
  }

  ghost predicate Improves(db: Db, after: Db) {
    && Good(after) && after.runs == db.runs && after.tasks.Keys == db.tasks.Keys
    && forall id :: id in db.tasks ==> Preserved(db.tasks[id], after.tasks[id])
  }

  lemma {:induction false} ImprovesFurther(a: Db, b: Db, c: Db)
    requires Improves(a, b) && Improves(b, c)
    ensures Improves(a, c)
  {
    hide Good, Salvageable;
    forall id | id in a.tasks
      ensures Preserved(a.tasks[id], c.tasks[id])
    {
      assert Preserved(a.tasks[id], b.tasks[id]) && Preserved(b.tasks[id], c.tasks[id]);
    }
  }

  lemma {:induction false} RunAllJoins(db: Db, a: seq<Delivery>, b: seq<Delivery>)
    ensures RunAll(db, a + b) == RunAll(RunAll(db, a), b)
  {
    hide Deliver;
    if b == [] {
      assert a + b == a;
    } else {
      var n := |b| - 1;
      RunAllJoins(db, a, b[..n]);
      assert (a + b)[..|a + b| - 1] == a + b[..n];
    }
  }

  lemma {:induction false} RunAllCons(db: Db, d: Delivery, rest: seq<Delivery>)
    ensures RunAll(db, [d] + rest) == RunAll(Deliver(db, d), rest)
  {
    hide Deliver;
    RunAllJoins(db, [d], rest);
    assert [d][..0] == [];
    assert RunAll(db, [d]) == Deliver(RunAll(db, []), d);
  }

  /** A stored task is valid and bound as its state demands. */
  lemma {:induction false} Standing(db: Db, id: Id)
    requires Good(db) && id in db.tasks
    ensures ValidTask(db.tasks[id]) && BoundFor(db.tasks[id]) && db.tasks[id].id == id
  {
    hide Good, Replay, ValidTask, BoundFor, Measure, Gates;
    GoodParts(db);
    assert TaskExplained(db, id);
    HistoryIsSound(TaskEntries(db, id));
    BindingsMatchState(TaskEntries(db, id));
  }

  ghost predicate Workable(db: Db, id: Id) {
    && Good(db) && id in db.tasks && Advanceable(db.tasks[id])
    && db.tasks[id].runId in db.runs && db.runs[db.tasks[id].runId].state == ExecutingRun
  }

  /** One step: the task gets nearer to acceptance, and no other task gets worse. */
  lemma {:induction false} TaskForward(db: Db, id: Id) returns (d: Delivery)
    requires Workable(db, id)
    ensures var after := Deliver(db, d);
      && Improves(db, after)
      && ToGo(after.tasks[id].state) == ToGo(db.tasks[id].state) - 1
      && (Advanceable(after.tasks[id]) || after.tasks[id].state == Accepted)
  {
    hide Good, Apply, Advance, Advanceable, Fresh, TaskTransaction, TaskStep, TaskWrites, WokenBy, Names, ToGo, Salvageable,
      ValidTask, BoundFor;
    var n := Heights(Names(db));
    assert Fresh(db, n) by {
      FreshByHeight(db, n);
    }
    Standing(db, id);
    var t := db.tasks[id];
    var c := Advance(t, Parsed(n));
    AdvanceFits(t, Parsed(n));
    AdvanceIsApplied(t, Parsed(n));
    AdvanceIsTaken(t, Parsed(n));
    TaskDeliveryCommits(db, n, c);
    d := Delivery(TaskRequest(c), NoFault, []);
    DeliverKeepsGood(db, d);
    var applied := Apply(t, c).value;
    assert applied.task == Next(t, Entry(SomeEvent(c), Issued(c))).value;
    StepImproves(db, c, applied, WokenBy(db, applied.task, []));
  }

  lemma {:induction false} FreshByHeight(db: Db, n: nat)
    requires forall id :: id in Names(db) ==> Height(id) <= n
    ensures Fresh(db, n)
  {
  }

  lemma {:induction false} StepImproves(db: Db, c: TaskCommand, applied: Applied, woken: seq<Id>)
    requires TaskStep(db, c, applied, woken) && (Advanceable(applied.task) || applied.task.state == Accepted)
    requires Good(TaskWrites(db, c, applied, woken).db)
    ensures var after := TaskWrites(db, c, applied, woken).db; Improves(db, after) && after.tasks[c.id] == applied.task
  {
    hide Good, Apply, ValidTask, BoundFor, WakeAll, WakeEvents, AllFit, Tables, Awakes, TaskRunGate;
    TaskStepTasks(db, c, applied, woken);
    AppliedIdentity(db.tasks[c.id], c);
    var after := TaskWrites(db, c, applied, woken).db;
    forall id | id in db.tasks
      ensures Preserved(db.tasks[id], after.tasks[id])
    {
    }
  }

  /** A task in an attempt, or with attempts left, is driven to acceptance. */
  lemma {:induction false} DriveTask(db: Db, id: Id) returns (more: seq<Delivery>)
    requires Workable(db, id)
    ensures var after := RunAll(db, more); Improves(db, after) && after.tasks[id].state == Accepted
    decreases ToGo(db.tasks[id].state)
  {
    hide Good, Advanceable, Deliver, RunAll, ToGo, Preserved;
    var d := TaskForward(db, id);
    var after := Deliver(db, d);
    assert after.tasks[id].runId == db.tasks[id].runId by {
      assert Preserved(db.tasks[id], after.tasks[id]);
      SameRun(db.tasks[id], after.tasks[id]);
    }
    RunAllCons(db, d, []);
    RunAllNone(after);
    more := [d] + [];
    if after.tasks[id].state != Accepted {
      var rest := DriveTask(after, id);
      RunAllCons(db, d, rest);
      more := [d] + rest;
      ImprovesFurther(db, after, RunAll(db, more));
    }
  }

  lemma {:induction false} SameRun(t: Task, n: Task)
    requires Preserved(t, n)
    ensures n.runId == t.runId
  {
  }

  lemma {:induction false} RunAllNone(db: Db)
    ensures RunAll(db, []) == db
  {
  }

  // ----- Accepting every task of a run -----

  ghost function Open(tasks: map<Id, Task>, run: Id): set<Id> {
    set id | id in tasks && tasks[id].runId == run && tasks[id].state != Accepted
  }

  lemma {:induction false} PreservedAll(db: Db, after: Db, run: Id)
    requires Improves(db, after) && AllSalvageable(db.tasks, run)
    ensures AllSalvageable(after.tasks, run) && Open(after.tasks, run) <= Open(db.tasks, run)
  {
    hide Good, Salvageable;
    forall id | id in after.tasks && after.tasks[id].runId == run
      ensures Salvageable(after.tasks[id]) && (id in Open(after.tasks, run) ==> id in Open(db.tasks, run))
    {
      assert Preserved(db.tasks[id], after.tasks[id]);
    }
  }

  lemma {:induction false} SalvageableStates(t: Task)
    requires Salvageable(t)
    ensures t.state !in {Failed, Cancelled}
  {
  }

  /** While tasks of an executing run are open, one of them can be driven on. */
  lemma {:induction false} WorkableTask(db: Db, run: Id) returns (id: Id)
    requires Good(db) && run in db.runs && db.runs[run].state == ExecutingRun
    requires AllSalvageable(db.tasks, run) && !AllIn(db.tasks, run, {Accepted})
    ensures Workable(db, id) && id in Open(db.tasks, run)
  {
    hide Good, Salvageable, ValidTask, BoundFor, Sound, Tables, Gates;
    GoodParts(db);
    forall id | id in db.tasks && db.tasks[id].runId == run
      ensures db.tasks[id].state !in {Failed, Cancelled}
    {
      SalvageableStates(db.tasks[id]);
    }
    id := ActiveTask(db, run);
    Standing(db, id);
  }

  lemma {:induction false} AcceptAll(db: Db, run: Id) returns (more: seq<Delivery>)
    requires Good(db) && run in db.runs && db.runs[run].state == ExecutingRun && AllSalvageable(db.tasks, run)
    ensures var after := RunAll(db, more); Improves(db, after) && AllIn(after.tasks, run, {Accepted})
    decreases Open(db.tasks, run)
  {
    hide Good, RunAll, Salvageable, Advanceable;
    more := [];
    if AllIn(db.tasks, run, {Accepted}) {
      RunAllNone(db);
      assert Improves(db, db);
    } else {
      var id := WorkableTask(db, run);
      var first := DriveTask(db, id);
      var middle := RunAll(db, first);
      PreservedAll(db, middle, run);
      assert id !in Open(middle.tasks, run) && id in Open(db.tasks, run);
      var rest := AcceptAll(middle, run);
      RunAllJoins(db, first, rest);
      more := first + rest;
      ImprovesFurther(db, middle, RunAll(db, more));
    }
  }

  // ----- Bringing a run forward -----

  lemma {:induction false} RunStanding(db: Db, run: Id)
    requires Good(db) && run in db.runs
    ensures ValidRun(db.runs[run]) && RunBoundFor(db.runs[run]) && db.runs[run].id == run
  {
    hide Good, RunReplay, ValidRun, RunBoundFor, Gates;
    GoodParts(db);
    assert RunExplained(db, run);
    RunHistoryCounts(RunEntries(db, run));
    RunBindingsMatchState(RunEntries(db, run));
  }

  /** A live run whose tasks are done by the time it has executed. */
  ghost predicate Movable(db: Db, run: Id) {
    && Good(db) && run in db.runs && !db.runs[run].state.Terminal()
    && (db.runs[run].state == ExecutingRun ==> AllIn(db.tasks, run, {Accepted}))
  }

  lemma {:induction false} MoveIsGated(r: Run, id: Id)
    requires ValidRun(r) && RunBoundFor(r) && !r.state.Terminal()
    ensures var c := AdvanceRun(r, id);
      && c.id == r.id && !c.CreateRun? && !c.CancelRun? && c.meta.commandId == id
      && (c.StartRun? <==> r.state == ReadyRun) && (c.ApproveTaskGraph? <==> r.state == TaskPlanReview)
      && (NeedsAccepted(c) <==> r.state in {ExecutingRun, VerifyingRun, ReviewingRun, ApprovalPending, MergeReady})
  {
    hide IsLowerHex, ValidArtifact;
  }

  lemma {:induction false} MoveGateOpens(db: Db, run: Id, id: Id)
    requires Movable(db, run) && ValidRun(db.runs[run]) && RunBoundFor(db.runs[run]) && db.runs[run].id == run
    ensures RunTaskGate(db.tasks, AdvanceRun(db.runs[run], id)).Pass?
  {
    hide Good, ValidRun, RunBoundFor, AdvanceRun, RunTaskGate, NeedsAccepted, Gates;
    GoodParts(db);
    var c := AdvanceRun(db.runs[run], id);
    MoveIsGated(db.runs[run], id);
    OwnGate(db, run);
    if c.StartRun? {
      StartGateOpens(db, c);
    } else if NeedsAccepted(c) {
      CompletionGateExactly(db.tasks, c);
    } else {
      OtherGates(db.tasks, c);
    }
  }

  lemma {:induction false} OwnGate(db: Db, run: Id)
    requires Gates(db) && run in db.runs
    ensures GateHolds(db.runs[run].state, db.tasks, run)
  {
  }

  lemma {:induction false} OtherGates(tasks: map<Id, Task>, c: RunCommand)
    requires !c.StartRun? && !NeedsAccepted(c)
    ensures RunTaskGate(tasks, c).Pass?
  {
  }

  /** The command is decided: it loads, passes its gate and is taken. */
  lemma {:induction false} MoveDecides(db: Db, run: Id, n: nat) returns (d: RunDecision)
    requires Movable(db, run) && ValidRun(db.runs[run]) && RunBoundFor(db.runs[run]) && db.runs[run].id == run
    ensures var r := db.runs[run]; var c := AdvanceRun(r, Parsed(n));
      && ValidRunCommand(c) && RunCommandDecision(db, c) == Ok(d) && Decision(r, c) == Ok(d)
      && MovesLeft(d.next.state) == MovesLeft(r.state) - 1
      && (d.next.state.Terminal() ==> d.next.state == MergedRun)
  {
    hide Good, ValidRun, RunBoundFor, AdvanceRun, RunTaskGate, Decision, ValidRunCommand, MovesLeft;
    var r := db.runs[run];
    MoveIsTaken(r, Parsed(n));
    MoveGateOpens(db, run, Parsed(n));
    MoveIsGated(r, Parsed(n));
    var c := AdvanceRun(r, Parsed(n));
    d := Decision(r, c).value;
    DecisionMoves(r, c);
  }

  /** The events a decided move writes: the run's next one and, for a plan, its one task's first. */
  lemma {:induction false} MoveEvents(r: Run, n: nat, d: RunDecision)
    requires ValidRun(r) && RunBoundFor(r) && !r.state.Terminal() && Decision(r, AdvanceRun(r, Parsed(n))) == Ok(d)
    ensures var c := AdvanceRun(r, Parsed(n)); var first := RunEvent(d.next, RunEventType(c), c.meta);
      && d.next.id == r.id && d.next.revision == r.revision + 1 && d.dependencies == []
      && if r.state == TaskPlanReview
         then && d.tasks == [NewTask(r.id, TaskDefinition(Parsed(n), 1), false, c.meta.timestamp)]
              && d.events == [first, NewTaskEvent(TaskDefinition(Parsed(n), 1), false, c.meta)]
         else d.tasks == [] && d.events == [first]
  {
    hide ValidRun, RunBoundFor, Decision, PlanAdmissible, RunLegal, AdvanceRun;
    var c := AdvanceRun(r, Parsed(n));
    MoveIsGated(r, Parsed(n));
    DecisionMoves(r, c);
    if r.state == TaskPlanReview {
      PlanFacts(r, c);
      OnePlan(r, n);
    }
  }

  lemma {:induction false} OnePlan(r: Run, n: nat)
    requires ValidRun(r) && RunBoundFor(r) && r.state == TaskPlanReview
    ensures var c := AdvanceRun(r, Parsed(n)); var definition := TaskDefinition(Parsed(n), 1);
      && c.ApproveTaskGraph? && c.tasks == [definition] && c.dependencies == []
      && PlannedTasks(r.id, c.tasks, c.dependencies, c.meta)
         == Plan([NewTask(r.id, definition, false, c.meta.timestamp)], [NewTaskEvent(definition, false, c.meta)])
  {
    hide ValidBinding, IsCommit;
  }

  lemma {:induction false} MoveEventsFit(db: Db, run: Id, n: nat, d: RunDecision)
    requires Movable(db, run) && ValidRun(db.runs[run]) && RunBoundFor(db.runs[run]) && db.runs[run].id == run
    requires Fresh(db, n) && Decision(db.runs[run], AdvanceRun(db.runs[run], Parsed(n))) == Ok(d)
    ensures AllFit(db.log, d.events) && TasksFit(db.tasks, d.tasks) && RowsFit(db.deps, d.next.id, d.dependencies)
  {
    hide Good, ValidRun, RunBoundFor, AdvanceRun, Decision, Fresh, Fits, AllFit, Events, LogAgrees, RunExplained, Sound;
    GoodParts(db);
    var r := db.runs[run];
    MoveEvents(r, n, d);
    MoveIsGated(r, Parsed(n));
    FreshIsUnused(db, n);
    assert RunExplained(db, run);
    RunRevisionCounts(db, run);
    UnknownIsSilent(db, TaskAggregate, Parsed(n));
    assert Height(d.events[0].id) == n + 1;
    FreshFits(db, n, d.events[0]);
    if r.state == TaskPlanReview {
      assert Height(d.events[1].id) == Height(Parsed(n)) == n + 1;
      FreshFits(db, n, d.events[1]);
    }
    AllFreshFit(db.log, d.events);
  }

  /** One move, delivered: the run is one move nearer to its merge. */
  lemma {:induction false} RunForward(db: Db, run: Id) returns (d: Delivery)
    requires Movable(db, run) && AllSalvageable(db.tasks, run)
    ensures var after := Deliver(db, d);
      && Good(after) && run in after.runs && MovesLeft(after.runs[run].state) == MovesLeft(db.runs[run].state) - 1
      && (after.runs[run].state.Terminal() ==> after.runs[run].state == MergedRun)
      && AllSalvageable(after.tasks, run)
  {
    hide Good, ValidRun, RunBoundFor, AdvanceRun, Fresh, RunTransaction, RunStep, RunWrites, Names, MovesLeft, Salvageable,
      RunCommandDecision, ValidRunCommand, AllSalvageable;
    var n := Heights(Names(db));
    assert Fresh(db, n) by {
      FreshByHeight(db, n);
    }
    RunStanding(db, run);
    var r := db.runs[run];
    var c := AdvanceRun(r, Parsed(n));
    var decided := MoveDecides(db, run, n);
    MoveCommits(db, run, n, decided);
    d := Delivery(RunRequest(c), NoFault, []);
    DeliverKeepsGood(db, d);
    MoveKeepsTasks(db, run, n, decided);
  }

  lemma {:induction false} MoveCommits(db: Db, run: Id, n: nat, d: RunDecision)
    requires Movable(db, run) && ValidRun(db.runs[run]) && RunBoundFor(db.runs[run]) && db.runs[run].id == run
    requires Fresh(db, n)
    requires var c := AdvanceRun(db.runs[run], Parsed(n));
      ValidRunCommand(c) && RunCommandDecision(db, c) == Ok(d) && Decision(db.runs[run], c) == Ok(d)
    ensures var c := AdvanceRun(db.runs[run], Parsed(n));
      RunStep(db, c, d, []) && RunTransaction(db, c, NoFault, []) == Ok(RunWrites(db, c, d, []))
  {
    hide Good, ValidRun, RunBoundFor, AdvanceRun, RunCommandDecision, Decision, Fresh, AllFit, TasksFit, RowsFit, Tables,
      RunWrites, ValidRunCommand, Unfinished;
    GoodParts(db);
    FreshIsUnused(db, n);
    MoveIsGated(db.runs[run], Parsed(n));
    MoveEventsFit(db, run, n, d);
    var c := AdvanceRun(db.runs[run], Parsed(n));
    assert d.events + SweepEvents(db.tasks, [], c.meta) == d.events;
  }

  lemma {:induction false} MoveKeepsTasks(db: Db, run: Id, n: nat, d: RunDecision)
    requires Movable(db, run) && ValidRun(db.runs[run]) && RunBoundFor(db.runs[run]) && db.runs[run].id == run
    requires AllSalvageable(db.tasks, run)
    requires var c := AdvanceRun(db.runs[run], Parsed(n));
      RunStep(db, c, d, []) && Decision(db.runs[run], c) == Ok(d)
    ensures var after := RunWrites(db, AdvanceRun(db.runs[run], Parsed(n)), d, []).db;
      run in after.runs && after.runs[run] == d.next && AllSalvageable(after.tasks, run)
  {
    hide Good, ValidRun, RunBoundFor, AdvanceRun, RunCommandDecision, Decision, AllFit, Tables, RunWrites, Planted,
      Unfinished;
    var c := AdvanceRun(db.runs[run], Parsed(n));
    MoveIsGated(db.runs[run], Parsed(n));
    RunStepTasks(db, c, d, []);
    MoveEvents(db.runs[run], n, d);
    var after := RunWrites(db, c, d, []).db;
    forall id | id in after.tasks && after.tasks[id].runId == run
      ensures Salvageable(after.tasks[id])
    {
      if id !in db.tasks {
        var i := PlantedFrom(d.tasks, id);
      }
    }
  }

  /** A live run all of whose tasks are salvageable is driven to its merge. */
  lemma {:induction false} DriveRun(db: Db, run: Id) returns (more: seq<Delivery>)
    requires Good(db) && run in db.runs && Mergeable(db, run)
    ensures Merged(RunAll(db, more), run)
    decreases MovesLeft(db.runs[run].state)
  {
    hide Good, RunAll, Deliver, Salvageable, AllSalvageable, MovesLeft, Preserved;
    more := [];
    if db.runs[run].state == MergedRun {
      RunAllNone(db);
    } else {
      var first, middle := [], db;
      RunAllNone(db);
      if db.runs[run].state == ExecutingRun {
        first := AcceptAll(db, run);
        middle := RunAll(db, first);
        PreservedAll(db, middle, run);
      }
      var d := RunForward(middle, run);
      var rest := DriveRun(Deliver(middle, d), run);
      RunAllCons(middle, d, rest);
      RunAllJoins(db, first, [d] + rest);
      more := first + ([d] + rest);
    }
  }

  /** In every reachable store, a run can still be merged by some further deliveries exactly
      when it is merged, or live with every one of its tasks accepted, in an attempt, or with
      attempts left. */
  lemma {:induction false} MergeableExactly(ds: seq<Delivery>, run: Id)
    requires run in RunAll(EMPTY, ds).runs
    ensures (exists more :: Merged(RunAll(EMPTY, ds + more), run)) <==> Mergeable(RunAll(EMPTY, ds), run)
  {
    hide RunAll, Sound, LogAgrees, Mergeable;
    var db := RunAll(EMPTY, ds);
    ReachableIsSound(ds);
    ReachableLogAgrees(ds);
    if Mergeable(db, run) {
      var more := DriveRun(db, run);
      RunAllJoins(EMPTY, ds, more);
    } else {
      forall more
        ensures !Merged(RunAll(EMPTY, ds + more), run)
      {
        RunAllJoins(EMPTY, ds, more);
        LostForEver(db, more, run);
        MergedIsMergeable(RunAll(db, more), run);
      }
    }
  }

  lemma {:induction false} MergedIsMergeable(db: Db, run: Id)
    requires run in db.runs
    ensures Merged(db, run) ==> Mergeable(db, run)
  {
  }
}
