/** The append-only event log against the snapshots: every aggregate's events are
    numbered from one without gaps, and replaying them rebuilds its snapshot. */
module EventLog {
  import opened Kernel
  import opened TaskGraph
  import opened Tasks
  import opened TaskHistory
  import opened Runs
  import opened Database
  import opened Steps
  import opened Gating

  predicate About(e: Event, kind: AggregateKind, id: Id) {
    e.kind == kind && e.aggregate == id
  }

  function DefinitionOf(definitions: seq<TaskDefinition>, id: Id): TaskDefinition {
    if definitions == [] then TaskDefinition(id, 0)
    else if definitions[0].id == id then definitions[0]
    else DefinitionOf(definitions[1..], id)
  }

  /** Why a task event happened, read off the command that wrote it. */
  function FactOf(commands: map<Id, CommandRecord>, e: Event): Fact {
    if e.commandId !in commands then Unexplained
    else
      match commands[e.commandId].request
      case TaskRequest(c) => if c.id == e.aggregate then Issued(c) else Unblocked(e.timestamp)
      case RunRequest(c) =>
        if c.ApproveTaskGraph? then
          Planned(c.id, DefinitionOf(c.tasks, e.aggregate), HasPrerequisite(c.dependencies, e.aggregate), e.timestamp)
        else if c.CancelRun? then RunSwept(e.timestamp)
        else Unexplained
  }

  function EntryOf(commands: map<Id, CommandRecord>, e: Event): Entry {
    Entry(e.eventType, FactOf(commands, e))
  }

  /** The events of one aggregate, in log order. */
  function Events(log: seq<Event>, kind: AggregateKind, id: Id): seq<Event> {
    if log == [] then []
    else
      var before := Events(log[..|log| - 1], kind, id);
      if About(log[|log| - 1], kind, id) then before + [log[|log| - 1]] else before
  }

  function Entries(commands: map<Id, CommandRecord>, events: seq<Event>): seq<Entry> {
    seq(|events|, i requires 0 <= i < |events| => EntryOf(commands, events[i]))
  }

  function TaskEntries(db: Db, id: Id): seq<Entry> {
    Entries(db.commands, Events(db.log, TaskAggregate, id))
  }

  // ----- Runs replay from their commands -----

  function RunCommandOf(commands: map<Id, CommandRecord>, e: Event): Option<RunCommand> {
    if e.commandId in commands && commands[e.commandId].request.RunRequest?
    then Some(commands[e.commandId].request.run)
    else None
  }

  ghost function RunBegin(c: Option<RunCommand>): Option<Run> {
    if c.Some? && c.value.CreateRun? && NewRun(c.value).Ok? then Some(NewRun(c.value).value.next) else None
  }

  ghost function RunNext(r: Run, c: Option<RunCommand>): Option<Run> {
    if c.Some? && Decision(r, c.value).Ok? then Some(Decision(r, c.value).value.next) else None
  }

  ghost function RunReplay(h: seq<Option<RunCommand>>): Option<Run> {
    if h == [] then None
    else if |h| == 1 then RunBegin(h[0])
    else
      var before := RunReplay(h[..|h| - 1]);
      if before.Some? then RunNext(before.value, h[|h| - 1]) else None
  }

  function RunCommands(commands: map<Id, CommandRecord>, events: seq<Event>): seq<Option<RunCommand>> {
    seq(|events|, i requires 0 <= i < |events| => RunCommandOf(commands, events[i]))
  }

  function RunEntries(db: Db, id: Id): seq<Option<RunCommand>> {
    RunCommands(db.commands, Events(db.log, RunAggregate, id))
  }

  // ----- The invariant -----

  /** The log explains the task. */
  ghost predicate TaskExplained(db: Db, id: Id)
    requires id in db.tasks
  {
    Replay(TaskEntries(db, id)) == Some(db.tasks[id])
  }

  ghost predicate RunExplained(db: Db, id: Id)
    requires id in db.runs
  {
    RunReplay(RunEntries(db, id)) == Some(db.runs[id])
  }

  /** An event is about a known aggregate and was written by a known command. */
  ghost predicate Rooted(db: Db, e: Event) {
    && e.commandId in db.commands
    && (e.kind == TaskAggregate ==> e.aggregate in db.tasks)
    && (e.kind == RunAggregate ==> e.aggregate in db.runs && Typed(db.commands, e))
  }

  /** A run event carries the type of the run command that wrote it. */
  ghost predicate Typed(commands: map<Id, CommandRecord>, e: Event) {
    var c := RunCommandOf(commands, e);
    c.Some? && e.eventType == RunEventType(c.value)
  }

  /** The event at a position carries the next revision of its aggregate. */
  ghost predicate Numbered(log: seq<Event>, i: nat)
    requires i < |log|
  {
    log[i].revision == |Events(log[..i], log[i].kind, log[i].aggregate)| + 1
  }

  ghost predicate LogAgrees(db: Db) {
    && (forall i {:trigger db.log[i]} :: 0 <= i < |db.log| ==> Rooted(db, db.log[i]))
    && (forall i {:trigger Numbered(db.log, i)} :: 0 <= i < |db.log| ==> Numbered(db.log, i))
    && (forall id {:trigger TaskExplained(db, id)} :: id in db.tasks ==> TaskExplained(db, id))
    && (forall id {:trigger RunExplained(db, id)} :: id in db.runs ==> RunExplained(db, id))
  }

  // ----- Appending -----

  lemma {:induction false} EventsAbout(log: seq<Event>, kind: AggregateKind, id: Id, i: nat)
    requires i < |Events(log, kind, id)|
    ensures Events(log, kind, id)[i] in log && About(Events(log, kind, id)[i], kind, id)
  {
    var n := |log| - 1;
    if i < |Events(log[..n], kind, id)| {
      EventsAbout(log[..n], kind, id, i);
    }
  }

  /** No new event is about the aggregate. */
  ghost predicate Silent(events: seq<Event>, kind: AggregateKind, id: Id) {
    forall i :: 0 <= i < |events| ==> !About(events[i], kind, id)
  }

  lemma {:induction false} AppendSilent(log: seq<Event>, events: seq<Event>, kind: AggregateKind, id: Id)
    requires Silent(events, kind, id)
    ensures Events(log + events, kind, id) == Events(log, kind, id)
  {
    if events == [] {
      assert log + events == log;
    } else {
      var n := |events| - 1;
      AppendSilent(log, events[..n], kind, id);
      assert (log + events)[..|log| + n] == log + events[..n];
    }
  }

  /** Exactly one new event is about the aggregate. */
  ghost predicate Speaks(events: seq<Event>, i: nat, kind: AggregateKind, id: Id) {
    i < |events| && forall j :: 0 <= j < |events| ==> (About(events[j], kind, id) <==> j == i)
  }

  lemma {:induction false} AppendOne(log: seq<Event>, events: seq<Event>, i: nat, kind: AggregateKind, id: Id)
    requires Speaks(events, i, kind, id)
    ensures Events(log + events, kind, id) == Events(log, kind, id) + [events[i]]
    ensures Events(log + events[..i], kind, id) == Events(log, kind, id)
  {
    AppendSilent(log, events[..i], kind, id);
    var upTo := log + events[..i] + [events[i]];
    assert upTo[..|upTo| - 1] == log + events[..i];
    assert Silent(events[i + 1..], kind, id);
    AppendSilent(upTo, events[i + 1..], kind, id);
    assert log + events == upTo + events[i + 1..];
  }

  /** Commands are never rewritten, so old events keep their meaning. */
  lemma {:induction false} EntriesStay(db: Db, commands: map<Id, CommandRecord>, kind: AggregateKind, id: Id)
    requires forall i :: 0 <= i < |db.log| ==> db.log[i].commandId in db.commands
    requires forall k :: k in db.commands ==> k in commands && commands[k] == db.commands[k]
    ensures Entries(commands, Events(db.log, kind, id)) == Entries(db.commands, Events(db.log, kind, id))
    ensures RunCommands(commands, Events(db.log, kind, id)) == RunCommands(db.commands, Events(db.log, kind, id))
  {
    hide About;
    var events := Events(db.log, kind, id);
    forall i | 0 <= i < |events|
      ensures EntryOf(commands, events[i]) == EntryOf(db.commands, events[i])
      ensures RunCommandOf(commands, events[i]) == RunCommandOf(db.commands, events[i])
    {
      EventsAbout(db.log, kind, id, i);
      var k :| 0 <= k < |db.log| && db.log[k] == events[i];
    }
  }

  lemma {:induction false} EntriesSnoc(commands: map<Id, CommandRecord>, events: seq<Event>, e: Event)
    ensures Entries(commands, events + [e]) == Entries(commands, events) + [EntryOf(commands, e)]
    ensures RunCommands(commands, events + [e]) == RunCommands(commands, events) + [RunCommandOf(commands, e)]
  {
  }

  lemma {:induction false} RunReplaySnoc(h: seq<Option<RunCommand>>, c: Option<RunCommand>)
    requires RunReplay(h).Some?
    ensures RunReplay(h + [c]) == RunNext(RunReplay(h).value, c)
  {
    hide RunNext, RunBegin;
    assert (h + [c])[..|h|] == h;
  }

  lemma {:induction false} UnknownIsSilent(db: Db, kind: AggregateKind, id: Id)
    requires LogAgrees(db)
    requires match kind { case TaskAggregate => id !in db.tasks case RunAggregate => id !in db.runs }
    ensures Events(db.log, kind, id) == []
  {
    forall i | 0 <= i < |db.log|
      ensures !About(db.log[i], kind, id)
    {
      assert Rooted(db, db.log[i]);
    }
    AppendSilent([], db.log, kind, id);
    assert [] + db.log == db.log;
  }

  /** A run's revision counts the commands it was built from. */
  lemma {:induction false} RunHistoryCounts(h: seq<Option<RunCommand>>)
    requires RunReplay(h).Some?
    ensures RunReplay(h).value.revision == |h| && ValidRun(RunReplay(h).value)
  {
    hide Decision, NewRun, ValidRun, RunLegal, RunEvent;
    if |h| == 1 {
      CreationStarts(h[0].value);
    } else {
      RunHistoryCounts(h[..|h| - 1]);
      DecisionMoves(RunReplay(h[..|h| - 1]).value, h[|h| - 1].value);
    }
  }

  lemma {:induction false} TaskRevisionCounts(db: Db, id: Id)
    requires id in db.tasks && TaskExplained(db, id)
    ensures db.tasks[id].revision == |Events(db.log, TaskAggregate, id)| && ValidTask(db.tasks[id])
  {
    hide Next, ValidTask, Measure, Replay;
    HistoryIsSound(TaskEntries(db, id));
  }

  lemma {:induction false} RunRevisionCounts(db: Db, id: Id)
    requires id in db.runs && RunExplained(db, id)
    ensures db.runs[id].revision == |Events(db.log, RunAggregate, id)| && ValidRun(db.runs[id])
  {
    hide RunReplay, ValidRun;
    RunHistoryCounts(RunEntries(db, id));
  }

  // ----- Extending the log -----

  /** The event at i is the task's next one and explains its new snapshot. */
  ghost predicate TaskSpeaks(db: Db, after: Db, e: Event, id: Id) {
    && About(e, TaskAggregate, id) && id in after.tasks
    && var entry := EntryOf(after.commands, e);
       if id in db.tasks
       then Next(db.tasks[id], entry) == Some(after.tasks[id]) && e.revision == db.tasks[id].revision + 1
       else Begin(entry) == Some(after.tasks[id]) && e.revision == 1
  }

  ghost predicate RunSpeaks(db: Db, after: Db, e: Event, id: Id) {
    && About(e, RunAggregate, id) && id in after.runs && Typed(after.commands, e)
    && var c := RunCommandOf(after.commands, e);
       if id in db.runs
       then RunNext(db.runs[id], c) == Some(after.runs[id]) && e.revision == db.runs[id].revision + 1
       else RunBegin(c) == Some(after.runs[id]) && e.revision == 1
  }

  ghost predicate Speaking(db: Db, after: Db, e: Event) {
    && e.commandId in after.commands
    && (e.kind == TaskAggregate ==> TaskSpeaks(db, after, e, e.aggregate))
    && (e.kind == RunAggregate ==> RunSpeaks(db, after, e, e.aggregate))
  }

  /** The new events, at most one an aggregate, explain every change to a snapshot. */
  ghost predicate Extends(db: Db, after: Db, events: seq<Event>) {
    && after.log == db.log + events
    && (forall k :: k in db.commands ==> k in after.commands && after.commands[k] == db.commands[k])
    && (forall i, j :: 0 <= i < j < |events| ==> !About(events[j], events[i].kind, events[i].aggregate))
    && (forall i {:trigger events[i]} :: 0 <= i < |events| ==> Speaking(db, after, events[i]))
    && db.tasks.Keys <= after.tasks.Keys && db.runs.Keys <= after.runs.Keys
    && (forall id :: id in after.tasks && Silent(events, TaskAggregate, id) ==>
          id in db.tasks && after.tasks[id] == db.tasks[id])
    && (forall id :: id in after.runs && Silent(events, RunAggregate, id) ==>
          id in db.runs && after.runs[id] == db.runs[id])
  }

  lemma {:induction false} SilentOrSpeaks(db: Db, after: Db, events: seq<Event>, kind: AggregateKind, id: Id)
      returns (i: nat)
    requires Extends(db, after, events)
    ensures Silent(events, kind, id) || Speaks(events, i, kind, id)
  {
    hide Speaking;
    i := 0;
    if !Silent(events, kind, id) {
      var k :| 0 <= k < |events| && About(events[k], kind, id);
      i := k;
      forall j | 0 <= j < |events| && j != k
        ensures !About(events[j], kind, id)
      {
      }
    }
  }

  lemma {:induction false} OldEntries(db: Db, after: Db, events: seq<Event>, kind: AggregateKind, id: Id)
    requires LogAgrees(db) && Extends(db, after, events)
    ensures Entries(after.commands, Events(db.log, kind, id)) == Entries(db.commands, Events(db.log, kind, id))
    ensures RunCommands(after.commands, Events(db.log, kind, id)) == RunCommands(db.commands, Events(db.log, kind, id))
  {
    hide Speaking, Silent;
    forall i | 0 <= i < |db.log|
      ensures db.log[i].commandId in db.commands
    {
      assert Rooted(db, db.log[i]);
    }
    EntriesStay(db, after.commands, kind, id);
  }

  lemma {:induction false} ExtensionExplainsTask(db: Db, after: Db, events: seq<Event>, id: Id)
    requires LogAgrees(db) && Extends(db, after, events) && id in after.tasks
    ensures TaskExplained(after, id)
  {
    hide Next, Begin, Replay, Entries, Events, EntryOf;
    var i := SilentOrSpeaks(db, after, events, TaskAggregate, id);
    OldEntries(db, after, events, TaskAggregate, id);
    if Silent(events, TaskAggregate, id) {
      AppendSilent(db.log, events, TaskAggregate, id);
      assert TaskExplained(db, id);
    } else {
      var e := events[i];
      assert Speaking(db, after, e) && About(e, TaskAggregate, id);
      AppendOne(db.log, events, i, TaskAggregate, id);
      EntriesSnoc(after.commands, Events(db.log, TaskAggregate, id), e);
      if id in db.tasks {
        assert TaskExplained(db, id);
        ReplaySnoc(TaskEntries(db, id), EntryOf(after.commands, e));
      } else {
        UnknownIsSilent(db, TaskAggregate, id);
        NothingEntered(after.commands);
        ReplayOne(EntryOf(after.commands, e));
        assert [] + [EntryOf(after.commands, e)] == [EntryOf(after.commands, e)];
      }
    }
  }

  lemma {:induction false} NothingEntered(commands: map<Id, CommandRecord>)
    ensures Entries(commands, []) == [] && RunCommands(commands, []) == []
  {
  }

  lemma {:induction false} ExtensionExplainsRun(db: Db, after: Db, events: seq<Event>, id: Id)
    requires LogAgrees(db) && Extends(db, after, events) && id in after.runs
    ensures RunExplained(after, id)
  {
    hide RunNext, RunBegin, RunReplay, RunCommands, Events, RunCommandOf;
    var i := SilentOrSpeaks(db, after, events, RunAggregate, id);
    OldEntries(db, after, events, RunAggregate, id);
    if Silent(events, RunAggregate, id) {
      AppendSilent(db.log, events, RunAggregate, id);
      assert RunExplained(db, id);
    } else {
      var e := events[i];
      assert Speaking(db, after, e) && About(e, RunAggregate, id);
      AppendOne(db.log, events, i, RunAggregate, id);
      EntriesSnoc(after.commands, Events(db.log, RunAggregate, id), e);
      if id in db.runs {
        assert RunExplained(db, id);
        RunReplaySnoc(RunEntries(db, id), RunCommandOf(after.commands, e));
      } else {
        UnknownIsSilent(db, RunAggregate, id);
        NothingEntered(after.commands);
        RunReplayOne(RunCommandOf(after.commands, e));
        assert [] + [RunCommandOf(after.commands, e)] == [RunCommandOf(after.commands, e)];
      }
    }
  }

  lemma {:induction false} RunReplayOne(c: Option<RunCommand>)
    ensures RunReplay([c]) == RunBegin(c)
  {
    hide RunBegin;
  }

  lemma {:induction false} ExtensionNumbers(db: Db, after: Db, events: seq<Event>, i: nat)
    requires LogAgrees(db) && Extends(db, after, events) && i < |after.log|
    ensures Numbered(after.log, i)
  {
    hide Next, Begin, Replay, Events, TaskExplained, RunExplained, RunNext, RunBegin, ValidTask, ValidRun, EntryOf;
    if i < |db.log| {
      assert after.log[..i] == db.log[..i];
      assert Numbered(db.log, i);
    } else {
      var k := i - |db.log|;
      var e := events[k];
      assert Speaking(db, after, e);
      var j := SilentOrSpeaks(db, after, events, e.kind, e.aggregate);
      assert About(events[k], e.kind, e.aggregate);
      assert j == k;
      AppendOne(db.log, events, k, e.kind, e.aggregate);
      assert after.log[..i] == db.log + events[..k];
      NextRevision(db, after, e);
    }
  }

  lemma {:induction false} NextRevision(db: Db, after: Db, e: Event)
    requires LogAgrees(db) && Speaking(db, after, e)
    ensures e.revision == |Events(db.log, e.kind, e.aggregate)| + 1
  {
    hide Next, Begin, Replay, Events, TaskExplained, RunExplained, RunNext, RunBegin, ValidTask, ValidRun, EntryOf;
    match e.kind
    case TaskAggregate =>
      if e.aggregate in db.tasks {
        TaskRevisionCounts(db, e.aggregate);
      } else {
        UnknownIsSilent(db, e.kind, e.aggregate);
      }
    case RunAggregate =>
      if e.aggregate in db.runs {
        RunRevisionCounts(db, e.aggregate);
      } else {
        UnknownIsSilent(db, e.kind, e.aggregate);
      }
  }

  lemma {:induction false} ExtensionAgrees(db: Db, after: Db, events: seq<Event>)
    requires LogAgrees(db) && Extends(db, after, events)
    ensures LogAgrees(after)
  {
    hide Numbered, TaskExplained, RunExplained, Next, Begin, RunNext, RunBegin;
    forall i | 0 <= i < |after.log|
      ensures Rooted(after, after.log[i]) && Numbered(after.log, i)
    {
      ExtensionNumbers(db, after, events, i);
      if i < |db.log| {
        assert Rooted(db, db.log[i]);
      } else {
        assert Speaking(db, after, events[i - |db.log|]);
      }
    }
    forall id | id in after.tasks
      ensures TaskExplained(after, id)
    {
      ExtensionExplainsTask(db, after, events, id);
    }
    forall id | id in after.runs
      ensures RunExplained(after, id)
    {
      ExtensionExplainsRun(db, after, events, id);
    }
  }

  // ----- Task steps extend the log -----

  lemma {:induction false} CommandSpeaks(db: Db, c: TaskCommand, applied: Applied, woken: seq<Id>)
    requires TaskStep(db, c, applied, woken)
    ensures Speaking(db, TaskWrites(db, c, applied, woken).db, applied.event)
    ensures applied.event.kind == TaskAggregate && applied.event.aggregate == c.id
  {
    hide Apply, WakeEvents, AllFit, WakeAll, Awakes, Tables;
    AppliedIdentity(db.tasks[c.id], c);
    TaskStepTasks(db, c, applied, woken);
  }

  lemma {:induction false} WakeSpeaks(db: Db, c: TaskCommand, applied: Applied, woken: seq<Id>, id: Id)
    requires TaskStep(db, c, applied, woken) && ValidTaskCommand(c) && id in woken
    ensures Speaking(db, TaskWrites(db, c, applied, woken).db, WakeEvent(db.tasks[c.id := applied.task], id, c.meta))
    ensures id != c.id && id in db.tasks
  {
    hide Apply, WakeEvents, AllFit, WakeAll, Awakes, Tables;
    TaskStepTasks(db, c, applied, woken);
  }

  lemma {:induction false} WokenAreSpoken(tasks: map<Id, Task>, first: Event, woken: seq<Id>, meta: Envelope, id: Id)
    ensures id in woken ==> !Silent([first] + WakeEvents(tasks, woken, meta), TaskAggregate, id)
  {
    if id in woken {
      var k :| 0 <= k < |woken| && woken[k] == id;
      assert About(([first] + WakeEvents(tasks, woken, meta))[k + 1], TaskAggregate, id);
    }
  }

  lemma {:induction false} TaskStepDistinct(db: Db, c: TaskCommand, applied: Applied, woken: seq<Id>, i: nat, j: nat)
    requires TaskStep(db, c, applied, woken) && i < j <= |woken|
    ensures var events := [applied.event] + WakeEvents(db.tasks[c.id := applied.task], woken, c.meta);
      |events| == |woken| + 1 && !About(events[j], events[i].kind, events[i].aggregate)
  {
    hide Apply, AllFit, WakeAll, Awakes, Tables, TaskWrites, Unaccepted, PendingDependents;
    TaskStepTasks(db, c, applied, woken);
    AppliedIdentity(db.tasks[c.id], c);
    assert woken[j - 1] in woken;
  }

  lemma {:induction false} TaskStepExtends(db: Db, c: TaskCommand, applied: Applied, woken: seq<Id>)
    requires TaskStep(db, c, applied, woken) && ValidTaskCommand(c)
    ensures var after := TaskWrites(db, c, applied, woken).db;
      Extends(db, after, [applied.event] + WakeEvents(db.tasks[c.id := applied.task], woken, c.meta))
  {
    hide Apply, AllFit, WakeAll, Awakes, Tables, Speaking, ValidTaskCommand, TaskRunGate, Distinct;
    var after := TaskWrites(db, c, applied, woken).db;
    var tasks := db.tasks[c.id := applied.task];
    var events := [applied.event] + WakeEvents(tasks, woken, c.meta);
    TaskStepTasks(db, c, applied, woken);
    CommandSpeaks(db, c, applied, woken);
    forall i | 0 <= i < |events|
      ensures Speaking(db, after, events[i])
    {
      if i > 0 {
        WakeSpeaks(db, c, applied, woken, woken[i - 1]);
      }
    }
    forall i, j | 0 <= i < j < |events|
      ensures !About(events[j], events[i].kind, events[i].aggregate)
    {
      TaskStepDistinct(db, c, applied, woken, i, j);
    }
    forall id | id in after.tasks && Silent(events, TaskAggregate, id)
      ensures id in db.tasks && after.tasks[id] == db.tasks[id]
    {
      assert !About(events[0], TaskAggregate, id);
      WokenAreSpoken(tasks, applied.event, woken, c.meta, id);
    }
  }

  // ----- Run steps extend the log -----

  lemma {:induction false} RunEventSpeaks(db: Db, c: RunCommand, d: RunDecision, swept: seq<Id>)
    requires RunStep(db, c, d, swept)
    ensures |d.events| >= 1 && d.events[0].kind == RunAggregate && d.events[0].aggregate == c.id
    ensures Speaking(db, RunWrites(db, c, d, swept).db, d.events[0])
  {
    hide RunCommandDecision, SweepEvents, SweepAll, AllFit, Planted, Tables, Unfinished, TasksFit, NewRun, Decision, RunLegal;
    DecisionCases(db, c);
    if c.CreateRun? {
      CreationStarts(c);
    }
  }

  lemma {:induction false} SweepSpeaks(db: Db, c: RunCommand, d: RunDecision, swept: seq<Id>, id: Id)
    requires RunStep(db, c, d, swept) && ValidRunCommand(c) && id in swept
    ensures Speaking(db, RunWrites(db, c, d, swept).db, SweepEvent(db.tasks, id, c.meta))
  {
    hide RunCommandDecision, SweepEvents, SweepAll, AllFit, Planted, Tables, TasksFit, Apply, ValidRunCommand,
      RunStep, HasPrerequisite, DefinitionOf, NewRows, RunSpeaks;
    TimeStamped(c);
    SweptRow(db, c, d, swept, id);
  }

  lemma {:induction false} SweptRow(db: Db, c: RunCommand, d: RunDecision, swept: seq<Id>, id: Id)
    requires RunStep(db, c, d, swept) && id in swept
    ensures c.CancelRun? && id in db.tasks && !db.tasks[id].state.Terminal()
    ensures var after := RunWrites(db, c, d, swept).db;
      id in after.tasks && after.tasks[id] == Swept(db.tasks[id], c.meta.timestamp)
  {
    hide RunCommandDecision, SweepEvents, SweepAll, AllFit, Planted, Tables, TasksFit, RunWrites;
    RunStepTasks(db, c, d, swept);
  }

  lemma {:induction false} TimeStamped(c: RunCommand)
    requires ValidRunCommand(c)
    ensures c.meta.timestamp != 0
  {
  }

  lemma {:induction false} DefinitionFound(definitions: seq<TaskDefinition>, i: nat)
    requires i < |definitions|
    requires forall i, j :: 0 <= i < j < |definitions| ==> definitions[i].id != definitions[j].id
    ensures DefinitionOf(definitions, definitions[i].id) == definitions[i]
  {
    if i > 0 {
      assert definitions[0].id != definitions[i].id;
      DefinitionFound(definitions[1..], i - 1);
    }
  }

  /** A planned task's event explains its first snapshot. */
  lemma {:induction false} PlanSpeaks(db: Db, c: RunCommand, d: RunDecision, swept: seq<Id>, i: nat)
    requires RunStep(db, c, d, swept) && ValidRunCommand(c) && c.ApproveTaskGraph? && i < |c.tasks|
    ensures |d.events| == |c.tasks| + 1 && d.events[i + 1].aggregate == c.tasks[i].id == d.tasks[i].id
    ensures |d.tasks| == |c.tasks| && Speaking(db, RunWrites(db, c, d, swept).db, d.events[i + 1])
  {
    hide RunCommandDecision, SweepEvents, SweepAll, AllFit, Planted, Tables, Unfinished, HasPrerequisite, Decision,
      ValidDependencies, Acyclic, Moved;
    DecisionCases(db, c);
    PlanFacts(db.runs[c.id], c);
    RunStepTasks(db, c, d, swept);
    PlantedRow(d.tasks, i);
    DefinitionFound(c.tasks, i);
  }

  /** The new events of a run step, by position. */
  lemma {:induction false} RunStepSpeaks(db: Db, c: RunCommand, d: RunDecision, swept: seq<Id>, i: nat)
    requires RunStep(db, c, d, swept) && ValidRunCommand(c)
    requires i < |d.events| + |swept|
    ensures var events := d.events + SweepEvents(db.tasks, swept, c.meta);
      && |events| == |d.events| + |swept| && |d.events| == 1 + |d.tasks|
      && Speaking(db, RunWrites(db, c, d, swept).db, events[i])
      && (events[i].kind == RunAggregate <==> i == 0)
      && (0 < i < |d.events| ==> About(events[i], TaskAggregate, d.tasks[i - 1].id) && d.tasks[i - 1].id !in db.tasks)
      && (i >= |d.events| ==> About(events[i], TaskAggregate, swept[i - |d.events|])
                              && swept[i - |d.events|] in db.tasks)
      && (i == 0 ==> events[i].aggregate == c.id)
  {
    hide RunCommandDecision, SweepAll, AllFit, Planted, Tables, Speaking, Decision, ValidRunCommand, RunWrites, NewRun;
    RunEventSpeaks(db, c, d, swept);
    EventCount(db, c, d, swept);
    if i == 0 {
    } else if i < |d.events| {
      PlanSpeaks(db, c, d, swept, i - 1);
      PlanEventKinds(db, c, d, swept, i - 1);
    } else {
      SweepSpeaks(db, c, d, swept, swept[i - |d.events|]);
    }
  }

  lemma {:induction false} EventCount(db: Db, c: RunCommand, d: RunDecision, swept: seq<Id>)
    requires RunStep(db, c, d, swept)
    ensures |d.events| == 1 + |d.tasks|
    ensures !c.ApproveTaskGraph? ==> |d.events| == 1
    ensures c.ApproveTaskGraph? ==> |d.tasks| == |c.tasks|
  {
    hide RunCommandDecision, AllFit, Tables, Decision, PlanAdmissible, NewRun, Unfinished, TasksFit;
    DecisionCases(db, c);
    if c.CreateRun? {
      CreationStarts(c);
    } else if c.ApproveTaskGraph? {
      PlanFacts(db.runs[c.id], c);
    }
  }

  lemma {:induction false} PlanEventKinds(db: Db, c: RunCommand, d: RunDecision, swept: seq<Id>, i: nat)
    requires RunStep(db, c, d, swept) && c.ApproveTaskGraph? && i + 1 < |d.events|
    ensures d.events[i + 1].kind == TaskAggregate
  {
    hide RunCommandDecision, AllFit, Tables, Decision, PlanAdmissible, Unfinished, TasksFit, Moved;
    DecisionCases(db, c);
    PlanFacts(db.runs[c.id], c);
  }

  lemma {:induction false} RunStepExtends(db: Db, c: RunCommand, d: RunDecision, swept: seq<Id>)
    requires RunStep(db, c, d, swept) && ValidRunCommand(c)
    ensures Extends(db, RunWrites(db, c, d, swept).db, d.events + SweepEvents(db.tasks, swept, c.meta))
  {
    hide RunCommandDecision, SweepAll, AllFit, Planted, Tables, Speaking, ValidRunCommand, SweepEvents, SweepEvent, Unfinished;
    var after := RunWrites(db, c, d, swept).db;
    var events := d.events + SweepEvents(db.tasks, swept, c.meta);
    RunEventSpeaks(db, c, d, swept);
    RunStepSpeaks(db, c, d, swept, 0);
    RunStepTasks(db, c, d, swept);
    forall i | 0 <= i < |events|
      ensures Speaking(db, after, events[i])
    {
      RunStepSpeaks(db, c, d, swept, i);
    }
    forall i, j | 0 <= i < j < |events|
      ensures !About(events[j], events[i].kind, events[i].aggregate)
    {
      RunStepSpeaks(db, c, d, swept, i);
      RunStepSpeaks(db, c, d, swept, j);
    }
    forall id | id in after.tasks && Silent(events, TaskAggregate, id)
      ensures id in db.tasks && after.tasks[id] == db.tasks[id]
    {
      SilentTaskStays(db, c, d, swept, id);
    }
    forall id | id in after.runs && Silent(events, RunAggregate, id)
      ensures id in db.runs && after.runs[id] == db.runs[id]
    {
      assert !About(events[0], RunAggregate, id);
    }
  }

  lemma {:induction false} SilentTaskStays(db: Db, c: RunCommand, d: RunDecision, swept: seq<Id>, id: Id)
    requires RunStep(db, c, d, swept) && ValidRunCommand(c)
    requires var after := RunWrites(db, c, d, swept).db;
      id in after.tasks && Silent(d.events + SweepEvents(db.tasks, swept, c.meta), TaskAggregate, id)
    ensures id in db.tasks && RunWrites(db, c, d, swept).db.tasks[id] == db.tasks[id]
  {
    hide RunCommandDecision, SweepAll, AllFit, Planted, Tables, Speaking, ValidRunCommand, SweepEvents, SweepEvent, Unfinished;
    var events := d.events + SweepEvents(db.tasks, swept, c.meta);
    RunStepTasks(db, c, d, swept);
    PlantedAreSpoken(db, c, d, swept, id);
    SweptAreSpoken(db, c, d, swept, id);
  }

  lemma {:induction false} PlantedAreSpoken(db: Db, c: RunCommand, d: RunDecision, swept: seq<Id>, id: Id)
    requires RunStep(db, c, d, swept) && ValidRunCommand(c)
    ensures id in Planted(d.tasks) ==> !Silent(d.events + SweepEvents(db.tasks, swept, c.meta), TaskAggregate, id)
  {
    hide RunCommandDecision, AllFit, Planted, Tables, Speaking, ValidRunCommand, SweepEvents, Unfinished;
    if id in Planted(d.tasks) {
      var k := PlantedFrom(d.tasks, id);
      EventCount(db, c, d, swept);
      RunStepSpeaks(db, c, d, swept, k + 1);
      assert About((d.events + SweepEvents(db.tasks, swept, c.meta))[k + 1], TaskAggregate, id);
    }
  }

  lemma {:induction false} SweptAreSpoken(db: Db, c: RunCommand, d: RunDecision, swept: seq<Id>, id: Id)
    requires RunStep(db, c, d, swept) && ValidRunCommand(c)
    ensures id in swept ==> !Silent(d.events + SweepEvents(db.tasks, swept, c.meta), TaskAggregate, id)
  {
    hide RunCommandDecision, AllFit, Planted, Tables, Speaking, ValidRunCommand, SweepEvents, Unfinished;
    if id in swept {
      var k :| 0 <= k < |swept| && swept[k] == id;
      RunStepSpeaks(db, c, d, swept, |d.events| + k);
      assert About((d.events + SweepEvents(db.tasks, swept, c.meta))[|d.events| + k], TaskAggregate, id);
    }
  }

  // ----- Every run -----

  /** Whatever a delivery does to the store, it extends the log by events that explain it. */
  lemma {:induction false} DeliveryExtends(db: Db, delivery: Delivery) returns (events: seq<Event>)
    requires Sound(db)
    ensures Extends(db, Deliver(db, delivery), events)
  {
    hide TaskTransaction, RunTransaction, Sound, TaskStep, RunStep, TaskWrites, RunWrites, TaskDecision,
      RunCommandDecision, Extends, ValidTaskCommand, ValidRunCommand, WakeEvents, SweepEvents;
    SoundParts(db);
    NothingExtends(db);
    events := [];
    if Transaction(db, delivery).Ok? {
      match delivery.request
      case TaskRequest(c) =>
        if c.meta.commandId in db.commands {
          TaskReplayStays(db, c, delivery.fault, delivery.order);
        } else {
          TaskTransactionSteps(db, c, delivery.fault, delivery.order);
          var applied := TaskDecision(db, c).value;
          var woken := WokenBy(db, applied.task, delivery.order);
          TaskStepExtends(db, c, applied, woken);
          events := [applied.event] + WakeEvents(db.tasks[c.id := applied.task], woken, c.meta);
        }
      case RunRequest(c) =>
        if c.meta.commandId in db.commands {
          RunReplayStays(db, c, delivery.fault, delivery.order);
        } else {
          RunTransactionSteps(db, c, delivery.fault, delivery.order);
          var d := RunCommandDecision(db, c).value;
          var swept := SweptBy(db, c, delivery.order);
          RunStepExtends(db, c, d, swept);
          events := d.events + SweepEvents(db.tasks, swept, c.meta);
        }
    }
  }

  lemma {:induction false} NothingExtends(db: Db)
    ensures Extends(db, db, [])
  {
  }

  lemma {:induction false} DeliverKeepsLog(db: Db, delivery: Delivery)
    requires Sound(db) && LogAgrees(db)
    ensures LogAgrees(Deliver(db, delivery))
  {
    hide Deliver, Sound, LogAgrees, Extends;
    var events := DeliveryExtends(db, delivery);
    ExtensionAgrees(db, Deliver(db, delivery), events);
  }

  lemma {:induction false} ReachableLogAgrees(ds: seq<Delivery>)
    ensures LogAgrees(RunAll(EMPTY, ds))
  {
    hide LogAgrees, Deliver, Sound;
    if ds == [] {
      EmptyAgrees();
    } else {
      ReachableLogAgrees(ds[..|ds| - 1]);
      ReachableIsSound(ds[..|ds| - 1]);
      DeliverKeepsLog(RunAll(EMPTY, ds[..|ds| - 1]), ds[|ds| - 1]);
    }
  }

  lemma {:induction false} EmptyAgrees()
    ensures LogAgrees(EMPTY)
  {
  }

  lemma {:induction false} AggregateNumbering(log: seq<Event>, kind: AggregateKind, id: Id, k: nat)
    requires forall i {:trigger Numbered(log, i)} :: 0 <= i < |log| ==> Numbered(log, i)
    requires k < |Events(log, kind, id)|
    ensures Events(log, kind, id)[k].revision == k + 1
  {
    var n := |log| - 1;
    var before := Events(log[..n], kind, id);
    if k < |before| {
      forall i | 0 <= i < n
        ensures Numbered(log[..n], i)
      {
        assert Numbered(log, i);
        assert log[..n][..i] == log[..i];
      }
      AggregateNumbering(log[..n], kind, id, k);
    } else {
      assert Numbered(log, n);
    }
  }

  /** Every aggregate's events are numbered 1, 2, ... up to its snapshot's revision, and
      every snapshot reloads. */
  lemma {:induction false} LogNumbersAggregates(ds: seq<Delivery>, id: Id)
    ensures var db := RunAll(EMPTY, ds); var events := Events(db.log, TaskAggregate, id);
      && (id in db.tasks ==> |events| == db.tasks[id].revision && ValidTask(db.tasks[id]))
      && (id !in db.tasks ==> events == [])
      && (forall k :: 0 <= k < |events| ==> events[k].revision == k + 1)
    ensures var db := RunAll(EMPTY, ds); var events := Events(db.log, RunAggregate, id);
      && (id in db.runs ==> |events| == db.runs[id].revision && ValidRun(db.runs[id]))
      && (id !in db.runs ==> events == [])
      && (forall k :: 0 <= k < |events| ==> events[k].revision == k + 1)
  {
    hide RunAll, Events, TaskExplained, RunExplained, Numbered, ValidTask, ValidRun;
    ReachableLogAgrees(ds);
    var db := RunAll(EMPTY, ds);
    if id in db.tasks {
      TaskRevisionCounts(db, id);
    } else {
      UnknownIsSilent(db, TaskAggregate, id);
    }
    if id in db.runs {
      RunRevisionCounts(db, id);
    } else {
      UnknownIsSilent(db, RunAggregate, id);
    }
    forall kind: AggregateKind, k: nat | k < |Events(db.log, kind, id)|
      ensures Events(db.log, kind, id)[k].revision == k + 1
    {
      AggregateNumbering(db.log, kind, id, k);
    }
  }

  function CountLeased(events: seq<Event>): nat {
    if events == [] then 0
    else CountLeased(events[..|events| - 1]) + (if events[|events| - 1].eventType == TaskLeased then 1 else 0)
  }

  lemma {:induction false} LeasesCounted(commands: map<Id, CommandRecord>, events: seq<Event>)
    ensures Leases(Entries(commands, events)) == CountLeased(events)
  {
    hide FactOf;
    if events != [] {
      var n := |events| - 1;
      LeasesCounted(commands, events[..n]);
      EntriesSnoc(commands, events[..n], events[n]);
      assert events == events[..n] + [events[n]];
      assert Entries(commands, events)[..n] == Entries(commands, events[..n]);
      assert EntryOf(commands, events[n]).eventType == events[n].eventType;
    }
  }

  /** Folding a task's event types, wherever they were written, gives its state and its
      attempt counter, and bounds its history. */
  lemma {:induction false} LogFoldsToTask(ds: seq<Delivery>, id: Id)
    requires id in RunAll(EMPTY, ds).tasks
    ensures var db := RunAll(EMPTY, ds); var t := db.tasks[id]; var events := Events(db.log, TaskAggregate, id);
      && |events| > 0
      && t.state == StateAfter(events[|events| - 1].eventType)
      && t.currentAttempt == CountLeased(events)
      && t.revision <= 8 * t.maxAttempts + 2
      && (t.lease.Some? ==> t.lease.value.token == t.currentAttempt)
  {
    hide RunAll, Events, Replay, RunExplained, Numbered, StateAfter, Leases, CountLeased, FactOf;
    ReachableLogAgrees(ds);
    var db := RunAll(EMPTY, ds);
    assert TaskExplained(db, id);
    var h := TaskEntries(db, id);
    ReplayNonempty(h);
    TypesDetermineProgress(h);
    LeasesCounted(db.commands, Events(db.log, TaskAggregate, id));
    BoundedHistory(h);
    LeaseTokens(h);
  }

  lemma {:induction false} ReplayNonempty(h: seq<Entry>)
    requires Replay(h).Some?
    ensures |h| > 0
  {
  }

  predicate IsAttempt(events: seq<Event>) {
    |events| == 7 && forall k :: 0 <= k < 7 ==> events[k].eventType == ATTEMPT[k]
  }

  lemma {:induction false} EntriesSuffix(commands: map<Id, CommandRecord>, events: seq<Event>, k: nat)
    requires k <= |events|
    ensures Entries(commands, events)[k..] == Entries(commands, events[k..])
  {
  }

  lemma {:induction false} AttemptTypes(commands: map<Id, CommandRecord>, events: seq<Event>)
    requires |events| == 7 && forall k :: 0 <= k < 7 ==> Entries(commands, events)[k].eventType == ATTEMPT[k]
    ensures IsAttempt(events)
  {
    forall k | 0 <= k < 7
      ensures events[k].eventType == ATTEMPT[k]
    {
      assert Entries(commands, events)[k].eventType == events[k].eventType;
    }
  }

  /** An accepted task in the store: its last seven events are one evidenced attempt,
      each issued by a stored command. */
  lemma {:induction false} AcceptedInStore(ds: seq<Delivery>, id: Id)
    requires var db := RunAll(EMPTY, ds); id in db.tasks && db.tasks[id].state == Accepted
    ensures var db := RunAll(EMPTY, ds); var events := Events(db.log, TaskAggregate, id);
      && |events| >= 8
      && IsAttempt(events[|events| - 7..])
      && Evidenced(db.tasks[id], Entries(db.commands, events[|events| - 7..]))
  {
    hide RunAll, Events, Replay, RunExplained, Numbered, Step, FactOf, IsAttempt, Evidenced;
    ReachableLogAgrees(ds);
    var db := RunAll(EMPTY, ds);
    assert TaskExplained(db, id);
    var h := TaskEntries(db, id);
    AcceptedIsEvidenced(h);
    var events := Events(db.log, TaskAggregate, id);
    EntriesSuffix(db.commands, events, |events| - 7);
    AttemptTypes(db.commands, events[|events| - 7..]);
  }
}
