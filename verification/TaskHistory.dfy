/** Histories of one task. An entry pairs an event type with the fact that produced
    it; replaying the entries rebuilds the snapshot, so every property here holds of
    every snapshot any history can produce. */
module TaskHistory {
  import opened Kernel
  import opened Tasks

  datatype Fact =
    | Planned(run: Id, definition: TaskDefinition, blocked: bool, at: Time)
    | Issued(command: TaskCommand)
    | Unblocked(at: Time)
    | RunSwept(at: Time)
    | Unexplained

  datatype Entry = Entry(eventType: EventType, fact: Fact)

  /** The snapshot a first entry creates, or None when it is not a valid planning. */
  function Begin(e: Entry): Option<Task> {
    match e.fact
    case Planned(run, definition, blocked, at) =>
      if && ValidId(run) && ValidId(definition.id) && definition.maxAttempts != 0 && at != 0
         && e.eventType == (if blocked then TaskCreated else TaskReady)
      then Some(NewTask(run, definition, blocked, at))
      else None
    case _ => None
  }

  /** The snapshot after one more entry, or None when the entry does not fit. */
  function Next(t: Task, e: Entry): Option<Task> {
    match e.fact
    case Issued(command) =>
      var applied := Apply(t, command);
      if applied.Ok? && applied.value.event.eventType == e.eventType then Some(applied.value.task) else None
    case Unblocked(at) =>
      if t.state == Pending && at != 0 && e.eventType == TaskReady then Some(Woken(t, at)) else None
    case RunSwept(at) =>
      if !t.state.Terminal() && at != 0 && e.eventType == TaskCancelled then Some(Swept(t, at)) else None
    case _ => None
  }

  function Replay(h: seq<Entry>): Option<Task> {
    if h == [] then None
    else if |h| == 1 then Begin(h[0])
    else
      var before := Replay(h[..|h| - 1]);
      if before.Some? then Next(before.value, h[|h| - 1]) else None
  }

  lemma {:induction false} ReplayOne(e: Entry)
    ensures Replay([e]) == Begin(e)
  {
  }

  lemma {:induction false} ReplaySnoc(h: seq<Entry>, e: Entry)
    requires Replay(h).Some?
    ensures Replay(h + [e]) == Next(Replay(h).value, e)
  {
    assert (h + [e])[..|h|] == h;
  }

  // ----- One transition -----

  /** Applying a command stamps the decided snapshot. */
  lemma {:induction false} ApplyStamps(t: Task, c: TaskCommand)
    requires Apply(t, c).Ok?
    ensures Decide(t, c).Ok? && c.meta.timestamp != 0 && c.id == t.id && c.run == t.runId
    ensures !t.state.Terminal()
    ensures Apply(t, c).value.task
         == Decide(t, c).value.next.(revision := t.revision + 1, updatedAt := c.meta.timestamp)
    ensures Apply(t, c).value.event
         == NewEvent(c.meta.commandId, TaskAggregate, t.id, t.revision + 1, Decide(t, c).value.eventType, c.meta)
  {
    hide Decide, ValidTask;
  }

  /** Every transition is legal from its state, caused by an actor entitled to it, and
      leaves the state and attempt counter its event type names. */
  lemma {:induction false} TransitionIsLegal(t: Task, e: Entry)
    requires Next(t, e).Some?
    ensures Legal(t.state, e.eventType)
    ensures e.fact.Issued? ==> MayCause(e.fact.command.meta.actor.kind, e.eventType)
    ensures Next(t, e).value.state == StateAfter(e.eventType)
    ensures Next(t, e).value.currentAttempt == t.currentAttempt + (if e.eventType == TaskLeased then 1 else 0)
    ensures e.eventType == TaskLeased || e.eventType == TaskRetryReady ==> t.currentAttempt < t.maxAttempts
  {
    hide Apply, Decide;
    if e.fact.Issued? {
      ApplyStamps(t, e.fact.command);
    }
  }

  /** Transitions keep identity and raise the revision by one. */
  lemma {:induction false} TransitionKeepsIdentity(t: Task, e: Entry)
    requires Next(t, e).Some?
    ensures var n := Next(t, e).value;
      && n.id == t.id && n.runId == t.runId && n.maxAttempts == t.maxAttempts && n.createdAt == t.createdAt
      && n.revision == t.revision + 1
  {
    hide Apply, Decide;
    if e.fact.Issued? {
      ApplyStamps(t, e.fact.command);
    }
  }

  /** A valid snapshot stays valid, so reloading it never fails. */
  lemma {:induction false} TransitionKeepsValid(t: Task, e: Entry)
    requires Next(t, e).Some? && ValidTask(t)
    ensures ValidTask(Next(t, e).value)
  {
    hide Apply, Decide, ValidLease, ValidBinding, IsCommit;
    if e.fact.Issued? {
      ApplyStamps(t, e.fact.command);
    }
  }

  /** Attempts left, then steps left inside the attempt. */
  function Measure(t: Task): nat
    requires t.currentAttempt <= t.maxAttempts
  {
    var later := 8 * t.maxAttempts - 8 * t.currentAttempt;
    match t.state
    case Pending => if later == 0 then 2 else later + 1
    case Ready => if later == 0 then 1 else later
    case Leased => later + 7
    case Reasoning => later + 6
    case Executing => later + 5
    case Verifying => later + 4
    case Reviewing => later + 3
    case AwaitingApproval => later + 2
    case ProposalRejected => later + 1
    case ReworkRequired => later + 1
    case _ => 0
  }

  lemma {:induction false} MeasureFalls(t: Task, e: Entry)
    requires Next(t, e).Some? && t.currentAttempt <= t.maxAttempts
    ensures var n := Next(t, e).value;
      n.currentAttempt <= n.maxAttempts == t.maxAttempts && Measure(n) < Measure(t)
  {
    hide Apply, Decide;
    TransitionIsLegal(t, e);
    TransitionKeepsIdentity(t, e);
  }

  // ----- Whole histories -----

  /** A history explains each snapshot it passes through, and the snapshot's revision
      counts its events. */
  lemma {:induction false} HistoryIsSound(h: seq<Entry>)
    requires Replay(h).Some?
    ensures var t := Replay(h).value;
      && ValidTask(t)
      && t.revision == |h|
      && t.revision + Measure(t) <= 8 * t.maxAttempts + 2
  {
    hide Next, ValidTask;
    if |h| == 1 {
      PlanningIsSound(h[0]);
    } else {
      var before := Replay(h[..|h| - 1]).value;
      HistoryIsSound(h[..|h| - 1]);
      TransitionKeepsValid(before, h[|h| - 1]);
      TransitionKeepsIdentity(before, h[|h| - 1]);
      AttemptsInRange(before);
      MeasureFalls(before, h[|h| - 1]);
      AttemptsInRange(Replay(h).value);
    }
  }

  lemma {:induction false} AttemptsInRange(t: Task)
    requires ValidTask(t)
    ensures t.currentAttempt <= t.maxAttempts
  {
  }

  lemma {:induction false} PlanningIsSound(e: Entry)
    requires Begin(e).Some?
    ensures var t := Begin(e).value;
      ValidTask(t) && t.revision == 1 && t.currentAttempt == 0 && t.lease == None && 1 + Measure(t) <= 8 * t.maxAttempts + 2
      && t.state == StateAfter(e.eventType) && e.eventType != TaskLeased
  {
  }

  /** No task ever outgrows eight events an attempt plus two. */
  lemma {:induction false} BoundedHistory(h: seq<Entry>)
    requires Replay(h).Some?
    ensures Replay(h).value.revision == |h| <= 8 * Replay(h).value.maxAttempts + 2
  {
    hide Next;
    HistoryIsSound(h);
  }

  function Leases(h: seq<Entry>): nat {
    if h == [] then 0
    else Leases(h[..|h| - 1]) + (if h[|h| - 1].eventType == TaskLeased then 1 else 0)
  }

  /** The event types alone give the state and the attempt counter. */
  lemma {:induction false} TypesDetermineProgress(h: seq<Entry>)
    requires Replay(h).Some?
    ensures Replay(h).value.state == StateAfter(h[|h| - 1].eventType)
    ensures Replay(h).value.currentAttempt == Leases(h)
  {
    hide Next, ValidTask;
    if |h| == 1 {
      PlanningIsSound(h[0]);
    } else {
      TypesDetermineProgress(h[..|h| - 1]);
      TransitionIsLegal(Replay(h[..|h| - 1]).value, h[|h| - 1]);
    }
  }

  lemma {:induction false} LeaseEffect(t: Task, e: Entry)
    requires Next(t, e).Some?
    ensures e.eventType == TaskLeased ==>
      && e.fact.Issued? && e.fact.command.LeaseTask?
      && e.fact.command.lease.token == t.currentAttempt + 1
      && Next(t, e).value.lease == Some(e.fact.command.lease)
    ensures e.eventType != TaskLeased ==> Next(t, e).value.lease == t.lease || Next(t, e).value.lease == None
  {
    hide Apply, Decide;
    if e.fact.Issued? {
      ApplyStamps(t, e.fact.command);
    }
  }

  /** The k-th lease carries fencing token k, and a bound lease is the latest one. */
  lemma {:induction false} LeaseTokens(h: seq<Entry>)
    requires Replay(h).Some?
    ensures forall i :: 0 <= i < |h| && h[i].eventType == TaskLeased ==>
      && h[i].fact.Issued? && h[i].fact.command.LeaseTask?
      && h[i].fact.command.lease.token == Leases(h[..i]) + 1
    ensures var t := Replay(h).value; t.lease.Some? ==> t.lease.value.token == t.currentAttempt == Leases(h)
  {
    hide Next, ValidTask;
    if |h| == 1 {
      PlanningIsSound(h[0]);
    } else {
      var n := |h| - 1;
      LeaseTokens(h[..n]);
      TypesDetermineProgress(h[..n]);
      TypesDetermineProgress(h);
      LeaseEffect(Replay(h[..n]).value, h[n]);
      assert forall i :: 0 <= i < n ==> h[..n][..i] == h[..i];
    }
  }

  // ----- Evidence -----

  /** Step k of an attempt, recorded in the snapshot: the lease, the start of reasoning, the
      start of execution, its end, the passing verification, the passing review and the
      approval. Both execution steps hold the attempt's lease before it expires, and
      everything from execution on is about the snapshot's one candidate commit. */
  predicate Step(k: nat, e: Entry, t: Task) {
    && e.fact.Issued?
    && Emits(e.fact.command, e.eventType)
    && match e.fact.command {
         case LeaseTask(_, _, _, lease) =>
           k == 0 && t.lease == Some(lease)
         case StartReasoning(_, _, _, lease) =>
           k == 1 && t.lease == Some(lease)
         case AcceptTaskProposal(meta, _, _, proposal, lease) =>
           k == 2 && t.lease == Some(lease) && meta.timestamp < lease.expiresAt && t.proposal == Some(proposal)
         case RecordTaskExecution(meta, _, _, proposal, execution, commit, lease) =>
           && k == 3 && t.lease == Some(lease) && meta.timestamp < lease.expiresAt
           && t.proposal == Some(proposal) && t.execution == Some(execution)
           && t.candidateCommit == commit && IsCommit(commit)
         case RecordTaskVerification(_, _, _, commit, evidence, passed) =>
           k == 4 && passed && t.candidateCommit == commit && t.verification == Some(evidence)
         case RecordTaskReview(_, _, _, commit, review, passed) =>
           k == 5 && passed && t.candidateCommit == commit && t.review == Some(review)
         case ApproveTask(_, _, _, commit, review, approval) =>
           k == 6 && t.candidateCommit == commit && t.review == Some(review) && t.approval == Some(approval)
         case _ => false
       }
  }

  /** The entries are the first steps of one attempt, in order. */
  ghost predicate Evidenced(t: Task, steps: seq<Entry>) {
    forall k :: 0 <= k < |steps| ==> Step(k, steps[k], t)
  }

  /** How many steps of its attempt a task in this state has taken. */
  function Steps(state: TaskState): nat {
    match state
    case Leased => 1
    case Reasoning => 2
    case Executing => 3
    case Verifying => 4
    case Reviewing => 5
    case AwaitingApproval => 6
    case Accepted => 7
    case _ => 0
  }

  /** A step that advances an attempt is recorded and disturbs no earlier one. */
  lemma {:induction false} StepAdvances(t: Task, e: Entry)
    requires Next(t, e).Some? && Steps(Next(t, e).value.state) > 0
    ensures var n := Next(t, e).value;
      Steps(n.state) == Steps(t.state) + 1 && Step(Steps(t.state), e, n) && KeepsSteps(Steps(t.state), t, n)
  {
    hide Apply, Decide, IsCommit, IsLowerHex, ValidTask;
    TransitionIsLegal(t, e);
    var c := e.fact.command;
    ApplyStamps(t, c);
    AdvanceEffect(t, c);
  }

  /** The parts of a snapshot the first k steps are recorded in. */
  predicate KeepsSteps(k: nat, t: Task, n: Task) {
    && (k > 0 ==> n.lease == t.lease)
    && (k > 2 ==> n.proposal == t.proposal)
    && (k > 3 ==> n.execution == t.execution && n.candidateCommit == t.candidateCommit)
    && (k > 4 ==> n.verification == t.verification)
    && (k > 5 ==> n.review == t.review)
    && (k > 6 ==> n.approval == t.approval)
  }

  lemma {:induction false} AdvanceEffect(t: Task, c: TaskCommand)
    requires Decide(t, c).Ok? && Steps(Decide(t, c).value.next.state) > 0 && !t.state.Terminal()
    ensures var d := Decide(t, c).value;
      && Step(Steps(t.state), Entry(d.eventType, Issued(c)), d.next)
      && KeepsSteps(Steps(t.state), t, d.next)
  {
    hide IsCommit, IsLowerHex, ValidTask, ValidArtifact, ValidReason;
  }

  lemma {:induction false} AttemptIsEvidenced(h: seq<Entry>)
    requires Replay(h).Some?
    ensures var t := Replay(h).value;
      Steps(t.state) < |h| && Evidenced(t, h[|h| - Steps(t.state)..])
  {
    hide Next, Step, KeepsSteps, Leases;
    TypesDetermineProgress(h);
    if |h| == 1 {
      PlanningIsSound(h[0]);
    } else if Steps(Replay(h).value.state) > 0 {
      var n := |h| - 1;
      var before, after := Replay(h[..n]).value, Replay(h).value;
      AttemptIsEvidenced(h[..n]);
      StepAdvances(before, h[n]);
      var k := Steps(before.state);
      var steps := h[|h| - (k + 1)..];
      forall j | 0 <= j < |steps|
        ensures Step(j, steps[j], after)
      {
        if j < k {
          TailShift(h, k, j);
          KeptStep(j, k, steps[j], before, after);
        }
      }
    }
  }

  lemma {:induction false} TailShift(h: seq<Entry>, k: nat, j: nat)
    requires j < k < |h|
    ensures h[..|h| - 1][|h| - 1 - k..][j] == h[|h| - (k + 1)..][j]
  {
  }

  lemma {:induction false} KeptStep(j: nat, k: nat, e: Entry, t: Task, n: Task)
    requires j < k && Step(j, e, t) && KeepsSteps(k, t, n)
    ensures Step(j, e, n)
  {
  }

  /** The event each step of an attempt emits. */
  const ATTEMPT: seq<EventType> :=
    [TaskLeased, TaskReasoningStarted, TaskExecutionStarted, TaskExecuted, TaskVerified, TaskReviewed, TaskAccepted]

  lemma {:induction false} StepType(k: nat, e: Entry, t: Task)
    requires Step(k, e, t)
    ensures k < 7 && e.eventType == ATTEMPT[k]
  {
    hide IsCommit;
  }

  /** The events since an accepted task's last lease are exactly its seven-step
      attempt, bound to one lease and one candidate commit. */
  lemma {:induction false} AcceptedIsEvidenced(h: seq<Entry>)
    requires Replay(h).Some? && Replay(h).value.state == Accepted
    ensures |h| >= 8 && Evidenced(Replay(h).value, h[|h| - 7..])
    ensures forall k :: 0 <= k < 7 ==> h[|h| - 7..][k].eventType == ATTEMPT[k]
  {
    hide Next, Step;
    AttemptIsEvidenced(h);
    var steps := h[|h| - 7..];
    forall k | 0 <= k < 7
      ensures steps[k].eventType == ATTEMPT[k]
    {
      StepType(k, steps[k], Replay(h).value);
    }
  }

  // ----- Resuming a stage -----

  /** The revision at which an execution handler must (re)issue its first command. */
  function ExecutionExpectedRevision(t: Task): Result<nat> {
    if t.state == Reasoning then Ok(t.revision)
    else if t.state == Executing && t.revision > 1 then Ok(t.revision - 1)
    else if t.state == Verifying && t.revision > 2 then Ok(t.revision - 2)
    else Err(InvalidTransition)
  }

  /** The revision at which a verification handler must (re)issue its command. */
  function VerificationExpectedRevision(t: Task): Result<nat> {
    if t.state == Verifying then Ok(t.revision)
    else if t.state == Reviewing && t.revision > 1 then Ok(t.revision - 1)
    else Err(InvalidTransition)
  }

  /** The history's snapshot at an earlier revision. */
  ghost predicate WasAt(h: seq<Entry>, revision: nat, state: TaskState) {
    && revision <= |h|
    && var earlier := Replay(h[..revision]);
       earlier.Some? && earlier.value.state == state && earlier.value.revision == revision
  }

  /** Stepping back along an attempt. */
  lemma {:induction false} StepBack(h: seq<Entry>, back: nat)
    requires Replay(h).Some? && back < Steps(Replay(h).value.state)
    ensures back < |h| && Replay(h[..|h| - back]).Some?
    ensures var earlier := Replay(h[..|h| - back]).value;
      && Steps(earlier.state) == Steps(Replay(h).value.state) - back
      && earlier.currentAttempt == Replay(h).value.currentAttempt
  {
    hide Next, Step, Evidenced, Legal, KeepsSteps;
    AttemptIsEvidenced(h);
    if back == 0 {
      assert h[..|h|] == h;
    } else {
      var n := |h| - 1;
      StepAdvances(Replay(h[..n]).value, h[n]);
      TransitionIsLegal(Replay(h[..n]).value, h[n]);
      StepBack(h[..n], back - 1);
      assert h[..n][..n - (back - 1)] == h[..|h| - back];
    }
  }

  /** Execution resumes at exactly the revision the task had while reasoning. */
  lemma {:induction false} ExecutionResumesAtReasoning(h: seq<Entry>)
    requires Replay(h).Some?
    ensures var t := Replay(h).value; var r := ExecutionExpectedRevision(t);
      && (r.Ok? <==> t.state in {Reasoning, Executing, Verifying})
      && (r.Ok? ==> WasAt(h, r.value, Reasoning) && Replay(h[..r.value]).value.currentAttempt == t.currentAttempt)
  {
    hide Next, ValidTask, Measure, Evidenced;
    HistoryIsSound(h);
    AttemptIsEvidenced(h);
    var t := Replay(h).value;
    if t.state in {Reasoning, Executing, Verifying} {
      StepBack(h, Steps(t.state) - 2);
      HistoryIsSound(h[..|h| - (Steps(t.state) - 2)]);
    }
  }

  /** Verification resumes at exactly the revision the task had while verifying. */
  lemma {:induction false} VerificationResumesAtVerifying(h: seq<Entry>)
    requires Replay(h).Some?
    ensures var t := Replay(h).value; var r := VerificationExpectedRevision(t);
      && (r.Ok? <==> t.state in {Verifying, Reviewing})
      && (r.Ok? ==> WasAt(h, r.value, Verifying) && Replay(h[..r.value]).value.currentAttempt == t.currentAttempt)
  {
    hide Next, ValidTask, Measure, Evidenced;
    HistoryIsSound(h);
    AttemptIsEvidenced(h);
    var t := Replay(h).value;
    if t.state in {Verifying, Reviewing} {
      StepBack(h, Steps(t.state) - 4);
      HistoryIsSound(h[..|h| - (Steps(t.state) - 4)]);
    }
  }

  // ----- Leasing -----

  /** A ready task can be leased again exactly while attempts are left. */
  lemma {:induction false} LeasableExactly(t: Task)
    requires ValidTask(t) && t.state == Ready
    ensures (exists c: TaskCommand :: c.LeaseTask? && Apply(t, c).Ok?) <==> t.currentAttempt < t.maxAttempts
  {
    var meta := Envelope(Parsed(0), Actor(Parsed(0), WorkflowService), t.revision, 1, Parsed(0), Parsed(0));
    var c := LeaseTask(meta, t.runId, t.id, Lease(Parsed(0), Parsed(0), 2, t.currentAttempt + 1));
    if t.currentAttempt < t.maxAttempts {
      assert Apply(t, c).Ok?;
    }
  }

  /** Taking a task's last attempt and releasing its lease, whatever the task. */
  lemma {:induction false} LeaseThenRelease(t: Task, taken: TaskCommand, released: TaskCommand)
    requires ValidTask(t) && ValidTaskCommand(taken) && ValidTaskCommand(released)
    requires taken.LeaseTask? && released.ReleaseTaskLease? && taken.lease == released.lease
    requires taken.meta.actor.kind == released.meta.actor.kind == WorkflowService
    requires taken.id == released.id == t.id && taken.run == released.run == t.runId
    requires taken.meta.expectedRevision == t.revision && released.meta.expectedRevision == t.revision + 1
    requires t.state == Ready && t.currentAttempt + 1 == t.maxAttempts
    requires ValidLease(taken.lease) && taken.lease.token == t.maxAttempts
    ensures var leased := Next(t, Entry(TaskLeased, Issued(taken)));
      && leased.Some?
      && var ready := Next(leased.value, Entry(TaskLeaseReleased, Issued(released)));
         && ready.Some? && ready.value.state == Ready
         && ready.value.currentAttempt == ready.value.maxAttempts == t.maxAttempts
  {
    hide IsCommit, ValidBinding;
  }

  lemma {:induction false} NeverLeasable(t: Task, c: TaskCommand)
    requires t.currentAttempt >= t.maxAttempts && c.LeaseTask?
    ensures Apply(t, c).Err?
  {
    hide ValidTask, ValidTaskCommand;
  }

  /** Releasing the lease of the last attempt leaves a ready task nothing can lease. */
  lemma {:induction false} ReleasedLastAttempt() returns (h: seq<Entry>)
    ensures Replay(h).Some?
    ensures Replay(h).value.state == Ready
    ensures forall c: TaskCommand :: c.LeaseTask? ==> Apply(Replay(h).value, c).Err?
  {
    hide Next, Apply;
    var service := Actor(Parsed(0), WorkflowService);
    var lease := Lease(Parsed(7), Parsed(8), 10, 1);
    var plan := Entry(TaskReady, Planned(Parsed(1), TaskDefinition(Parsed(2), 1), false, 1));
    var taken := LeaseTask(Envelope(Parsed(3), service, 1, 2, Parsed(5), Parsed(6)), Parsed(1), Parsed(2), lease);
    var released :=
      ReleaseTaskLease(Envelope(Parsed(4), service, 2, 3, Parsed(5), Parsed(6)), Parsed(1), Parsed(2), lease);
    var first, second := Entry(TaskLeased, Issued(taken)), Entry(TaskLeaseReleased, Issued(released));
    h := [plan] + [first] + [second];
    ReplayOne(plan);
    LeaseThenRelease(Begin(plan).value, taken, released);
    ReplaySnoc([plan], first);
    ReplaySnoc([plan] + [first], second);
    forall c: TaskCommand | c.LeaseTask?
      ensures Apply(Replay(h).value, c).Err?
    {
      NeverLeasable(Replay(h).value, c);
    }
  }

  // ----- Which commands are taken -----

  /** A state in which the command's event is legal and, for a lease, attempts are left. */
  predicate Enabled(t: Task, c: TaskCommand) {
    && (exists e :: Emits(c, e) && Legal(t.state, e))
    && (c.LeaseTask? ==> t.currentAttempt < t.maxAttempts)
  }

  predicate Entitled(c: TaskCommand) {
    exists e :: Emits(c, e) && MayCause(c.meta.actor.kind, e)
  }

  /** What the command carries fits the snapshot. */
  predicate WellBound(t: Task, c: TaskCommand) {
    match c
    case LeaseTask(_, _, _, lease) => ValidLease(lease) && lease.token == t.currentAttempt + 1
    case ReleaseTaskLease(_, _, _, lease) => ValidLease(lease) && t.lease == Some(lease)
    case StartReasoning(_, _, _, lease) => ValidLease(lease) && t.lease == Some(lease)
    case RejectTaskProposal(_, _, _, proposal, reason) => ValidArtifact(proposal) && ValidReason(reason)
    case AcceptTaskProposal(meta, _, _, proposal, lease) =>
      && ValidLease(lease) && t.lease == Some(lease) && meta.timestamp < lease.expiresAt
      && ValidArtifact(proposal)
    case RecordTaskExecution(meta, _, _, proposal, execution, commit, lease) =>
      && ValidLease(lease) && t.lease == Some(lease) && meta.timestamp < lease.expiresAt
      && ValidArtifact(proposal) && t.proposal == Some(proposal) && ValidArtifact(execution) && IsCommit(commit)
    case RecordTaskVerification(_, _, _, commit, evidence, _) => commit == t.candidateCommit && ValidArtifact(evidence)
    case RecordTaskReview(_, _, _, commit, review, _) => commit == t.candidateCommit && ValidArtifact(review)
    case ApproveTask(_, _, _, commit, review, approval) =>
      commit == t.candidateCommit && ValidArtifact(review) && t.review == Some(review) && ValidArtifact(approval)
    case RequireTaskRework(_, _, _, commit, review, reason) =>
      commit == t.candidateCommit && ValidArtifact(review) && t.review == Some(review) && ValidReason(reason)
    case RetryTask(_, _, _) => true
    case FailTask(_, _, _, evidence, reason) => ValidArtifact(evidence) && ValidReason(reason)
    case CancelTask(_, _, _, reason) => ValidReason(reason)
  }

  lemma {:induction false} EnabledByTable(t: Task, c: TaskCommand)
    requires !t.state.Terminal()
    ensures Enabled(t, c) <==>
      match c
      case LeaseTask(_, _, _, _) => t.state == Ready && t.currentAttempt < t.maxAttempts
      case ReleaseTaskLease(_, _, _, _) => t.state == Leased
      case StartReasoning(_, _, _, _) => t.state == Leased
      case RejectTaskProposal(_, _, _, _, _) => t.state == Reasoning
      case AcceptTaskProposal(_, _, _, _, _) => t.state == Reasoning
      case RecordTaskExecution(_, _, _, _, _, _, _) => t.state == Executing
      case RecordTaskVerification(_, _, _, _, _, _) => t.state == Verifying
      case RecordTaskReview(_, _, _, _, _, _) => t.state == Reviewing
      case ApproveTask(_, _, _, _, _, _) => t.state == AwaitingApproval
      case RequireTaskRework(_, _, _, _, _, _) => t.state == AwaitingApproval
      case RetryTask(_, _, _) => t.state == ProposalRejected || t.state == ReworkRequired
      case _ => true
  {
    var e := SomeEvent(c);
    assert Emits(c, e);
  }

  function SomeEvent(c: TaskCommand): (e: EventType)
    ensures Emits(c, e)
  {
    match c
    case LeaseTask(_, _, _, _) => TaskLeased
    case ReleaseTaskLease(_, _, _, _) => TaskLeaseReleased
    case StartReasoning(_, _, _, _) => TaskReasoningStarted
    case RejectTaskProposal(_, _, _, _, _) => TaskProposalRejected
    case AcceptTaskProposal(_, _, _, _, _) => TaskExecutionStarted
    case RecordTaskExecution(_, _, _, _, _, _, _) => TaskExecuted
    case RecordTaskVerification(_, _, _, _, _, passed) => if passed then TaskVerified else TaskVerificationFailed
    case RecordTaskReview(_, _, _, _, _, passed) => if passed then TaskReviewed else TaskReviewFailed
    case ApproveTask(_, _, _, _, _, _) => TaskAccepted
    case RequireTaskRework(_, _, _, _, _, _) => TaskReworkRequired
    case RetryTask(_, _, _) => TaskRetryReady
    case FailTask(_, _, _, _, _) => TaskFailed
    case CancelTask(_, _, _, _) => TaskCancelled
  }

  lemma {:induction false} EntitledByTable(c: TaskCommand)
    ensures Entitled(c) <==> MayCause(c.meta.actor.kind, SomeEvent(c))
  {
    assert Emits(c, SomeEvent(c));
  }

  /** A live task takes a command exactly when the tables of legal states and entitled
      actors allow it and what it carries fits; the state is judged before the actor, and
      the actor before the contents. */
  lemma {:induction false} DecidesExactly(t: Task, c: TaskCommand)
    requires !t.state.Terminal()
    ensures Decide(t, c).Ok? <==> Enabled(t, c) && Entitled(c) && WellBound(t, c)
    ensures Decide(t, c) == Err(InvalidTransition) <==> !Enabled(t, c)
    ensures Decide(t, c) == Err(Unauthorized) <==> Enabled(t, c) && !Entitled(c)
  {
    hide Enabled, Entitled, IsCommit, IsLowerHex, ValidArtifact, ValidReason, ValidLease, Lawful;
    EnabledByTable(t, c);
    EntitledByTable(c);
  }

  // ----- Bindings by state -----

  /** Which bindings a snapshot carries, state by state. */
  predicate BoundFor(t: Task) {
    match t.state
    case Pending => NothingFrom(t, 0)
    case Ready => NothingFrom(t, 0)
    case Leased => t.lease.Some? && NothingFrom(t, 1)
    case Reasoning => t.lease.Some? && NothingFrom(t, 1)
    case ProposalRejected => t.lease.Some? && t.proposal.Some? && NothingFrom(t, 2)
    case Executing => t.lease.Some? && t.proposal.Some? && NothingFrom(t, 2)
    case Verifying => Executed(t) && NothingFrom(t, 3)
    case Reviewing => Executed(t) && t.verification.Some? && NothingFrom(t, 4)
    case AwaitingApproval => Executed(t) && t.verification.Some? && t.review.Some? && t.approval.None?
    case ReworkRequired => Executed(t) && t.verification.Some? && t.approval.None?
    case Accepted => Executed(t) && t.verification.Some? && t.review.Some? && t.approval.Some?
    case Failed => true
    case Cancelled => true
  }

  predicate Executed(t: Task) {
    t.lease.Some? && t.proposal.Some? && t.execution.Some? && IsCommit(t.candidateCommit)
  }

  /** No binding from the k-th on: lease, proposal, execution, verification, the rest. */
  predicate NothingFrom(t: Task, k: nat) {
    && (k <= 0 ==> t.lease.None?)
    && (k <= 1 ==> t.proposal.None?)
    && (k <= 2 ==> t.execution.None? && t.candidateCommit == "")
    && (k <= 3 ==> t.verification.None?)
    && t.review.None? && t.approval.None?
  }

  lemma {:induction false} DecisionBinds(t: Task, c: TaskCommand)
    requires Decide(t, c).Ok? && BoundFor(t) && !t.state.Terminal()
    ensures BoundFor(Decide(t, c).value.next)
  {
    hide IsCommit, ValidArtifact, ValidReason, ValidLease, Lawful;
  }

  /** Every snapshot carries the bindings of its state and no others; in particular a task
      made ready again starts its next attempt without any trace of the last. */
  lemma {:induction false} BindingsMatchState(h: seq<Entry>)
    requires Replay(h).Some?
    ensures BoundFor(Replay(h).value)
  {
    hide Next, IsCommit;
    if |h| > 1 {
      var before, e := Replay(h[..|h| - 1]).value, h[|h| - 1];
      BindingsMatchState(h[..|h| - 1]);
      NextBinds(before, e);
    }
  }

  lemma {:induction false} StampKeepsBindings(t: Task, revision: nat, at: Time)
    requires BoundFor(t)
    ensures BoundFor(t.(revision := revision, updatedAt := at))
  {
    hide IsCommit;
  }

  lemma {:induction false} StoreStepsBind(t: Task, at: Time)
    requires BoundFor(t)
    ensures t.state == Pending ==> BoundFor(Woken(t, at))
    ensures BoundFor(Swept(t, at))
  {
    hide IsCommit;
  }

  lemma {:induction false} NextBinds(t: Task, e: Entry)
    requires Next(t, e).Some? && BoundFor(t)
    ensures BoundFor(Next(t, e).value)
  {
    hide Apply, Decide, BoundFor, Woken, Swept;
    match e.fact
    case Issued(c) =>
      ApplyStamps(t, c);
      DecisionBinds(t, c);
      StampKeepsBindings(Decide(t, c).value.next, t.revision + 1, c.meta.timestamp);
    case Unblocked(at) => StoreStepsBind(t, at);
    case RunSwept(at) => StoreStepsBind(t, at);
    case _ =>
  }

  // ----- No dead ends -----

  function Zeros(n: nat): (s: string)
    ensures IsLowerHex(s, n)
  {
    seq(n, _ => '0')
  }

  function SomeArtifact(): (a: ArtifactRef)
    ensures ValidArtifact(a)
  {
    ArtifactRef(Absolute("artifact"), Zeros(64))
  }

  /** A time before the bound lease expires, if one is bound. */
  function InTime(t: Task): (at: Time)
    ensures at != 0 && (t.lease.Some? ==> at < t.lease.value.expiresAt)
  {
    if t.lease.None? then 1
    else if t.lease.value.expiresAt == 1 then -1
    else t.lease.value.expiresAt - 1
  }

  function Sent(t: Task, kind: ActorKind, id: Id): Envelope {
    Envelope(id, Actor(Parsed(0), kind), t.revision, InTime(t), Parsed(0), Parsed(0))
  }

  /** A task that is accepted or in an attempt, or has attempts left. */
  predicate Salvageable(t: Task) {
    || t.state == Accepted
    || (&& !t.state.Terminal()
        && (t.state in {Pending, Ready, ProposalRejected, ReworkRequired} ==> t.currentAttempt < t.maxAttempts))
  }

  /** Such a task, unless it is finished or waits for another one. */
  predicate Advanceable(t: Task) {
    ValidTask(t) && BoundFor(t) && Salvageable(t) && t.state != Accepted && t.state != Pending
  }

  /** The command that takes it one step further, under the given identity. */
  function Advance(t: Task, id: Id): TaskCommand
    requires Advanceable(t)
  {
    var a := SomeArtifact();
    match t.state
    case Ready =>
      LeaseTask(Sent(t, WorkflowService, id), t.runId, t.id, Lease(Parsed(0), Parsed(0), 2, t.currentAttempt + 1))
    case Leased => StartReasoning(Sent(t, ReasoningService, id), t.runId, t.id, t.lease.value)
    case Reasoning => AcceptTaskProposal(Sent(t, ExecutionService, id), t.runId, t.id, a, t.lease.value)
    case Executing =>
      RecordTaskExecution(Sent(t, ExecutionService, id), t.runId, t.id, t.proposal.value, a, Zeros(40), t.lease.value)
    case Verifying => RecordTaskVerification(Sent(t, VerificationService, id), t.runId, t.id, t.candidateCommit, a, true)
    case Reviewing => RecordTaskReview(Sent(t, ReviewService, id), t.runId, t.id, t.candidateCommit, a, true)
    case AwaitingApproval => ApproveTask(Sent(t, Human, id), t.runId, t.id, t.candidateCommit, t.review.value, a)
    case _ => RetryTask(Sent(t, WorkflowService, id), t.runId, t.id)
  }

  /** How many entries a task in this state is away from being accepted. */
  function ToGo(state: TaskState): nat {
    match state
    case Pending => 8
    case ProposalRejected => 8
    case ReworkRequired => 8
    case _ => 7 - Steps(state)
  }

  lemma {:induction false} AdvanceFits(t: Task, id: Id)
    requires Advanceable(t) && ValidId(id)
    ensures var c := Advance(t, id);
      && ValidTaskCommand(c) && c.id == t.id && c.run == t.runId && c.meta.expectedRevision == t.revision
      && c.meta.commandId == id && !c.CancelTask? && WellBound(t, c)
  {
    hide IsLowerHex, ValidArtifact, SomeArtifact, Zeros, InTime;
  }

  lemma {:induction false} AdvanceIsEnabled(t: Task, id: Id)
    requires Advanceable(t)
    ensures var c := Advance(t, id);
      && Enabled(t, c) && Entitled(c)
      && ToGo(StateAfter(SomeEvent(c))) == ToGo(t.state) - 1
      && SomeEvent(c) in ATTEMPT + [TaskRetryReady]
      && (c.RetryTask? ==> t.currentAttempt < t.maxAttempts)
      && (!c.RetryTask? ==> forall e :: Emits(c, e) ==> e == SomeEvent(c))
  {
    hide Enabled, Entitled, ValidTask, BoundFor, SomeArtifact, Zeros, InTime;
    EnabledByTable(t, Advance(t, id));
    EntitledByTable(Advance(t, id));
  }

  lemma {:induction false} RetryReadies(t: Task, c: TaskCommand)
    requires c.RetryTask? && Decide(t, c).Ok? && t.currentAttempt < t.maxAttempts
    ensures Decide(t, c).value.eventType == TaskRetryReady
  {
    hide Lawful;
  }

  lemma {:induction false} AdvanceIsApplied(t: Task, id: Id)
    requires Advanceable(t) && ValidId(id)
    ensures var c := Advance(t, id); Apply(t, c).Ok? && Apply(t, c).value.event.eventType == SomeEvent(c)
  {
    hide Decide, Advance, Enabled, Entitled, WellBound, ValidTask, BoundFor, Legal, MayCause, ValidEnvelope;
    var c := Advance(t, id);
    AdvanceFits(t, id);
    AdvanceIsEnabled(t, id);
    DecidesExactly(t, c);
    if c.RetryTask? {
      RetryReadies(t, c);
    }
  }

  /** Every task in an attempt, or with attempts left, has a command it accepts that takes it
      one step nearer to acceptance. */
  lemma {:induction false} AdvanceIsTaken(t: Task, id: Id)
    requires Advanceable(t) && ValidId(id)
    ensures var e := Entry(SomeEvent(Advance(t, id)), Issued(Advance(t, id)));
      && Next(t, e).Some?
      && ToGo(Next(t, e).value.state) == ToGo(t.state) - 1
      && (Advanceable(Next(t, e).value) || Next(t, e).value.state == Accepted)
  {
    hide Apply, Decide, Advance, ValidTask, BoundFor, MayCause;
    var c := Advance(t, id);
    var e := Entry(SomeEvent(c), Issued(c));
    AdvanceIsApplied(t, id);
    AdvanceIsEnabled(t, id);
    TransitionIsLegal(t, e);
    TransitionKeepsIdentity(t, e);
    TransitionKeepsValid(t, e);
    NextBinds(t, e);
  }

  lemma {:induction false} WakingIsTaken(t: Task)
    requires ValidTask(t) && BoundFor(t) && Salvageable(t) && t.state == Pending
    ensures var e := Entry(TaskReady, Unblocked(1));
      Next(t, e).Some? && ToGo(Next(t, e).value.state) == ToGo(t.state) - 1 && Advanceable(Next(t, e).value)
  {
    hide ValidTask, BoundFor;
    var e := Entry(TaskReady, Unblocked(1));
    TransitionKeepsValid(t, e);
    NextBinds(t, e);
  }

  /** From any history whose task is salvageable, some continuation accepts it. */
  lemma {:induction false} CanBeAccepted(h: seq<Entry>) returns (more: seq<Entry>)
    requires Replay(h).Some? && Salvageable(Replay(h).value)
    ensures Replay(h + more).Some? && Replay(h + more).value.state == Accepted
    ensures |more| == ToGo(Replay(h).value.state)
    decreases ToGo(Replay(h).value.state)
  {
    hide Next, Replay, ValidTask, BoundFor;
    var t := Replay(h).value;
    if t.state == Accepted {
      more := [];
      assert h + more == h;
    } else {
      HistoryIsSound(h);
      BindingsMatchState(h);
      var e;
      if t.state == Pending {
        WakingIsTaken(t);
        e := Entry(TaskReady, Unblocked(1));
      } else {
        AdvanceIsTaken(t, Parsed(0));
        e := Entry(SomeEvent(Advance(t, Parsed(0))), Issued(Advance(t, Parsed(0))));
      }
      ReplaySnoc(h, e);
      var rest := CanBeAccepted(h + [e]);
      more := [e] + rest;
      assert h + [e] + rest == h + more;
    }
  }

  lemma {:induction false} LostStays(t: Task, e: Entry)
    requires Next(t, e).Some? && !Salvageable(t)
    ensures !Salvageable(Next(t, e).value)
  {
    hide Next;
    TransitionIsLegal(t, e);
    TransitionKeepsIdentity(t, e);
  }

  lemma {:induction false} LostForGood(h: seq<Entry>, more: seq<Entry>)
    requires Replay(h).Some? && !Salvageable(Replay(h).value) && Replay(h + more).Some?
    ensures !Salvageable(Replay(h + more).value)
  {
    hide Next, Salvageable;
    if more == [] {
      assert h + more == h;
    } else {
      var n := |h + more| - 1;
      assert (h + more)[..n] == h + more[..|more| - 1];
      LostForGood(h, more[..|more| - 1]);
      LostStays(Replay((h + more)[..n]).value, (h + more)[n]);
    }
  }

  /** A task can still be accepted exactly when it is accepted, in an attempt, or has
      attempts left. */
  lemma {:induction false} AcceptableExactly(h: seq<Entry>)
    requires Replay(h).Some?
    ensures (exists more :: Replay(h + more).Some? && Replay(h + more).value.state == Accepted)
      <==> Salvageable(Replay(h).value)
  {
    hide Replay;
    if Salvageable(Replay(h).value) {
      var more := CanBeAccepted(h);
    } else {
      forall more | Replay(h + more).Some?
        ensures Replay(h + more).value.state != Accepted
      {
        LostForGood(h, more);
      }
    }
  }
}
