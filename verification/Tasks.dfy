/** The task aggregate: its snapshot, its thirteen commands and the pure
    transition each of them performs, and the planning of new tasks. */
module Tasks {
  import opened Kernel
  import opened TaskGraph

  datatype TaskState =
    | Pending
    | Ready
    | Leased
    | Reasoning
    | ProposalRejected
    | Executing
    | Verifying
    | Reviewing
    | ReworkRequired
    | AwaitingApproval
    | Accepted
    | Failed
    | Cancelled
  {
    predicate Terminal() {
      Accepted? || Failed? || Cancelled?
    }
  }

  datatype Lease = Lease(id: Id, ownerId: Id, expiresAt: Time, token: nat)

  predicate ValidLease(lease: Lease) {
    ValidId(lease.id) && ValidId(lease.ownerId) && lease.expiresAt != 0 && lease.token != 0
  }

  datatype Task = Task(
    id: Id,
    runId: Id,
    state: TaskState,
    revision: nat,
    maxAttempts: nat,
    currentAttempt: nat,
    lease: Option<Lease>,
    proposal: Option<ArtifactRef>,
    execution: Option<ArtifactRef>,
    candidateCommit: string,
    verification: Option<ArtifactRef>,
    review: Option<ArtifactRef>,
    approval: Option<ArtifactRef>,
    createdAt: Time,
    updatedAt: Time)

  /** What a snapshot must satisfy to be reloaded or commanded. */
  predicate ValidTask(t: Task) {
    && ValidId(t.id) && ValidId(t.runId)
    && t.revision != 0 && t.maxAttempts != 0 && t.currentAttempt <= t.maxAttempts
    && t.createdAt != 0 && t.updatedAt != 0
    && (t.lease.Some? ==> ValidLease(t.lease.value))
    && ValidBinding(t.proposal) && ValidBinding(t.execution) && ValidBinding(t.verification)
    && ValidBinding(t.review) && ValidBinding(t.approval)
    && (t.candidateCommit != "" ==> IsCommit(t.candidateCommit))
  }

  datatype TaskCommand =
    | LeaseTask(meta: Envelope, run: Id, id: Id, lease: Lease)
    | ReleaseTaskLease(meta: Envelope, run: Id, id: Id, lease: Lease)
    | StartReasoning(meta: Envelope, run: Id, id: Id, lease: Lease)
    | RejectTaskProposal(meta: Envelope, run: Id, id: Id, proposal: ArtifactRef, reason: string)
    | AcceptTaskProposal(meta: Envelope, run: Id, id: Id, proposal: ArtifactRef, lease: Lease)
    | RecordTaskExecution(meta: Envelope, run: Id, id: Id, proposal: ArtifactRef, execution: ArtifactRef,
                          candidateCommit: string, lease: Lease)
    | RecordTaskVerification(meta: Envelope, run: Id, id: Id, candidateCommit: string, evidence: ArtifactRef,
                             passed: bool)
    | RecordTaskReview(meta: Envelope, run: Id, id: Id, candidateCommit: string, review: ArtifactRef, passed: bool)
    | ApproveTask(meta: Envelope, run: Id, id: Id, candidateCommit: string, review: ArtifactRef,
                  approval: ArtifactRef)
    | RequireTaskRework(meta: Envelope, run: Id, id: Id, candidateCommit: string, review: ArtifactRef,
                        reason: string)
    | RetryTask(meta: Envelope, run: Id, id: Id)
    | FailTask(meta: Envelope, run: Id, id: Id, evidence: ArtifactRef, reason: string)
    | CancelTask(meta: Envelope, run: Id, id: Id, reason: string)

  predicate ValidTaskCommand(c: TaskCommand) {
    ValidEnvelope(c.meta) && ValidId(c.run) && ValidId(c.id)
  }

  /** A transition's next snapshot, before revision and time stamp, and its event type. */
  datatype Transition = Transition(next: Task, eventType: EventType)

  datatype Applied = Applied(task: Task, event: Event)

  function CheckCommand(t: Task, c: TaskCommand): Check {
    if !ValidTask(t) || !ValidTaskCommand(c) || c.id != t.id || c.run != t.runId then Fail(Invalid)
    else if c.meta.expectedRevision != t.revision then Fail(RevisionConflict)
    else if t.state.Terminal() then Fail(InvalidTransition)
    else Pass
  }

  function CheckLease(bound: Option<Lease>, supplied: Lease): Check {
    Need(ValidLease(supplied) && bound == Some(supplied), Invalid)
  }

  function CheckActiveLease(t: Task, supplied: Lease, now: Time): Check {
    if !ValidLease(supplied) then Fail(Invalid)
    else if t.lease != Some(supplied) then Fail(RevisionConflict)
    else Need(now < supplied.expiresAt, RevisionConflict)
  }

  /** The state, actor and candidate a human decision must be about. */
  function CheckHumanReview(t: Task, actor: Actor, candidateCommit: string, review: ArtifactRef): Check {
    if t.state != AwaitingApproval then Fail(InvalidTransition)
    else if actor.kind != Human then Fail(Unauthorized)
    else if candidateCommit != t.candidateCommit then Fail(Invalid)
    else CheckBound(t.review, review)
  }

  /** The state each event type leaves its task in. */
  function StateAfter(e: EventType): TaskState {
    match e
    case TaskCreated => Pending
    case TaskReady => Ready
    case TaskLeaseReleased => Ready
    case TaskRetryReady => Ready
    case TaskLeased => Leased
    case TaskReasoningStarted => Reasoning
    case TaskProposalRejected => ProposalRejected
    case TaskExecutionStarted => Executing
    case TaskExecuted => Verifying
    case TaskVerified => Reviewing
    case TaskVerificationFailed => ReworkRequired
    case TaskReviewFailed => ReworkRequired
    case TaskReworkRequired => ReworkRequired
    case TaskReviewed => AwaitingApproval
    case TaskAccepted => Accepted
    case TaskCancelled => Cancelled
    case _ => Failed
  }

  /** Which events a task may emit from which state. */
  predicate Legal(from: TaskState, e: EventType) {
    match e
    case TaskReady => from == Pending
    case TaskLeased => from == Ready
    case TaskLeaseReleased => from == Leased
    case TaskReasoningStarted => from == Leased
    case TaskProposalRejected => from == Reasoning
    case TaskExecutionStarted => from == Reasoning
    case TaskExecuted => from == Executing
    case TaskVerified => from == Verifying
    case TaskVerificationFailed => from == Verifying
    case TaskReviewed => from == Reviewing
    case TaskReviewFailed => from == Reviewing
    case TaskAccepted => from == AwaitingApproval
    case TaskReworkRequired => from == AwaitingApproval
    case TaskRetryReady => from == ProposalRejected || from == ReworkRequired
    case TaskAttemptsExhausted => from == ProposalRejected || from == ReworkRequired
    case TaskFailed => !from.Terminal()
    case TaskCancelled => !from.Terminal()
    case _ => false
  }

  /** Which actors may cause which event by a command. */
  predicate MayCause(actor: ActorKind, e: EventType) {
    match e
    case TaskLeased => actor == WorkflowService
    case TaskLeaseReleased => actor == WorkflowService
    case TaskReasoningStarted => actor == ReasoningService
    case TaskProposalRejected => actor == Human || actor == ReasoningService
    case TaskExecutionStarted => actor == ExecutionService
    case TaskExecuted => actor == ExecutionService
    case TaskVerified => actor == VerificationService
    case TaskVerificationFailed => actor == VerificationService
    case TaskReviewed => actor == ReviewService
    case TaskReviewFailed => actor == ReviewService
    case TaskAccepted => actor == Human
    case TaskReworkRequired => actor == Human
    case TaskRetryReady => actor == WorkflowService
    case TaskAttemptsExhausted => actor == WorkflowService
    case TaskCancelled => actor == WorkflowService
    case TaskFailed => actor in {WorkflowService, ReasoningService, ExecutionService, VerificationService, ReviewService}
    case _ => false
  }

  /** Which events a command can emit. */
  predicate Emits(c: TaskCommand, e: EventType) {
    match c
    case LeaseTask(_, _, _, _) => e == TaskLeased
    case ReleaseTaskLease(_, _, _, _) => e == TaskLeaseReleased
    case StartReasoning(_, _, _, _) => e == TaskReasoningStarted
    case RejectTaskProposal(_, _, _, _, _) => e == TaskProposalRejected
    case AcceptTaskProposal(_, _, _, _, _) => e == TaskExecutionStarted
    case RecordTaskExecution(_, _, _, _, _, _, _) => e == TaskExecuted
    case RecordTaskVerification(_, _, _, _, _, passed) => e == (if passed then TaskVerified else TaskVerificationFailed)
    case RecordTaskReview(_, _, _, _, _, passed) => e == (if passed then TaskReviewed else TaskReviewFailed)
    case ApproveTask(_, _, _, _, _, _) => e == TaskAccepted
    case RequireTaskRework(_, _, _, _, _, _) => e == TaskReworkRequired
    case RetryTask(_, _, _) => e == TaskRetryReady || e == TaskAttemptsExhausted
    case FailTask(_, _, _, _, _) => e == TaskFailed
    case CancelTask(_, _, _, _) => e == TaskCancelled
  }

  /** What every decided transition guarantees, whatever the command: it is legal from
      its state, made by an entitled actor, yields the state and attempt counter its event
      type names, and keeps identity and validity. */
  ghost predicate Lawful(t: Task, c: TaskCommand, d: Transition) {
    && Emits(c, d.eventType)
    && Legal(t.state, d.eventType)
    && MayCause(c.meta.actor.kind, d.eventType)
    && d.next.state == StateAfter(d.eventType)
    && d.next.currentAttempt == t.currentAttempt + (if d.eventType == TaskLeased then 1 else 0)
    && (d.eventType == TaskLeased || d.eventType == TaskRetryReady ==> t.currentAttempt < t.maxAttempts)
    && d.next.id == t.id && d.next.runId == t.runId && d.next.maxAttempts == t.maxAttempts
    && d.next.createdAt == t.createdAt
    && (c.LeaseTask? ==> c.lease.token == t.currentAttempt + 1 && d.next.lease == Some(c.lease))
    && (!c.LeaseTask? ==> d.next.lease == t.lease || d.next.lease == None)
    && (ValidTask(t) ==> ValidTask(d.next))
  }

  function DecideLease(t: Task, c: TaskCommand): (r: Result<Transition>)
    requires c.LeaseTask?
    ensures r.Ok? ==> Lawful(t, c, r.value)
  {
    var actor := c.meta.actor.kind;
    :- Need(t.state == Ready && t.currentAttempt < t.maxAttempts, InvalidTransition);
    :- Need(actor == WorkflowService, Unauthorized);
    :- Need(ValidLease(c.lease) && c.lease.token == t.currentAttempt + 1, Invalid);
    Ok(Transition(t.(lease := Some(c.lease), currentAttempt := t.currentAttempt + 1, state := Leased), TaskLeased))
  }

  function DecideRelease(t: Task, c: TaskCommand): (r: Result<Transition>)
    requires c.ReleaseTaskLease?
    ensures r.Ok? ==> Lawful(t, c, r.value)
  {
    var actor := c.meta.actor.kind;
    :- Need(t.state == Leased, InvalidTransition);
    :- Need(actor == WorkflowService, Unauthorized);
    :- CheckLease(t.lease, c.lease);
    Ok(Transition(t.(lease := None, state := Ready), TaskLeaseReleased))
  }

  function DecideReasoning(t: Task, c: TaskCommand): (r: Result<Transition>)
    requires c.StartReasoning?
    ensures r.Ok? ==> Lawful(t, c, r.value)
  {
    var actor := c.meta.actor.kind;
    :- Need(t.state == Leased, InvalidTransition);
    :- Need(actor == ReasoningService, Unauthorized);
    :- CheckLease(t.lease, c.lease);
    Ok(Transition(t.(state := Reasoning), TaskReasoningStarted))
  }

  function DecideProposalRejection(t: Task, c: TaskCommand): (r: Result<Transition>)
    requires c.RejectTaskProposal?
    ensures r.Ok? ==> Lawful(t, c, r.value)
  {
    var actor := c.meta.actor.kind;
    :- Need(t.state == Reasoning, InvalidTransition);
    :- Need(actor == Human || actor == ReasoningService, Unauthorized);
    :- Need(ValidArtifact(c.proposal) && ValidReason(c.reason), Invalid);
    Ok(Transition(t.(proposal := Some(c.proposal), state := ProposalRejected), TaskProposalRejected))
  }

  function DecideProposalAcceptance(t: Task, c: TaskCommand): (r: Result<Transition>)
    requires c.AcceptTaskProposal?
    ensures r.Ok? ==> Lawful(t, c, r.value)
  {
    var actor := c.meta.actor.kind;
    :- Need(t.state == Reasoning, InvalidTransition);
    :- Need(actor == ExecutionService, Unauthorized);
    :- CheckActiveLease(t, c.lease, c.meta.timestamp);
    :- Need(ValidArtifact(c.proposal), Invalid);
    Ok(Transition(t.(proposal := Some(c.proposal), state := Executing), TaskExecutionStarted))
  }

  function DecideExecution(t: Task, c: TaskCommand): (r: Result<Transition>)
    requires c.RecordTaskExecution?
    ensures r.Ok? ==> Lawful(t, c, r.value)
  {
    var actor := c.meta.actor.kind;
    :- Need(t.state == Executing, InvalidTransition);
    :- Need(actor == ExecutionService, Unauthorized);
    :- CheckActiveLease(t, c.lease, c.meta.timestamp);
    :- CheckBound(t.proposal, c.proposal);
    :- Need(ValidArtifact(c.execution) && IsCommit(c.candidateCommit), Invalid);
    Ok(Transition(t.(execution := Some(c.execution), candidateCommit := c.candidateCommit, state := Verifying),
                  TaskExecuted))
  }

  function DecideVerification(t: Task, c: TaskCommand): (r: Result<Transition>)
    requires c.RecordTaskVerification?
    ensures r.Ok? ==> Lawful(t, c, r.value)
  {
    var actor := c.meta.actor.kind;
    :- Need(t.state == Verifying, InvalidTransition);
    :- Need(actor == VerificationService, Unauthorized);
    :- Need(c.candidateCommit == t.candidateCommit && ValidArtifact(c.evidence), Invalid);
    Ok(if c.passed
       then Transition(t.(verification := Some(c.evidence), state := Reviewing), TaskVerified)
       else Transition(t.(verification := Some(c.evidence), state := ReworkRequired), TaskVerificationFailed))
  }

  function DecideReview(t: Task, c: TaskCommand): (r: Result<Transition>)
    requires c.RecordTaskReview?
    ensures r.Ok? ==> Lawful(t, c, r.value)
  {
    var actor := c.meta.actor.kind;
    :- Need(t.state == Reviewing, InvalidTransition);
    :- Need(actor == ReviewService, Unauthorized);
    :- Need(c.candidateCommit == t.candidateCommit && ValidArtifact(c.review), Invalid);
    Ok(if c.passed
       then Transition(t.(review := Some(c.review), state := AwaitingApproval), TaskReviewed)
       else Transition(t.(review := Some(c.review), state := ReworkRequired), TaskReviewFailed))
  }

  function DecideApproval(t: Task, c: TaskCommand): (r: Result<Transition>)
    requires c.ApproveTask?
    ensures r.Ok? ==> Lawful(t, c, r.value)
  {
    var actor := c.meta.actor;
    :- CheckHumanReview(t, actor, c.candidateCommit, c.review);
    :- Need(ValidArtifact(c.approval), Invalid);
    Ok(Transition(t.(approval := Some(c.approval), state := Accepted), TaskAccepted))
  }

  function DecideRework(t: Task, c: TaskCommand): (r: Result<Transition>)
    requires c.RequireTaskRework?
    ensures r.Ok? ==> Lawful(t, c, r.value)
  {
    var actor := c.meta.actor;
    :- CheckHumanReview(t, actor, c.candidateCommit, c.review);
    :- Need(ValidReason(c.reason), Invalid);
    Ok(Transition(t.(state := ReworkRequired), TaskReworkRequired))
  }

  function DecideRetry(t: Task, c: TaskCommand): (r: Result<Transition>)
    requires c.RetryTask?
    ensures r.Ok? ==> Lawful(t, c, r.value)
  {
    var actor := c.meta.actor.kind;
    :- Need(t.state == ProposalRejected || t.state == ReworkRequired, InvalidTransition);
    :- Need(actor == WorkflowService, Unauthorized);
    var cleared := t.(lease := None, proposal := None, execution := None, verification := None, review := None,
                      approval := None, candidateCommit := "");
    Ok(if t.currentAttempt < t.maxAttempts
       then Transition(cleared.(state := Ready), TaskRetryReady)
       else Transition(cleared.(state := Failed), TaskAttemptsExhausted))
  }

  function DecideFailure(t: Task, c: TaskCommand): (r: Result<Transition>)
    requires c.FailTask?
    ensures r.Ok? && !t.state.Terminal() ==> Lawful(t, c, r.value)
  {
    var actor := c.meta.actor.kind;
    :- Need(TrustedOperationalActor(actor), Unauthorized);
    :- Need(ValidArtifact(c.evidence) && ValidReason(c.reason), Invalid);
    Ok(Transition(t.(state := Failed), TaskFailed))
  }

  function DecideCancellation(t: Task, c: TaskCommand): (r: Result<Transition>)
    requires c.CancelTask?
    ensures r.Ok? && !t.state.Terminal() ==> Lawful(t, c, r.value)
  {
    var actor := c.meta.actor.kind;
    :- Need(actor == WorkflowService, Unauthorized);
    :- Need(ValidReason(c.reason), Invalid);
    Ok(Transition(t.(state := Cancelled), TaskCancelled))
  }

  /** The transition each command asks for. */
  function Decide(t: Task, c: TaskCommand): (r: Result<Transition>)
    ensures r.Ok? && !t.state.Terminal() ==> Lawful(t, c, r.value)
  {
    match c
    case LeaseTask(_, _, _, _) => DecideLease(t, c)
    case ReleaseTaskLease(_, _, _, _) => DecideRelease(t, c)
    case StartReasoning(_, _, _, _) => DecideReasoning(t, c)
    case RejectTaskProposal(_, _, _, _, _) => DecideProposalRejection(t, c)
    case AcceptTaskProposal(_, _, _, _, _) => DecideProposalAcceptance(t, c)
    case RecordTaskExecution(_, _, _, _, _, _, _) => DecideExecution(t, c)
    case RecordTaskVerification(_, _, _, _, _, _) => DecideVerification(t, c)
    case RecordTaskReview(_, _, _, _, _, _) => DecideReview(t, c)
    case ApproveTask(_, _, _, _, _, _) => DecideApproval(t, c)
    case RequireTaskRework(_, _, _, _, _, _) => DecideRework(t, c)
    case RetryTask(_, _, _) => DecideRetry(t, c)
    case FailTask(_, _, _, _, _) => DecideFailure(t, c)
    case CancelTask(_, _, _, _) => DecideCancellation(t, c)
  }

  /** One command against one snapshot: the next snapshot and its single event. */
  function Apply(t: Task, c: TaskCommand): Result<Applied> {
    var meta := c.meta;
    :- CheckCommand(t, c);
    var transition :- Decide(t, c);
    var next := transition.next.(revision := t.revision + 1, updatedAt := meta.timestamp);
    Ok(Applied(next, NewEvent(meta.commandId, TaskAggregate, t.id, next.revision, transition.eventType, meta)))
  }

  /** What the store does to a pending task once its last prerequisite is accepted. */
  function Woken(t: Task, at: Time): Task {
    t.(state := Ready, revision := t.revision + 1, updatedAt := at)
  }

  /** What the store does to an unfinished task when its run is cancelled. */
  function Swept(t: Task, at: Time): Task {
    t.(state := Cancelled, revision := t.revision + 1, updatedAt := at)
  }

  // ----- Planning -----

  datatype TaskDefinition = TaskDefinition(id: Id, maxAttempts: nat)

  datatype Plan = Plan(tasks: seq<Task>, events: seq<Event>)

  ghost predicate ValidDefinitions(definitions: seq<TaskDefinition>) {
    && definitions != []
    && (forall i :: 0 <= i < |definitions| ==> ValidId(definitions[i].id) && definitions[i].maxAttempts != 0)
    && (forall i, j :: 0 <= i < j < |definitions| ==> definitions[i].id != definitions[j].id)
  }

  ghost function DefinedIds(definitions: seq<TaskDefinition>): set<Id> {
    set i | 0 <= i < |definitions| :: definitions[i].id
  }

  predicate HasPrerequisite(dependencies: seq<Dependency>, id: Id) {
    exists i :: 0 <= i < |dependencies| && dependencies[i].task == id
  }

  function NewTask(run: Id, definition: TaskDefinition, blocked: bool, at: Time): Task {
    Task(definition.id, run, if blocked then Pending else Ready, 1, definition.maxAttempts, 0, None, None, None, "",
         None, None, None, at, at)
  }

  function NewTaskEvent(definition: TaskDefinition, blocked: bool, meta: Envelope): Event {
    var eventType := if blocked then TaskCreated else TaskReady;
    NewEvent(Named(meta.commandId, definition.id, if blocked then "TASK_CREATED" else "TASK_READY"),
             TaskAggregate, definition.id, 1, eventType, meta)
  }

  ghost function PlannedTasks(run: Id, definitions: seq<TaskDefinition>, dependencies: seq<Dependency>,
                              meta: Envelope): Plan
  {
    Plan(seq(|definitions|, i requires 0 <= i < |definitions| =>
           NewTask(run, definitions[i], HasPrerequisite(dependencies, definitions[i].id), meta.timestamp)),
         seq(|definitions|, i requires 0 <= i < |definitions| =>
           NewTaskEvent(definitions[i], HasPrerequisite(dependencies, definitions[i].id), meta)))
  }

  ghost predicate PlanAdmissible(run: Id, definitions: seq<TaskDefinition>, dependencies: seq<Dependency>) {
    && ValidId(run)
    && ValidDefinitions(definitions)
    && ValidDependencies(DefinedIds(definitions), dependencies)
    && Acyclic(Elements(dependencies))
  }

  /** A plan is accepted exactly when its definitions are valid and its graph is acyclic. */
  ghost function PlanTasks(run: Id, definitions: seq<TaskDefinition>, dependencies: seq<Dependency>, meta: Envelope):
    Result<Plan>
  {
    if PlanAdmissible(run, definitions, dependencies)
    then Ok(PlannedTasks(run, definitions, dependencies, meta))
    else Err(Invalid)
  }

  method PlannedTaskIds(definitions: seq<TaskDefinition>) returns (ok: bool, ids: set<Id>)
    ensures ok <==> ValidDefinitions(definitions)
    ensures ok ==> ids == DefinedIds(definitions)
  {
    ids := {};
    if definitions == [] {
      return false, ids;
    }
    for k := 0 to |definitions|
      invariant forall i :: 0 <= i < k ==> ValidId(definitions[i].id) && definitions[i].maxAttempts != 0
      invariant forall i, j :: 0 <= i < j < k ==> definitions[i].id != definitions[j].id
      invariant ids == set i | 0 <= i < k :: definitions[i].id
    {
      var d := definitions[k];
      if !ValidId(d.id) || d.maxAttempts == 0 || d.id in ids {
        return false, ids;
      }
      ids := ids + {d.id};
    }
    ok := true;
  }

  method NewPlannedTasks(run: Id, definitions: seq<TaskDefinition>, dependencies: seq<Dependency>, meta: Envelope)
      returns (r: Result<Plan>)
    ensures r == PlanTasks(run, definitions, dependencies, meta)
  {
    hide Acyclic, ValidDefinitions, ValidDependencies, Describes;
    if !ValidId(run) {
      return Err(Invalid);
    }
    var valid, ids := PlannedTaskIds(definitions);
    if !valid {
      return Err(Invalid);
    }
    var admissible, incoming, adjacency := PlannedTaskGraph(ids, dependencies);
    if !admissible {
      return Err(Invalid);
    }
    EdgesInside(ids, dependencies);
    ghost var rank, cycle;
    var acyclic;
    acyclic, rank, cycle := TaskGraphAcyclic(ids, incoming, adjacency, Elements(dependencies));
    if !acyclic {
      return Err(Invalid);
    }
    var plan := BuildPlannedTasks(run, definitions, incoming, meta, dependencies, adjacency);
    return Ok(plan);
  }

  lemma {:induction false} EdgesInside(nodes: set<Id>, dependencies: seq<Dependency>)
    requires ValidDependencies(nodes, dependencies)
    ensures forall e :: e in Elements(dependencies) ==> e.task in nodes && e.dependsOn in nodes
  {
  }

  lemma {:induction false} BlockedByDegree(dependencies: seq<Dependency>, incoming: map<Id, nat>, adjacency: map<Id, seq<Id>>, id: Id)
    requires Describes(Elements(dependencies), incoming, adjacency)
    ensures HasPrerequisite(dependencies, id) <==> Degree(incoming, id) != 0
  {
    var unmet := Unmet(Elements(dependencies), id, {});
    assert Degree(incoming, id) == |unmet|;
    if HasPrerequisite(dependencies, id) {
      var i :| 0 <= i < |dependencies| && dependencies[i].task == id;
      assert dependencies[i] in unmet;
    } else {
      assert unmet == {};
    }
  }

  method BuildPlannedTasks(run: Id, definitions: seq<TaskDefinition>, incoming: map<Id, nat>, meta: Envelope,
                           ghost dependencies: seq<Dependency>, ghost adjacency: map<Id, seq<Id>>)
      returns (plan: Plan)
    requires Describes(Elements(dependencies), incoming, adjacency)
    ensures plan == PlannedTasks(run, definitions, dependencies, meta)
  {
    hide Describes, HasPrerequisite;
    var tasks, events := [], [];
    for k := 0 to |definitions|
      invariant |tasks| == |events| == k
      invariant forall i :: 0 <= i < k ==>
        tasks[i] == NewTask(run, definitions[i], HasPrerequisite(dependencies, definitions[i].id), meta.timestamp)
      invariant forall i :: 0 <= i < k ==>
        events[i] == NewTaskEvent(definitions[i], HasPrerequisite(dependencies, definitions[i].id), meta)
    {
      var d := definitions[k];
      BlockedByDegree(dependencies, incoming, adjacency, d.id);
      var blocked := Degree(incoming, d.id) != 0;
      tasks := tasks + [NewTask(run, d, blocked, meta.timestamp)];
      events := events + [NewTaskEvent(d, blocked, meta)];
    }
    plan := Plan(tasks, events);
  }
}
