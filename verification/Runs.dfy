/** The run aggregate: its snapshot, its seventeen commands and the pure transition
    each of them performs. */
module Runs {
  import opened Kernel
  import opened TaskGraph
  import opened Tasks

  datatype RunState =
    | DraftRun
    | SpecificationReview
    | TaskPlanning
    | TaskPlanReview
    | ReadyRun
    | ExecutingRun
    | VerifyingRun
    | ReviewingRun
    | ApprovalPending
    | MergeReady
    | MergedRun
    | RejectedRun
    | FailedRun
    | CancelledRun
  {
    predicate Terminal() {
      MergedRun? || RejectedRun? || FailedRun? || CancelledRun?
    }
  }

  datatype Run = Run(
    id: Id,
    state: RunState,
    revision: nat,
    specification: Option<ArtifactRef>,
    taskGraph: Option<ArtifactRef>,
    execution: Option<ArtifactRef>,
    candidateCommit: string,
    verification: Option<ArtifactRef>,
    review: Option<ArtifactRef>,
    approval: Option<ArtifactRef>,
    publication: Option<ArtifactRef>,
    merge: Option<ArtifactRef>,
    createdAt: Time,
    updatedAt: Time)

  predicate ValidRun(r: Run) {
    && ValidId(r.id)
    && r.revision != 0 && r.createdAt != 0 && r.updatedAt != 0
    && ValidBinding(r.specification) && ValidBinding(r.taskGraph) && ValidBinding(r.execution)
    && ValidBinding(r.verification) && ValidBinding(r.review) && ValidBinding(r.approval)
    && ValidBinding(r.publication) && ValidBinding(r.merge)
    && (r.candidateCommit != "" ==> IsCommit(r.candidateCommit))
  }

  datatype RunCommand =
    | CreateRun(meta: Envelope, id: Id)
    | ProposeSpecification(meta: Envelope, id: Id, specification: ArtifactRef)
    | RejectSpecification(meta: Envelope, id: Id, specification: ArtifactRef, reason: string, terminal: bool)
    | ApproveSpecification(meta: Envelope, id: Id, specification: ArtifactRef)
    | ProposeTaskGraph(meta: Envelope, id: Id, taskGraph: ArtifactRef)
    | RejectTaskGraph(meta: Envelope, id: Id, taskGraph: ArtifactRef, reason: string, terminal: bool)
    | ApproveTaskGraph(meta: Envelope, id: Id, taskGraph: ArtifactRef, tasks: seq<TaskDefinition>,
                       dependencies: seq<Dependency>)
    | StartRun(meta: Envelope, id: Id)
    | RecordRunExecution(meta: Envelope, id: Id, execution: ArtifactRef, candidateCommit: string)
    | RecordRunVerification(meta: Envelope, id: Id, candidateCommit: string, evidence: ArtifactRef)
    | RecordRunReview(meta: Envelope, id: Id, candidateCommit: string, review: ArtifactRef)
    | ApproveRun(meta: Envelope, id: Id, candidateCommit: string, review: ArtifactRef, approval: ArtifactRef)
    | RejectRun(meta: Envelope, id: Id, candidateCommit: string, review: ArtifactRef, reason: string)
    | RecordDraftPullRequest(meta: Envelope, id: Id, candidateCommit: string, approval: ArtifactRef,
                             publication: ArtifactRef)
    | RecordMerge(meta: Envelope, id: Id, candidateCommit: string, approval: ArtifactRef, merge: ArtifactRef)
    | FailRun(meta: Envelope, id: Id, evidence: ArtifactRef, reason: string)
    | CancelRun(meta: Envelope, id: Id, reason: string)

  predicate ValidRunCommand(c: RunCommand) {
    ValidEnvelope(c.meta) && ValidId(c.id)
  }

  datatype RunTransition = RunTransition(next: Run, eventType: EventType)

  /** Everything one run command writes besides task cancellations. */
  datatype RunDecision = RunDecision(next: Run, tasks: seq<Task>, dependencies: seq<Dependency>, events: seq<Event>)

  function CheckRunCommand(r: Run, c: RunCommand): Check {
    if !ValidRun(r) || !ValidRunCommand(c) || c.id != r.id then Fail(Invalid)
    else if c.meta.expectedRevision != r.revision then Fail(RevisionConflict)
    else if r.state.Terminal() then Fail(InvalidTransition)
    else Pass
  }

  function CheckReview(r: Run, in_: RunState, actor: Actor, bound: Option<ArtifactRef>, supplied: ArtifactRef): Check {
    if r.state != in_ then Fail(InvalidTransition)
    else if actor.kind != Human then Fail(Unauthorized)
    else CheckBound(bound, supplied)
  }

  /** A completion step's state, actor and candidate, in the order they are checked. */
  function CheckStep(r: Run, in_: RunState, actor: Actor, needs: ActorKind, candidateCommit: string): Check {
    if r.state != in_ then Fail(InvalidTransition)
    else if actor.kind != needs then Fail(Unauthorized)
    else Need(candidateCommit == r.candidateCommit, Invalid)
  }

  /** The only states a run may move between, and on which event. */
  predicate RunLegal(from: RunState, e: EventType, to: RunState) {
    match e
    case SpecificationProposed => from == DraftRun && to == SpecificationReview
    case SpecificationRejected => from == SpecificationReview && (to == DraftRun || to == RejectedRun)
    case SpecificationApproved => from == SpecificationReview && to == TaskPlanning
    case TaskGraphProposed => from == TaskPlanning && to == TaskPlanReview
    case TaskGraphRejected => from == TaskPlanReview && (to == TaskPlanning || to == RejectedRun)
    case TaskGraphApproved => from == TaskPlanReview && to == ReadyRun
    case RunExecutionStarted => from == ReadyRun && to == ExecutingRun
    case RunExecuted => from == ExecutingRun && to == VerifyingRun
    case RunVerified => from == VerifyingRun && to == ReviewingRun
    case RunReviewed => from == ReviewingRun && to == ApprovalPending
    case RunApproved => from == ApprovalPending && to == MergeReady
    case RunRejected => from == ApprovalPending && to == RejectedRun
    case DraftPullRequestCreated => from == MergeReady && to == MergeReady
    case RunMerged => from == MergeReady && to == MergedRun
    case RunFailed => !from.Terminal() && to == FailedRun
    case RunCancelled => !from.Terminal() && to == CancelledRun
    case _ => false
  }

  /** The event each command on an existing run emits. */
  function RunEventType(c: RunCommand): EventType {
    match c
    case CreateRun(_, _) => RunCreated
    case ProposeSpecification(_, _, _) => SpecificationProposed
    case RejectSpecification(_, _, _, _, _) => SpecificationRejected
    case ApproveSpecification(_, _, _) => SpecificationApproved
    case ProposeTaskGraph(_, _, _) => TaskGraphProposed
    case RejectTaskGraph(_, _, _, _, _) => TaskGraphRejected
    case ApproveTaskGraph(_, _, _, _, _) => TaskGraphApproved
    case StartRun(_, _) => RunExecutionStarted
    case RecordRunExecution(_, _, _, _) => RunExecuted
    case RecordRunVerification(_, _, _, _) => RunVerified
    case RecordRunReview(_, _, _, _) => RunReviewed
    case ApproveRun(_, _, _, _, _) => RunApproved
    case RejectRun(_, _, _, _, _) => RunRejected
    case RecordDraftPullRequest(_, _, _, _, _) => DraftPullRequestCreated
    case RecordMerge(_, _, _, _, _) => RunMerged
    case FailRun(_, _, _, _) => RunFailed
    case CancelRun(_, _, _) => RunCancelled
  }

  /** What every decided run transition guarantees. */
  ghost predicate LawfulRun(r: Run, c: RunCommand, d: RunTransition) {
    && d.eventType == RunEventType(c)
    && RunLegal(r.state, d.eventType, d.next.state)
    && d.next.id == r.id && d.next.createdAt == r.createdAt
    && (ValidRun(r) ==> ValidRun(d.next))
  }

  function DecideSpecification(r: Run, c: RunCommand): (d: Result<RunTransition>)
    requires c.ProposeSpecification? || c.RejectSpecification? || c.ApproveSpecification?
    ensures d.Ok? ==> LawfulRun(r, c, d.value)
  {
    match c {
      case ProposeSpecification(meta, _, specification) =>
        :- Need(r.state == DraftRun, InvalidTransition);
        :- Need(meta.actor.kind == WorkflowService, Unauthorized);
        :- Need(ValidArtifact(specification), Invalid);
        Ok(RunTransition(r.(specification := Some(specification), state := SpecificationReview), SpecificationProposed))
      case RejectSpecification(meta, _, specification, reason, terminal) =>
        :- CheckReview(r, SpecificationReview, meta.actor, r.specification, specification);
        :- Need(ValidReason(reason), Invalid);
        Ok(RunTransition(r.(state := if terminal then RejectedRun else DraftRun), SpecificationRejected))
      case ApproveSpecification(meta, _, specification) =>
        :- CheckReview(r, SpecificationReview, meta.actor, r.specification, specification);
        Ok(RunTransition(r.(state := TaskPlanning), SpecificationApproved))
    }
  }

  function DecideTaskGraph(r: Run, c: RunCommand): (d: Result<RunTransition>)
    requires c.ProposeTaskGraph? || c.RejectTaskGraph?
    ensures d.Ok? ==> LawfulRun(r, c, d.value)
  {
    match c {
      case ProposeTaskGraph(meta, _, taskGraph) =>
        :- Need(r.state == TaskPlanning, InvalidTransition);
        :- Need(meta.actor.kind == WorkflowService, Unauthorized);
        :- Need(ValidArtifact(taskGraph), Invalid);
        Ok(RunTransition(r.(taskGraph := Some(taskGraph), state := TaskPlanReview), TaskGraphProposed))
      case RejectTaskGraph(meta, _, taskGraph, reason, terminal) =>
        :- CheckReview(r, TaskPlanReview, meta.actor, r.taskGraph, taskGraph);
        :- Need(ValidReason(reason), Invalid);
        Ok(RunTransition(r.(state := if terminal then RejectedRun else TaskPlanning), TaskGraphRejected))
    }
  }

  function DecideStart(r: Run, c: RunCommand): (d: Result<RunTransition>)
    requires c.StartRun?
    ensures d.Ok? ==> LawfulRun(r, c, d.value)
  {
    var actor := c.meta.actor.kind;
    :- Need(r.state == ReadyRun, InvalidTransition);
    :- Need(actor == WorkflowService, Unauthorized);
    Ok(RunTransition(r.(state := ExecutingRun), RunExecutionStarted))
  }

  function DecideRunExecution(r: Run, c: RunCommand): (d: Result<RunTransition>)
    requires c.RecordRunExecution?
    ensures d.Ok? ==> LawfulRun(r, c, d.value)
  {
    var actor := c.meta.actor.kind;
    :- Need(r.state == ExecutingRun, InvalidTransition);
    :- Need(actor == ExecutionService, Unauthorized);
    :- Need(ValidArtifact(c.execution) && IsCommit(c.candidateCommit), Invalid);
    Ok(RunTransition(r.(execution := Some(c.execution), candidateCommit := c.candidateCommit, state := VerifyingRun),
                     RunExecuted))
  }

  function DecideRunEvidence(r: Run, c: RunCommand): (d: Result<RunTransition>)
    requires c.RecordRunVerification? || c.RecordRunReview?
    ensures d.Ok? ==> LawfulRun(r, c, d.value)
  {
    match c {
      case RecordRunVerification(meta, _, commit, evidence) =>
        :- CheckStep(r, VerifyingRun, meta.actor, VerificationService, commit);
        :- Need(ValidArtifact(evidence), Invalid);
        Ok(RunTransition(r.(verification := Some(evidence), state := ReviewingRun), RunVerified))
      case RecordRunReview(meta, _, commit, review) =>
        :- CheckStep(r, ReviewingRun, meta.actor, ReviewService, commit);
        :- Need(ValidArtifact(review), Invalid);
        Ok(RunTransition(r.(review := Some(review), state := ApprovalPending), RunReviewed))
    }
  }

  function DecideRunVerdict(r: Run, c: RunCommand): (d: Result<RunTransition>)
    requires c.ApproveRun? || c.RejectRun?
    ensures d.Ok? ==> LawfulRun(r, c, d.value)
  {
    var actor := c.meta.actor;
    :- CheckStep(r, ApprovalPending, actor, Human, c.candidateCommit);
    :- CheckBound(r.review, c.review);
    match c {
      case ApproveRun(_, _, _, _, approval) =>
        :- Need(ValidArtifact(approval), Invalid);
        Ok(RunTransition(r.(approval := Some(approval), state := MergeReady), RunApproved))
      case RejectRun(_, _, _, _, reason) =>
        :- Need(ValidReason(reason), Invalid);
        Ok(RunTransition(r.(state := RejectedRun), RunRejected))
    }
  }

  function DecidePublication(r: Run, c: RunCommand): (d: Result<RunTransition>)
    requires c.RecordDraftPullRequest? || c.RecordMerge?
    ensures d.Ok? ==> LawfulRun(r, c, d.value)
  {
    match c {
      case RecordDraftPullRequest(meta, _, commit, approval, publication) =>
        :- CheckStep(r, MergeReady, meta.actor, PublicationService, commit);
        :- CheckBound(r.approval, approval);
        :- Need(ValidArtifact(publication) && r.publication.None?, Invalid);
        Ok(RunTransition(r.(publication := Some(publication)), DraftPullRequestCreated))
      case RecordMerge(meta, _, commit, approval, merge) =>
        :- CheckStep(r, MergeReady, meta.actor, MergeService, commit);
        :- CheckBound(r.approval, approval);
        :- Need(ValidArtifact(merge), Invalid);
        Ok(RunTransition(r.(merge := Some(merge), state := MergedRun), RunMerged))
    }
  }

  function DecideEnd(r: Run, c: RunCommand): (d: Result<RunTransition>)
    requires c.FailRun? || c.CancelRun?
    ensures d.Ok? ==> LawfulRun(r, c, d.value)
  {
    var actor := c.meta.actor.kind;
    :- Need(!r.state.Terminal(), InvalidTransition);
    match c {
      case FailRun(_, _, evidence, reason) =>
        :- Need(TrustedOperationalActor(actor), Unauthorized);
        :- Need(ValidArtifact(evidence) && ValidReason(reason), Invalid);
        Ok(RunTransition(r.(state := FailedRun), RunFailed))
      case CancelRun(_, _, reason) =>
        :- Need(actor == Human, Unauthorized);
        :- Need(ValidReason(reason), Invalid);
        Ok(RunTransition(r.(state := CancelledRun), RunCancelled))
    }
  }

  /** The transition each command asks for; creation and graph approval have their own. */
  function DecideRun(r: Run, c: RunCommand): (d: Result<RunTransition>)
    ensures d.Ok? ==> LawfulRun(r, c, d.value) && !c.CreateRun? && !c.ApproveTaskGraph?
  {
    match c
    case ProposeSpecification(_, _, _) => DecideSpecification(r, c)
    case RejectSpecification(_, _, _, _, _) => DecideSpecification(r, c)
    case ApproveSpecification(_, _, _) => DecideSpecification(r, c)
    case ProposeTaskGraph(_, _, _) => DecideTaskGraph(r, c)
    case RejectTaskGraph(_, _, _, _, _) => DecideTaskGraph(r, c)
    case StartRun(_, _) => DecideStart(r, c)
    case RecordRunExecution(_, _, _, _) => DecideRunExecution(r, c)
    case RecordRunVerification(_, _, _, _) => DecideRunEvidence(r, c)
    case RecordRunReview(_, _, _, _) => DecideRunEvidence(r, c)
    case ApproveRun(_, _, _, _, _) => DecideRunVerdict(r, c)
    case RejectRun(_, _, _, _, _) => DecideRunVerdict(r, c)
    case RecordDraftPullRequest(_, _, _, _, _) => DecidePublication(r, c)
    case RecordMerge(_, _, _, _, _) => DecidePublication(r, c)
    case FailRun(_, _, _, _) => DecideEnd(r, c)
    case CancelRun(_, _, _) => DecideEnd(r, c)
    case CreateRun(_, _) => Err(Invalid)
    case ApproveTaskGraph(_, _, _, _, _) => Err(Invalid)
  }

  function RunEvent(r: Run, eventType: EventType, meta: Envelope): Event {
    NewEvent(meta.commandId, RunAggregate, r.id, r.revision, eventType, meta)
  }

  function NewRun(c: RunCommand): Result<RunDecision>
    requires c.CreateRun?
  {
    var actor := c.meta.actor.kind;
    :- Need(ValidRunCommand(c), Invalid);
    :- Need(c.meta.expectedRevision == 0, RevisionConflict);
    :- Need(actor == Human || actor == WorkflowService, Unauthorized);
    var next := Run(c.id, DraftRun, 1, None, None, None, "", None, None, None, None, None,
                    c.meta.timestamp, c.meta.timestamp);
    Ok(RunDecision(next, [], [], [RunEvent(next, RunCreated, c.meta)]))
  }

  function ApplyRun(r: Run, c: RunCommand): Result<RunDecision> {
    var meta := c.meta;
    :- CheckRunCommand(r, c);
    var transition :- DecideRun(r, c);
    var next := transition.next.(revision := r.revision + 1, updatedAt := meta.timestamp);
    Ok(RunDecision(next, [], [], [RunEvent(next, transition.eventType, meta)]))
  }

  /** Everything a graph approval checks before it plans. */
  function CheckApproval(r: Run, c: RunCommand): Check
    requires c.ApproveTaskGraph?
  {
    if !ValidRun(r) || !ValidRunCommand(c) || c.id != r.id then Fail(Invalid)
    else if c.meta.expectedRevision != r.revision then Fail(RevisionConflict)
    else CheckReview(r, TaskPlanReview, c.meta.actor, r.taskGraph, c.taskGraph)
  }

  function ApprovedRun(r: Run, meta: Envelope): Run {
    r.(state := ReadyRun, revision := r.revision + 1, updatedAt := meta.timestamp)
  }

  ghost function ApproveGraph(r: Run, c: RunCommand): Result<RunDecision>
    requires c.ApproveTaskGraph?
  {
    var meta := c.meta;
    :- CheckApproval(r, c);
    var plan :- PlanTasks(r.id, c.tasks, c.dependencies, meta);
    var next := ApprovedRun(r, meta);
    Ok(RunDecision(next, plan.tasks, c.dependencies, [RunEvent(next, TaskGraphApproved, meta)] + plan.events))
  }

  /** One command against one run snapshot. */
  ghost function Decision(r: Run, c: RunCommand): Result<RunDecision> {
    if c.ApproveTaskGraph? then ApproveGraph(r, c) else ApplyRun(r, c)
  }

  method ApplyApproval(r: Run, c: RunCommand) returns (d: Result<RunDecision>)
    requires c.ApproveTaskGraph?
    ensures d == ApproveGraph(r, c)
  {
    hide PlanTasks, ValidRun;
    var check := CheckApproval(r, c);
    if check.Fail? {
      return Err(check.error);
    }
    var plan := NewPlannedTasks(r.id, c.tasks, c.dependencies, c.meta);
    if plan.Err? {
      return Err(plan.error);
    }
    var next := ApprovedRun(r, c.meta);
    return Ok(RunDecision(next, plan.value.tasks, c.dependencies,
                          [RunEvent(next, TaskGraphApproved, c.meta)] + plan.value.events));
  }
}
