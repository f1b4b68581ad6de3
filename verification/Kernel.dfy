/** Values shared by every part of the workflow kernel: identities, actors,
    artifact references, command envelopes and the kernel's errors. */
module Kernel {

  /** A UUID as the kernel sees it. `Parsed` stands for any text the UUID parser
      accepts, `Malformed` for any text it refuses, and `Named` for the version 5
      (name-based) UUID of a subject and name inside a namespace. Name-based
      UUIDs are treated as injective, which the constructors make literal; a
      client may still present a `Named` value as its own identity. */
  datatype Id =
    | Parsed(n: nat)
    | Named(space: Id, subject: Id, name: string)
    | Malformed(text: string)

  predicate ValidId(id: Id) {
    !id.Malformed?
  }

  datatype Option<+T> = None | Some(value: T)

  datatype Error =
    | Invalid
    | InvalidTransition
    | Unauthorized
    | RevisionConflict
    | CommandConflict
    | NotFound
    | StorageFailure
    | InjectedFault

  datatype Result<+T> = Ok(value: T) | Err(error: Error) {
    predicate IsFailure() {
      Err?
    }

    function PropagateFailure<U>(): Result<U>
      requires Err?
    {
      Err(error)
    }

    function Extract(): T
      requires Ok?
    {
      value
    }
  }

  /** A check that either passes or names the error it raises. */
  datatype Check = Pass | Fail(error: Error) {
    predicate IsFailure() {
      Fail?
    }

    function PropagateFailure<U>(): Result<U>
      requires Fail?
    {
      Err(error)
    }
  }

  function Need(condition: bool, error: Error): Check {
    if condition then Pass else Fail(error)
  }

  /** Time in microseconds, the resolution PostgreSQL keeps and lease equality
      uses. Zero is Go's zero time, which every validator refuses. */
  type Time = int

  datatype ActorKind =
    | Human
    | WorkflowService
    | ReasoningService
    | ExecutionService
    | VerificationService
    | ReviewService
    | PublicationService
    | MergeService
    | Python
    | Model
    | UnknownActor(name: string)

  datatype Actor = Actor(id: Id, kind: ActorKind)

  predicate ValidActor(actor: Actor) {
    ValidId(actor.id) && !actor.kind.UnknownActor?
  }

  predicate TrustedOperationalActor(kind: ActorKind) {
    kind in {WorkflowService, ReasoningService, ExecutionService, VerificationService, ReviewService}
  }

  /** An artifact URI together with the URL parser's verdict on it. */
  datatype Uri = Absolute(text: string) | NotAbsolute(text: string)

  datatype ArtifactRef = ArtifactRef(uri: Uri, digest: string)

  predicate IsLowerHex(s: string, length: nat) {
    |s| == length && forall i :: 0 <= i < |s| ==> '0' <= s[i] <= '9' || 'a' <= s[i] <= 'f'
  }

  predicate ValidArtifact(a: ArtifactRef) {
    a.uri.Absolute? && IsLowerHex(a.digest, 64)
  }

  predicate ValidBinding(binding: Option<ArtifactRef>) {
    binding.Some? ==> ValidArtifact(binding.value)
  }

  predicate IsCommit(s: string) {
    IsLowerHex(s, 40)
  }

  predicate IsSpace(c: char) {
    c in {' ', '\t', '\n', '\r', '\U{0B}', '\U{0C}', '\U{85}', '\U{A0}', '\U{1680}', '\U{2028}',
          '\U{2029}', '\U{202F}', '\U{205F}', '\U{3000}'} || '\U{2000}' <= c <= '\U{200A}'
  }

  /** A reason is valid when it is not blank after trimming white space. */
  predicate ValidReason(reason: string) {
    exists i :: 0 <= i < |reason| && !IsSpace(reason[i])
  }

  datatype Envelope = Envelope(
    commandId: Id,
    actor: Actor,
    expectedRevision: nat,
    timestamp: Time,
    correlationId: Id,
    causationId: Id)

  predicate ValidEnvelope(meta: Envelope) {
    && ValidId(meta.commandId) && ValidId(meta.correlationId) && ValidId(meta.causationId)
    && ValidActor(meta.actor)
    && meta.timestamp != 0
  }

  /** A supplied artifact must be valid and equal to the one already bound. */
  function CheckBound(bound: Option<ArtifactRef>, supplied: ArtifactRef): Check {
    Need(ValidArtifact(supplied) && bound == Some(supplied), Invalid)
  }

  datatype AggregateKind = RunAggregate | TaskAggregate

  datatype EventType =
    | RunCreated
    | SpecificationProposed
    | SpecificationRejected
    | SpecificationApproved
    | TaskGraphProposed
    | TaskGraphRejected
    | TaskGraphApproved
    | RunExecutionStarted
    | RunExecuted
    | RunVerified
    | RunReviewed
    | RunApproved
    | RunRejected
    | DraftPullRequestCreated
    | RunMerged
    | RunFailed
    | RunCancelled
    | TaskCreated
    | TaskReady
    | TaskLeased
    | TaskLeaseReleased
    | TaskReasoningStarted
    | TaskProposalRejected
    | TaskExecutionStarted
    | TaskExecuted
    | TaskVerified
    | TaskVerificationFailed
    | TaskReviewed
    | TaskReviewFailed
    | TaskAccepted
    | TaskReworkRequired
    | TaskRetryReady
    | TaskAttemptsExhausted
    | TaskFailed
    | TaskCancelled

  /** One row of the append-only event table (its JSON payload is not modelled). */
  datatype Event = Event(
    id: Id,
    commandId: Id,
    kind: AggregateKind,
    aggregate: Id,
    revision: nat,
    eventType: EventType,
    timestamp: Time,
    actor: Actor,
    correlationId: Id,
    causationId: Id)

  function NewEvent(id: Id, kind: AggregateKind, aggregate: Id, revision: nat, eventType: EventType,
                    meta: Envelope): Event
  {
    Event(id, meta.commandId, kind, aggregate, revision, eventType, meta.timestamp, meta.actor,
          meta.correlationId, meta.causationId)
  }
}
