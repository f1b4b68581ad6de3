/** The runtime ledger of stage jobs: what each guarded statement does to the job table,
    and the class that executes them. */
module Jobs {
  import opened Kernel

  datatype Stage =
    | StartStage
    | RequestStage
    | ReasoningStage
    | ExecutionStage
    | VerificationStage
    | ReviewStage
    | ApprovalStage

  const ORDERED_STAGES: seq<Stage> :=
    [StartStage, RequestStage, ReasoningStage, ExecutionStage, VerificationStage, ReviewStage, ApprovalStage]

  function Position(stage: Stage): nat {
    match stage
    case StartStage => 0
    case RequestStage => 1
    case ReasoningStage => 2
    case ExecutionStage => 3
    case VerificationStage => 4
    case ReviewStage => 5
    case ApprovalStage => 6
  }

  /** The attempt at a task that a job works for. */
  datatype Key = Key(run: Id, task: Id, attempt: nat)

  /** A job identity: the name-based UUID of a job's key and stage, or any other UUID. */
  datatype JobId = Stable(key: Key, stage: Stage) | Foreign(n: nat)

  datatype JobState = ReadyJob | ClaimedJob | RetryJob | CompletedJob | FailedJob | CancelledJob {
    predicate Terminal() {
      CompletedJob? || FailedJob? || CancelledJob?
    }
  }

  datatype Claim = Claim(owner: Id, expiresAt: Time)

  datatype Job = Job(
    id: JobId,
    key: Key,
    stage: Stage,
    state: JobState,
    availableAt: Time,
    claim: Option<Claim>,
    fence: nat,
    retryCount: nat,
    transientCount: nat,
    result: Option<ArtifactRef>,
    failure: Option<ArtifactRef>)

  type Table = map<JobId, Job>

  datatype Refusal = Conflict | NoSuchJob | StaleFence | TerminalJob | InvalidArtifact

  datatype Outcome = Done(table: Table) | Refused(reason: Refusal)

  // ----- Statements -----

  function NewJob(id: JobId, key: Key, stage: Stage, at: Time): Job {
    Job(id, key, stage, ReadyJob, at, None, 0, 0, 0, None, None)
  }

  /** Some row already stands for this stage of this attempt. */
  predicate Occupied(table: Table, key: Key, stage: Stage) {
    exists id :: id in table && table[id].key == key && table[id].stage == stage
  }

  /** Insert a job, or accept the row that is already there when it is the same job. */
  function EnqueueJob(table: Table, id: JobId, key: Key, stage: Stage, at: Time): Outcome {
    if id !in table && !Occupied(table, key, stage) then Done(table[id := NewJob(id, key, stage, at)])
    else if !Occupied(table, key, stage) then Refused(NoSuchJob)
    else if id in table && table[id].key == key && table[id].stage == stage then Done(table)
    else Refused(Conflict)
  }

  predicate Eligible(job: Job, now: Time) {
    && !job.state.Terminal()
    && job.availableAt <= now
    && (job.state == ClaimedJob ==> job.claim.Some? && job.claim.value.expiresAt <= now)
  }

  function Taken(job: Job, owner: Id, now: Time, ttl: int): Job {
    job.(state := ClaimedJob, claim := Some(Claim(owner, now + ttl)), fence := job.fence + 1)
  }

  /** The row is claimed by this owner under this token. */
  predicate Holds(table: Table, id: JobId, owner: Id, fence: nat) {
    && id in table && table[id].state == ClaimedJob && table[id].fence == fence
    && table[id].claim.Some? && table[id].claim.value.owner == owner
  }

  function Classify(table: Table, id: JobId): Refusal {
    if id !in table then NoSuchJob
    else if table[id].state.Terminal() then TerminalJob
    else StaleFence
  }

  function RenewJob(table: Table, id: JobId, owner: Id, fence: nat, expires: Time): Outcome {
    if Holds(table, id, owner, fence)
    then Done(table[id := table[id].(claim := Some(Claim(owner, expires)))])
    else Refused(Classify(table, id))
  }

  function Finished(job: Job, result: ArtifactRef): Job {
    job.(state := CompletedJob, result := Some(result), claim := None)
  }

  /** Complete a job and enqueue its successor, both or neither. */
  function CompleteJob(table: Table, id: JobId, owner: Id, fence: nat, result: ArtifactRef,
                       next: Option<(JobId, Key, Stage, Time)>): Outcome
  {
    if !ValidArtifact(result) then Refused(InvalidArtifact)
    else if !Holds(table, id, owner, fence) then Refused(Classify(table, id))
    else
      var completed := table[id := Finished(table[id], result)];
      if next.None? then Done(completed)
      else EnqueueJob(completed, next.value.0, next.value.1, next.value.2, next.value.3)
  }

  function RetryLater(table: Table, id: JobId, owner: Id, fence: nat, available: Time): Outcome {
    if Holds(table, id, owner, fence)
    then Done(table[id := table[id].(state := RetryJob, retryCount := table[id].retryCount + 1,
                                     availableAt := available, claim := None)])
    else Refused(Classify(table, id))
  }

  function RescheduleLater(table: Table, id: JobId, owner: Id, fence: nat, available: Time): Outcome {
    if Holds(table, id, owner, fence)
    then Done(table[id := table[id].(state := RetryJob, transientCount := table[id].transientCount + 1,
                                     availableAt := available, claim := None)])
    else Refused(Classify(table, id))
  }

  function FailJob(table: Table, id: JobId, owner: Id, fence: nat, failure: ArtifactRef): Outcome {
    if !ValidArtifact(failure) then Refused(InvalidArtifact)
    else if Holds(table, id, owner, fence)
    then Done(table[id := table[id].(state := FailedJob, failure := Some(failure), claim := None)])
    else Refused(Classify(table, id))
  }

  function CancelJobs(table: Table, run: Id): Table {
    map id | id in table ::
      if table[id].key.run == run && !table[id].state.Terminal()
      then table[id].(state := CancelledJob, claim := None)
      else table[id]
  }

  /** A completed row holds the result of this stage of this attempt. */
  ghost predicate Finds(table: Table, key: Key, stage: Stage, result: ArtifactRef) {
    exists id :: id in table && table[id].key == key && table[id].stage == stage
                 && table[id].state == CompletedJob && table[id].result == Some(result)
  }

  function After(o: Outcome, table: Table): Table {
    if o.Done? then o.table else table
  }

  function Reason(o: Outcome): Option<Refusal> {
    if o.Refused? then Some(o.reason) else None
  }

  /** Some unlocked row may be claimed now. */
  ghost predicate Claimable(table: Table, locked: set<JobId>, now: Time, id: JobId) {
    id in table && id !in locked && Eligible(table[id], now)
  }

  /** The order rows are offered in: by time, then by identity. */
  predicate Before(table: Table, order: JobId -> int, a: JobId, b: JobId)
    requires a in table && b in table
  {
    table[a].availableAt < table[b].availableAt
    || (table[a].availableAt == table[b].availableAt && order(a) < order(b))
  }

  /** What looking up a stage's result gives. */
  datatype Lookup = Found(result: ArtifactRef) | Missing | Corrupt

  class Ledger {
    var table: Table

    constructor ()
      ensures table == map[]
    {
      table := map[];
    }

    method Enqueue(id: JobId, key: Key, stage: Stage, at: Time) returns (refusal: Option<Refusal>)
      modifies this
      ensures var o := EnqueueJob(old(table), id, key, stage, at);
        table == After(o, old(table)) && refusal == Reason(o)
    {
      var occupied := Occupied(table, key, stage);
      if id !in table && !occupied {
        table := table[id := NewJob(id, key, stage, at)];
        return None;
      }
      if !occupied {
        return Some(NoSuchJob);
      }
      if id !in table || table[id].key != key || table[id].stage != stage {
        return Some(Conflict);
      }
      return None;
    }

    /** Claim the first eligible row nobody else has locked, by time and then by the order of
        identities. */
    method ClaimNext(owner: Id, now: Time, ttl: int, locked: set<JobId>, order: JobId -> int)
        returns (job: Option<Job>, ghost id: JobId)
      modifies this
      ensures job.None? ==> table == old(table) && forall other :: !Claimable(table, locked, now, other)
      ensures job.Some? ==>
        && Claimable(old(table), locked, now, id)
        && job.value == Taken(old(table)[id], owner, now, ttl)
        && table == old(table)[id := job.value]
        && forall other :: Claimable(old(table), locked, now, other) ==> !Before(old(table), order, other, id)
    {
      id := Foreign(0);
      var left := table.Keys;
      var best: Option<JobId> := None;
      while left != {}
        invariant left <= table.Keys && table == old(table)
        invariant best.Some? ==> Claimable(table, locked, now, best.value)
        invariant forall other :: other in table.Keys - left && Claimable(table, locked, now, other) ==>
          best.Some? && !Before(table, order, other, best.value)
      {
        var candidate :| candidate in left;
        left := left - {candidate};
        if candidate !in locked && Eligible(table[candidate], now)
           && (best.None? || Before(table, order, candidate, best.value)) {
          best := Some(candidate);
        }
      }
      if best.None? {
        return None, id;
      }
      id := best.value;
      var taken := Taken(table[best.value], owner, now, ttl);
      table := table[best.value := taken];
      return Some(taken), id;
    }

    /** Extends a claim exactly while it is in force: the row keeps its holder and token and
        everything else it records, and no other row changes. A refusal says why. */
    method Renew(id: JobId, owner: Id, fence: nat, expires: Time) returns (refusal: Option<Refusal>)
      modifies this
      ensures refusal.None? <==> Holds(old(table), id, owner, fence)
      ensures refusal.None? ==>
        && Holds(table, id, owner, fence) && table[id].claim.value.expiresAt == expires
        && table[id].(claim := None) == old(table)[id].(claim := None)
      ensures table.Keys == old(table).Keys && forall other :: other in table && other != id ==> table[other] == old(table)[other]
      ensures refusal.Some? ==> table == old(table)
      ensures refusal == Some(NoSuchJob) <==> id !in old(table)
      ensures refusal == Some(TerminalJob) <==> id in old(table) && old(table)[id].state.Terminal()
      ensures refusal.Some? ==> refusal.value in {NoSuchJob, TerminalJob, StaleFence}
    {
      if !Holds(table, id, owner, fence) {
        return Some(Classify(table, id));
      }
      table := table[id := table[id].(claim := Some(Claim(owner, expires)))];
      return None;
    }

    /** Completes first and rolls the completion back when the successor is refused. */
    method CompleteAndEnqueue(id: JobId, owner: Id, fence: nat, result: ArtifactRef,
                              next: Option<(JobId, Key, Stage, Time)>) returns (refusal: Option<Refusal>)
      modifies this
      ensures var o := CompleteJob(old(table), id, owner, fence, result, next);
        table == After(o, old(table)) && refusal == Reason(o)
    {
      if !ValidArtifact(result) {
        return Some(InvalidArtifact);
      }
      if !Holds(table, id, owner, fence) {
        return Some(Classify(table, id));
      }
      var saved := table;
      table := table[id := Finished(table[id], result)];
      refusal := None;
      if next.Some? {
        refusal := Enqueue(next.value.0, next.value.1, next.value.2, next.value.3);
        if refusal.Some? {
          table := saved;
        }
      }
    }

    method Retry(id: JobId, owner: Id, fence: nat, available: Time) returns (refusal: Option<Refusal>)
      modifies this
      ensures var o := RetryLater(old(table), id, owner, fence, available);
        table == After(o, old(table)) && refusal == Reason(o)
    {
      if !Holds(table, id, owner, fence) {
        return Some(Classify(table, id));
      }
      table := table[id := table[id].(state := RetryJob, retryCount := table[id].retryCount + 1,
                                      availableAt := available, claim := None)];
      return None;
    }

    method RescheduleTransient(id: JobId, owner: Id, fence: nat, available: Time) returns (refusal: Option<Refusal>)
      modifies this
      ensures var o := RescheduleLater(old(table), id, owner, fence, available);
        table == After(o, old(table)) && refusal == Reason(o)
    {
      if !Holds(table, id, owner, fence) {
        return Some(Classify(table, id));
      }
      table := table[id := table[id].(state := RetryJob, transientCount := table[id].transientCount + 1,
                                      availableAt := available, claim := None)];
      return None;
    }

    method Fail(id: JobId, owner: Id, fence: nat, failure: ArtifactRef) returns (refusal: Option<Refusal>)
      modifies this
      ensures var o := FailJob(old(table), id, owner, fence, failure);
        table == After(o, old(table)) && refusal == Reason(o)
    {
      if !ValidArtifact(failure) {
        return Some(InvalidArtifact);
      }
      if !Holds(table, id, owner, fence) {
        return Some(Classify(table, id));
      }
      table := table[id := table[id].(state := FailedJob, failure := Some(failure), claim := None)];
      return None;
    }

    method CancelRun(run: Id)
      modifies this
      ensures table == CancelJobs(old(table), run)
    {
      var left := table.Keys;
      while left != {}
        invariant left <= table.Keys == old(table).Keys
        invariant forall id :: id in table ==>
          table[id] == if id in left then old(table)[id] else CancelJobs(old(table), run)[id]
      {
        var id :| id in left;
        left := left - {id};
        if table[id].key.run == run && !table[id].state.Terminal() {
          table := table[id := table[id].(state := CancelledJob, claim := None)];
        }
      }
    }

    /** A stored result is handed out only if it is still a valid reference. */
    method PreviousResult(key: Key, stage: Stage) returns (found: Lookup)
      ensures found.Found? ==> Finds(table, key, stage, found.result) && ValidArtifact(found.result)
      ensures found.Corrupt? ==> exists ref :: Finds(table, key, stage, ref) && !ValidArtifact(ref)
      ensures found.Missing? <==> forall ref :: !Finds(table, key, stage, ref)
    {
      var left := table.Keys;
      while left != {}
        invariant left <= table.Keys
        invariant forall id :: id in table && id !in left ==>
          !(table[id].key == key && table[id].stage == stage && table[id].state == CompletedJob && table[id].result.Some?)
      {
        var id :| id in left;
        left := left - {id};
        var row := table[id];
        if row.key == key && row.stage == stage && row.state == CompletedJob && row.result.Some? {
          assert Finds(table, key, stage, row.result.value);
          return if ValidArtifact(row.result.value) then Found(row.result.value) else Corrupt;
        }
      }
      return Missing;
    }
  }
}
