/** The job pipeline: any number of workers, with any clocks, crashing
    anywhere, acting on claims that may long have been superseded. Times and delays
    count nanoseconds here, the unit durations are configured in. */
module Pipeline {
  import opened Kernel
  import opened Jobs

  // ----- Backoff -----

  const MINUTE: nat := 60_000_000_000

  function Pow2(n: nat): nat {
    if n == 0 then 1 else 2 * Pow2(n - 1)
  }

  function Min(a: int, b: int): int {
    if a < b then a else b
  }

  // ----- Stages -----

  function Successor(stage: Stage): Option<Stage> {
    if Position(stage) + 1 < |ORDERED_STAGES| then Some(ORDERED_STAGES[Position(stage) + 1]) else None
  }

  lemma {:induction false} StageAt(i: nat)
    requires i < |ORDERED_STAGES|
    ensures Position(ORDERED_STAGES[i]) == i
  {
  }

  lemma {:induction false} StagePosition(stage: Stage)
    ensures Position(stage) < |ORDERED_STAGES| && ORDERED_STAGES[Position(stage)] == stage
  {
  }

  lemma {:induction false} SuccessorFollows(stage: Stage)
    ensures Successor(stage).Some? ==>
      Position(Successor(stage).value) == Position(stage) + 1 && Previous(Successor(stage).value) == stage
  {
    StagePosition(stage);
    if Successor(stage).Some? {
      StageAt(Position(stage) + 1);
    }
  }

  function Previous(stage: Stage): Stage {
    if Position(stage) == 0 then stage else ORDERED_STAGES[Position(stage) - 1]
  }

  /** The earlier stages whose results each handler looks up. */
  function Lookups(stage: Stage): set<Stage> {
    match stage
    case StartStage => {}
    case RequestStage => {}
    case ReasoningStage => {RequestStage}
    case ExecutionStage => {RequestStage, ReasoningStage}
    case VerificationStage => {RequestStage, ExecutionStage}
    case ReviewStage => {RequestStage, ReasoningStage, ExecutionStage, VerificationStage}
    case ApprovalStage => {ReviewStage}
  }

  // ----- The system -----

  /** A worker's own settings. */
  datatype Config = Config(maxRetries: nat, initialBackoff: nat)

  /** How a handler failed: it was interrupted, it met a database conflict, or anything else. */
  datatype FailureKind = Interrupted | Transient | Ordinary

  /** The job table and every claim ever handed to a worker. */
  datatype System = System(table: Table, issued: set<Job>)

  const INITIAL: System := System(map[], {})

  /** One atomic step. Workers act on a claim they were once given, at any later time. */
  datatype Step =
    | EnqueueStart(key: Key, at: Time)
    | ClaimStep(id: JobId, owner: Id, now: Time, ttl: int)
    | RenewStep(held: Job, expires: Time)
    | CompleteStep(held: Job, result: ArtifactRef, continues: bool, at: Time)
    | FailureStep(held: Job, config: Config, kind: FailureKind, now: Time, failure: ArtifactRef)
    | CancelStep(run: Id)

  function Owner(held: Job): Id {
    if held.claim.Some? then held.claim.value.owner else Malformed("")
  }

  /** The successor a completing worker asks for. */
  function NextJob(held: Job, continues: bool, at: Time): Option<(JobId, Key, Stage, Time)> {
    var next := Successor(held.stage);
    if continues && next.Some? then Some((Stable(held.key, next.value), held.key, next.value, at)) else None
  }

  function Delay(config: Config, count: nat): int {
    Min(config.initialBackoff * Pow2(count), MINUTE)
  }

  /** What a worker does about a failed handler, judging by the counts it read at its claim. */
  function Failure(config: Config, table: Table, held: Job, kind: FailureKind, now: Time, failure: ArtifactRef): Outcome {
    match kind
    case Interrupted => Done(table)
    case Transient =>
      if held.transientCount + 1 >= config.maxRetries
      then FailJob(table, held.id, Owner(held), held.fence, failure)
      else RescheduleLater(table, held.id, Owner(held), held.fence, now + Delay(config, held.transientCount))
    case Ordinary =>
      if held.retryCount + 1 < config.maxRetries
      then RetryLater(table, held.id, Owner(held), held.fence, now + Delay(config, held.retryCount))
      else FailJob(table, held.id, Owner(held), held.fence, failure)
  }

  function Next(s: System, step: Step): System {
    match step
    case EnqueueStart(key, at) =>
      s.(table := After(EnqueueJob(s.table, Stable(key, StartStage), key, StartStage, at), s.table))
    case ClaimStep(id, owner, now, ttl) =>
      if id in s.table && Eligible(s.table[id], now)
      then var taken := Taken(s.table[id], owner, now, ttl);
           System(s.table[id := taken], s.issued + {taken})
      else s
    case RenewStep(held, expires) =>
      if held in s.issued
      then s.(table := After(RenewJob(s.table, held.id, Owner(held), held.fence, expires), s.table))
      else s
    case CompleteStep(held, result, continues, at) =>
      if held in s.issued
      then s.(table := After(CompleteJob(s.table, held.id, Owner(held), held.fence, result,
                                         NextJob(held, continues, at)), s.table))
      else s
    case FailureStep(held, config, kind, now, failure) =>
      if held in s.issued
      then s.(table := After(Failure(config, s.table, held, kind, now, failure), s.table))
      else s
    case CancelStep(run) => s.(table := CancelJobs(s.table, run))
  }

  function RunSteps(s: System, steps: seq<Step>): System {
    if steps == [] then s else Next(RunSteps(s, steps[..|steps| - 1]), steps[|steps| - 1])
  }

  // ----- Invariant -----

  /** The row stands for its own identity, and every earlier stage of it is completed. */
  ghost predicate RowSound(table: Table, id: JobId)
    requires id in table
  {
    var job := table[id];
    && job.id == id == Stable(job.key, job.stage)
    && (job.stage != StartStage ==>
          Stable(job.key, Previous(job.stage)) in table
          && table[Stable(job.key, Previous(job.stage))].state == CompletedJob)
    && (job.state == CompletedJob ==> job.result.Some? && ValidArtifact(job.result.value))
    && (job.state == ClaimedJob <==> job.claim.Some?)
  }

  /** A claim once handed out: its token is at most the row's, and while the row is still
      claimed under that token the worker's copy of the counters is exact. */
  ghost predicate HeldSound(table: Table, held: Job) {
    && held.id in table && held.claim.Some?
    && var row := table[held.id];
    && held.key == row.key && held.stage == row.stage
    && 1 <= held.fence <= row.fence
    && (row.state == ClaimedJob && held.fence == row.fence ==>
          held.retryCount == row.retryCount && held.transientCount == row.transientCount
          && row.claim.Some? && row.claim.value.owner == held.claim.value.owner)
  }

  ghost predicate SystemSound(s: System) {
    && (forall id {:trigger RowSound(s.table, id)} :: id in s.table ==> RowSound(s.table, id))
    && (forall held {:trigger HeldSound(s.table, held)} :: held in s.issued ==> HeldSound(s.table, held))
    && (forall a, b :: a in s.issued && b in s.issued && a.id == b.id && a.fence == b.fence ==> a == b)
  }

  /** How one row may change in any number of steps. */
  ghost predicate Evolves(before: Job, after: Job) {
    && after.id == before.id && after.key == before.key && after.stage == before.stage
    && before.fence <= after.fence
    && before.retryCount <= after.retryCount && before.transientCount <= after.transientCount
    && (before.state.Terminal() ==> after == before)
  }

  /** One row changes in place. */
  ghost predicate Updates(table: Table, after: Table, id: JobId, row: Job) {
    id in table && after == table[id := row] && Evolves(table[id], row) && !table[id].state.Terminal()
  }

  lemma {:induction false} UpdateKeepsRows(table: Table, after: Table, id: JobId, row: Job)
    requires forall k {:trigger RowSound(table, k)} :: k in table ==> RowSound(table, k)
    requires Updates(table, after, id, row)
    requires row.state == CompletedJob ==> row.result.Some? && ValidArtifact(row.result.value)
    requires row.state == ClaimedJob <==> row.claim.Some?
    ensures forall k {:trigger RowSound(after, k)} :: k in after ==> RowSound(after, k)
  {
    hide Previous;
    forall k | k in after
      ensures RowSound(after, k)
    {
      assert RowSound(table, k);
    }
  }

  lemma {:induction false} UpdateKeepsHeld(table: Table, after: Table, id: JobId, row: Job, held: Job)
    requires HeldSound(table, held) && Updates(table, after, id, row)
    requires row.state == ClaimedJob && held.id == id && held.fence == row.fence ==>
      held.retryCount == row.retryCount && held.transientCount == row.transientCount
      && row.claim.Some? && row.claim.value.owner == held.claim.value.owner
    ensures HeldSound(after, held)
  {
  }

  // ----- Steps keep the invariant -----

  lemma {:induction false} ClaimKeeps(s: System, step: Step)
    requires SystemSound(s) && step.ClaimStep?
    ensures SystemSound(Next(s, step))
  {
    hide RowSound, HeldSound;
    if step.id in s.table && Eligible(s.table[step.id], step.now) {
      var taken := Taken(s.table[step.id], step.owner, step.now, step.ttl);
      var after := s.table[step.id := taken];
      assert RowSound(s.table, step.id);
      ClaimedRow(s.table, step.id, taken);
      UpdateKeepsRows(s.table, after, step.id, taken);
      forall held | held in s.issued
        ensures HeldSound(after, held)
        ensures held.id == step.id ==> held.fence < taken.fence
      {
        assert HeldSound(s.table, held);
        OldClaim(s.table, held, step.id, taken);
        UpdateKeepsHeld(s.table, after, step.id, taken, held);
      }
      NewClaim(s.table, step.id, taken, after);
    }
  }

  lemma {:induction false} ClaimedRow(table: Table, id: JobId, taken: Job)
    requires id in table && RowSound(table, id) && !table[id].state.Terminal()
    requires exists owner, now, ttl :: taken == Taken(table[id], owner, now, ttl)
    ensures Updates(table, table[id := taken], id, taken) && taken.id == id
  {
  }

  lemma {:induction false} OldClaim(table: Table, held: Job, id: JobId, taken: Job)
    requires HeldSound(table, held) && id in table && taken.fence == table[id].fence + 1
    ensures held.id == id ==> held.fence < taken.fence
    ensures held.claim.Some?
  {
  }

  lemma {:induction false} NewClaim(table: Table, id: JobId, taken: Job, after: Table)
    requires id in table && RowSound(table, id) && after == table[id := taken]
    requires exists owner, now, ttl :: taken == Taken(table[id], owner, now, ttl)
    ensures HeldSound(after, taken)
  {
  }

  /** A guarded statement that ends or extends a claim, by a worker that holds it. */
  lemma {:induction false} GuardedKeeps(s: System, held: Job, row: Job)
    requires SystemSound(s) && held in s.issued && Holds(s.table, held.id, Owner(held), held.fence)
    requires Evolves(s.table[held.id], row) && row.fence == held.fence
    requires row.state == CompletedJob ==> row.result.Some? && ValidArtifact(row.result.value)
    requires row.state == ClaimedJob <==> row.claim.Some?
    requires row.claim.Some? ==>
      && row.claim.value.owner == Owner(held)
      && row.retryCount == s.table[held.id].retryCount && row.transientCount == s.table[held.id].transientCount
    ensures SystemSound(s.(table := s.table[held.id := row]))
  {
    hide RowSound;
    var after := s.table[held.id := row];
    assert HeldSound(s.table, held);
    UpdateKeepsRows(s.table, after, held.id, row);
    forall other | other in s.issued
      ensures HeldSound(after, other)
    {
      assert HeldSound(s.table, other);
      UpdateKeepsHeld(s.table, after, held.id, row, other);
    }
  }

  lemma {:induction false} RowCounters(s: System, held: Job)
    requires SystemSound(s) && held in s.issued && Holds(s.table, held.id, Owner(held), held.fence)
    ensures var row := s.table[held.id];
      && held.retryCount == row.retryCount && held.transientCount == row.transientCount
      && held.id == row.id == Stable(row.key, row.stage) && held.key == row.key && held.stage == row.stage
      && held.claim.Some?
  {
    assert HeldSound(s.table, held);
    assert RowSound(s.table, held.id);
  }

  lemma {:induction false} RenewKeeps(s: System, step: Step)
    requires SystemSound(s) && step.RenewStep?
    ensures SystemSound(Next(s, step))
  {
    hide SystemSound;
    var held := step.held;
    if held in s.issued && Holds(s.table, held.id, Owner(held), held.fence) {
      RowCounters(s, held);
      GuardedKeeps(s, held, s.table[held.id].(claim := Some(Claim(Owner(held), step.expires))));
    }
  }

  lemma {:induction false} FailureKeeps(s: System, step: Step)
    requires SystemSound(s) && step.FailureStep?
    ensures SystemSound(Next(s, step))
  {
    hide SystemSound, Delay, ValidArtifact;
    var held := step.held;
    if held in s.issued && Holds(s.table, held.id, Owner(held), held.fence) {
      RowCounters(s, held);
      var o := Failure(step.config, s.table, held, step.kind, step.now, step.failure);
      if o.Done? && step.kind != Interrupted {
        var row := o.table[held.id];
        assert o.table == s.table[held.id := row];
        GuardedKeeps(s, held, row);
      }
    }
  }

  lemma {:induction false} CancelKeeps(s: System, step: Step)
    requires SystemSound(s) && step.CancelStep?
    ensures SystemSound(Next(s, step))
  {
    hide Previous;
    var after := CancelJobs(s.table, step.run);
    forall id | id in after
      ensures RowSound(after, id)
    {
      assert RowSound(s.table, id);
    }
    forall held | held in s.issued
      ensures HeldSound(after, held)
    {
      assert HeldSound(s.table, held);
    }
  }

  /** A fresh row whose earlier stage is completed can be added. */
  lemma {:induction false} InsertKeeps(s: System, id: JobId, key: Key, stage: Stage, at: Time)
    requires SystemSound(s) && id == Stable(key, stage) && id !in s.table
    requires stage != StartStage ==>
      Stable(key, Previous(stage)) in s.table && s.table[Stable(key, Previous(stage))].state == CompletedJob
    ensures SystemSound(s.(table := s.table[id := NewJob(id, key, stage, at)]))
  {
    hide Previous;
    var after := s.table[id := NewJob(id, key, stage, at)];
    forall k | k in after
      ensures RowSound(after, k)
    {
      if k != id {
        assert RowSound(s.table, k);
      }
    }
    forall held | held in s.issued
      ensures HeldSound(after, held)
    {
      assert HeldSound(s.table, held);
    }
  }

  lemma {:induction false} OccupiedByItself(s: System, key: Key, stage: Stage)
    requires SystemSound(s)
    ensures Occupied(s.table, key, stage) <==> Stable(key, stage) in s.table
    ensures Stable(key, stage) in s.table ==>
      s.table[Stable(key, stage)].key == key && s.table[Stable(key, stage)].stage == stage
  {
    if Occupied(s.table, key, stage) {
      var id :| id in s.table && s.table[id].key == key && s.table[id].stage == stage;
      assert RowSound(s.table, id);
    }
    if Stable(key, stage) in s.table {
      assert RowSound(s.table, Stable(key, stage));
    }
  }

  lemma {:induction false} EnqueueKeeps(s: System, step: Step)
    requires SystemSound(s) && step.EnqueueStart?
    ensures SystemSound(Next(s, step))
  {
    hide SystemSound, Occupied;
    OccupiedByItself(s, step.key, StartStage);
    if Stable(step.key, StartStage) !in s.table {
      InsertKeeps(s, Stable(step.key, StartStage), step.key, StartStage, step.at);
    }
  }

  /** A claimed job's successor does not exist yet, so completing it adds exactly one row. */
  lemma {:induction false} SuccessorIsNew(s: System, held: Job)
    requires SystemSound(s) && held in s.issued && Holds(s.table, held.id, Owner(held), held.fence)
    requires Successor(held.stage).Some?
    ensures Stable(held.key, Successor(held.stage).value) !in s.table
  {
    hide Successor, Previous;
    SuccessorFollows(held.stage);
    RowCounters(s, held);
    var next := Stable(held.key, Successor(held.stage).value);
    assert next in s.table ==> RowSound(s.table, next);
    assert next.stage != StartStage;
  }

  lemma {:induction false} CompleteKeeps(s: System, step: Step)
    requires SystemSound(s) && step.CompleteStep?
    ensures SystemSound(Next(s, step))
  {
    hide SystemSound, Occupied, ValidArtifact, Successor, Previous;
    var held := step.held;
    if held in s.issued && Holds(s.table, held.id, Owner(held), held.fence) && ValidArtifact(step.result) {
      RowCounters(s, held);
      var done := s.(table := s.table[held.id := Finished(s.table[held.id], step.result)]);
      GuardedKeeps(s, held, Finished(s.table[held.id], step.result));
      var next := Successor(held.stage);
      if step.continues && next.Some? {
        SuccessorIsNew(s, held);
        SuccessorFollows(held.stage);
        OccupiedByItself(done, held.key, next.value);
        InsertKeeps(done, Stable(held.key, next.value), held.key, next.value, step.at);
      }
    }
  }

  lemma {:induction false} StepKeepsSound(s: System, step: Step)
    requires SystemSound(s)
    ensures SystemSound(Next(s, step))
  {
    hide SystemSound, Next;
    match step
    case EnqueueStart(_, _) => EnqueueKeeps(s, step);
    case ClaimStep(_, _, _, _) => ClaimKeeps(s, step);
    case RenewStep(_, _) => RenewKeeps(s, step);
    case CompleteStep(_, _, _, _) => CompleteKeeps(s, step);
    case FailureStep(_, _, _, _, _) => FailureKeeps(s, step);
    case CancelStep(_) => CancelKeeps(s, step);
  }

  lemma {:induction false} ReachableSystem(steps: seq<Step>)
    ensures SystemSound(RunSteps(INITIAL, steps))
  {
    hide Next, RowSound, HeldSound;
    if steps != [] {
      var n := |steps| - 1;
      ReachableSystem(steps[..n]);
      StepKeepsSound(RunSteps(INITIAL, steps[..n]), steps[n]);
    }
  }

  // ----- Rows only evolve -----

  lemma {:induction false} StepEvolves(s: System, step: Step, id: JobId)
    requires SystemSound(s) && id in s.table
    ensures id in Next(s, step).table && Evolves(s.table[id], Next(s, step).table[id])
  {
    hide ValidArtifact, Delay, Successor, Occupied;
    if step.CompleteStep? && step.held in s.issued && Holds(s.table, step.held.id, Owner(step.held), step.held.fence) {
      CompletionEvolves(s, step, id);
    }
  }

  lemma {:induction false} CompletionEvolves(s: System, step: Step, id: JobId)
    requires SystemSound(s) && id in s.table && step.CompleteStep? && step.held in s.issued
    requires Holds(s.table, step.held.id, Owner(step.held), step.held.fence)
    ensures id in Next(s, step).table && Evolves(s.table[id], Next(s, step).table[id])
  {
    hide ValidArtifact, Occupied, RowSound, HeldSound;
    if Successor(step.held.stage).Some? {
      SuccessorIsNew(s, step.held);
    }
  }

  /** In any continuation a row keeps its identity, its token and counters never fall, and
      once terminal it never changes again. */
  lemma {:induction false} RowsEvolve(steps: seq<Step>, more: seq<Step>, id: JobId)
    requires id in RunSteps(INITIAL, steps).table
    ensures id in RunSteps(INITIAL, steps + more).table
    ensures Evolves(RunSteps(INITIAL, steps).table[id], RunSteps(INITIAL, steps + more).table[id])
  {
    hide Next, SystemSound;
    if more == [] {
      assert steps + more == steps;
    } else {
      var n := |more| - 1;
      RowsEvolve(steps, more[..n], id);
      assert (steps + more)[..|steps + more| - 1] == steps + more[..n];
      var s := RunSteps(INITIAL, steps + more[..n]);
      ReachableSystem(steps + more[..n]);
      StepEvolves(s, more[n], id);
    }
  }

  // ----- The pipeline is a prefix -----

  /** Every stage before an existing one exists and is completed. */
  lemma {:induction false} EarlierStages(table: Table, key: Key, stage: Stage, earlier: Stage)
    requires forall id {:trigger RowSound(table, id)} :: id in table ==> RowSound(table, id)
    requires Stable(key, stage) in table && Position(earlier) < Position(stage)
    ensures Stable(key, earlier) in table && table[Stable(key, earlier)].state == CompletedJob
    decreases Position(stage)
  {
    assert RowSound(table, Stable(key, stage));
    StagePosition(earlier);
    var before := Previous(stage);
    StageAt(Position(stage) - 1);
    if Position(earlier) < Position(before) {
      EarlierStages(table, key, before, earlier);
    }
  }

  /** The jobs of one attempt are the first stages in order, all but the last completed;
      no row stands for a stage twice. */
  lemma {:induction false} PipelinePrefix(steps: seq<Step>, id: JobId, earlier: Stage)
    requires var table := RunSteps(INITIAL, steps).table;
      id in table && Position(earlier) < Position(table[id].stage)
    ensures var table := RunSteps(INITIAL, steps).table; var key := table[id].key;
      && id == Stable(key, table[id].stage)
      && Stable(key, earlier) in table && table[Stable(key, earlier)].state == CompletedJob
      && forall other :: other in table && table[other].key == key && table[other].stage == earlier ==>
           other == Stable(key, earlier)
  {
    hide RunSteps, HeldSound;
    ReachableSystem(steps);
    var table := RunSteps(INITIAL, steps).table;
    assert RowSound(table, id);
    EarlierStages(table, table[id].key, table[id].stage, earlier);
    forall other | other in table && table[other].key == table[id].key && table[other].stage == earlier
      ensures other == Stable(table[id].key, earlier)
    {
      assert RowSound(table, other);
    }
  }

  lemma {:induction false} FindsItself(table: Table, key: Key, stage: Stage)
    requires forall id {:trigger RowSound(table, id)} :: id in table ==> RowSound(table, id)
    ensures forall ref :: Finds(table, key, stage, ref) <==>
      && Stable(key, stage) in table && table[Stable(key, stage)].state == CompletedJob
      && table[Stable(key, stage)].result == Some(ref)
  {
    hide Previous;
    forall id | id in table && table[id].key == key && table[id].stage == stage
      ensures id == Stable(key, stage)
    {
      assert RowSound(table, id);
    }
    if Stable(key, stage) in table {
      assert RowSound(table, Stable(key, stage));
    }
  }

  /** Whatever a stage looks up of its attempt is there, is the only one, and is the same
      in every later state. */
  lemma {:induction false} LookupsSucceedForever(steps: seq<Step>, more: seq<Step>, id: JobId, earlier: Stage)
      returns (result: ArtifactRef)
    requires var table := RunSteps(INITIAL, steps).table;
      id in table && Position(earlier) < Position(table[id].stage)
    ensures var key := RunSteps(INITIAL, steps).table[id].key;
      && ValidArtifact(result)
      && (forall ref :: Finds(RunSteps(INITIAL, steps).table, key, earlier, ref) <==> ref == result)
      && (forall ref :: Finds(RunSteps(INITIAL, steps + more).table, key, earlier, ref) <==> ref == result)
  {
    hide RunSteps, HeldSound, Finds, Previous;
    var now, later := RunSteps(INITIAL, steps).table, RunSteps(INITIAL, steps + more).table;
    ReachableSystem(steps);
    ReachableSystem(steps + more);
    PipelinePrefix(steps, id, earlier);
    var key := now[id].key;
    var row := Stable(key, earlier);
    assert RowSound(now, row);
    result := now[row].result.value;
    RowsEvolve(steps, more, row);
    FindsItself(now, key, earlier);
    FindsItself(later, key, earlier);
  }

  lemma {:induction false} LookupsAreEarlier(stage: Stage, looked: Stage)
    requires looked in Lookups(stage)
    ensures Position(looked) < Position(stage)
  {
  }

  /** Every handler finds everything it looks up: each result exists, is valid, is the only
      one, and stays the one for ever. */
  lemma {:induction false} HandlersFindTheirInputs(steps: seq<Step>, more: seq<Step>, id: JobId, looked: Stage)
      returns (result: ArtifactRef)
    requires var table := RunSteps(INITIAL, steps).table; id in table && looked in Lookups(table[id].stage)
    ensures var key := RunSteps(INITIAL, steps).table[id].key;
      && ValidArtifact(result)
      && (forall ref :: Finds(RunSteps(INITIAL, steps).table, key, looked, ref) <==> ref == result)
      && (forall ref :: Finds(RunSteps(INITIAL, steps + more).table, key, looked, ref) <==> ref == result)
  {
    hide RunSteps, Finds, Lookups, ValidArtifact;
    LookupsAreEarlier(RunSteps(INITIAL, steps).table[id].stage, looked);
    result := LookupsSucceedForever(steps, more, id, looked);
  }

  // ----- Fenced claims -----

  /** A new claim's token is larger than that of every claim of the job before it. */
  lemma {:induction false} ClaimsAreFenced(steps: seq<Step>, step: Step, earlier: Job)
    requires step.ClaimStep?
    requires var s := RunSteps(INITIAL, steps);
      step.id in s.table && Eligible(s.table[step.id], step.now) && earlier in s.issued && earlier.id == step.id
    ensures var s := RunSteps(INITIAL, steps); var after := Next(s, step);
      && after.table[step.id].state == ClaimedJob && after.table[step.id].fence > earlier.fence
      && after.table[step.id] in after.issued
  {
    hide RunSteps, RowSound;
    ReachableSystem(steps);
    assert HeldSound(RunSteps(INITIAL, steps).table, earlier);
  }

  /** The step claims this job. */
  predicate Claims(s: System, step: Step, id: JobId) {
    step.ClaimStep? && step.id == id && id in s.table && Eligible(s.table[id], step.now)
  }

  function ClaimCount(steps: seq<Step>, id: JobId): nat {
    if steps == [] then 0
    else
      var n := |steps| - 1;
      ClaimCount(steps[..n], id) + if Claims(RunSteps(INITIAL, steps[..n]), steps[n], id) then 1 else 0
  }

  lemma {:induction false} StepFence(s: System, step: Step, id: JobId)
    requires SystemSound(s) && id in Next(s, step).table
    ensures Next(s, step).table[id].fence
         == (if id in s.table then s.table[id].fence else 0) + (if Claims(s, step, id) then 1 else 0)
  {
    hide ValidArtifact, Delay, Occupied, RowSound, HeldSound, Successor;
    if step.CompleteStep? && step.held in s.issued && Holds(s.table, step.held.id, Owner(step.held), step.held.fence)
       && Successor(step.held.stage).Some? {
      SuccessorIsNew(s, step.held);
    }
  }

  /** A job's token counts its claims, so the k-th claim of a job carries token k. */
  lemma {:induction false} FencesCountClaims(steps: seq<Step>, id: JobId)
    ensures var table := RunSteps(INITIAL, steps).table;
      ClaimCount(steps, id) == if id in table then table[id].fence else 0
  {
    hide Next, SystemSound, Eligible;
    if steps != [] {
      var n := |steps| - 1;
      var s := RunSteps(INITIAL, steps[..n]);
      FencesCountClaims(steps[..n], id);
      ReachableSystem(steps[..n]);
      if id in Next(s, steps[n]).table {
        StepFence(s, steps[n], id);
      }
      if id in s.table {
        StepEvolves(s, steps[n], id);
      }
    }
  }

  predicate ByWorker(step: Step) {
    step.RenewStep? || step.CompleteStep? || step.FailureStep?
  }

  /** A worker changes the table only while its claim is the latest of its job and the job
      is still claimed; so a superseded, finished or cancelled claim is inert whatever
      clocks say. */
  lemma {:induction false} OnlyTheLatestClaimActs(steps: seq<Step>, step: Step)
    requires ByWorker(step)
    ensures var s := RunSteps(INITIAL, steps);
      Next(s, step).table != s.table ==>
        && step.held in s.issued && step.held.id in s.table
        && s.table[step.held.id].state == ClaimedJob && s.table[step.held.id].fence == step.held.fence
        && forall other :: other in s.issued && other.id == step.held.id && other != step.held ==>
             other.fence < step.held.fence
  {
    hide RunSteps, RowSound, ValidArtifact, Delay, Successor, Occupied;
    ReachableSystem(steps);
    var s := RunSteps(INITIAL, steps);
    if Next(s, step).table != s.table {
      assert Holds(s.table, step.held.id, Owner(step.held), step.held.fence);
      forall other | other in s.issued && other.id == step.held.id && other != step.held
        ensures other.fence < step.held.fence
      {
        assert HeldSound(s.table, other);
      }
    }
  }

  /** Completed, failed and cancelled jobs are never touched again. */
  lemma {:induction false} TerminalIsAbsorbing(steps: seq<Step>, more: seq<Step>, id: JobId)
    requires id in RunSteps(INITIAL, steps).table
    requires RunSteps(INITIAL, steps).table[id].state.Terminal()
    ensures var later := RunSteps(INITIAL, steps + more).table;
      id in later && later[id] == RunSteps(INITIAL, steps).table[id]
  {
    hide RunSteps;
    RowsEvolve(steps, more, id);
  }

  // ----- Retry budgets -----

  /** No worker that acts allows more than this many tries. */
  ghost predicate AllowAtMost(steps: seq<Step>, limit: nat) {
    forall i :: 0 <= i < |steps| && steps[i].FailureStep? ==> steps[i].config.maxRetries <= limit
  }

  ghost predicate CountsBelow(table: Table, limit: nat) {
    forall id :: id in table ==> table[id].retryCount < limit && table[id].transientCount < limit
  }

  lemma {:induction false} StepKeepsCounts(s: System, step: Step, limit: nat)
    requires SystemSound(s) && CountsBelow(s.table, limit) && limit > 0
    requires step.FailureStep? ==> step.config.maxRetries <= limit
    ensures CountsBelow(Next(s, step).table, limit)
  {
    hide ValidArtifact, Delay, Occupied, RowSound, Successor;
    if step.FailureStep? && step.held in s.issued {
      assert HeldSound(s.table, step.held);
    }
  }

  /** Both counters stay below the most tries any acting worker allows, and a worker whose
      claim is still in force knows them exactly. */
  lemma {:induction false} BudgetsHold(steps: seq<Step>, limit: nat, held: Job)
    requires AllowAtMost(steps, limit) && limit > 0
    ensures var s := RunSteps(INITIAL, steps);
      && CountsBelow(s.table, limit)
      && (held in s.issued && Holds(s.table, held.id, Owner(held), held.fence) ==>
            held.retryCount == s.table[held.id].retryCount && held.transientCount == s.table[held.id].transientCount)
  {
    hide Next, RowSound;
    var s := RunSteps(INITIAL, steps);
    ReachableSystem(steps);
    if held in s.issued {
      assert HeldSound(s.table, held);
    }
    if steps != [] {
      var n := |steps| - 1;
      BudgetsHold(steps[..n], limit, held);
      ReachableSystem(steps[..n]);
      StepKeepsCounts(RunSteps(INITIAL, steps[..n]), steps[n], limit);
    }
  }

  // ----- Nothing is lost -----

  /** When the row may be claimed at the latest. */
  function ClaimableFrom(job: Job): Time {
    if job.claim.Some? && job.claim.value.expiresAt > job.availableAt then job.claim.value.expiresAt else job.availableAt
  }

  /** A job can be claimed exactly while it is unfinished and from a known time on: so no
      job is lost, wherever workers crash, and no claim is taken before it expires. */
  lemma {:induction false} ClaimableExactly(steps: seq<Step>, id: JobId, now: Time)
    requires id in RunSteps(INITIAL, steps).table
    ensures var job := RunSteps(INITIAL, steps).table[id];
      Eligible(job, now) <==> !job.state.Terminal() && ClaimableFrom(job) <= now
  {
    hide RunSteps, HeldSound;
    ReachableSystem(steps);
    assert RowSound(RunSteps(INITIAL, steps).table, id);
  }

  /** A step that could end a claim before its time: its holder acts on it, somebody claims
      the job late enough, or the run is cancelled. */
  predicate Disturbs(step: Step, held: Job, until: Time) {
    match step
    case EnqueueStart(_, _) => false
    case ClaimStep(id, _, now, _) => id == held.id && until <= now
    case RenewStep(actor, _) => actor == held
    case CompleteStep(actor, _, _, _) => actor == held
    case FailureStep(actor, _, _, _, _) => actor == held
    case CancelStep(run) => run == held.key.run
  }

  lemma {:induction false} UndisturbedRow(s: System, step: Step, held: Job, until: Time)
    requires SystemSound(s) && held in s.issued && Holds(s.table, held.id, Owner(held), held.fence)
    requires s.table[held.id].claim.value.expiresAt == until && !Disturbs(step, held, until)
    ensures held in Next(s, step).issued
    ensures held.id in Next(s, step).table && Next(s, step).table[held.id] == s.table[held.id]
  {
    hide ValidArtifact, Delay, Occupied, Successor, RowSound;
    assert HeldSound(s.table, held);
    if ByWorker(step) && step.held in s.issued {
      assert HeldSound(s.table, step.held);
      if step.CompleteStep? && Holds(s.table, step.held.id, Owner(step.held), step.held.fence)
         && Successor(step.held.stage).Some? {
        SuccessorIsNew(s, step.held);
      }
    }
  }

  /** A renewed claim stays in force, its row untouched, through everything all other workers
      do with clocks below the named time, until its holder acts or the run is cancelled. */
  lemma {:induction false} RenewalProtects(steps: seq<Step>, renewal: Step, more: seq<Step>)
    requires renewal.RenewStep?
    requires var s := RunSteps(INITIAL, steps); var held := renewal.held;
      held in s.issued && Holds(s.table, held.id, Owner(held), held.fence)
    requires forall i :: 0 <= i < |more| ==> !Disturbs(more[i], renewal.held, renewal.expires)
    ensures var held := renewal.held; var later := RunSteps(INITIAL, steps + [renewal] + more);
      && held in later.issued && Holds(later.table, held.id, Owner(held), held.fence)
      && later.table[held.id] == RunSteps(INITIAL, steps).table[held.id].(claim := Some(Claim(Owner(held), renewal.expires)))
  {
    hide SystemSound, Disturbs;
    var before := steps + [renewal];
    if more == [] {
      assert before + more == before && before[..|steps|] == steps;
    } else {
      var n := |more| - 1;
      RenewalProtects(steps, renewal, more[..n]);
      assert (before + more)[..|before + more| - 1] == before + more[..n];
      ReachableSystem(before + more[..n]);
      UndisturbedRow(RunSteps(INITIAL, before + more[..n]), more[n], renewal.held, renewal.expires);
    }
  }

  /** Every job of the attempt is finished. */
  ghost predicate Stopped(table: Table, key: Key) {
    && Stable(key, StartStage) in table
    && forall id :: id in table && table[id].key == key ==> table[id].state.Terminal()
  }

  ghost function JobsOf(table: Table, key: Key): map<JobId, Job> {
    map id | id in table && table[id].key == key :: table[id]
  }

  /** Nothing is ever added to an attempt whose jobs are all finished. */
  lemma {:induction false} StoppedStays(s: System, step: Step, key: Key)
    requires SystemSound(s) && Stopped(s.table, key)
    ensures Stopped(Next(s, step).table, key) && JobsOf(Next(s, step).table, key) == JobsOf(s.table, key)
  {
    hide ValidArtifact, Delay, Successor, Occupied, RowSound;
    var after := Next(s, step).table;
    if step.EnqueueStart? {
      OccupiedByItself(s, step.key, StartStage);
    } else if ByWorker(step) && step.held in s.issued {
      assert HeldSound(s.table, step.held);
    }
    forall id | id in after && after[id].key == key
      ensures id in s.table && after[id] == s.table[id]
    {
    }
    forall id | id in s.table && s.table[id].key == key
      ensures id in after && after[id] == s.table[id]
    {
      StepEvolves(s, step, id);
    }
  }

  lemma {:induction false} StartExists(table: Table, id: JobId)
    requires forall k {:trigger RowSound(table, k)} :: k in table ==> RowSound(table, k)
    requires id in table
    ensures Stable(table[id].key, StartStage) in table
  {
    assert RowSound(table, id);
    if table[id].stage != StartStage {
      EarlierStages(table, table[id].key, table[id].stage, StartStage);
    }
  }

  /** Cancelling a run ends its attempts for good: whatever workers still do, no attempt that
      had a job then ever gets another one, and none of its jobs ever changes again. */
  lemma {:induction false} CancelledAttemptsStop(steps: seq<Step>, cancel: Step, more: seq<Step>, id: JobId)
    requires cancel.CancelStep?
    requires var table := RunSteps(INITIAL, steps).table; id in table && table[id].key.run == cancel.run
    ensures var key := RunSteps(INITIAL, steps).table[id].key;
      && Stopped(RunSteps(INITIAL, steps + [cancel] + more).table, key)
      && JobsOf(RunSteps(INITIAL, steps + [cancel] + more).table, key)
         == JobsOf(CancelJobs(RunSteps(INITIAL, steps).table, cancel.run), key)
  {
    hide SystemSound, Stopped, JobsOf;
    var before := steps + [cancel];
    var s := RunSteps(INITIAL, steps);
    var key := s.table[id].key;
    if more == [] {
      assert before + more == before && before[..|steps|] == steps;
      ReachableSystem(steps);
      CancelStops(s, cancel, id);
    } else {
      var n := |more| - 1;
      CancelledAttemptsStop(steps, cancel, more[..n], id);
      assert (before + more)[..|before + more| - 1] == before + more[..n];
      ReachableSystem(before + more[..n]);
      StoppedStays(RunSteps(INITIAL, before + more[..n]), more[n], key);
    }
  }

  lemma {:induction false} CancelStops(s: System, cancel: Step, id: JobId)
    requires SystemSound(s) && cancel.CancelStep? && id in s.table && s.table[id].key.run == cancel.run
    ensures Stopped(Next(s, cancel).table, s.table[id].key)
  {
    hide RowSound;
    StartExists(s.table, id);
  }

  /** The holder of a claim in force completes its stage with its own result and, if it
      continues, leaves the next stage ready and untouched. */
  lemma {:induction false} CompletionAdvances(steps: seq<Step>, step: Step)
    requires step.CompleteStep? && ValidArtifact(step.result)
    requires var s := RunSteps(INITIAL, steps);
      step.held in s.issued && Holds(s.table, step.held.id, Owner(step.held), step.held.fence)
    ensures var s := RunSteps(INITIAL, steps); var after := Next(s, step).table; var held := step.held;
      && after[held.id].state == CompletedJob && after[held.id].result == Some(step.result)
      && (step.continues && Successor(held.stage).Some? ==>
            var next := Stable(held.key, Successor(held.stage).value);
            next !in s.table && next in after
            && after[next] == NewJob(next, held.key, Successor(held.stage).value, step.at))
      && (forall id :: id in after && id !in s.table ==>
            step.continues && Successor(held.stage).Some? && id == Stable(held.key, Successor(held.stage).value))
  {
    hide RunSteps, SystemSound, Successor, Occupied, ValidArtifact;
    ReachableSystem(steps);
    var s, held := RunSteps(INITIAL, steps), step.held;
    RowCounters(s, held);
    if step.continues && Successor(held.stage).Some? {
      var done := s.(table := s.table[held.id := Finished(s.table[held.id], step.result)]);
      SuccessorIsNew(s, held);
      CompleteKeeps(s, step.(continues := false));
      OccupiedByItself(done, held.key, Successor(held.stage).value);
    }
  }

  /** A failing handler costs one unit of the right budget, and its job fails exactly when
      the worker allows no more of them. */
  lemma {:induction false} FailureSpendsBudget(steps: seq<Step>, step: Step)
    requires step.FailureStep? && ValidArtifact(step.failure)
    requires var s := RunSteps(INITIAL, steps);
      step.held in s.issued && Holds(s.table, step.held.id, Owner(step.held), step.held.fence)
    ensures var s := RunSteps(INITIAL, steps); var row := s.table[step.held.id];
      var after := Next(s, step).table[step.held.id];
      match step.kind
      case Interrupted => after == row
      case Transient =>
        if row.transientCount + 1 >= step.config.maxRetries
        then after == row.(state := FailedJob, failure := Some(step.failure), claim := None)
        else after == row.(state := RetryJob, transientCount := row.transientCount + 1, claim := None,
                           availableAt := step.now + Delay(step.config, row.transientCount))
      case Ordinary =>
        if row.retryCount + 1 >= step.config.maxRetries
        then after == row.(state := FailedJob, failure := Some(step.failure), claim := None)
        else after == row.(state := RetryJob, retryCount := row.retryCount + 1, claim := None,
                           availableAt := step.now + Delay(step.config, row.retryCount))
  {
    hide RunSteps, SystemSound, Delay, ValidArtifact;
    ReachableSystem(steps);
    RowCounters(RunSteps(INITIAL, steps), step.held);
  }
}
