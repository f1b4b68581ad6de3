/** Idempotency reservations and run intake: a key is reserved under a generation, and a
    run, its binding and the stored response are committed together by the generation
    that still holds the key. */
module Intake {
  import opened Kernel
  import opened Runs
  import opened Database
  import opened Steps
  import opened Gating
  import opened ExactlyOnce
  import Store

  const CREATED: nat := 201
  const DEFAULT_TTL: int := 30_000_000

  /** What a key was first used for. */
  datatype Signature = Signature(verb: string, target: string, principal: Id, digest: string)

  predicate ForIntake(s: Signature) {
    s.verb == "POST" && s.target == "/v1/runs"
  }

  datatype Body = RunAccepted(result: CommandResult) | OtherBody(text: string)

  datatype Response = Response(status: nat, body: Body)

  datatype Reservation = Reservation(signature: Signature, response: Option<Response>, expiresAt: Time, generation: nat)

  datatype RunBinding = RunBinding(
    intake: ArtifactRef,
    baseCommit: string,
    repositoryMap: ArtifactRef,
    policy: ArtifactRef,
    executionImage: string,
    verificationImage: string,
    createdAt: Time)

  predicate ValidImage(s: string) {
    |s| == 71 && s[..7] == "sha256:" && IsLowerHex(s[7..], 64)
  }

  predicate ValidRunBinding(b: RunBinding) {
    && ValidArtifact(b.intake) && ValidArtifact(b.repositoryMap) && ValidArtifact(b.policy)
    && ValidImage(b.executionImage) && ValidImage(b.verificationImage)
  }

  datatype IntakeError =
    | UnknownKey
    | KeyConflict
    | InProgress
    | AlreadyCompleted
    | StaleReservation
    | InvalidBinding
    | WorkflowRefused(error: Error)
    | Faulted

  datatype Attempt<+T> = Success(value: T) | Failure(error: IntakeError) {
    predicate IsFailure() {
      Failure?
    }

    function PropagateFailure<U>(): Attempt<U>
      requires Failure?
    {
      Failure(error)
    }

    function Extract(): T
      requires Success?
    {
      value
    }
  }

  type Reservations = map<Id, Reservation>

  datatype Grant = Granted(generation: nat) | Repeated(response: Response, generation: nat)

  // ----- Reservation statements -----

  function Lifetime(ttl: int): int {
    if ttl <= 0 then DEFAULT_TTL else ttl
  }

  /** Reserve a key: first use, replay of a finished use, or take-over of an expired one. */
  function BeginReservation(rs: Reservations, key: Id, signature: Signature, now: Time, ttl: int):
    Attempt<(Reservations, Grant)>
  {
    if !ValidId(key) then Failure(KeyConflict)
    else if key !in rs then
      Success((rs[key := Reservation(signature, None, now + Lifetime(ttl), 1)], Granted(1)))
    else
      var r := rs[key];
      if r.signature != signature then Failure(KeyConflict)
      else if r.response.Some? then Success((rs, Repeated(r.response.value, r.generation)))
      else if r.expiresAt > now then Failure(InProgress)
      else
        Success((rs[key := r.(expiresAt := now + Lifetime(ttl), generation := r.generation + 1)],
                 Granted(r.generation + 1)))
  }

  /** The generation holds the key and has not been answered. */
  predicate Open(rs: Reservations, key: Id, generation: nat) {
    key in rs && rs[key].generation == generation && rs[key].response.None?
  }

  function RenewReservation(rs: Reservations, key: Id, generation: nat, until: Time): Reservations {
    if Open(rs, key, generation) then rs[key := rs[key].(expiresAt := until)] else rs
  }

  function CompleteReservation(rs: Reservations, key: Id, generation: nat, response: Response): Reservations {
    if Open(rs, key, generation) then rs[key := rs[key].(response := Some(response))] else rs
  }

  /** What the committing transaction finds when it locks the key. */
  function LockReservation(rs: Reservations, key: Id, signature: Signature, generation: nat, now: Time): Attempt<()> {
    if key !in rs then Failure(UnknownKey)
    else if rs[key].signature != signature then Failure(KeyConflict)
    else if rs[key].response.Some? then Failure(AlreadyCompleted)
    else if rs[key].generation != generation || rs[key].expiresAt <= now then Failure(StaleReservation)
    else Success(())
  }

  // ----- The atomic commit -----

  datatype IntakeFault = NoIntakeFault | AfterWorkflow | AfterBinding | AfterResponse | BeforeIntakeCommit

  /** A claim on a key, as handed to the request that reserved it. */
  datatype Ticket = Ticket(key: Id, signature: Signature, generation: nat)

  datatype World = World(
    db: Db,
    reservations: Reservations,
    bindings: map<Id, RunBinding>,
    issued: set<Ticket>)

  /** The command is the one the key was reserved for. */
  predicate SameRequest(ticket: Ticket, c: RunCommand) {
    && ForIntake(ticket.signature)
    && c.CreateRun? && c.meta.commandId == ticket.key && c.meta.actor == Actor(ticket.signature.principal, Human)
    && c.meta.expectedRevision == 0
  }

  predicate ValidIntake(ticket: Ticket, c: RunCommand) {
    SameRequest(ticket, c) && ValidEnvelope(c.meta)
  }

  function InsertBinding(bindings: map<Id, RunBinding>, run: Id, b: RunBinding): Attempt<map<Id, RunBinding>> {
    if !ValidRunBinding(b) then Failure(InvalidBinding)
    else if run !in bindings then Success(bindings[run := b])
    else if bindings[run] == b then Success(bindings)
    else Failure(KeyConflict)
  }

  ghost function CommitIntake(w: World, ticket: Ticket, c: RunCommand, b: RunBinding, now: Time, fault: IntakeFault,
                              order: seq<Id>): Attempt<World>
  {
    var locked :- LockReservation(w.reservations, ticket.key, ticket.signature, ticket.generation, now);
    var t := RunTransaction(w.db, c, NoFault, order);
    if t.Err? then Failure(WorkflowRefused(t.error))
    else if fault == AfterWorkflow then Failure(Faulted)
    else
      var bindings :- InsertBinding(w.bindings, c.id, b);
      if fault != NoIntakeFault then Failure(Faulted)
      else
        Success(w.(db := t.value.db, bindings := bindings,
                   reservations := CompleteReservation(w.reservations, ticket.key, ticket.generation,
                                                       Response(CREATED, RunAccepted(t.value.result)))))
  }

  // ----- The system -----

  datatype Step =
    | BeginStep(key: Id, signature: Signature, now: Time, ttl: int)
    | RenewStep(ticket: Ticket, until: Time)
    | CommitStep(ticket: Ticket, command: RunCommand, binding: RunBinding, now: Time, fault: IntakeFault, order: seq<Id>)
    | CompleteStep(ticket: Ticket, response: Response)
    | WorkflowStep(delivery: Delivery)

  /** Only intake creates runs. */
  predicate Creates(request: Request) {
    request.RunRequest? && request.run.CreateRun?
  }

  /** One atomic step. Renewal and abandonment differ only in the time they set, and other
      routes complete their own keys; a request acts only on keys it once reserved. */
  ghost function Next(w: World, step: Step): World {
    match step
    case BeginStep(key, signature, now, ttl) =>
      var r := BeginReservation(w.reservations, key, signature, now, ttl);
      if r.Failure? then w
      else
        w.(reservations := r.value.0,
           issued := if r.value.1.Granted? then w.issued + {Ticket(key, signature, r.value.1.generation)} else w.issued)
    case RenewStep(ticket, until) =>
      if ticket in w.issued
      then w.(reservations := RenewReservation(w.reservations, ticket.key, ticket.generation, until))
      else w
    case CommitStep(ticket, c, b, now, fault, order) =>
      if ticket in w.issued && ValidIntake(ticket, c)
      then var r := CommitIntake(w, ticket, c, b, now, fault, order); if r.Success? then r.value else w
      else w
    case CompleteStep(ticket, response) =>
      if ticket in w.issued && !ForIntake(ticket.signature)
      then w.(reservations := CompleteReservation(w.reservations, ticket.key, ticket.generation, response))
      else w
    case WorkflowStep(delivery) =>
      if Creates(delivery.request) then w else w.(db := Deliver(w.db, delivery))
  }

  const START: World := World(EMPTY, map[], map[], {})

  ghost function RunSteps(w: World, steps: seq<Step>): World {
    if steps == [] then w else Next(RunSteps(w, steps[..|steps| - 1]), steps[|steps| - 1])
  }

  // ----- Invariant -----

  /** The key's command created a run. */
  ghost predicate CreatedRun(db: Db, key: Id) {
    key in db.commands && Creates(db.commands[key].request)
  }

  ghost function RunOf(db: Db, key: Id): Id
    requires CreatedRun(db, key)
  {
    db.commands[key].request.run.id
  }

  /** The key was used for intake and has been answered. */
  ghost predicate Answered(w: World, key: Id) {
    key in w.reservations && ForIntake(w.reservations[key].signature) && w.reservations[key].response.Some?
  }

  /** Run, binding and stored response exist together. */
  ghost predicate Together(w: World, key: Id) {
    && (Answered(w, key) <==> CreatedRun(w.db, key))
    && (CreatedRun(w.db, key) ==>
          && w.db.commands[key].result.Some?
          && w.reservations[key].response == Some(Response(CREATED, RunAccepted(w.db.commands[key].result.value)))
          && RunOf(w.db, key) in w.db.runs && RunOf(w.db, key) in w.bindings)
  }

  ghost predicate HasOrigin(w: World, run: Id) {
    exists key :: CreatedRun(w.db, key) && RunOf(w.db, key) == run
  }

  ghost predicate TicketSound(rs: Reservations, t: Ticket) {
    t.key in rs && rs[t.key].signature == t.signature && 1 <= t.generation <= rs[t.key].generation
  }

  ghost predicate WorldSound(w: World) {
    && Sound(w.db)
    && w.bindings.Keys == w.db.runs.Keys
    && (forall key {:trigger Together(w, key)} :: Together(w, key))
    && (forall run {:trigger HasOrigin(w, run)} :: run in w.db.runs ==> HasOrigin(w, run))
    && (forall a, b {:trigger CreatedRun(w.db, a), CreatedRun(w.db, b)} ::
          CreatedRun(w.db, a) && CreatedRun(w.db, b) && RunOf(w.db, a) == RunOf(w.db, b) ==> a == b)
    && (forall t {:trigger TicketSound(w.reservations, t)} :: t in w.issued ==> TicketSound(w.reservations, t))
  }

  // ----- Steps -----

  /** A key keeps its purpose, and an answer is never changed. */
  ghost predicate Persists(before: Reservation, after: Reservation) {
    && after.signature == before.signature && before.generation <= after.generation
    && (before.response.Some? ==> after == before)
  }

  ghost predicate AllPersist(rs: Reservations, after: Reservations) {
    forall key :: key in rs ==> key in after && Persists(rs[key], after[key])
  }

  lemma {:induction false} StepPersists(w: World, step: Step)
    ensures AllPersist(w.reservations, Next(w, step).reservations)
  {
    hide RunTransaction, Deliver;
  }

  lemma {:induction false} TicketsStay(w: World, after: World, t: Ticket)
    requires TicketSound(w.reservations, t) && AllPersist(w.reservations, after.reservations)
    ensures TicketSound(after.reservations, t)
  {
  }

  /** A step that leaves the workflow alone and answers no intake key. */
  lemma {:induction false} QuietStepKeeps(w: World, after: World)
    requires WorldSound(w) && after.db == w.db && after.bindings == w.bindings
    requires AllPersist(w.reservations, after.reservations)
    requires forall key :: Answered(after, key) ==> Answered(w, key)
    requires forall t :: t in after.issued ==> t in w.issued || TicketSound(after.reservations, t)
    ensures WorldSound(after)
  {
    hide Sound, TicketSound;
    forall key
      ensures Together(after, key)
    {
      assert Together(w, key);
    }
    forall run | run in after.db.runs
      ensures HasOrigin(after, run)
    {
      assert HasOrigin(w, run);
      var key :| CreatedRun(w.db, key) && RunOf(w.db, key) == run;
      assert CreatedRun(after.db, key) && RunOf(after.db, key) == run;
    }
    forall t | t in after.issued
      ensures TicketSound(after.reservations, t)
    {
      if t in w.issued {
        assert TicketSound(w.reservations, t);
        TicketsStay(w, after, t);
      }
    }
  }

  lemma {:induction false} BeginKeeps(w: World, step: Step)
    requires WorldSound(w) && step.BeginStep?
    ensures WorldSound(Next(w, step))
  {
    hide WorldSound;
    StepPersists(w, step);
    QuietStepKeeps(w, Next(w, step));
  }

  lemma {:induction false} RenewKeeps(w: World, step: Step)
    requires WorldSound(w) && step.RenewStep?
    ensures WorldSound(Next(w, step))
  {
    hide WorldSound;
    StepPersists(w, step);
    QuietStepKeeps(w, Next(w, step));
  }

  lemma {:induction false} CompleteKeeps(w: World, step: Step)
    requires WorldSound(w) && step.CompleteStep?
    ensures WorldSound(Next(w, step))
  {
    hide Sound, Together, HasOrigin;
    StepPersists(w, step);
    if step.ticket in w.issued {
      assert TicketSound(w.reservations, step.ticket);
    }
    QuietStepKeeps(w, Next(w, step));
  }

  /** A delivery that is no creation adds at most one command, no creation, and no run. */
  lemma {:induction false} DeliveryKeepsRuns(db: Db, d: Delivery)
    requires Sound(db) && !Creates(d.request)
    ensures var after := Deliver(db, d);
      && after.runs.Keys == db.runs.Keys
      && (forall key :: CreatedRun(after, key) <==> CreatedRun(db, key))
      && (forall key :: CreatedRun(db, key) ==> after.commands[key] == db.commands[key])
  {
    hide TaskTransaction, RunTransaction, Tables, AcyclicRuns, AllGated, Gates, Reply;
    DeliveryRecords(db, d);
    if FirstAccepted(db, d) {
      match d.request
      case TaskRequest(c) =>
        TaskTransactionSteps(db, c, d.fault, d.order);
      case RunRequest(c) =>
        RunTransactionSteps(db, c, d.fault, d.order);
        DecisionCases(db, c);
    }
  }

  lemma {:induction false} WorkflowKeeps(w: World, step: Step)
    requires WorldSound(w) && step.WorkflowStep?
    ensures WorldSound(Next(w, step))
  {
    hide Sound, Deliver, TicketSound;
    if !Creates(step.delivery.request) {
      var after := Next(w, step);
      DeliverKeepsSound(w.db, step.delivery);
      DeliveryKeepsRuns(w.db, step.delivery);
      forall key
        ensures Together(after, key)
      {
        assert Together(w, key);
      }
      forall run | run in after.db.runs
        ensures HasOrigin(after, run)
      {
        assert HasOrigin(w, run);
        var key :| CreatedRun(w.db, key) && RunOf(w.db, key) == run;
        assert CreatedRun(after.db, key) && RunOf(after.db, key) == run;
      }
    }
  }

  /** A committed intake creates its run, and creates it for the first time. */
  lemma {:induction false} CommitCreates(w: World, ticket: Ticket, c: RunCommand, order: seq<Id>)
    requires WorldSound(w) && ValidIntake(ticket, c) && RunTransaction(w.db, c, NoFault, order).Ok?
    requires Open(w.reservations, ticket.key, ticket.generation)
    requires w.reservations[ticket.key].signature == ticket.signature
    ensures var t := RunTransaction(w.db, c, NoFault, order).value;
      && ticket.key !in w.db.commands && c.id !in w.db.runs
      && t.db.commands == w.db.commands[ticket.key := CommandRecord(RunRequest(c), Some(t.result))]
      && t.db.runs.Keys == w.db.runs.Keys + {c.id}
      && Sound(t.db)
  {
    hide Sound, HasOrigin, TicketSound, RunWrites, RunStep, RunCommandDecision;
    assert Together(w, ticket.key);
    var d := Delivery(RunRequest(c), NoFault, order);
    FreshCreation(w.db, c, order);
    SoundParts(w.db);
    DeliverKeepsSound(w.db, d);
    RunDeliveryRecords(w.db, c, NoFault, order);
    RunTransactionSteps(w.db, c, NoFault, order);
    CreationRows(w.db, c, order);
  }

  /** A recorded identity of another kind refuses the creation. */
  lemma {:induction false} FreshCreation(db: Db, c: RunCommand, order: seq<Id>)
    requires c.CreateRun? && RunTransaction(db, c, NoFault, order).Ok? && !CreatedRun(db, c.meta.commandId)
    ensures c.meta.commandId !in db.commands
  {
    hide RunCommandDecision, ValidRunCommand;
  }

  lemma {:induction false} CreationRows(db: Db, c: RunCommand, order: seq<Id>)
    requires c.CreateRun? && RunCommandDecision(db, c).Ok?
    ensures var d := RunCommandDecision(db, c).value;
      c.id !in db.runs && RunWrites(db, c, d, SweptBy(db, c, order)).db.runs.Keys == db.runs.Keys + {c.id}
  {
    hide RunCommandDecision, SweepAll, SweepEvents, Planted, NewRows;
    DecisionCases(db, c);
  }

  lemma {:induction false} CommitKeeps(w: World, step: Step)
    requires WorldSound(w) && step.CommitStep?
    ensures WorldSound(Next(w, step))
  {
    hide Sound, RunTransaction, ValidRunBinding, Together, HasOrigin, TicketSound;
    if step.ticket in w.issued && ValidIntake(step.ticket, step.command) {
      var r := CommitIntake(w, step.ticket, step.command, step.binding, step.now, step.fault, step.order);
      if r.Success? {
        CommitCreates(w, step.ticket, step.command, step.order);
        CommittedTogether(w, step.ticket, step.command, r.value);
        StepPersists(w, step);
        forall t | t in r.value.issued
          ensures TicketSound(r.value.reservations, t)
        {
          assert TicketSound(w.reservations, t);
          TicketsStay(w, r.value, t);
        }
      }
    }
  }

  /** The committed world, put together. */
  lemma {:induction false} CommittedTogether(w: World, ticket: Ticket, c: RunCommand, after: World)
    requires WorldSound(w) && ValidIntake(ticket, c) && Open(w.reservations, ticket.key, ticket.generation)
    requires w.reservations[ticket.key].signature == ticket.signature
    requires ticket.key !in w.db.commands && c.id !in w.db.runs
    requires exists result ::
      && after.db.commands == w.db.commands[ticket.key := CommandRecord(RunRequest(c), Some(result))]
      && after.reservations
         == CompleteReservation(w.reservations, ticket.key, ticket.generation, Response(CREATED, RunAccepted(result)))
    requires after.db.runs.Keys == w.db.runs.Keys + {c.id} == after.bindings.Keys
    ensures forall key {:trigger Together(after, key)} :: Together(after, key)
    ensures forall run {:trigger HasOrigin(after, run)} :: run in after.db.runs ==> HasOrigin(after, run)
    ensures forall a, b {:trigger CreatedRun(after.db, a), CreatedRun(after.db, b)} ::
      CreatedRun(after.db, a) && CreatedRun(after.db, b) && RunOf(after.db, a) == RunOf(after.db, b) ==> a == b
  {
    hide Sound, TicketSound, ValidEnvelope;
    assert Creates(RunRequest(c));
    forall key
      ensures Together(after, key)
      ensures key != ticket.key ==> (CreatedRun(after.db, key) <==> CreatedRun(w.db, key))
      ensures CreatedRun(w.db, key) ==> RunOf(w.db, key) in w.db.runs
    {
      assert Together(w, key);
    }
    assert CreatedRun(after.db, ticket.key) && RunOf(after.db, ticket.key) == c.id;
    forall run | run in after.db.runs
      ensures HasOrigin(after, run)
    {
      if run != c.id {
        assert HasOrigin(w, run);
        var key :| CreatedRun(w.db, key) && RunOf(w.db, key) == run;
        assert CreatedRun(after.db, key) && RunOf(after.db, key) == run;
      }
    }
  }

  lemma {:induction false} StepKeepsWorld(w: World, step: Step)
    requires WorldSound(w)
    ensures WorldSound(Next(w, step))
  {
    hide WorldSound, Next;
    match step
    case BeginStep(_, _, _, _) => BeginKeeps(w, step);
    case RenewStep(_, _) => RenewKeeps(w, step);
    case CommitStep(_, _, _, _, _, _) => CommitKeeps(w, step);
    case CompleteStep(_, _) => CompleteKeeps(w, step);
    case WorkflowStep(_) => WorkflowKeeps(w, step);
  }

  lemma {:induction false} ReachableWorld(steps: seq<Step>)
    ensures WorldSound(RunSteps(START, steps))
  {
    hide Next, Sound;
    if steps == [] {
      EmptyIsSound();
    } else {
      var n := |steps| - 1;
      ReachableWorld(steps[..n]);
      StepKeepsWorld(RunSteps(START, steps[..n]), steps[n]);
    }
  }

  // ----- Every run of the system -----

  /** For every key, in every reachable state: the created run, its binding and the stored
      response exist together or not at all. */
  lemma {:induction false} IntakeAllOrNothing(steps: seq<Step>, key: Id)
    ensures var w := RunSteps(START, steps);
      && (Answered(w, key) <==> CreatedRun(w.db, key))
      && (CreatedRun(w.db, key) ==>
            && w.db.commands[key].result.Some?
            && w.reservations[key].response == Some(Response(CREATED, RunAccepted(w.db.commands[key].result.value)))
            && RunOf(w.db, key) in w.db.runs && RunOf(w.db, key) in w.bindings)
  {
    hide RunSteps, Sound, TicketSound, HasOrigin;
    ReachableWorld(steps);
    assert Together(RunSteps(START, steps), key);
  }

  /** Every run has a binding, and exactly one key answered for it. */
  lemma {:induction false} EveryRunWasAccepted(steps: seq<Step>, run: Id) returns (key: Id)
    requires var w := RunSteps(START, steps); run in w.db.runs || run in w.bindings
    ensures var w := RunSteps(START, steps);
      && run in w.db.runs && run in w.bindings
      && Answered(w, key) && CreatedRun(w.db, key) && RunOf(w.db, key) == run
      && forall other :: CreatedRun(w.db, other) && RunOf(w.db, other) == run ==> other == key
  {
    hide RunSteps, Sound, TicketSound;
    ReachableWorld(steps);
    var w := RunSteps(START, steps);
    assert HasOrigin(w, run);
    key :| CreatedRun(w.db, key) && RunOf(w.db, key) == run;
    assert Together(w, key);
  }

  predicate By(step: Step, ticket: Ticket) {
    (step.RenewStep? || step.CommitStep? || step.CompleteStep?) && step.ticket == ticket
  }

  /** A superseded generation never writes anything, and an answered key is never written. */
  lemma {:induction false} SupersededNeverWrites(w: World, ticket: Ticket, step: Step)
    requires By(step, ticket) && ticket.key in w.reservations
    requires ticket.generation < w.reservations[ticket.key].generation || w.reservations[ticket.key].response.Some?
    ensures Next(w, step) == w
  {
    hide RunTransaction, ValidRunBinding, ValidEnvelope;
  }

  /** Taking a key over supersedes every ticket handed out for it before. */
  lemma {:induction false} TakeOverSupersedes(steps: seq<Step>, step: Step, old_: Ticket)
    requires step.BeginStep? && old_ in RunSteps(START, steps).issued && old_.key == step.key
    requires var w := RunSteps(START, steps);
      BeginReservation(w.reservations, step.key, step.signature, step.now, step.ttl).Success?
      && BeginReservation(w.reservations, step.key, step.signature, step.now, step.ttl).value.1.Granted?
    ensures var w := RunSteps(START, steps); var after := Next(w, step);
      && old_.generation < after.reservations[step.key].generation
      && Ticket(step.key, step.signature, after.reservations[step.key].generation) in after.issued
  {
    hide RunSteps, Sound, Together, HasOrigin;
    ReachableWorld(steps);
    assert TicketSound(RunSteps(START, steps).reservations, old_);
  }

  /** An intake commits only under the generation that holds the key, before its time runs
      out, and binds exactly the staged artifacts to the created run. */
  lemma {:induction false} CommitHoldsReservation(steps: seq<Step>, step: Step)
    requires step.CommitStep? && Next(RunSteps(START, steps), step) != RunSteps(START, steps)
    ensures var w := RunSteps(START, steps); var after := Next(w, step);
      && Open(w.reservations, step.ticket.key, step.ticket.generation)
      && step.now < w.reservations[step.ticket.key].expiresAt
      && step.fault == NoIntakeFault
      && step.command.id !in w.bindings && after.bindings == w.bindings[step.command.id := step.binding]
      && CreatedRun(after.db, step.ticket.key) && RunOf(after.db, step.ticket.key) == step.command.id
  {
    hide RunSteps, Sound, Together, HasOrigin, TicketSound, RunTransaction, ValidRunBinding, ValidEnvelope;
    ReachableWorld(steps);
    CommitCreates(RunSteps(START, steps), step.ticket, step.command, step.order);
  }

  lemma {:induction false} ReservationsPersist(steps: seq<Step>, more: seq<Step>, key: Id)
    requires key in RunSteps(START, steps).reservations
    ensures key in RunSteps(START, steps + more).reservations
    ensures Persists(RunSteps(START, steps).reservations[key], RunSteps(START, steps + more).reservations[key])
  {
    hide Next;
    if more == [] {
      assert steps + more == steps;
    } else {
      var n := |more| - 1;
      ReservationsPersist(steps, more[..n], key);
      assert (steps + more)[..|steps + more| - 1] == steps + more[..n];
      StepPersists(RunSteps(START, steps + more[..n]), more[n]);
    }
  }

  /** Once a key is answered, every later matching request gets that same answer, for any
      continuation and whatever the clock says, and any other use of the key is refused. */
  lemma {:induction false} AnswerReplaysForever(steps: seq<Step>, more: seq<Step>, key: Id, signature: Signature,
                                                now: Time, ttl: int)
    requires ValidId(key) && key in RunSteps(START, steps).reservations
    requires RunSteps(START, steps).reservations[key].response.Some?
    ensures var r := RunSteps(START, steps).reservations[key]; var later := RunSteps(START, steps + more).reservations;
      BeginReservation(later, key, signature, now, ttl)
      == if signature == r.signature then Success((later, Repeated(r.response.value, r.generation)))
         else Failure(KeyConflict)
  {
    hide RunSteps;
    ReservationsPersist(steps, more, key);
  }

  // ----- The coordinator -----

  /** The tickets handed out once a reservation was granted. */
  ghost function GrantedTo(issued: set<Ticket>, key: Id, signature: Signature, r: Attempt<Grant>): set<Ticket> {
    if r.Success? && r.value.Granted? then issued + {Ticket(key, signature, r.value.generation)} else issued
  }

  /** A matching reservation whose holder ran out of time unanswered. */
  predicate Expired(r: Reservation, signature: Signature, now: Time) {
    r.signature == signature && r.response.None? && r.expiresAt <= now
  }

  /** When each part of an intake happens. */
  datatype Clock = Clock(begun: Time, committed: Time, abandoned: Time)

  class RunIntakeCoordinator {
    const store: Store.Store
    var reservations: Reservations
    var bindings: map<Id, RunBinding>

    constructor (store: Store.Store)
      ensures this.store == store && reservations == map[] && bindings == map[]
    {
      this.store := store;
      reservations, bindings := map[], map[];
    }

    ghost function State(issued: set<Ticket>): World
      reads this, store
    {
      World(store.State(), reservations, bindings, issued)
    }

    /** Reserves a key. It is granted exactly at its first use or when its last holder ran out
        of time unanswered, always under a generation nobody held before; an answered key
        repeats its answer; nothing else changes, and no other key ever does. */
    method BeginIdempotency(key: Id, signature: Signature, now: Time, ttl: int, ghost issued: set<Ticket>)
        returns (r: Attempt<Grant>)
      modifies `reservations
      ensures r.Success? && r.value.Granted? <==>
        ValidId(key) && (key !in old(reservations) || Expired(old(reservations)[key], signature, now))
      ensures r.Success? && r.value.Granted? ==>
        && Open(reservations, key, r.value.generation) && reservations[key].signature == signature
        && reservations[key].expiresAt == now + Lifetime(ttl)
        && (key in old(reservations) ==> r.value.generation == old(reservations)[key].generation + 1)
      ensures r.Success? && r.value.Repeated? <==>
        ValidId(key) && key in old(reservations) && old(reservations)[key].signature == signature
        && old(reservations)[key].response.Some?
      ensures r.Success? && r.value.Repeated? ==>
        key in reservations && reservations[key].response == Some(r.value.response)
      ensures !(r.Success? && r.value.Granted?) ==> reservations == old(reservations)
      ensures forall other :: other != key ==>
        (other in reservations <==> other in old(reservations))
        && (other in reservations ==> reservations[other] == old(reservations)[other])
      ensures State(GrantedTo(issued, key, signature, r))
           == Next(old(State(issued)), BeginStep(key, signature, now, ttl))
    {
      hide CommitIntake, Deliver, ValidIntake;
      if !ValidId(key) {
        return Failure(KeyConflict);
      }
      var lifetime := ttl;
      if ttl <= 0 {
        lifetime := DEFAULT_TTL;
      }
      if key !in reservations {
        reservations := reservations[key := Reservation(signature, None, now + lifetime, 1)];
        return Success(Granted(1));
      }
      var row := reservations[key];
      if row.signature != signature {
        return Failure(KeyConflict);
      }
      if row.response.Some? {
        return Success(Repeated(row.response.value, row.generation));
      }
      if row.expiresAt > now {
        return Failure(InProgress);
      }
      reservations := reservations[key := row.(expiresAt := now + lifetime, generation := row.generation + 1)];
      return Success(Granted(row.generation + 1));
    }

    /** Renews a ticket, or abandons it when given the current time. It moves the expiry exactly
        while the ticket's generation holds the key unanswered, and changes nothing else. */
    method SetExpiry(ticket: Ticket, until: Time, ghost issued: set<Ticket>) returns (held: bool)
      requires ticket in issued
      modifies `reservations
      ensures held <==> Open(old(reservations), ticket.key, ticket.generation)
      ensures held ==>
        && Open(reservations, ticket.key, ticket.generation) && reservations[ticket.key].expiresAt == until
        && reservations[ticket.key].signature == old(reservations)[ticket.key].signature
      ensures !held ==> reservations == old(reservations)
      ensures forall other :: other != ticket.key ==>
        (other in reservations <==> other in old(reservations))
        && (other in reservations ==> reservations[other] == old(reservations)[other])
      ensures State(issued) == Next(old(State(issued)), RenewStep(ticket, until))
    {
      hide CommitIntake, Deliver, ValidIntake;
      held := Open(reservations, ticket.key, ticket.generation);
      if held {
        reservations := reservations[ticket.key := reservations[ticket.key].(expiresAt := until)];
      }
    }

    /** Locks the key, creates the run, binds it and stores the response; whatever fails
        rolls all of it back. */
    method CommitIntakeOnce(ticket: Ticket, c: RunCommand, b: RunBinding, now: Time, fault: IntakeFault,
                            ghost issued: set<Ticket>)
        returns (r: Attempt<Response>, ghost order: seq<Id>)
      requires ValidIntake(ticket, c)
      modifies this, store
      ensures match CommitIntake(old(State(issued)), ticket, c, b, now, fault, order)
        case Success(w) =>
          && State(issued) == w && r.Success?
          && ticket.key in reservations && reservations[ticket.key].response == Some(r.value)
        case Failure(error) => State(issued) == old(State(issued)) && r == Failure(error)
    {
      hide RunTransaction, ValidRunBinding, ValidEnvelope;
      order := [];
      var locked := LockReservation(reservations, ticket.key, ticket.signature, ticket.generation, now);
      if locked.Failure? {
        return Failure(locked.error), [];
      }
      if !ValidRunCommand(c) {
        Store.InvalidRun(store.State(), c, NoFault);
        return Failure(WorkflowRefused(Invalid)), [];
      }
      var saved := (store.runs, store.tasks, store.deps, store.commands, store.log);
      var result;
      result, order := store.ExecuteRunTransaction(c, NoFault);
      if result.Ok? && fault != AfterWorkflow {
        var inserted := InsertBinding(bindings, c.id, b);
        if inserted.Success? && fault == NoIntakeFault {
          bindings := inserted.value;
          var response := Response(CREATED, RunAccepted(result.value));
          reservations := reservations[ticket.key := reservations[ticket.key].(response := Some(response))];
          return Success(response), order;
        }
        r := if inserted.Failure? then Failure(inserted.error) else Failure(Faulted);
      } else {
        r := if result.Err? then Failure(WorkflowRefused(result.error)) else Failure(Faulted);
      }
      store.runs, store.tasks, store.deps, store.commands, store.log := saved.0, saved.1, saved.2, saved.3, saved.4;
    }

    /** A whole intake nobody disturbs. It takes steps of the system and no others. When it
        answers, the key holds that answer for good; when it fails before its answer could be
        lost, the workflow and the bindings are as they were. */
    method Accept(ticketKey: Id, signature: Signature, c: RunCommand, staged: Option<RunBinding>, ttl: int, clock: Clock,
                  fault: IntakeFault, replyLost: bool, ghost issued: set<Ticket>)
        returns (r: Attempt<Response>, ghost steps: seq<Step>, ghost tickets: set<Ticket>)
      modifies this, store
      ensures State(tickets) == RunSteps(old(State(issued)), steps)
      ensures r.Success? ==> ticketKey in reservations && reservations[ticketKey].response == Some(r.value)
      ensures r.Failure? && !replyLost ==> store.State() == old(store.State()) && bindings == old(bindings)
      ensures |steps| <= 2
    {
      hide Next, CommitIntake, ValidRunBinding, ValidEnvelope;
      steps, tickets := [], issued;
      if !ValidIntake(Ticket(ticketKey, signature, 0), c) {
        r := if SameRequest(Ticket(ticketKey, signature, 0), c) then Failure(WorkflowRefused(Invalid)) else Failure(KeyConflict);
        return;
      }
      ghost var w := State(issued);
      var grant := BeginIdempotency(ticketKey, signature, clock.begun, ttl, issued);
      ghost var begin := BeginStep(ticketKey, signature, clock.begun, ttl);
      steps := [begin];
      tickets := GrantedTo(issued, ticketKey, signature, grant);
      OneStep(w, begin);
      if grant.Failure? {
        return Failure(grant.error), steps, tickets;
      }
      if grant.value.Repeated? {
        return Success(grant.value.response), steps, tickets;
      }
      var ticket := Ticket(ticketKey, signature, grant.value.generation);
      TicketAgnostic(ticketKey, signature, grant.value.generation, c);
      if staged.None? {
        var held := SetExpiry(ticket, clock.abandoned, tickets);
        steps := [begin, RenewStep(ticket, clock.abandoned)];
        TwoSteps(w, begin, steps[1]);
        return Failure(Faulted), steps, tickets;
      }
      ghost var order;
      ghost var before := State(tickets);
      r, order := CommitIntakeOnce(ticket, c, staged.value, clock.committed, fault, tickets);
      if r.Failure? {
        CommitFails(before, ticket, c, staged.value, clock.committed, fault, order);
        var held := SetExpiry(ticket, clock.abandoned, tickets);
        steps := [begin, RenewStep(ticket, clock.abandoned)];
        TwoSteps(w, begin, steps[1]);
        return r, steps, tickets;
      }
      ghost var commit := CommitStep(ticket, c, staged.value, clock.committed, fault, order);
      CommitSucceeds(before, ticket, c, staged.value, clock.committed, fault, order);
      steps := [begin, commit];
      TwoSteps(w, begin, commit);
      if replyLost {
        r := Failure(Faulted);
      }
    }
  }

  lemma {:induction false} OneStep(w: World, a: Step)
    ensures RunSteps(w, [a]) == Next(w, a)
  {
    hide Next;
    assert [a][..0] == [];
  }

  lemma {:induction false} TwoSteps(w: World, a: Step, b: Step)
    ensures RunSteps(w, [a, b]) == Next(Next(w, a), b)
  {
    hide Next;
    OneStep(w, a);
    assert [a, b][..1] == [a];
  }

  lemma {:induction false} TicketAgnostic(key: Id, signature: Signature, generation: nat, c: RunCommand)
    ensures ValidIntake(Ticket(key, signature, generation), c) <==> ValidIntake(Ticket(key, signature, 0), c)
  {
  }

  lemma {:induction false} CommitSucceeds(w: World, ticket: Ticket, c: RunCommand, b: RunBinding, now: Time,
                                          fault: IntakeFault, order: seq<Id>)
    requires ticket in w.issued && ValidIntake(ticket, c) && CommitIntake(w, ticket, c, b, now, fault, order).Success?
    ensures Next(w, CommitStep(ticket, c, b, now, fault, order)) == CommitIntake(w, ticket, c, b, now, fault, order).value
  {
    hide CommitIntake, ValidIntake;
  }

  lemma {:induction false} CommitFails(w: World, ticket: Ticket, c: RunCommand, b: RunBinding, now: Time,
                                       fault: IntakeFault, order: seq<Id>)
    requires CommitIntake(w, ticket, c, b, now, fault, order).Failure?
    ensures Next(w, CommitStep(ticket, c, b, now, fault, order)) == w
  {
    hide CommitIntake, ValidIntake;
  }
}
