/** Histories of one run: which commands are taken, and what a merged run rests on. */
module RunHistory {
  import opened Kernel
  import opened TaskGraph
  import opened Tasks
  import opened TaskHistory
  import opened Runs
  import opened Database
  import opened Steps
  import opened Gating
  import opened EventLog

  // ----- Which commands are taken -----

  predicate RunEntitled(c: RunCommand) {
    var actor := c.meta.actor.kind;
    match c
    case CreateRun(_, _) => actor == Human || actor == WorkflowService
    case ProposeSpecification(_, _, _) => actor == WorkflowService
    case ProposeTaskGraph(_, _, _) => actor == WorkflowService
    case StartRun(_, _) => actor == WorkflowService
    case RecordRunExecution(_, _, _, _) => actor == ExecutionService
    case RecordRunVerification(_, _, _, _) => actor == VerificationService
    case RecordRunReview(_, _, _, _) => actor == ReviewService
    case RecordDraftPullRequest(_, _, _, _, _) => actor == PublicationService
    case RecordMerge(_, _, _, _, _) => actor == MergeService
    case FailRun(_, _, _, _) => TrustedOperationalActor(actor)
    case _ => actor == Human
  }

  /** Some move of the legal table starts here with the command's event. */
  ghost predicate RunEnabled(r: Run, c: RunCommand) {
    exists to :: RunLegal(r.state, RunEventType(c), to)
  }

  predicate RunWellBound(r: Run, c: RunCommand) {
    match c
    case ProposeSpecification(_, _, specification) => ValidArtifact(specification)
    case RejectSpecification(_, _, specification, reason, _) =>
      ValidArtifact(specification) && r.specification == Some(specification) && ValidReason(reason)
    case ApproveSpecification(_, _, specification) => ValidArtifact(specification) && r.specification == Some(specification)
    case ProposeTaskGraph(_, _, graph) => ValidArtifact(graph)
    case RejectTaskGraph(_, _, graph, reason, _) =>
      ValidArtifact(graph) && r.taskGraph == Some(graph) && ValidReason(reason)
    case StartRun(_, _) => true
    case RecordRunExecution(_, _, execution, commit) => ValidArtifact(execution) && IsCommit(commit)
    case RecordRunVerification(_, _, commit, evidence) => commit == r.candidateCommit && ValidArtifact(evidence)
    case RecordRunReview(_, _, commit, review) => commit == r.candidateCommit && ValidArtifact(review)
    case ApproveRun(_, _, commit, review, approval) =>
      commit == r.candidateCommit && ValidArtifact(review) && r.review == Some(review) && ValidArtifact(approval)
    case RejectRun(_, _, commit, review, reason) =>
      commit == r.candidateCommit && ValidArtifact(review) && r.review == Some(review) && ValidReason(reason)
    case RecordDraftPullRequest(_, _, commit, approval, publication) =>
      && commit == r.candidateCommit && ValidArtifact(approval) && r.approval == Some(approval)
      && ValidArtifact(publication) && r.publication.None?
    case RecordMerge(_, _, commit, approval, merge) =>
      commit == r.candidateCommit && ValidArtifact(approval) && r.approval == Some(approval) && ValidArtifact(merge)
    case FailRun(_, _, evidence, reason) => ValidArtifact(evidence) && ValidReason(reason)
    case CancelRun(_, _, reason) => ValidReason(reason)
    case _ => true
  }

  /** Any state a legal move of the command may lead to. */
  function SomeTarget(c: RunCommand): RunState {
    match c
    case ProposeSpecification(_, _, _) => SpecificationReview
    case RejectSpecification(_, _, _, _, _) => DraftRun
    case ApproveSpecification(_, _, _) => TaskPlanning
    case ProposeTaskGraph(_, _, _) => TaskPlanReview
    case RejectTaskGraph(_, _, _, _, _) => TaskPlanning
    case ApproveTaskGraph(_, _, _, _, _) => ReadyRun
    case StartRun(_, _) => ExecutingRun
    case RecordRunExecution(_, _, _, _) => VerifyingRun
    case RecordRunVerification(_, _, _, _) => ReviewingRun
    case RecordRunReview(_, _, _, _) => ApprovalPending
    case ApproveRun(_, _, _, _, _) => MergeReady
    case RejectRun(_, _, _, _, _) => RejectedRun
    case RecordDraftPullRequest(_, _, _, _, _) => MergeReady
    case RecordMerge(_, _, _, _, _) => MergedRun
    case FailRun(_, _, _, _) => FailedRun
    case CancelRun(_, _, _) => CancelledRun
    case CreateRun(_, _) => DraftRun
  }

  lemma {:induction false} RunEnabledByTable(r: Run, c: RunCommand)
    ensures RunEnabled(r, c) <==> RunLegal(r.state, RunEventType(c), SomeTarget(c))
  {
  }

  /** A live run takes a command exactly when the table of legal moves has one for it, the
      actor is entitled to it and what it carries fits. */
  lemma {:induction false} RunDecidesExactly(r: Run, c: RunCommand)
    requires !r.state.Terminal() && !c.CreateRun? && !c.ApproveTaskGraph?
    ensures DecideRun(r, c).Ok? <==> RunEnabled(r, c) && RunEntitled(c) && RunWellBound(r, c)
    ensures DecideRun(r, c) == Err(InvalidTransition) <==> !RunEnabled(r, c)
    ensures DecideRun(r, c) == Err(Unauthorized) <==> RunEnabled(r, c) && !RunEntitled(c)
  {
    hide RunEnabled, IsCommit, ValidArtifact, ValidReason, LawfulRun;
    RunEnabledByTable(r, c);
  }

  // ----- What a run rests on -----

  /** The run's step k, recorded in its snapshot: execution, verification, review, approval. */
  predicate RunStepRecorded(k: nat, c: Option<RunCommand>, r: Run) {
    c.Some? &&
    match c.value
    case RecordRunExecution(_, _, execution, commit) =>
      k == 0 && r.execution == Some(execution) && r.candidateCommit == commit && IsCommit(commit)
    case RecordRunVerification(_, _, commit, evidence) =>
      k == 1 && r.candidateCommit == commit && r.verification == Some(evidence)
    case RecordRunReview(_, _, commit, review) =>
      k == 2 && r.candidateCommit == commit && r.review == Some(review)
    case ApproveRun(_, _, commit, review, approval) =>
      k == 3 && r.candidateCommit == commit && r.review == Some(review) && r.approval == Some(approval)
    case _ => false
  }

  /** How many of those steps a run in this state has taken. */
  function RunSteps(state: RunState): nat {
    match state
    case VerifyingRun => 1
    case ReviewingRun => 2
    case ApprovalPending => 3
    case MergeReady => 4
    case _ => 0
  }

  /** The commands hold the first steps of the run, in consecutive positions from `at`. */
  ghost predicate RunEvidenced(h: seq<Option<RunCommand>>, at: nat, r: Run, steps: nat) {
    at + steps <= |h| && AllRecorded(h[at..at + steps], r)
  }

  ghost predicate AllRecorded(steps: seq<Option<RunCommand>>, r: Run) {
    forall k :: 0 <= k < |steps| ==> RunStepRecorded(k, steps[k], r)
  }

  predicate KeepsRunSteps(k: nat, r: Run, n: Run) {
    && (k > 0 ==> n.execution == r.execution && n.candidateCommit == r.candidateCommit)
    && (k > 1 ==> n.verification == r.verification)
    && (k > 2 ==> n.review == r.review)
    && (k > 3 ==> n.approval == r.approval)
  }

  /** The draft pull request that was recorded: for this candidate and under this approval. */
  predicate Drafts(c: Option<RunCommand>, r: Run) {
    && c.Some? && c.value.RecordDraftPullRequest?
    && c.value.candidateCommit == r.candidateCommit
    && r.approval == Some(c.value.approval) && r.publication == Some(c.value.publication)
  }

  /** The merge that was recorded: of this candidate and under this approval. */
  predicate Merges(c: Option<RunCommand>, r: Run) {
    && c.Some? && c.value.RecordMerge?
    && c.value.candidateCommit == r.candidateCommit
    && r.approval == Some(c.value.approval) && r.merge == Some(c.value.merge)
  }

  /** What follows the four steps: nothing, or the one draft pull request the run records. */
  predicate Published(rest: seq<Option<RunCommand>>, r: Run) {
    if r.publication.None? then rest == [] else |rest| == 1 && Drafts(rest[0], r)
  }

  /** One move towards merging: a new step is recorded, or a draft pull request or the merge
      keeps all four. */
  lemma {:induction false} MoveRecords(r: Run, c: RunCommand)
    requires DecideRun(r, c).Ok?
    ensures var n := DecideRun(r, c).value.next;
      && (RunSteps(n.state) > 0 && !c.RecordDraftPullRequest? ==>
            && RunSteps(n.state) == RunSteps(r.state) + 1
            && RunStepRecorded(RunSteps(r.state), Some(c), n)
            && KeepsRunSteps(RunSteps(r.state), r, n))
      && (c.RecordDraftPullRequest? || c.RecordMerge? ==> r.state == MergeReady && KeepsRunSteps(4, r, n))
      && (c.RecordDraftPullRequest? ==> r.publication.None? && Drafts(Some(c), n) && n.state == MergeReady)
      && (c.RecordMerge? ==> Merges(Some(c), n))
      && (n.state == MergedRun ==> c.RecordMerge?)
      && (!c.RecordDraftPullRequest? ==> n.publication == r.publication)
  {
    hide ValidArtifact, ValidReason, ValidRun, IsCommit, LawfulRun;
  }

  lemma {:induction false} NextMove(r: Run, c: Option<RunCommand>)
    requires RunNext(r, c).Some?
    ensures c.Some? && !c.value.CreateRun?
    ensures c.value.ApproveTaskGraph? ==> RunNext(r, c).value.state == ReadyRun
    ensures !c.value.ApproveTaskGraph? ==>
      && DecideRun(r, c.value).Ok?
      && var n := DecideRun(r, c.value).value.next;
         RunNext(r, c).value == n.(revision := r.revision + 1, updatedAt := c.value.meta.timestamp)
  {
    hide PlanTasks, DecideRun, ValidRun;
    if c.value.ApproveTaskGraph? {
      PlanFacts(r, c.value);
    }
  }

  lemma {:induction false} KeptRunStep(j: nat, k: nat, c: Option<RunCommand>, r: Run, n: Run)
    requires j < k && RunStepRecorded(j, c, r) && KeepsRunSteps(k, r, n)
    ensures RunStepRecorded(j, c, n)
  {
  }

  lemma {:induction false} RecordsKept(steps: seq<Option<RunCommand>>, r: Run, n: Run)
    requires AllRecorded(steps, r) && KeepsRunSteps(|steps|, r, n)
    ensures AllRecorded(steps, n)
  {
    hide RunStepRecorded, KeepsRunSteps;
    forall j | 0 <= j < |steps|
      ensures RunStepRecorded(j, steps[j], n)
    {
      KeptRunStep(j, |steps|, steps[j], r, n);
    }
  }

  lemma {:induction false} EvidenceKept(h: seq<Option<RunCommand>>, at: nat, r: Run, n: Run, k: nat, last: Option<RunCommand>)
    requires RunEvidenced(h, at, r, k) && KeepsRunSteps(k, r, n)
    ensures RunEvidenced(h + [last], at, n, k)
  {
    hide AllRecorded, KeepsRunSteps;
    RecordsKept(h[at..at + k], r, n);
    assert (h + [last])[at..at + k] == h[at..at + k];
  }

  lemma {:induction false} EvidenceGrows(h: seq<Option<RunCommand>>, at: nat, r: Run, n: Run, k: nat, last: Option<RunCommand>)
    requires RunEvidenced(h, at, r, k) && KeepsRunSteps(k, r, n) && at + k == |h| && RunStepRecorded(k, last, n)
    ensures RunEvidenced(h + [last], at, n, k + 1)
  {
    hide RunStepRecorded, KeepsRunSteps;
    RecordsKept(h[at..at + k], r, n);
    assert (h + [last])[at..at + k + 1] == h[at..at + k] + [last];
  }

  /** The steps a run has taken stand in consecutive commands at the end of its history; only
      one draft pull request may follow the fourth. */
  lemma {:induction false} RunIsEvidenced(h: seq<Option<RunCommand>>) returns (at: nat)
    requires RunReplay(h).Some?
    ensures at <= |h|
    ensures var r := RunReplay(h).value; RunEvidenced(h, at, r, RunSteps(r.state))
    ensures var r := RunReplay(h).value; 0 < RunSteps(r.state) < 4 ==> at + RunSteps(r.state) == |h|
    ensures var r := RunReplay(h).value; r.state == MergeReady ==> at + 4 <= |h| && Published(h[at + 4..], r)
  {
    hide RunNext, RunBegin, RunStepRecorded, KeepsRunSteps, DecideRun, Merges, RunBoundFor;
    at := 0;
    var r := RunReplay(h).value;
    if |h| == 1 {
      BeginsAsDraft(h[0]);
    } else if RunSteps(r.state) > 0 {
      var n := |h| - 1;
      var before, last := RunReplay(h[..n]).value, h[n];
      at := RunIsEvidenced(h[..n]);
      NextMove(before, last);
      MoveRecords(before, last.value);
      assert h == h[..n] + [last];
      var k := RunSteps(before.state);
      StampKeeps(before, last.value, r);
      if last.value.RecordDraftPullRequest? {
        EvidenceKept(h[..n], at, before, r, 4, last);
        assert h[at + 4..] == h[..n][at + 4..] + [last];
      } else {
        if k == 0 {
          at := n;
        }
        EvidenceGrows(h[..n], at, before, r, k, last);
        if k == 3 {
          RunBindingsMatchState(h[..n]);
          NothingPublished(before);
        }
      }
    }
  }

  lemma {:induction false} NothingPublished(r: Run)
    requires RunBoundFor(r) && r.state == ApprovalPending
    ensures r.publication.None?
  {
  }

  lemma {:induction false} BeginsAsDraft(c: Option<RunCommand>)
    requires RunBegin(c).Some?
    ensures RunBegin(c).value.state == DraftRun
  {
    CreationStarts(c.value);
  }

  lemma {:induction false} StampKeeps(r: Run, c: RunCommand, n: Run)
    requires DecideRun(r, c).Ok?
    requires n == DecideRun(r, c).value.next.(revision := r.revision + 1, updatedAt := c.meta.timestamp)
    ensures forall k: nat :: KeepsRunSteps(k, r, DecideRun(r, c).value.next) ==> KeepsRunSteps(k, r, n)
    ensures forall k: nat :: RunStepRecorded(k, Some(c), DecideRun(r, c).value.next) ==> RunStepRecorded(k, Some(c), n)
    ensures Drafts(Some(c), DecideRun(r, c).value.next) ==> Drafts(Some(c), n)
    ensures Merges(Some(c), DecideRun(r, c).value.next) ==> Merges(Some(c), n)
  {
    hide DecideRun, IsCommit;
  }

  /** A merged run's commands end with its execution, verification, review and approval, at
      most its one draft pull request, and its merge: all about the same candidate, the last
      two under the same approval. */
  ghost predicate MergedChain(h: seq<Option<RunCommand>>, at: nat, r: Run) {
    && at + 4 < |h| && RunEvidenced(h, at, r, 4)
    && Published(h[at + 4..|h| - 1], r)
    && Merges(h[|h| - 1], r)
  }

  lemma {:induction false} MergedIsEvidenced(h: seq<Option<RunCommand>>) returns (at: nat)
    requires RunReplay(h).Some? && RunReplay(h).value.state == MergedRun
    ensures MergedChain(h, at, RunReplay(h).value)
    ensures at + 5 <= |h| <= at + 6
    ensures forall k :: at + 4 <= k < |h| - 1 ==> h[k].Some? && h[k].value.RecordDraftPullRequest?
    ensures var last := h[|h| - 1]; var r := RunReplay(h).value;
      && last.Some? && last.value.RecordMerge? && r.merge == Some(last.value.merge)
      && last.value.candidateCommit == r.candidateCommit && r.approval == Some(last.value.approval)
  {
    hide RunNext, RunBegin, RunStepRecorded, KeepsRunSteps, RunEvidenced, DecideRun;
    at := 0;
    if |h| == 1 {
      BeginsAsDraft(h[0]);
      assert false;
    }
    var n := |h| - 1;
    var before, last := RunReplay(h[..n]).value, h[n];
    at := RunIsEvidenced(h[..n]);
    NextMove(before, last);
    MoveRecords(before, last.value);
    StampKeeps(before, last.value, RunReplay(h).value);
    EvidenceKept(h[..n], at, before, RunReplay(h).value, 4, last);
    assert h == h[..n] + [last] && h[..n][at + 4..] == h[at + 4..n];
    PublicationKept(h[at + 4..n], before, RunReplay(h).value);
  }

  lemma {:induction false} PublicationKept(rest: seq<Option<RunCommand>>, r: Run, n: Run)
    requires Published(rest, r) && KeepsRunSteps(4, r, n) && n.publication == r.publication
    ensures Published(rest, n)
  {
  }

  /** In the store: a merged run's events rest on such a chain of stored commands, and every
      one of its tasks was accepted. */
  lemma {:induction false} MergedInStore(ds: seq<Delivery>, run: Id) returns (at: nat)
    requires var db := RunAll(EMPTY, ds); run in db.runs && db.runs[run].state == MergedRun
    ensures var db := RunAll(EMPTY, ds); var h := RunEntries(db, run);
      && MergedChain(h, at, db.runs[run]) && at + 5 <= |h| <= at + 6
      && HasTasks(db.tasks, run) && AllIn(db.tasks, run, {Accepted})
  {
    hide RunAll, RunReplay, MergedChain, TaskExplained, Numbered, HasTasks, AllIn;
    ReachableLogAgrees(ds);
    var db := RunAll(EMPTY, ds);
    assert RunExplained(db, run);
    at := MergedIsEvidenced(RunEntries(db, run));
    CompletionGates(ds, run);
  }

  // ----- What the event types say -----

  /** Both outcomes of a review that sends a proposal back carry the same event type. */
  predicate IsRejection(e: EventType) {
    e == SpecificationRejected || e == TaskGraphRejected
  }

  /** The state a run event leads to; a rejection's when it is not the last word. */
  function RunStateAfter(e: EventType): RunState {
    match e
    case SpecificationProposed => SpecificationReview
    case SpecificationApproved => TaskPlanning
    case TaskGraphProposed => TaskPlanReview
    case TaskGraphRejected => TaskPlanning
    case TaskGraphApproved => ReadyRun
    case RunExecutionStarted => ExecutingRun
    case RunExecuted => VerifyingRun
    case RunVerified => ReviewingRun
    case RunReviewed => ApprovalPending
    case RunApproved => MergeReady
    case RunRejected => RejectedRun
    case DraftPullRequestCreated => MergeReady
    case RunMerged => MergedRun
    case RunFailed => FailedRun
    case RunCancelled => CancelledRun
    case _ => DraftRun
  }

  function TypeOf(c: Option<RunCommand>): Option<EventType> {
    if c.Some? then Some(RunEventType(c.value)) else None
  }

  function RunTypes(h: seq<Option<RunCommand>>): seq<Option<EventType>> {
    seq(|h|, i requires 0 <= i < |h| => TypeOf(h[i]))
  }

  predicate EndsInRejection(types: seq<Option<EventType>>) {
    |types| > 0 && types[|types| - 1].Some? && IsRejection(types[|types| - 1].value)
  }

  /** The last event type gives the run's state, up to the verdict of a rejection. */
  lemma {:induction false} LastTypeGivesState(h: seq<Option<RunCommand>>)
    requires RunReplay(h).Some?
    ensures var types := RunTypes(h); var state := RunReplay(h).value.state;
      && |types| > 0 && types[|types| - 1].Some?
      && var e := types[|types| - 1].value;
         state == RunStateAfter(e) || (IsRejection(e) && state == RejectedRun)
  {
    hide RunNext, RunBegin, RunEventType;
    var n := |h| - 1;
    if n == 0 {
      BeginsWithCreation(h[0]);
    } else {
      NextIsLegal(RunReplay(h[..n]).value, h[n]);
    }
  }

  lemma {:induction false} BeginsWithCreation(c: Option<RunCommand>)
    requires RunBegin(c).Some?
    ensures c.Some? && RunEventType(c.value) == RunCreated && RunBegin(c).value.state == DraftRun
  {
    BeginsAsDraft(c);
  }

  lemma {:induction false} NextIsLegal(r: Run, c: Option<RunCommand>)
    requires RunNext(r, c).Some?
    ensures c.Some? && RunLegal(r.state, RunEventType(c.value), RunNext(r, c).value.state)
  {
    hide Decision, ValidRun, RunLegal, RunEventType;
    DecisionMoves(r, c.value);
  }

  /** The rejection with the other verdict. */
  function Flipped(c: RunCommand): RunCommand
    requires c.RejectSpecification? || c.RejectTaskGraph?
  {
    c.(terminal := !c.terminal)
  }

  /** Both verdicts are taken alike, write the same event and lead to different states. */
  lemma {:induction false} BothVerdicts(r: Run, c: RunCommand)
    requires c.RejectSpecification? || c.RejectTaskGraph?
    ensures ApplyRun(r, c).Ok? <==> ApplyRun(r, Flipped(c)).Ok?
    ensures ApplyRun(r, c).Ok? ==>
      && var a, b := ApplyRun(r, c).value, ApplyRun(r, Flipped(c)).value;
      && a.events == b.events && a.tasks == b.tasks == [] && a.dependencies == b.dependencies == []
      && a.next.id == b.next.id && a.next.state != b.next.state
  {
    hide ValidRun, ValidReason, ValidArtifact, LawfulRun, ValidRunCommand;
    assert ValidRunCommand(c) <==> ValidRunCommand(Flipped(c)) by {
      SameEnvelope(c);
    }
  }

  lemma {:induction false} SameEnvelope(c: RunCommand)
    requires c.RejectSpecification? || c.RejectTaskGraph?
    ensures ValidRunCommand(c) <==> ValidRunCommand(Flipped(c))
  {
  }

  /** A history that ends in a rejection has a twin of the same event types that ends
      elsewhere. */
  lemma {:induction false} RejectionHasTwin(h: seq<Option<RunCommand>>) returns (twin: seq<Option<RunCommand>>)
    requires RunReplay(h).Some? && EndsInRejection(RunTypes(h))
    ensures RunReplay(twin).Some? && RunTypes(twin) == RunTypes(h)
    ensures RunReplay(twin).value.state != RunReplay(h).value.state
  {
    hide RunNext, RunBegin, RunEventType, Flipped;
    var n := |h| - 1;
    if n == 0 {
      BeginsWithCreation(h[0]);
      assert false;
    }
    var before := RunReplay(h[..n]).value;
    NextIsLegal(before, h[n]);
    RejectionsOnly(h[n].value);
    var c := Flipped(h[n].value);
    twin := h[..n] + [Some(c)];
    FlippedNext(before, h[n].value);
    assert twin[..n] == h[..n];
    forall i | 0 <= i < |h|
      ensures RunTypes(twin)[i] == RunTypes(h)[i]
    {
    }
  }

  lemma {:induction false} RejectionsOnly(c: RunCommand)
    requires IsRejection(RunEventType(c))
    ensures c.RejectSpecification? || c.RejectTaskGraph?
  {
  }

  lemma {:induction false} FlippedNext(r: Run, c: RunCommand)
    requires (c.RejectSpecification? || c.RejectTaskGraph?) && RunNext(r, Some(c)).Some?
    ensures var n := RunNext(r, Some(Flipped(c))); n.Some? && n.value.state != RunNext(r, Some(c)).value.state
    ensures RunEventType(Flipped(c)) == RunEventType(c)
  {
    hide ApplyRun;
    BothVerdicts(r, c);
  }

  /** A run's event types determine its state exactly when the last one is no rejection. */
  lemma {:induction false} RunTypesDetermineState(h: seq<Option<RunCommand>>)
    requires RunReplay(h).Some?
    ensures (forall g :: RunReplay(g).Some? && RunTypes(g) == RunTypes(h) ==>
               RunReplay(g).value.state == RunReplay(h).value.state)
      <==> !EndsInRejection(RunTypes(h))
  {
    hide RunReplay, RunTypes, RunStateAfter, IsRejection;
    LastTypeGivesState(h);
    if EndsInRejection(RunTypes(h)) {
      var twin := RejectionHasTwin(h);
    } else {
      forall g | RunReplay(g).Some? && RunTypes(g) == RunTypes(h)
        ensures RunReplay(g).value.state == RunReplay(h).value.state
      {
        LastTypeGivesState(g);
      }
    }
  }

  // ----- ... and what the stored events say -----

  function EventTypes(events: seq<Event>): seq<Option<EventType>> {
    seq(|events|, i requires 0 <= i < |events| => Some(events[i].eventType))
  }

  lemma {:induction false} StoredTypes(db: Db, run: Id)
    requires LogAgrees(db)
    ensures RunTypes(RunEntries(db, run)) == EventTypes(Events(db.log, RunAggregate, run))
  {
    hide Numbered, TaskExplained, RunExplained, Events, RunEventType;
    var events := Events(db.log, RunAggregate, run);
    forall i | 0 <= i < |events|
      ensures TypeOf(RunCommandOf(db.commands, events[i])) == Some(events[i].eventType)
    {
      EventsAbout(db.log, RunAggregate, run, i);
      var k :| 0 <= k < |db.log| && db.log[k] == events[i];
      assert Rooted(db, db.log[k]);
    }
  }

  /** The run's stored events give its state, up to the verdict of a rejection that is the
      last of them. */
  lemma {:induction false} LogFoldsToRun(ds: seq<Delivery>, run: Id)
    requires run in RunAll(EMPTY, ds).runs
    ensures var db := RunAll(EMPTY, ds); var events := Events(db.log, RunAggregate, run);
      && |events| > 0
      && var e := events[|events| - 1].eventType; var state := db.runs[run].state;
         state == RunStateAfter(e) || (IsRejection(e) && state == RejectedRun)
  {
    hide RunAll, RunReplay, TaskExplained, Numbered, Events, RunTypes, RunStateAfter, IsRejection;
    ReachableLogAgrees(ds);
    var db := RunAll(EMPTY, ds);
    assert RunExplained(db, run);
    LastTypeGivesState(RunEntries(db, run));
    StoredTypes(db, run);
  }

  /** A rejection delivered with the other verdict commits too, and leaves the same log. */
  lemma {:induction false} FlippedDelivery(db: Db, c: RunCommand, fault: FaultPoint, order: seq<Id>)
    requires c.RejectSpecification? || c.RejectTaskGraph?
    requires RunTransaction(db, c, fault, order).Ok? && c.meta.commandId !in db.commands
    ensures RunTransaction(db, Flipped(c), fault, order).Ok?
    ensures var a, b := RunTransaction(db, c, fault, order).value.db, RunTransaction(db, Flipped(c), fault, order).value.db;
      && a.log == b.log && c.id in a.runs && c.id in b.runs && a.runs[c.id].state != b.runs[c.id].state
  {
    hide RunCommandDecision, AllFit, SweepEvents, TasksFit, RowsFit, SweepAll, Planted, NewRows, ValidRunCommand;
    SameEnvelope(c);
    FlippedDecision(db, c);
  }

  lemma {:induction false} FlippedDecision(db: Db, c: RunCommand)
    requires (c.RejectSpecification? || c.RejectTaskGraph?) && RunCommandDecision(db, c).Ok?
    ensures RunCommandDecision(db, Flipped(c)).Ok?
    ensures var a, b := RunCommandDecision(db, c).value, RunCommandDecision(db, Flipped(c)).value;
      && a.events == b.events && a.tasks == b.tasks && a.dependencies == b.dependencies
      && a.next.id == b.next.id == c.id && a.next.state != b.next.state
  {
    hide ApplyRun, ValidRun, TasksOf;
    BothVerdicts(db.runs[c.id], c);
    LoadedIdentity(db, c);
  }

  lemma {:induction false} LoadedIdentity(db: Db, c: RunCommand)
    requires c.id in db.runs && ApplyRun(db.runs[c.id], c).Ok?
    ensures ApplyRun(db.runs[c.id], c).value.next.id == c.id
  {
    hide DecideRun, ValidRun, ValidRunCommand, RunLegal;
    ApplicationMoves(db.runs[c.id], c);
  }

  /** A delivery that writes no event of the run leaves the run and its events alone. */
  lemma {:induction false} OtherDelivery(ds: seq<Delivery>, d: Delivery, run: Id)
    requires match d.request
      case TaskRequest(c) => true
      case RunRequest(c) => c.id != run || c.meta.commandId in RunAll(EMPTY, ds).commands
    ensures var db := RunAll(EMPTY, ds); var after := Deliver(db, d);
      && Events(after.log, RunAggregate, run) == Events(db.log, RunAggregate, run)
      && (run in after.runs ==> run in db.runs && after.runs[run] == db.runs[run])
  {
    hide RunAll, TaskTransaction, RunTransaction, Sound, TaskStep, RunStep, TaskDecision, RunCommandDecision, Events,
      WakeEvents, SweepEvents, WokenBy, SweptBy, TaskWrites, RunWrites;
    ReachableIsSound(ds);
    var db := RunAll(EMPTY, ds);
    SoundParts(db);
    if Transaction(db, d).Ok? {
      match d.request
      case TaskRequest(c) =>
        if c.meta.commandId in db.commands {
          TaskReplayStays(db, c, d.fault, d.order);
        } else {
          TaskTransactionSteps(db, c, d.fault, d.order);
          var applied := TaskDecision(db, c).value;
          TaskStepSaysNothing(db, c, applied, WokenBy(db, applied.task, d.order), run);
        }
      case RunRequest(c) =>
        if c.meta.commandId in db.commands {
          RunReplayStays(db, c, d.fault, d.order);
        } else {
          RunTransactionSteps(db, c, d.fault, d.order);
          RunStepSaysNothing(db, c, RunCommandDecision(db, c).value, SweptBy(db, c, d.order), run);
        }
    }
  }

  lemma {:induction false} TaskStepSaysNothing(db: Db, c: TaskCommand, applied: Applied, woken: seq<Id>, run: Id)
    requires TaskStep(db, c, applied, woken)
    ensures var after := TaskWrites(db, c, applied, woken).db;
      Events(after.log, RunAggregate, run) == Events(db.log, RunAggregate, run) && after.runs == db.runs
  {
    hide Apply, AllFit, WakeAll, Awakes, Tables, Events, TaskRunGate, Distinct;
    AppliedIdentity(db.tasks[c.id], c);
    var events := [applied.event] + WakeEvents(db.tasks[c.id := applied.task], woken, c.meta);
    AppendSilent(db.log, events, RunAggregate, run);
  }

  lemma {:induction false} RunStepSaysNothing(db: Db, c: RunCommand, d: RunDecision, swept: seq<Id>, run: Id)
    requires RunStep(db, c, d, swept) && ValidRunCommand(c) && c.id != run
    ensures var after := RunWrites(db, c, d, swept).db;
      && Events(after.log, RunAggregate, run) == Events(db.log, RunAggregate, run)
      && (run in after.runs ==> run in db.runs && after.runs[run] == db.runs[run])
  {
    hide RunCommandDecision, SweepAll, AllFit, Planted, Tables, Events, Unfinished, TasksFit, ValidRunCommand, SweepEvents,
      Speaking, Distinct;
    NoRows(db, c, d);
    var events := d.events + SweepEvents(db.tasks, swept, c.meta);
    RunEventSpeaks(db, c, d, swept);
    RunStepSpeaks(db, c, d, swept, 0);
    forall i | 0 <= i < |events|
      ensures !About(events[i], RunAggregate, run)
    {
      RunStepSpeaks(db, c, d, swept, i);
    }
    AppendSilent(db.log, events, RunAggregate, run);
  }

  /** The event a run step writes about its run comes last, with the command's type. */
  lemma {:induction false} RunStepSaysLast(db: Db, c: RunCommand, d: RunDecision, swept: seq<Id>)
    requires RunStep(db, c, d, swept) && ValidRunCommand(c)
    ensures var events := Events(RunWrites(db, c, d, swept).db.log, RunAggregate, c.id);
      |events| > 0 && events[|events| - 1].eventType == RunEventType(c)
  {
    hide RunCommandDecision, SweepAll, AllFit, Planted, Tables, Events, Unfinished, TasksFit, ValidRunCommand, SweepEvents,
      Speaking, Distinct, RunEventType, Decision, NewRun, RunLegal;
    var events := d.events + SweepEvents(db.tasks, swept, c.meta);
    RunEventSpeaks(db, c, d, swept);
    RunStepSpeaks(db, c, d, swept, 0);
    forall i | 0 <= i < |events|
      ensures About(events[i], RunAggregate, c.id) <==> i == 0
    {
      RunStepSpeaks(db, c, d, swept, i);
    }
    AppendOne(db.log, events, 0, RunAggregate, c.id);
    FirstEventType(db, c, d);
  }

  lemma {:induction false} FirstEventType(db: Db, c: RunCommand, d: RunDecision)
    requires RunCommandDecision(db, c) == Ok(d)
    ensures |d.events| > 0 && d.events[0].eventType == RunEventType(c)
  {
    hide RunCommandDecision, Decision, NewRun, RunLegal;
    DecisionCases(db, c);
    if c.CreateRun? {
      CreationStarts(c);
    }
  }

  /** Whenever the run's last event is a rejection, other deliveries lead to the very same
      events of the run, and to another state. */
  lemma {:induction false} RejectionHasStoredTwin(ds: seq<Delivery>, run: Id) returns (twin: seq<Delivery>)
    requires var db := RunAll(EMPTY, ds); run in db.runs
    requires EndsInRejection(EventTypes(Events(RunAll(EMPTY, ds).log, RunAggregate, run)))
    ensures var a, b := RunAll(EMPTY, ds), RunAll(EMPTY, twin);
      && run in b.runs && a.runs[run].state != b.runs[run].state
      && Events(a.log, RunAggregate, run) == Events(b.log, RunAggregate, run)
  {
    hide Deliver, Events, Flipped, IsRejection, RunEventType;
    var n := |ds| - 1;
    if n < 0 {
      twin := [];
      assert false;
    }
    var db, d := RunAll(EMPTY, ds[..n]), ds[n];
    if d.request.RunRequest? && d.request.run.id == run && d.request.run.meta.commandId !in db.commands
       && Transaction(db, d).Ok? {
      var c := d.request.run;
      RejectedLast(ds[..n], d);
      FlippedDelivery(db, c, d.fault, d.order);
      var other := Delivery(RunRequest(Flipped(c)), d.fault, d.order);
      twin := ds[..n] + [other];
      assert twin[..n] == ds[..n];
      DeliversBoth(db, d, other);
    } else {
      UnheardDelivery(ds[..n], d, run);
      twin := RejectionHasStoredTwin(ds[..n], run);
    }
  }

  lemma {:induction false} DeliversBoth(db: Db, d: Delivery, other: Delivery)
    requires Transaction(db, d).Ok? && Transaction(db, other).Ok?
    ensures Deliver(db, d) == Transaction(db, d).value.db && Deliver(db, other) == Transaction(db, other).value.db
  {
  }

  lemma {:induction false} UnheardDelivery(ds: seq<Delivery>, d: Delivery, run: Id)
    requires var db := RunAll(EMPTY, ds);
      !(d.request.RunRequest? && d.request.run.id == run && d.request.run.meta.commandId !in db.commands
        && Transaction(db, d).Ok?)
    ensures var db := RunAll(EMPTY, ds); var after := Deliver(db, d);
      && Events(after.log, RunAggregate, run) == Events(db.log, RunAggregate, run)
      && (run in after.runs ==> run in db.runs && after.runs[run] == db.runs[run])
  {
    hide RunAll, Transaction, Events;
    if Transaction(RunAll(EMPTY, ds), d).Ok? {
      OtherDelivery(ds, d, run);
    }
  }

  /** If the run's last event after its own delivery is a rejection, the command was one. */
  lemma {:induction false} RejectedLast(ds: seq<Delivery>, d: Delivery)
    requires var db := RunAll(EMPTY, ds);
      d.request.RunRequest? && d.request.run.meta.commandId !in db.commands && Transaction(db, d).Ok?
    requires EndsInRejection(EventTypes(Events(Deliver(RunAll(EMPTY, ds), d).log, RunAggregate, d.request.run.id)))
    ensures d.request.run.RejectSpecification? || d.request.run.RejectTaskGraph?
  {
    hide RunAll, RunTransaction, Sound, RunStep, RunCommandDecision, Events, SweptBy, RunWrites, RunEventType, IsRejection;
    ReachableIsSound(ds);
    var db, c := RunAll(EMPTY, ds), d.request.run;
    SoundParts(db);
    RunTransactionSteps(db, c, d.fault, d.order);
    RunStepSaysLast(db, c, RunCommandDecision(db, c).value, SweptBy(db, c, d.order));
    RejectionsOnly(c);
  }

  /** In the store: the events of a run determine its state exactly when the last of them is
      no rejection. */
  lemma {:induction false} RunEventsDetermineState(ds: seq<Delivery>, run: Id)
    requires run in RunAll(EMPTY, ds).runs
    ensures (forall other :: SameEvents(ds, other, run) ==>
               RunAll(EMPTY, other).runs[run].state == RunAll(EMPTY, ds).runs[run].state)
      <==> !EndsInRejection(EventTypes(Events(RunAll(EMPTY, ds).log, RunAggregate, run)))
  {
    hide RunAll, Events, RunStateAfter, IsRejection;
    LogFoldsToRun(ds, run);
    if EndsInRejection(EventTypes(Events(RunAll(EMPTY, ds).log, RunAggregate, run))) {
      var twin := RejectionHasStoredTwin(ds, run);
      assert SameEvents(ds, twin, run);
    } else {
      forall other | SameEvents(ds, other, run)
        ensures RunAll(EMPTY, other).runs[run].state == RunAll(EMPTY, ds).runs[run].state
      {
        LogFoldsToRun(other, run);
        var a, b := Events(RunAll(EMPTY, ds).log, RunAggregate, run), Events(RunAll(EMPTY, other).log, RunAggregate, run);
        assert EventTypes(a)[|a| - 1] == EventTypes(b)[|b| - 1];
      }
    }
  }

  /** The other deliveries know the run and store events of the same types about it. */
  ghost predicate SameEvents(ds: seq<Delivery>, other: seq<Delivery>, run: Id) {
    && run in RunAll(EMPTY, other).runs
    && EventTypes(Events(RunAll(EMPTY, other).log, RunAggregate, run))
       == EventTypes(Events(RunAll(EMPTY, ds).log, RunAggregate, run))
  }

  // ----- Bindings by state -----

  /** Nothing of the completion phase is bound from its k-th step on. */
  predicate NotYet(r: Run, k: nat) {
    && (k <= 0 ==> r.execution.None? && r.candidateCommit == "")
    && (k <= 1 ==> r.verification.None?)
    && (k <= 2 ==> r.review.None?)
    && (k <= 3 ==> r.approval.None? && r.publication.None?)
    && r.merge.None?
  }

  /** The first k completion steps are bound. */
  predicate Already(r: Run, k: nat) {
    && r.specification.Some? && r.taskGraph.Some?
    && (k > 0 ==> r.execution.Some? && IsCommit(r.candidateCommit))
    && (k > 1 ==> r.verification.Some?)
    && (k > 2 ==> r.review.Some?)
    && (k > 3 ==> r.approval.Some?)
  }

  /** Which bindings a run carries, state by state. */
  predicate RunBoundFor(r: Run) {
    match r.state
    case DraftRun => NotYet(r, 0)
    case SpecificationReview => r.specification.Some? && NotYet(r, 0)
    case TaskPlanning => r.specification.Some? && NotYet(r, 0)
    case TaskPlanReview => Already(r, 0) && NotYet(r, 0)
    case ReadyRun => Already(r, 0) && NotYet(r, 0)
    case ExecutingRun => Already(r, 0) && NotYet(r, 0)
    case VerifyingRun => Already(r, 1) && NotYet(r, 1)
    case ReviewingRun => Already(r, 2) && NotYet(r, 2)
    case ApprovalPending => Already(r, 3) && NotYet(r, 3)
    case MergeReady => Already(r, 4) && r.merge.None?
    case MergedRun => Already(r, 4) && r.merge.Some?
    case _ => true
  }

  lemma {:induction false} RunDecisionBinds(r: Run, c: RunCommand)
    requires DecideRun(r, c).Ok? && RunBoundFor(r)
    ensures RunBoundFor(DecideRun(r, c).value.next)
  {
    hide IsCommit, ValidArtifact, ValidReason, LawfulRun;
  }

  lemma {:induction false} RunNextBinds(r: Run, c: Option<RunCommand>)
    requires RunNext(r, c).Some? && RunBoundFor(r)
    ensures RunBoundFor(RunNext(r, c).value)
  {
    hide RunNext, DecideRun, IsCommit;
    NextMove(r, c);
    if c.value.ApproveTaskGraph? {
      ApprovalBinds(r, c.value);
      assert RunNext(r, c) == Some(ApprovedRun(r, c.value.meta)) by {
        ApprovalIsStamped(r, c.value);
      }
    } else {
      RunDecisionBinds(r, c.value);
    }
  }

  lemma {:induction false} ApprovalIsStamped(r: Run, c: RunCommand)
    requires c.ApproveTaskGraph? && RunNext(r, Some(c)).Some?
    ensures RunNext(r, Some(c)).value == ApprovedRun(r, c.meta)
  {
    hide PlanTasks, ValidRun;
  }

  lemma {:induction false} ApprovalBinds(r: Run, c: RunCommand)
    requires c.ApproveTaskGraph? && RunNext(r, Some(c)).Some? && RunBoundFor(r)
    ensures RunBoundFor(ApprovedRun(r, c.meta))
  {
    hide PlanTasks, ValidRun, IsCommit;
  }

  /** Every run carries the bindings of its state and no later ones. */
  lemma {:induction false} RunBindingsMatchState(h: seq<Option<RunCommand>>)
    requires RunReplay(h).Some?
    ensures RunBoundFor(RunReplay(h).value)
  {
    hide RunNext, IsCommit;
    if |h| > 1 {
      RunBindingsMatchState(h[..|h| - 1]);
      RunNextBinds(RunReplay(h[..|h| - 1]).value, h[|h| - 1]);
    }
  }

  // ----- No dead ends -----

  function SentTo(r: Run, kind: ActorKind, id: Id): Envelope {
    Envelope(id, Actor(Parsed(0), kind), r.revision, 1, Parsed(0), Parsed(0))
  }

  /** How many moves a live run is away from being merged. */
  function MovesLeft(state: RunState): nat {
    match state
    case DraftRun => 10
    case SpecificationReview => 9
    case TaskPlanning => 8
    case TaskPlanReview => 7
    case ReadyRun => 6
    case ExecutingRun => 5
    case VerifyingRun => 4
    case ReviewingRun => 3
    case ApprovalPending => 2
    case MergeReady => 1
    case _ => 0
  }

  /** The command that takes a live run one move further, under the given identity, which
      also names the one task of its plan. */
  function AdvanceRun(r: Run, id: Id): RunCommand
    requires ValidRun(r) && RunBoundFor(r) && !r.state.Terminal()
  {
    var a := SomeArtifact();
    match r.state
    case DraftRun => ProposeSpecification(SentTo(r, WorkflowService, id), r.id, a)
    case SpecificationReview => ApproveSpecification(SentTo(r, Human, id), r.id, r.specification.value)
    case TaskPlanning => ProposeTaskGraph(SentTo(r, WorkflowService, id), r.id, a)
    case TaskPlanReview =>
      ApproveTaskGraph(SentTo(r, Human, id), r.id, r.taskGraph.value, [TaskDefinition(id, 1)], [])
    case ReadyRun => StartRun(SentTo(r, WorkflowService, id), r.id)
    case ExecutingRun => RecordRunExecution(SentTo(r, ExecutionService, id), r.id, a, Zeros(40))
    case VerifyingRun => RecordRunVerification(SentTo(r, VerificationService, id), r.id, r.candidateCommit, a)
    case ReviewingRun => RecordRunReview(SentTo(r, ReviewService, id), r.id, r.candidateCommit, a)
    case ApprovalPending => ApproveRun(SentTo(r, Human, id), r.id, r.candidateCommit, r.review.value, a)
    case MergeReady => RecordMerge(SentTo(r, MergeService, id), r.id, r.candidateCommit, r.approval.value, a)
  }

  lemma {:induction false} OneTaskPlan(run: Id, id: Id)
    requires ValidId(run) && ValidId(id)
    ensures PlanAdmissible(run, [TaskDefinition(id, 1)], [])
  {
    assert Elements<Dependency>([]) == {};
    forall c
      ensures !IsCycle({}, c)
    {
      assert |c| >= 2 && IsWalk({}, c) ==> Leads({}, c, 0);
    }
  }

  lemma {:induction false} ApprovalIsTaken(r: Run, id: Id)
    requires ValidId(id) && ValidRun(r) && RunBoundFor(r) && r.state == TaskPlanReview
    ensures RunNext(r, Some(AdvanceRun(r, id))) == Some(ApprovedRun(r, AdvanceRun(r, id).meta))
  {
    hide PlanAdmissible, IsCommit;
    OneTaskPlan(r.id, id);
  }

  lemma {:induction false} MoveFits(r: Run, id: Id)
    requires ValidId(id) && ValidRun(r) && RunBoundFor(r) && !r.state.Terminal() && r.state != TaskPlanReview
    ensures var c := AdvanceRun(r, id);
      && CheckRunCommand(r, c).Pass? && !c.CreateRun? && !c.ApproveTaskGraph? && !IsRejection(RunEventType(c))
      && RunEntitled(c) && RunWellBound(r, c) && RunLegal(r.state, RunEventType(c), SomeTarget(c))
      && MovesLeft(SomeTarget(c)) == MovesLeft(r.state) - 1 && (SomeTarget(c).Terminal() ==> SomeTarget(c) == MergedRun)
  {
    hide IsLowerHex, ValidArtifact, SomeArtifact, Zeros;
  }

  lemma {:induction false} MoveIsDecided(r: Run, id: Id)
    requires ValidId(id) && ValidRun(r) && RunBoundFor(r) && !r.state.Terminal() && r.state != TaskPlanReview
    ensures var c := AdvanceRun(r, id);
      && CheckRunCommand(r, c).Pass? && !c.ApproveTaskGraph?
      && DecideRun(r, c).Ok? && MovesLeft(DecideRun(r, c).value.next.state) == MovesLeft(r.state) - 1
      && (DecideRun(r, c).value.next.state.Terminal() ==> DecideRun(r, c).value.next.state == MergedRun)
  {
    hide DecideRun, AdvanceRun, RunEntitled, RunWellBound, ValidRun, RunBoundFor, CheckRunCommand;
    MoveFits(r, id);
    RunEnabledByTable(r, AdvanceRun(r, id));
    RunDecidesExactly(r, AdvanceRun(r, id));
  }

  lemma {:induction false} MoveIsTaken(r: Run, id: Id)
    requires ValidId(id) && ValidRun(r) && RunBoundFor(r) && !r.state.Terminal()
    ensures var n := RunNext(r, Some(AdvanceRun(r, id)));
      && n.Some? && ValidRun(n.value) && RunBoundFor(n.value) && MovesLeft(n.value.state) == MovesLeft(r.state) - 1
      && (n.value.state.Terminal() ==> n.value.state == MergedRun)
  {
    hide DecideRun, RunBoundFor, ValidRun, ApproveGraph, AdvanceRun, Moved;
    var c := AdvanceRun(r, id);
    if r.state == TaskPlanReview {
      ApprovalIsTaken(r, id);
    } else {
      MoveIsDecided(r, id);
    }
    DecisionMoves(r, c);
    RunNextBinds(r, Some(c));
  }

  /** As far as its own commands go, every live run can still be merged, in as many moves as
      its state is away from it. */
  lemma {:induction false} CanBeMerged(h: seq<Option<RunCommand>>) returns (more: seq<Option<RunCommand>>)
    requires RunReplay(h).Some? && (!RunReplay(h).value.state.Terminal() || RunReplay(h).value.state == MergedRun)
    ensures RunReplay(h + more).Some? && RunReplay(h + more).value.state == MergedRun
    ensures |more| == MovesLeft(RunReplay(h).value.state)
    decreases MovesLeft(RunReplay(h).value.state)
  {
    hide RunNext, RunReplay, RunBoundFor, ValidRun;
    var r := RunReplay(h).value;
    if r.state == MergedRun {
      more := [];
      assert h + more == h;
    } else {
      RunHistoryCounts(h);
      RunBindingsMatchState(h);
      MoveIsTaken(r, Parsed(0));
      var c := Some(AdvanceRun(r, Parsed(0)));
      RunReplaySnoc(h, c);
      var rest := CanBeMerged(h + [c]);
      more := [c] + rest;
      assert h + [c] + rest == h + more;
    }
  }
}
