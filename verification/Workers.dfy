/** One worker: the reconciler that claims jobs, handles them and gives them back. Whatever it
    does to the ledger is a step of the pipeline. */
module Workers {
  import opened Kernel
  import opened Jobs
  import opened Pipeline

  // ----- Backoff -----

  newtype int64 = x: int | -0x8000_0000_0000_0000 <= x < 0x8000_0000_0000_0000

  newtype uint32 = x: int | 0 <= x < 0x1_0000_0000

  lemma {:induction false} Pow2Grows(n: nat, m: nat)
    requires n <= m
    ensures 1 <= Pow2(n) <= Pow2(m)
    decreases m
  {
    if n < m {
      Pow2Grows(n, m - 1);
    } else if n > 0 {
      Pow2Grows(n - 1, n - 1);
    }
  }

  lemma {:induction false} ScaledGrows(x: nat, n: nat, m: nat)
    requires n <= m
    ensures x * Pow2(n) <= x * Pow2(m)
  {
    Pow2Grows(n, m);
  }

  /** The delay doubles with every failure up to the maximum, without overflow. */
  method SaturatingBackoff(initial: int64, exponent: uint32, maximum: int64) returns (value: int64)
    requires 0 < initial && 0 < maximum
    ensures value as int == Min(initial as int * Pow2(exponent as nat), maximum as int)
  {
    value := initial;
    var i: uint32 := 0;
    while i < exponent
      invariant i <= exponent && value > 0
      invariant value as int == initial as int * Pow2(i as nat)
    {
      if value >= maximum || value > maximum / 2 {
        ScaledGrows(initial as nat, i as nat + 1, exponent as nat);
        return maximum;
      }
      value := value * 2;
      i := i + 1;
    }
    if value > maximum {
      return maximum;
    }
  }

  // ----- Stages -----

  method NextStage(stage: Stage) returns (next: Option<Stage>)
    ensures next == Successor(stage)
  {
    for i := 0 to |ORDERED_STAGES|
      invariant forall k :: 0 <= k < i && k + 1 < |ORDERED_STAGES| ==> ORDERED_STAGES[k] != stage
    {
      if ORDERED_STAGES[i] == stage && i + 1 < |ORDERED_STAGES| {
        StageAt(i);
        return Some(ORDERED_STAGES[i + 1]);
      }
    }
    StagePosition(stage);
    return None;
  }

  // ----- The reconciler -----

  /** What a handler came to. */
  datatype Handled = Succeeded(result: ArtifactRef, continues: bool) | Broke(kind: FailureKind, failure: ArtifactRef)

  /** The table as the database types it: rows under their own identity, 32-bit counters. */
  ghost predicate Typed(table: Table) {
    forall id :: id in table ==>
      table[id].id == id && table[id].retryCount < 0x1_0000_0000 && table[id].transientCount < 0x1_0000_0000
  }

  /** Refuses settings no worker can run with, and a worker that lacks a stage's handler. */
  method NewReconciler(ledger: Ledger, owner: Id, claimTtl: int64, pollInterval: int64, maxRetries: uint32,
                       initialBackoff: int64, handlers: set<Stage>) returns (r: Reconciler?)
    ensures r != null <==>
      && ValidId(owner) && claimTtl > 0 && pollInterval > 0 && maxRetries > 0 && initialBackoff > 0
      && forall stage: Stage :: stage in handlers
    ensures r != null ==>
      && r.ledger == ledger && r.owner == owner && r.claimTtl == claimTtl && r.maxRetries == maxRetries
      && r.initialBackoff == initialBackoff
  {
    if !ValidId(owner) || claimTtl <= 0 || pollInterval <= 0 || maxRetries == 0 || initialBackoff <= 0 {
      return null;
    }
    for i := 0 to |ORDERED_STAGES|
      invariant forall k :: 0 <= k < i ==> ORDERED_STAGES[k] in handlers
    {
      if ORDERED_STAGES[i] !in handlers {
        return null;
      }
    }
    forall stage: Stage
      ensures stage in handlers
    {
      StagePosition(stage);
    }
    r := new Reconciler(ledger, owner, claimTtl, maxRetries, initialBackoff);
  }

  class Reconciler {
    const ledger: Ledger
    const owner: Id
    const claimTtl: int64
    const maxRetries: uint32
    const initialBackoff: int64

    ghost function Settings(): Config
      requires initialBackoff > 0
    {
      Config(maxRetries as nat, initialBackoff as nat)
    }

    constructor (ledger: Ledger, owner: Id, claimTtl: int64, maxRetries: uint32, initialBackoff: int64)
      ensures this.ledger == ledger && this.owner == owner && this.claimTtl == claimTtl
      ensures this.maxRetries == maxRetries && this.initialBackoff == initialBackoff
    {
      this.ledger, this.owner, this.claimTtl := ledger, owner, claimTtl;
      this.maxRetries, this.initialBackoff := maxRetries, initialBackoff;
    }

    /** The claim was handed to this worker. */
    ghost predicate Mine(held: Job, issued: set<Job>) {
      held in issued && held.claim.Some? && held.claim.value.owner == owner
    }

    /** One beat of the heartbeat is one renewal step of the system. */
    method Heartbeat(held: Job, now: Time, ghost issued: set<Job>) returns (alive: bool)
      requires Mine(held, issued)
      modifies ledger
      ensures System(ledger.table, issued)
           == Next(System(old(ledger.table), issued), RenewStep(held, now + claimTtl as int))
      ensures alive <==> Holds(old(ledger.table), held.id, owner, held.fence)
    {
      var refusal := ledger.Renew(held.id, owner, held.fence, now + claimTtl as int);
      alive := refusal.None?;
      if alive {
        assert ledger.table == old(ledger.table)[held.id := ledger.table[held.id]];
      }
    }

    /** A handled job is completed in one step of the system. */
    method Complete(held: Job, result: ArtifactRef, continues: bool, at: Time, ghost issued: set<Job>)
        returns (refusal: Option<Refusal>)
      requires Mine(held, issued)
      modifies ledger
      ensures System(ledger.table, issued)
           == Next(System(old(ledger.table), issued), CompleteStep(held, result, continues, at))
    {
      var next := NextStage(held.stage);
      var job: Option<(JobId, Key, Stage, Time)> := None;
      if continues && next.Some? {
        job := Some((Stable(held.key, next.value), held.key, next.value, at));
      }
      refusal := ledger.CompleteAndEnqueue(held.id, owner, held.fence, result, job);
    }

    /** A failed job is left alone, rescheduled, retried or failed in one step of the system. */
    method HandleFailure(held: Job, kind: FailureKind, now: Time, failure: ArtifactRef, ghost issued: set<Job>)
        returns (refusal: Option<Refusal>)
      requires Mine(held, issued) && initialBackoff > 0
      requires held.retryCount < 0x1_0000_0000 && held.transientCount < 0x1_0000_0000
      modifies ledger
      ensures System(ledger.table, issued)
           == Next(System(old(ledger.table), issued), FailureStep(held, Settings(), kind, now, failure))
    {
      hide Pow2, ValidArtifact;
      if kind == Interrupted {
        return None;
      }
      if kind == Transient {
        if held.transientCount + 1 >= maxRetries as nat {
          refusal := ledger.Fail(held.id, owner, held.fence, failure);
          return;
        }
        var delay := SaturatingBackoff(initialBackoff, held.transientCount as uint32, MINUTE as int64);
        refusal := ledger.RescheduleTransient(held.id, owner, held.fence, now + delay as int);
        return;
      }
      if held.retryCount + 1 < maxRetries as nat {
        var delay := SaturatingBackoff(initialBackoff, held.retryCount as uint32, MINUTE as int64);
        refusal := ledger.Retry(held.id, owner, held.fence, now + delay as int);
        return;
      }
      refusal := ledger.Fail(held.id, owner, held.fence, failure);
    }

    /** One round: claim, handle, and complete or give up. Undisturbed, it takes exactly a claim
        step and a completion or failure step of the system, or none when nothing is due. */
    method Once(now: Time, locked: set<JobId>, order: JobId -> int, handled: Handled, later: Time,
                ghost issued: set<Job>) returns (worked: bool, ghost steps: seq<Step>)
      requires initialBackoff > 0 && Typed(ledger.table)
      modifies ledger
      ensures ledger.table == RunSteps(System(old(ledger.table), issued), steps).table
      ensures !worked ==> steps == [] && forall id :: !Claimable(old(ledger.table), locked, now, id)
      ensures worked ==>
        && |steps| == 2 && steps[0].ClaimStep? && steps[0].owner == owner && steps[0].now == now
        && Claimable(old(ledger.table), locked, now, steps[0].id)
        && var held := Taken(old(ledger.table)[steps[0].id], owner, now, claimTtl as int);
           steps[1] == match handled
             case Succeeded(result, continues) => CompleteStep(held, result, continues, later)
             case Broke(kind, failure) => FailureStep(held, Settings(), kind, later, failure)
    {
      hide Failure, CompleteJob;
      steps := [];
      ghost var first := System(ledger.table, issued);
      ghost var id;
      var claimed;
      claimed, id := ledger.ClaimNext(owner, now, claimTtl as int, locked, order);
      if claimed.None? {
        return false, [];
      }
      var held := claimed.value;
      ghost var claim := ClaimStep(id, owner, now, claimTtl as int);
      ghost var mine := issued + {held};
      assert Next(first, claim) == System(ledger.table, mine);
      match handled {
        case Succeeded(result, continues) =>
          var refusal := Complete(held, result, continues, later, mine);
          steps := [claim, CompleteStep(held, result, continues, later)];
        case Broke(kind, failure) =>
          var refusal := HandleFailure(held, kind, later, failure, mine);
          steps := [claim, FailureStep(held, Settings(), kind, later, failure)];
      }
      TwoSteps(first, steps[0], steps[1]);
      assert steps == [steps[0], steps[1]];
      worked := true;
    }
  }

  lemma {:induction false} TwoSteps(s: System, a: Step, b: Step)
    ensures RunSteps(s, [a, b]) == Next(Next(s, a), b)
  {
    hide Next;
    assert [a][..0] == [];
    assert RunSteps(s, [a]) == Next(s, a);
    assert [a, b][..1] == [a];
  }
}
