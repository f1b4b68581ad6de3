/** The verification reservation ledger twice: in memory, where one lock makes every
    operation atomic, and in PostgreSQL, where beginning takes up to three statements that
    interleave with everybody else's. Every run of the second is a run of the first. */
module VerificationLedger {
  import opened Kernel

  datatype Evidence = Evidence(body: string)

  datatype Verdict = Verdict(body: string)

  datatype Start = Start(id: Id, digest: string, ttl: int)

  /** What a caller holds after beginning: its identity in the ledger. */
  datatype Handle = Handle(id: Id, digest: string, owner: Id)

  /** What beginning returns. */
  datatype Begun =
    | Owned(handle: Handle)
    | Resumed(handle: Handle, evidence: Evidence)
    | Repeated(result: Verdict)
    | Clash
    | MustWait

  // ----- In memory -----

  datatype Record = Record(
    digest: string,
    owner: Id,
    reservedUntil: Time,
    finalTime: Option<Time>,
    evidence: Option<Evidence>,
    result: Option<Verdict>)

  type Records = map<Id, Record>

  /** One pass of the begin loop under the lock. */
  function MemoryBegin(rs: Records, start: Start, owner: Id, checked: Time, set_: Time): (Records, Begun) {
    if start.id in rs && rs[start.id].digest != start.digest then (rs, Clash)
    else if start.id !in rs then
      (rs[start.id := Record(start.digest, owner, set_ + start.ttl, None, None, None)],
       Owned(Handle(start.id, start.digest, owner)))
    else
      var r := rs[start.id];
      if r.evidence.None? && r.reservedUntil <= checked then
        (rs[start.id := r.(owner := owner, reservedUntil := set_ + start.ttl)],
         Owned(Handle(start.id, start.digest, owner)))
      else if r.result.Some? then (rs, Repeated(r.result.value))
      else if r.evidence.Some? then (rs, Resumed(Handle(start.id, start.digest, r.owner), r.evidence.value))
      else (rs, MustWait)
  }

  predicate Matches(rs: Records, h: Handle) {
    h.id in rs && rs[h.id].digest == h.digest && rs[h.id].owner == h.owner
  }

  function MemorySave(rs: Records, h: Handle, evidence: Evidence): (Records, bool) {
    if Matches(rs, h) && rs[h.id].evidence.None?
    then (rs[h.id := rs[h.id].(evidence := Some(evidence))], true)
    else (rs, false)
  }

  function MemoryFinal(rs: Records, h: Handle, value: Time): (Records, Option<Time>) {
    if Matches(rs, h) && rs[h.id].evidence.Some? && rs[h.id].result.None? then
      var time := if rs[h.id].finalTime.Some? then rs[h.id].finalTime.value else value;
      (rs[h.id := rs[h.id].(finalTime := Some(time))], Some(time))
    else (rs, None)
  }

  function MemoryComplete(rs: Records, h: Handle, result: Verdict): (Records, bool) {
    if Matches(rs, h) && rs[h.id].evidence.Some? && rs[h.id].result.None? && rs[h.id].finalTime.Some?
    then (rs[h.id := rs[h.id].(result := Some(result))], true)
    else (rs, false)
  }

  datatype Operation =
    | BeginOp(start: Start, owner: Id, checked: Time, set_: Time)
    | SaveOp(handle: Handle, evidence: Evidence)
    | FinalOp(handle: Handle, value: Time)
    | CompleteOp(handle: Handle, result: Verdict)

  datatype Answer = BeginAnswer(begun: Begun) | Said(ok: bool) | FinalAnswer(time: Option<Time>)

  function MemoryDo(rs: Records, op: Operation): (Records, Answer) {
    match op
    case BeginOp(start, owner, checked, set_) =>
      var r := MemoryBegin(rs, start, owner, checked, set_);
      (r.0, BeginAnswer(r.1))
    case SaveOp(h, evidence) =>
      var r := MemorySave(rs, h, evidence);
      (r.0, Said(r.1))
    case FinalOp(h, value) =>
      var r := MemoryFinal(rs, h, value);
      (r.0, FinalAnswer(r.1))
    case CompleteOp(h, result) =>
      var r := MemoryComplete(rs, h, result);
      (r.0, Said(r.1))
  }

  function MemoryRun(rs: Records, ops: seq<Operation>): (Records, seq<Answer>) {
    if ops == [] then (rs, [])
    else
      var before := MemoryRun(rs, ops[..|ops| - 1]);
      var r := MemoryDo(before.0, ops[|ops| - 1]);
      (r.0, before.1 + [r.1])
  }

  // ----- In PostgreSQL -----

  datatype RowState = Reserved | EvidenceReady | Completed

  datatype Row = Row(
    digest: string,
    owner: Id,
    reservedUntil: Time,
    state: RowState,
    evidence: Option<Evidence>,
    finalAt: Option<Time>,
    result: Option<Verdict>)

  type Table = map<Id, Row>

  function InsertReservation(rows: Table, start: Start, owner: Id, set_: Time): (Table, bool) {
    if start.id in rows then (rows, false)
    else (rows[start.id := Row(start.digest, owner, set_ + start.ttl, Reserved, None, None, None)], true)
  }

  /** What the read row alone decides; MustWait when it is still only reserved. */
  function ExistingReservation(row: Row, start: Start): Begun {
    if row.digest != start.digest then Clash
    else
      match row.state
      case Completed => if row.result.Some? then Repeated(row.result.value) else Clash
      case EvidenceReady =>
        if row.evidence.Some? then Resumed(Handle(start.id, row.digest, row.owner), row.evidence.value) else Clash
      case Reserved => MustWait
  }

  function RecoverReservation(rows: Table, start: Start, owner: Id, checked: Time, set_: Time): (Table, bool) {
    if start.id in rows && rows[start.id].digest == start.digest && rows[start.id].state == Reserved
       && rows[start.id].reservedUntil <= checked
    then (rows[start.id := rows[start.id].(owner := owner, reservedUntil := set_ + start.ttl)], true)
    else (rows, false)
  }

  predicate Guards(rows: Table, h: Handle, state: RowState) {
    h.id in rows && rows[h.id].digest == h.digest && rows[h.id].owner == h.owner && rows[h.id].state == state
  }

  function SaveRow(rows: Table, h: Handle, evidence: Evidence): (Table, bool) {
    if Guards(rows, h, Reserved)
    then (rows[h.id := rows[h.id].(state := EvidenceReady, evidence := Some(evidence))], true)
    else (rows, false)
  }

  function FinalRow(rows: Table, h: Handle, value: Time): (Table, Option<Time>) {
    if Guards(rows, h, EvidenceReady) then
      var time := if rows[h.id].finalAt.Some? then rows[h.id].finalAt.value else value;
      (rows[h.id := rows[h.id].(finalAt := Some(time))], Some(time))
    else (rows, None)
  }

  function CompleteRow(rows: Table, h: Handle, result: Verdict): (Table, bool) {
    if Guards(rows, h, EvidenceReady) && rows[h.id].finalAt.Some?
    then (rows[h.id := rows[h.id].(state := Completed, result := Some(result))], true)
    else (rows, false)
  }

  // ----- Interleaved calls -----

  /** Where a begin call stands between its statements. */
  datatype Phase =
    | Inserting(start: Start)
    | Reading(start: Start, owner: Id)
    | Recovering(start: Start, owner: Id)
    | Returned(begun: Begun)
    | Rejected

  datatype System = System(rows: Table, calls: map<nat, Phase>)

  const EMPTY_SYSTEM: System := System(map[], map[])

  /** One statement, of any call or handle, at any time. */
  datatype Step =
    | CallStep(call: nat, start: Start)
    | InsertStep(call: nat, owner: Id, set_: Time)
    | ReadStep(call: nat, checked: Time, set_: Time)
    | RecoverStep(call: nat, checked: Time, set_: Time)
    | SaveStep(handle: Handle, evidence: Evidence)
    | FinalStep(handle: Handle, value: Time)
    | CompleteStep(handle: Handle, result: Verdict)

  /** The operation a statement completes, with the answer its caller gets. Statements that
      leave a begin call undecided complete nothing. */
  datatype Effect = Effect(system: System, done: Option<(Operation, Answer)>)

  function Decided(s: System, call: nat, op: Operation, begun: Begun): Effect {
    Effect(s.(calls := s.calls[call := Returned(begun)]), Some((op, BeginAnswer(begun))))
  }

  function Moved(s: System, call: nat, phase: Phase): Effect {
    Effect(s.(calls := s.calls[call := phase]), None)
  }

  function PostgresInsert(s: System, call: nat, start: Start, owner: Id, set_: Time): Effect {
    var r := InsertReservation(s.rows, start, owner, set_);
    if r.1
    then Decided(s.(rows := r.0), call, BeginOp(start, owner, set_, set_), Owned(Handle(start.id, start.digest, owner)))
    else Moved(s, call, Reading(start, owner))
  }

  function PostgresRead(s: System, call: nat, start: Start, owner: Id, checked: Time, set_: Time): Effect {
    if start.id !in s.rows then Moved(s, call, Inserting(start))
    else
      var begun := ExistingReservation(s.rows[start.id], start);
      if begun.MustWait? then Moved(s, call, Recovering(start, owner))
      else Decided(s, call, BeginOp(start, owner, checked, set_), begun)
  }

  function PostgresRecover(s: System, call: nat, start: Start, owner: Id, checked: Time, set_: Time): Effect {
    var r := RecoverReservation(s.rows, start, owner, checked, set_);
    if r.1
    then Decided(s.(rows := r.0), call, BeginOp(start, owner, checked, set_),
                 Owned(Handle(start.id, start.digest, owner)))
    else Moved(s, call, Inserting(start))
  }

  function Next(s: System, step: Step): Effect {
    match step
    case CallStep(call, start) =>
      if call in s.calls then Effect(s, None)
      else Moved(s, call, if start.ttl <= 0 then Rejected else Inserting(start))
    case InsertStep(call, owner, set_) =>
      if call in s.calls && s.calls[call].Inserting?
      then PostgresInsert(s, call, s.calls[call].start, owner, set_)
      else Effect(s, None)
    case ReadStep(call, checked, set_) =>
      if call in s.calls && s.calls[call].Reading?
      then PostgresRead(s, call, s.calls[call].start, s.calls[call].owner, checked, set_)
      else Effect(s, None)
    case RecoverStep(call, checked, set_) =>
      if call in s.calls && s.calls[call].Recovering?
      then PostgresRecover(s, call, s.calls[call].start, s.calls[call].owner, checked, set_)
      else Effect(s, None)
    case SaveStep(h, evidence) =>
      var r := SaveRow(s.rows, h, evidence);
      Effect(s.(rows := r.0), Some((SaveOp(h, evidence), Said(r.1))))
    case FinalStep(h, value) =>
      var r := FinalRow(s.rows, h, value);
      Effect(s.(rows := r.0), Some((FinalOp(h, value), FinalAnswer(r.1))))
    case CompleteStep(h, result) =>
      var r := CompleteRow(s.rows, h, result);
      Effect(s.(rows := r.0), Some((CompleteOp(h, result), Said(r.1))))
  }

  function Run(s: System, steps: seq<Step>): System {
    if steps == [] then s else Next(Run(s, steps[..|steps| - 1]), steps[|steps| - 1]).system
  }

  /** The memory operations a run amounts to. */
  function Operations(s: System, steps: seq<Step>): seq<Operation> {
    if steps == [] then []
    else
      var n := |steps| - 1;
      var e := Next(Run(s, steps[..n]), steps[n]);
      Operations(s, steps[..n]) + if e.done.Some? then [e.done.value.0] else []
  }

  /** The answers its callers got, in order. */
  function Answers(s: System, steps: seq<Step>): seq<Answer> {
    if steps == [] then []
    else
      var n := |steps| - 1;
      var e := Next(Run(s, steps[..n]), steps[n]);
      Answers(s, steps[..n]) + if e.done.Some? then [e.done.value.1] else []
  }

  // ----- Refinement -----

  /** The table constraint: a row's state says which columns are filled. */
  predicate Consistent(row: Row) {
    match row.state
    case Reserved => row.evidence.None? && row.result.None? && row.finalAt.None?
    case EvidenceReady => row.evidence.Some? && row.result.None?
    case Completed => row.evidence.Some? && row.result.Some? && row.finalAt.Some?
  }

  ghost predicate AllConsistent(rows: Table) {
    forall id :: id in rows ==> Consistent(rows[id])
  }

  function AsRecord(row: Row): Record {
    Record(row.digest, row.owner, row.reservedUntil, row.finalAt, row.evidence, row.result)
  }

  function AsRecords(rows: Table): Records {
    map id | id in rows :: AsRecord(rows[id])
  }

  lemma {:induction false} AsRecordsUpdate(rows: Table, id: Id, row: Row)
    ensures AsRecords(rows[id := row]) == AsRecords(rows)[id := AsRecord(row)]
  {
  }

  lemma {:induction false} StepConsistent(s: System, step: Step)
    requires AllConsistent(s.rows)
    ensures AllConsistent(Next(s, step).system.rows)
  {
  }

  /** A begin statement that decides its call does what memory does in one pass; one that
      does not decide it changes nothing memory can see. */
  lemma {:induction false} InsertRefines(s: System, call: nat, start: Start, owner: Id, set_: Time)
    ensures var e := PostgresInsert(s, call, start, owner, set_);
      if e.done.None? then e.system.rows == s.rows
      else MemoryDo(AsRecords(s.rows), e.done.value.0) == (AsRecords(e.system.rows), e.done.value.1)
  {
    AsRecordsUpdate(s.rows, start.id, Row(start.digest, owner, set_ + start.ttl, Reserved, None, None, None));
  }

  lemma {:induction false} ReadRefines(s: System, call: nat, start: Start, owner: Id, checked: Time, set_: Time)
    requires AllConsistent(s.rows)
    ensures var e := PostgresRead(s, call, start, owner, checked, set_);
      && e.system.rows == s.rows
      && (e.done.Some? ==>
            MemoryDo(AsRecords(s.rows), e.done.value.0) == (AsRecords(e.system.rows), e.done.value.1))
  {
    if start.id in s.rows {
      assert Consistent(s.rows[start.id]);
    }
  }

  lemma {:induction false} RecoverRefines(s: System, call: nat, start: Start, owner: Id, checked: Time, set_: Time)
    requires AllConsistent(s.rows)
    ensures var e := PostgresRecover(s, call, start, owner, checked, set_);
      if e.done.None? then e.system.rows == s.rows
      else MemoryDo(AsRecords(s.rows), e.done.value.0) == (AsRecords(e.system.rows), e.done.value.1)
  {
    if start.id in s.rows {
      assert Consistent(s.rows[start.id]);
      AsRecordsUpdate(s.rows, start.id,
                      s.rows[start.id].(owner := owner, reservedUntil := set_ + start.ttl));
    }
  }

  lemma {:induction false} HandleRefines(s: System, step: Step)
    requires AllConsistent(s.rows) && (step.SaveStep? || step.FinalStep? || step.CompleteStep?)
    ensures var e := Next(s, step);
      && e.done.Some?
      && MemoryDo(AsRecords(s.rows), e.done.value.0) == (AsRecords(e.system.rows), e.done.value.1)
  {
    var h := step.handle;
    if h.id in s.rows {
      var row := s.rows[h.id];
      assert Consistent(row);
      match step
      case SaveStep(_, evidence) =>
        AsRecordsUpdate(s.rows, h.id, row.(state := EvidenceReady, evidence := Some(evidence)));
      case FinalStep(_, value) =>
        AsRecordsUpdate(s.rows, h.id, row.(finalAt := Some(if row.finalAt.Some? then row.finalAt.value else value)));
      case CompleteStep(_, result) =>
        AsRecordsUpdate(s.rows, h.id, row.(state := Completed, result := Some(result)));
    }
  }

  lemma {:induction false} StepRefines(s: System, step: Step)
    requires AllConsistent(s.rows)
    ensures var e := Next(s, step);
      if e.done.None? then AsRecords(e.system.rows) == AsRecords(s.rows)
      else MemoryDo(AsRecords(s.rows), e.done.value.0) == (AsRecords(e.system.rows), e.done.value.1)
  {
    hide MemoryDo, AsRecords, PostgresInsert, PostgresRead, PostgresRecover, SaveRow, FinalRow, CompleteRow;
    match step
    case CallStep(_, _) =>
    case InsertStep(call, owner, set_) =>
      if call in s.calls && s.calls[call].Inserting? {
        InsertRefines(s, call, s.calls[call].start, owner, set_);
      }
    case ReadStep(call, checked, set_) =>
      if call in s.calls && s.calls[call].Reading? {
        ReadRefines(s, call, s.calls[call].start, s.calls[call].owner, checked, set_);
      }
    case RecoverStep(call, checked, set_) =>
      if call in s.calls && s.calls[call].Recovering? {
        RecoverRefines(s, call, s.calls[call].start, s.calls[call].owner, checked, set_);
      }
    case SaveStep(_, _) => HandleRefines(s, step);
    case FinalStep(_, _) => HandleRefines(s, step);
    case CompleteStep(_, _) => HandleRefines(s, step);
  }

  lemma {:induction false} RunConsistent(steps: seq<Step>)
    ensures AllConsistent(Run(EMPTY_SYSTEM, steps).rows)
  {
    hide Next, Consistent;
    if steps != [] {
      RunConsistent(steps[..|steps| - 1]);
      StepConsistent(Run(EMPTY_SYSTEM, steps[..|steps| - 1]), steps[|steps| - 1]);
    }
  }

  lemma {:induction false} MemoryRunSnoc(rs: Records, ops: seq<Operation>, op: Operation)
    ensures var before := MemoryRun(rs, ops); var r := MemoryDo(before.0, op);
      MemoryRun(rs, ops + [op]) == (r.0, before.1 + [r.1])
  {
    hide MemoryDo;
    assert (ops + [op])[..|ops|] == ops;
  }

  /** Every interleaving of statements is the memory ledger executing, atomically and in the
      order they were decided, the operations its callers saw answered, with the same answers
      and the same records. */
  lemma {:induction false} PostgresRefinesMemory(steps: seq<Step>)
    ensures MemoryRun(map[], Operations(EMPTY_SYSTEM, steps))
         == (AsRecords(Run(EMPTY_SYSTEM, steps).rows), Answers(EMPTY_SYSTEM, steps))
  {
    hide Next, MemoryDo, AllConsistent;
    if steps != [] {
      var n := |steps| - 1;
      var s := Run(EMPTY_SYSTEM, steps[..n]);
      PostgresRefinesMemory(steps[..n]);
      RunConsistent(steps[..n]);
      StepRefines(s, steps[n]);
      var e := Next(s, steps[n]);
      if e.done.Some? {
        MemoryRunSnoc(map[], Operations(EMPTY_SYSTEM, steps[..n]), e.done.value.0);
      } else {
        assert Operations(EMPTY_SYSTEM, steps) == Operations(EMPTY_SYSTEM, steps[..n]);
        assert Answers(EMPTY_SYSTEM, steps) == Answers(EMPTY_SYSTEM, steps[..n]);
      }
    }
  }

  // ----- Write-once -----

  /** Evidence, final time and result are each written once, in that order, and the owner
      changes only while there is no evidence. */
  ghost predicate Persists(before: Row, after: Row) {
    && after.digest == before.digest
    && (before.evidence.Some? ==> after.evidence == before.evidence && after.owner == before.owner)
    && (before.finalAt.Some? ==> after.finalAt == before.finalAt)
    && (before.result.Some? ==> after == before)
  }

  lemma {:induction false} StepPersists(s: System, step: Step, id: Id)
    requires AllConsistent(s.rows) && id in s.rows
    ensures id in Next(s, step).system.rows && Persists(s.rows[id], Next(s, step).system.rows[id])
  {
    assert Consistent(s.rows[id]);
  }

  /** A reservation changes hands only by a recovery that found it expired and still without
      evidence. */
  lemma {:induction false} ReclaimedOnlyWhenExpired(s: System, step: Step, id: Id)
    requires AllConsistent(s.rows) && id in s.rows
    ensures var after := Next(s, step).system.rows;
      id in after && (after[id].owner != s.rows[id].owner ==>
        && step.RecoverStep? && s.rows[id].reservedUntil <= step.checked
        && s.rows[id].state == Reserved && s.rows[id].evidence.None?)
  {
    assert Consistent(s.rows[id]);
  }

  lemma {:induction false} WrittenOnce(steps: seq<Step>, more: seq<Step>, id: Id)
    requires id in Run(EMPTY_SYSTEM, steps).rows
    ensures id in Run(EMPTY_SYSTEM, steps + more).rows
    ensures Persists(Run(EMPTY_SYSTEM, steps).rows[id], Run(EMPTY_SYSTEM, steps + more).rows[id])
    ensures Consistent(Run(EMPTY_SYSTEM, steps + more).rows[id])
  {
    hide Next;
    RunConsistent(steps + more);
    if more == [] {
      assert steps + more == steps;
    } else {
      var n := |more| - 1;
      WrittenOnce(steps, more[..n], id);
      assert (steps + more)[..|steps + more| - 1] == steps + more[..n];
      RunConsistent(steps + more[..n]);
      StepPersists(Run(EMPTY_SYSTEM, steps + more[..n]), more[n], id);
    }
  }

  // ----- The two ledgers -----

  /** Nothing but the record of one identity differs. */
  ghost predicate OnlyAt(before: Records, after: Records, id: Id) {
    forall other :: other != id ==>
      (other in after <==> other in before) && (other in before ==> after[other] == before[other])
  }

  /** The record can be taken: there is none, or it expired without evidence. */
  predicate Available(rs: Records, start: Start, checked: Time) {
    start.id in rs ==>
      rs[start.id].digest == start.digest && rs[start.id].evidence.None? && rs[start.id].reservedUntil <= checked
  }

  /** The record belongs to another request, or is still reserved for another caller. */
  predicate Blocked(rs: Records, start: Start, checked: Time) {
    start.id in rs
    && (rs[start.id].digest != start.digest || (rs[start.id].evidence.None? && checked < rs[start.id].reservedUntil))
  }

  /** Recording a final time and a result under a handle. */
  function MemoryFinish(rs: Records, h: Handle, value: Time, result: Verdict): (Records, Option<Verdict>) {
    var f := MemoryFinal(rs, h, value);
    var c := MemoryComplete(f.0, h, result);
    (c.0, if c.1 then Some(result) else None)
  }

  /** A whole verification against the memory records. */
  function MemoryVerify(rs: Records, start: Start, owner: Id, checked: Time, set_: Time, evidence: Evidence, value: Time,
                        result: Verdict): (Records, Option<Verdict>)
  {
    var b := MemoryBegin(rs, start, owner, checked, set_);
    match b.1
    case Owned(h) => MemoryFinish(MemorySave(b.0, h, evidence).0, h, value, result)
    case Resumed(h, _) => MemoryFinish(b.0, h, value, result)
    case Repeated(stored) => (b.0, Some(stored))
    case _ => (b.0, None)
  }

  /** Results and final times exist only where evidence does. */
  ghost predicate Ordered(rs: Records) {
    forall id :: id in rs && rs[id].evidence.None? ==> rs[id].finalTime.None? && rs[id].result.None?
  }

  class MemoryLedger {
    var records: Records

    constructor ()
      ensures records == map[]
    {
      records := map[];
    }

    /** One pass of the begin loop, under the lock. The caller owns the record exactly if there
        was none, or one of its digest that expired without evidence; only then does anything
        change, and then only owner and expiry of that record. */
    method TryBegin(start: Start, owner: Id, checked: Time, set_: Time) returns (begun: Begun)
      modifies this
      ensures begun.Clash? <==> start.id in old(records) && old(records)[start.id].digest != start.digest
      ensures begun.Owned? <==> Available(old(records), start, checked)
      ensures begun.Owned? ==>
        && begun.handle == Handle(start.id, start.digest, owner) && Matches(records, begun.handle)
        && records[start.id].reservedUntil == set_ + start.ttl && records[start.id].evidence.None?
        && OnlyAt(old(records), records, start.id)
        && (start.id in old(records) ==>
              records[start.id].finalTime == old(records)[start.id].finalTime
              && records[start.id].result == old(records)[start.id].result)
        && (start.id !in old(records) ==> records[start.id].finalTime.None? && records[start.id].result.None?)
      ensures !begun.Owned? ==> records == old(records)
      ensures begun.Repeated? ==> records[start.id].result == Some(begun.result)
      ensures begun.Resumed? ==>
        && records[start.id].evidence == Some(begun.evidence) && records[start.id].result.None?
        && begun.handle.id == start.id && Matches(records, begun.handle)
      ensures begun.MustWait? ==>
        && start.id in records && records[start.id].evidence.None? && records[start.id].result.None?
        && checked < records[start.id].reservedUntil
      ensures (records, begun) == MemoryBegin(old(records), start, owner, checked, set_)
    {
      if start.id in records && records[start.id].digest != start.digest {
        return Clash;
      }
      if start.id !in records {
        records := records[start.id := Record(start.digest, owner, set_ + start.ttl, None, None, None)];
        return Owned(Handle(start.id, start.digest, owner));
      }
      var record := records[start.id];
      if record.evidence.None? && record.reservedUntil <= checked {
        records := records[start.id := record.(owner := owner, reservedUntil := set_ + start.ttl)];
        return Owned(Handle(start.id, start.digest, owner));
      }
      if record.result.Some? {
        return Repeated(record.result.value);
      }
      if record.evidence.Some? {
        return Resumed(Handle(start.id, start.digest, record.owner), record.evidence.value);
      }
      return MustWait;
    }

    /** Accepted exactly from the owner of a record without evidence. */
    method SaveEvidence(h: Handle, evidence: Evidence) returns (ok: bool)
      modifies this
      ensures ok <==> Matches(old(records), h) && old(records)[h.id].evidence.None?
      ensures ok ==>
        && OnlyAt(old(records), records, h.id) && Matches(records, h)
        && records[h.id].evidence == Some(evidence)
        && records[h.id].(evidence := None) == old(records)[h.id]
      ensures !ok ==> records == old(records)
      ensures (records, ok) == MemorySave(old(records), h, evidence)
    {
      if !Matches(records, h) || records[h.id].evidence.Some? {
        return false;
      }
      records := records[h.id := records[h.id].(evidence := Some(evidence))];
      return true;
    }

    /** Accepted exactly from the owner between evidence and result; the first time offered is
        the one every later call gets. */
    method FinalTransitionTime(h: Handle, value: Time) returns (time: Option<Time>)
      modifies this
      ensures time.Some? <==>
        Matches(old(records), h) && old(records)[h.id].evidence.Some? && old(records)[h.id].result.None?
      ensures time.Some? ==>
        && OnlyAt(old(records), records, h.id) && Matches(records, h)
        && records[h.id].finalTime == time
        && time == (if old(records)[h.id].finalTime.Some? then old(records)[h.id].finalTime else Some(value))
        && records[h.id].(finalTime := None) == old(records)[h.id].(finalTime := None)
      ensures time.None? ==> records == old(records)
      ensures (records, time) == MemoryFinal(old(records), h, value)
    {
      if !Matches(records, h) || records[h.id].evidence.None? || records[h.id].result.Some? {
        return None;
      }
      if records[h.id].finalTime.None? {
        records := records[h.id := records[h.id].(finalTime := Some(value))];
      }
      time := records[h.id].finalTime;
      assert records == old(records)[h.id := records[h.id]];
    }

    /** Accepted exactly from the owner, after evidence and final time, and once. */
    method Complete(h: Handle, result: Verdict) returns (ok: bool)
      modifies this
      ensures ok <==>
        && Matches(old(records), h) && old(records)[h.id].evidence.Some? && old(records)[h.id].finalTime.Some?
        && old(records)[h.id].result.None?
      ensures ok ==>
        && OnlyAt(old(records), records, h.id) && Matches(records, h)
        && records[h.id].result == Some(result) && records[h.id].(result := None) == old(records)[h.id]
      ensures !ok ==> records == old(records)
      ensures (records, ok) == MemoryComplete(old(records), h, result)
    {
      if !Matches(records, h) || records[h.id].evidence.None? || records[h.id].result.Some?
         || records[h.id].finalTime.None? {
        return false;
      }
      records := records[h.id := records[h.id].(result := Some(result))];
      return true;
    }

    /** A whole verification nobody disturbs: it ends with its result on record, or with the
        result already there, or finds the record clashing or reserved. */
    method Verify(start: Start, owner: Id, checked: Time, set_: Time, evidence: Evidence, value: Time, result: Verdict)
        returns (verdict: Option<Verdict>)
      requires Ordered(records)
      modifies this
      ensures Ordered(records) && OnlyAt(old(records), records, start.id)
      ensures verdict.Some? ==>
        && start.id in records && records[start.id].result == verdict && records[start.id].digest == start.digest
      ensures start.id in old(records) && old(records)[start.id].result.Some? ==>
        && records == old(records)
        && verdict == (if old(records)[start.id].digest == start.digest then old(records)[start.id].result else None)
      ensures verdict.None? <==> Blocked(old(records), start, checked)
      ensures (records, verdict) == MemoryVerify(old(records), start, owner, checked, set_, evidence, value, result)
    {
      var begun := TryBegin(start, owner, checked, set_);
      match begun {
        case Clash => return None;
        case MustWait => return None;
        case Repeated(stored) => return Some(stored);
        case Owned(h) =>
          var saved := SaveEvidence(h, evidence);
          var time := FinalTransitionTime(h, value);
          var done := Complete(h, result);
          assert saved && time.Some? && done;
        case Resumed(h, _) =>
          var time := FinalTransitionTime(h, value);
          var done := Complete(h, result);
          assert time.Some? && done;
      }
      return Some(result);
    }
  }

  class PostgresLedger {
    var rows: Table

    constructor ()
      ensures rows == map[]
    {
      rows := map[];
    }

    method Insert(start: Start, owner: Id, set_: Time) returns (inserted: bool)
      modifies this
      ensures (rows, inserted) == InsertReservation(old(rows), start, owner, set_)
    {
      inserted := start.id !in rows;
      if inserted {
        rows := rows[start.id := Row(start.digest, owner, set_ + start.ttl, Reserved, None, None, None)];
      }
    }

    method Recover(start: Start, owner: Id, checked: Time, set_: Time) returns (recovered: bool)
      modifies this
      ensures (rows, recovered) == RecoverReservation(old(rows), start, owner, checked, set_)
    {
      recovered := start.id in rows && rows[start.id].digest == start.digest && rows[start.id].state == Reserved
                   && rows[start.id].reservedUntil <= checked;
      if recovered {
        rows := rows[start.id := rows[start.id].(owner := owner, reservedUntil := set_ + start.ttl)];
      }
    }

    /** One attempt to begin, with nobody interfering: it is one pass of the memory ledger. */
    method BeginAttempt(start: Start, owner: Id, checked: Time, set_: Time) returns (begun: Begun)
      requires AllConsistent(rows)
      modifies this
      ensures AllConsistent(rows)
      ensures (AsRecords(rows), begun) == MemoryBegin(AsRecords(old(rows)), start, owner, checked, set_)
    {
      ghost var before := rows;
      var inserted := Insert(start, owner, set_);
      if inserted {
        AsRecordsUpdate(before, start.id, rows[start.id]);
        return Owned(Handle(start.id, start.digest, owner));
      }
      assert Consistent(rows[start.id]);
      begun := ExistingReservation(rows[start.id], start);
      if begun.MustWait? {
        var recovered := Recover(start, owner, checked, set_);
        if recovered {
          AsRecordsUpdate(before, start.id, rows[start.id]);
          begun := Owned(Handle(start.id, start.digest, owner));
        }
      }
    }

    /** The guarded update to evidence_ready is memory's save. */
    method SaveEvidence(h: Handle, evidence: Evidence) returns (ok: bool)
      requires AllConsistent(rows)
      modifies this
      ensures AllConsistent(rows)
      ensures (AsRecords(rows), ok) == MemorySave(AsRecords(old(rows)), h, evidence)
    {
      ghost var before := rows;
      assert h.id in rows ==> Consistent(rows[h.id]);
      ok := Guards(rows, h, Reserved);
      if ok {
        rows := rows[h.id := rows[h.id].(state := EvidenceReady, evidence := Some(evidence))];
        AsRecordsUpdate(before, h.id, rows[h.id]);
      }
    }

    /** The guarded update that keeps the first final time is memory's. */
    method FinalTransitionTime(h: Handle, value: Time) returns (time: Option<Time>)
      requires AllConsistent(rows)
      modifies this
      ensures AllConsistent(rows)
      ensures (AsRecords(rows), time) == MemoryFinal(AsRecords(old(rows)), h, value)
    {
      ghost var before := rows;
      assert h.id in rows ==> Consistent(rows[h.id]);
      if !Guards(rows, h, EvidenceReady) {
        return None;
      }
      time := Some(if rows[h.id].finalAt.Some? then rows[h.id].finalAt.value else value);
      rows := rows[h.id := rows[h.id].(finalAt := time)];
      AsRecordsUpdate(before, h.id, rows[h.id]);
    }

    /** The guarded update to completed is memory's completion. */
    method Complete(h: Handle, result: Verdict) returns (ok: bool)
      requires AllConsistent(rows)
      modifies this
      ensures AllConsistent(rows)
      ensures (AsRecords(rows), ok) == MemoryComplete(AsRecords(old(rows)), h, result)
    {
      ghost var before := rows;
      assert h.id in rows ==> Consistent(rows[h.id]);
      ok := Guards(rows, h, EvidenceReady) && rows[h.id].finalAt.Some?;
      if ok {
        rows := rows[h.id := rows[h.id].(state := Completed, result := Some(result))];
        AsRecordsUpdate(before, h.id, rows[h.id]);
      }
    }

    method Finish(h: Handle, value: Time, result: Verdict) returns (verdict: Option<Verdict>)
      requires AllConsistent(rows)
      modifies this
      ensures AllConsistent(rows)
      ensures (AsRecords(rows), verdict) == MemoryFinish(AsRecords(old(rows)), h, value, result)
    {
      hide MemoryFinal, MemoryComplete, AsRecords;
      var time := FinalTransitionTime(h, value);
      var done := Complete(h, result);
      return if done then Some(result) else None;
    }

    /** A whole verification nobody disturbs gives memory's verdict and memory's records. */
    method Verify(start: Start, owner: Id, checked: Time, set_: Time, evidence: Evidence, value: Time, result: Verdict)
        returns (verdict: Option<Verdict>)
      requires AllConsistent(rows)
      modifies this
      ensures AllConsistent(rows)
      ensures (AsRecords(rows), verdict)
           == MemoryVerify(AsRecords(old(rows)), start, owner, checked, set_, evidence, value, result)
    {
      hide MemoryBegin, MemorySave, MemoryFinish, AsRecords;
      var begun := BeginAttempt(start, owner, checked, set_);
      match begun {
        case Clash => return None;
        case MustWait => return None;
        case Repeated(stored) => return Some(stored);
        case Owned(h) =>
          var saved := SaveEvidence(h, evidence);
          verdict := Finish(h, value, result);
        case Resumed(h, _) =>
          verdict := Finish(h, value, result);
      }
    }
  }
}
