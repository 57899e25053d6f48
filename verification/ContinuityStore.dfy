/** The repositories of decisions: SQLite (src/reckoning/persistence.py:150-280, 478-509)
    and in memory (src/reckoning/continuity.py:273-330). */
module ContinuityStore {
  import opened Wrappers
  import opened Continuity

  datatype OperationStatus = Completed | Failed

  datatype OperationRecord = OperationRecord(
    operationId: string, digest: string, status: OperationStatus, resultId: string, pendingInput: string,
    occurredAt: int, kind: string, targetId: string, displayedRevision: Option<int>, recordId: string,
    correction: string, submission: string)

  datatype Store = Store(
    reckonings: map<string, Reckoning>, operations: map<string, OperationRecord>, checkIns: seq<CheckIn>)

  datatype DecisionError =
    | InvalidValue | UnknownReckoning | UnknownRecord | RevisionConflict | OperationConflict | DuplicateCheckIn
    | ProcessingBlocked | ProviderFailed | InvalidDraft | ProtectedBoundary

  datatype Tx<T> = Tx(store: Store, result: Result<T, DecisionError>)

  // ---------------------------------------------------------------------
  // Transactions
  // ---------------------------------------------------------------------

  function CurrentVersion(s: Store, id: string): nat { if id in s.reckonings then s.reckonings[id].version else 0 }

  predicate IsCompleted(s: Store, operationId: string) {
    operationId in s.operations && s.operations[operationId].status == Completed
  }

  /** `_upsert_operation`: anything but a completed operation may be replaced. */
  function RecordTx(s: Store, op: OperationRecord): Tx<()> {
    if IsCompleted(s, op.operationId) then Tx(s, Err(OperationConflict))
    else Tx(s.(operations := s.operations[op.operationId := op]), Ok(()))
  }

  /** The decision and its operation are stored together or not at all. */
  function SaveTx(s: Store, r: Reckoning, expected: int, op: Option<OperationRecord>): Tx<()> {
    if r.version != expected + 1 then Tx(s, Err(InvalidValue))
    else if CurrentVersion(s, r.id) != expected then Tx(s, Err(RevisionConflict))
    else
      var saved := s.(reckonings := s.reckonings[r.id := r]);
      if op == None then Tx(saved, Ok(()))
      else
        var recorded := RecordTx(saved, op.value);
        if recorded.result.Err? then Tx(s, recorded.result) else recorded
  }

  function SaveCheckInTx(s: Store, c: CheckIn): Tx<()> {
    if c.decisionId !in s.reckonings then Tx(s, Err(UnknownReckoning))
    else if s.reckonings[c.decisionId].status != Confirmed then Tx(s, Err(InvalidValue))
    else if exists d :: d in s.checkIns && d.id == c.id then Tx(s, Err(DuplicateCheckIn))
    else Tx(s.(checkIns := s.checkIns + [c]), Ok(()))
  }

  class JsonFileReckoningRepository {
    var reckonings: map<string, Reckoning>
    var operations: map<string, OperationRecord>
    var checkIns: seq<CheckIn>

    function Contents(): Store reads this { Store(reckonings, operations, checkIns) }

    constructor ()
      ensures Contents() == Store(map[], map[], [])
    {
      reckonings, operations, checkIns := map[], map[], [];
    }

    function Get(id: string): Result<Reckoning, DecisionError> reads this {
      if id in reckonings then Ok(reckonings[id]) else Err(UnknownReckoning)
    }

    function LookupOperation(id: string): Option<OperationRecord> reads this {
      if id in operations then Some(operations[id]) else None
    }

    method RecordOperation(op: OperationRecord) returns (r: Result<(), DecisionError>)
      modifies this`operations
      ensures Contents() == RecordTx(old(Contents()), op).store && r == RecordTx(old(Contents()), op).result
    {
      if op.operationId in operations && operations[op.operationId].status == Completed {
        return Err(OperationConflict);
      }
      operations := operations[op.operationId := op];
      r := Ok(());
    }

    /** The row is written first; a refused operation rolls it back. */
    method Save(reckoning: Reckoning, expected: int, op: Option<OperationRecord>) returns (r: Result<(), DecisionError>)
      modifies this
      ensures Contents() == SaveTx(old(Contents()), reckoning, expected, op).store
      ensures r == SaveTx(old(Contents()), reckoning, expected, op).result
    {
      if reckoning.version != expected + 1 { return Err(InvalidValue); }
      var actual := CurrentVersion(Contents(), reckoning.id);
      if actual != expected { return Err(RevisionConflict); }
      var before := reckonings;
      reckonings := reckonings[reckoning.id := reckoning];
      if op.Some? {
        r := RecordOperation(op.value);
        if r.Err? {
          reckonings := before;
          return;
        }
      }
      r := Ok(());
    }

    method SaveCheckIn(c: CheckIn) returns (r: Result<(), DecisionError>)
      modifies this`checkIns
      ensures Contents() == SaveCheckInTx(old(Contents()), c).store && r == SaveCheckInTx(old(Contents()), c).result
    {
      if c.decisionId !in reckonings { return Err(UnknownReckoning); }
      if reckonings[c.decisionId].status != Confirmed { return Err(InvalidValue); }
      if exists d :: d in checkIns && d.id == c.id { return Err(DuplicateCheckIn); }
      checkIns := checkIns + [c];
      r := Ok(());
    }
  }

  // ---------------------------------------------------------------------
  // In memory
  // ---------------------------------------------------------------------

  /** The in-memory `save` looks at the stored version before it looks at the new one. */
  function MemorySave(s: Store, r: Reckoning, expected: int, op: Option<OperationRecord>): Tx<()> {
    if CurrentVersion(s, r.id) != expected then Tx(s, Err(RevisionConflict))
    else if r.version != expected + 1 then Tx(s, Err(InvalidValue))
    else if op.Some? && IsCompleted(s, op.value.operationId) then Tx(s, Err(OperationConflict))
    else
      var operations := if op.Some? then s.operations[op.value.operationId := op.value] else s.operations;
      Tx(s.(operations := operations, reckonings := s.reckonings[r.id := r]), Ok(()))
  }

  class InMemoryReckoningRepository {
    var reckonings: map<string, Reckoning>
    var operations: map<string, OperationRecord>

    function Contents(): Store reads this { Store(reckonings, operations, []) }

    method Save(reckoning: Reckoning, expected: int, op: Option<OperationRecord>) returns (r: Result<(), DecisionError>)
      modifies this
      ensures Contents() == MemorySave(old(Contents()), reckoning, expected, op).store
      ensures r == MemorySave(old(Contents()), reckoning, expected, op).result
    {
      var actual := if reckoning.id in reckonings then reckonings[reckoning.id].version else 0;
      if actual != expected { return Err(RevisionConflict); }
      if reckoning.version != expected + 1 { return Err(InvalidValue); }
      if op.Some? {
        if op.value.operationId in operations && operations[op.value.operationId].status == Completed {
          return Err(OperationConflict);
        }
        operations := operations[op.value.operationId := op.value];
      }
      reckonings := reckonings[reckoning.id := reckoning];
      r := Ok(());
    }
  }

  /** The two repositories store the same, and answer the same unless a save is both stale and out of step. */
  lemma SavesAgreeExactly(s: Store, r: Reckoning, expected: int, op: Option<OperationRecord>)
    ensures SaveTx(s, r, expected, op).store == MemorySave(s, r, expected, op).store
    ensures SaveTx(s, r, expected, op).result == MemorySave(s, r, expected, op).result
            <==> !(CurrentVersion(s, r.id) != expected && r.version != expected + 1)
  {
  }
}
