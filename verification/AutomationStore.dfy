/** The SQLite run tables and how they refine the in-memory repository
    (src/reckoning/automation_store.py:180-357, 726-865). */
module AutomationStore {
  import opened Wrappers
  import opened Automation
  import opened AutomationRepository

  /** One row of `routine_runs`.  The payload column holds the whole run; the others repeat parts of it. */
  datatype RunRecord = RunRecord(
    proposalId: string, idempotencyKey: string, scheduledFor: int, status: RunStatus, currentStep: nat,
    attempts: nat, currentStepAttempts: nat, steps: seq<RoutineStep>, payload: RoutineRun,
    claimOwner: Option<string>, claimState: ClaimState, revision: nat)

  function Columns(run: RoutineRun, claim: RunClaim): RunRecord {
    RunRecord(run.proposalId, run.idempotencyKey, run.scheduledFor, run.status, run.currentStep, run.attempts,
              run.currentStepAttempts, run.steps, run, claim.owner, claim.state, claim.revision)
  }

  function ClaimOf(r: RunRecord): RunClaim { RunClaim(r.claimOwner, r.claimState, r.revision) }

  /** `str(row[0])`: a NULL owner reads as the text "None". */
  function OwnerText(owner: Option<string>): string { if owner.Some? then owner.value else "None" }

  predicate KeyTaken(s: RunTables, run: RoutineRun) {
    exists id :: id in s.runs && id != run.id && s.runs[id].idempotencyKey == run.idempotencyKey
  }

  /** A progress save in SQLite: the owner is compared as text, and the key column is UNIQUE. */
  function SqlProgressCall(s: RunTables, run: RoutineRun, owner: string, revision: int): Call<nat> {
    if !Has(s, run.id) then Call(s, Err(UnknownRun))
    else if OwnerText(s.claims[run.id].owner) != owner then Call(s, Err(ClaimConflict))
    else if s.claims[run.id].revision != revision then Call(s, Err(ClaimConflict))
    else if KeyTaken(s, run) then Call(s, Err(IntegrityError))
    else
      var claim := s.claims[run.id];
      Call(s.(runs := s.runs[run.id := run], claims := s.claims[run.id := claim.(revision := claim.revision + 1)]),
           Ok(claim.revision + 1))
  }

  /** The finalization updates the claim by owner, which a NULL owner never matches. */
  function Marked(s: RunTables, id: string, owner: string): RunTables
    requires Has(s, id)
  {
    var claim := s.claims[id];
    if claim.owner == Some(owner) then WithClaim(s, id, RunClaim(claim.owner, Finalized, claim.revision + 1)) else s
  }

  function SqlFinalizeCall(s: RunTables, run: RoutineRun, receipt: RoutineReceipt, owner: string, revision: int)
    : Call<nat>
  {
    var saved := SqlProgressCall(s, run, owner, revision);
    if saved.result.Err? then saved
    else
      var marked := Marked(saved.tables, run.id, owner);
      Call(marked.(receipts := marked.receipts[receipt.runId := receipt]), Ok(saved.result.value + 1))
  }

  lemma FinalizeInParts(s: RunTables, run: RoutineRun, receipt: RoutineReceipt, owner: string, revision: int)
    ensures var saved := SqlProgressCall(s, run, owner, revision);
            var call := SqlFinalizeCall(s, run, receipt, owner, revision);
            && (saved.result.Err? ==> call == saved)
            && (saved.result.Ok? ==>
                 && Has(saved.tables, run.id) && call.result == Ok(saved.result.value + 1)
                 && var marked := Marked(saved.tables, run.id, owner);
                    call.tables == marked.(receipts := marked.receipts[receipt.runId := receipt]))
  {
  }

  /** Where the two repositories part: a save by "None" on a run nobody has claimed, or a save that
      moves a run onto another run's key. */
  predicate Diverges(s: RunTables, run: RoutineRun, owner: string, revision: int) {
    && Has(s, run.id) && s.claims[run.id].revision == revision && OwnerText(s.claims[run.id].owner) == owner
    && (s.claims[run.id].owner == None || KeyTaken(s, run))
  }

  lemma ProgressAgreesExactly(s: RunTables, run: RoutineRun, owner: string, revision: int)
    ensures SqlProgressCall(s, run, owner, revision) == ProgressCall(s, run, owner, revision)
            <==> !Diverges(s, run, owner, revision)
  {
  }

  lemma FinalizeAgreesExactly(s: RunTables, run: RoutineRun, receipt: RoutineReceipt, owner: string, revision: int)
    ensures SqlFinalizeCall(s, run, receipt, owner, revision) == FinalizeCall(s, run, receipt, owner, revision)
            <==> !Diverges(s, run, owner, revision)
  {
    if Has(s, run.id) && !Diverges(s, run, owner, revision) && TokenMatches(s.claims[run.id], owner, revision) {
      var claim := s.claims[run.id];
      var saved := s.claims[run.id := claim.(revision := claim.revision + 1)];
      var final := RunClaim(claim.owner, Finalized, claim.revision + 2);
      assert saved[run.id := final] == s.claims[run.id := final];
    }
  }

  // ---------------------------------------------------------------------
  // Whole sequences of calls
  // ---------------------------------------------------------------------

  datatype Command =
    | Start(run: RoutineRun)
    | Claim(id: string, owner: string)
    | Release(id: string, owner: string)
    | Recover(id: string, revision: int, newOwner: string)
    | Progress(run: RoutineRun, owner: string, revision: int)
    | Finalize(run: RoutineRun, receipt: RoutineReceipt, owner: string, revision: int)

  datatype Answer = Stored(run: Result<RoutineRun, AutomationError>)
    | Token(revision: Result<nat, AutomationError>) | Done

  /** The search by key, as a function: with unique keys there is at most one answer. */
  ghost function Search(s: RunTables, key: string): (r: Option<RoutineRun>)
    ensures Found(s, key, r)
  {
    if exists id :: id in s.runs && s.runs[id].idempotencyKey == key then
      var id :| id in s.runs && s.runs[id].idempotencyKey == key;
      Some(s.runs[id])
    else None
  }

  lemma SearchIsTheOnlyAnswer(s: RunTables, key: string, r: Option<RoutineRun>)
    requires UniqueKeys(s) && Found(s, key, r)
    ensures r == Search(s, key)
  {
  }

  ghost function Perform(sql: bool, s: RunTables, c: Command): (RunTables, Answer) {
    match c
    case Start(run) =>
      var call := StartCall(s, run, Search(s, run.idempotencyKey)); (call.tables, Stored(call.result))
    case Claim(id, owner) => var call := ClaimCall(s, id, owner); (call.tables, Token(call.result))
    case Release(id, owner) => (ReleaseCall(s, id, owner), Done)
    case Recover(id, revision, newOwner) =>
      var call := RecoverCall(s, id, revision, newOwner); (call.tables, Token(call.result))
    case Progress(run, owner, revision) =>
      var call := if sql then SqlProgressCall(s, run, owner, revision) else ProgressCall(s, run, owner, revision);
      (call.tables, Token(call.result))
    case Finalize(run, receipt, owner, revision) =>
      var call := if sql then SqlFinalizeCall(s, run, receipt, owner, revision)
                  else FinalizeCall(s, run, receipt, owner, revision);
      (call.tables, Token(call.result))
  }

  ghost function Answers(sql: bool, s: RunTables, commands: seq<Command>): (RunTables, seq<Answer>)
    decreases |commands|
  {
    if commands == [] then (s, [])
    else
      var (t, a) := Perform(sql, s, commands[0]);
      var (u, rest) := Answers(sql, t, commands[1..]);
      (u, [a] + rest)
  }

  /** A save on which the two part, see `Diverges`. */
  predicate Parts(s: RunTables, c: Command) {
    match c
    case Progress(run, owner, revision) => Diverges(s, run, owner, revision)
    case Finalize(run, _, owner, revision) => Diverges(s, run, owner, revision)
    case _ => false
  }

  ghost predicate NeverParts(s: RunTables, commands: seq<Command>)
    decreases |commands|
  {
    commands != [] ==> !Parts(s, commands[0]) && NeverParts(Perform(false, s, commands[0]).0, commands[1..])
  }

  /** A save by a worker with a name of its own, or on a run that somebody has claimed, that keeps the run's
      key is no such save; `resume_run` makes no others. */
  lemma OwnSavesNeverPart(s: RunTables, run: RoutineRun, owner: string, revision: int)
    requires UniqueKeys(s)
    requires run.id in s.runs ==> s.runs[run.id].idempotencyKey == run.idempotencyKey
    requires owner != "None" || (run.id in s.claims && s.claims[run.id].owner.Some?)
    ensures !Diverges(s, run, owner, revision)
  {
  }

  lemma StepAgrees(s: RunTables, c: Command)
    requires UniqueKeys(s) && !Parts(s, c)
    ensures Perform(true, s, c) == Perform(false, s, c)
    ensures UniqueKeys(Perform(false, s, c).0)
  {
    match c
    case Progress(run, owner, revision) => ProgressAgreesExactly(s, run, owner, revision);
    case Finalize(run, receipt, owner, revision) => FinalizeAgreesExactly(s, run, receipt, owner, revision);
    case _ =>
  }

  lemma StepParts(s: RunTables, c: Command)
    requires Parts(s, c)
    ensures Perform(true, s, c).1 != Perform(false, s, c).1
  {
  }

  /** Refinement: on a sequence of calls SQLite gives the same returns, errors and revisions as the in-memory
      repository, and ends with the same runs, exactly when no call of it is a save on which they part. */
  lemma {:induction false} SqliteRefinesInMemory(s: RunTables, commands: seq<Command>)
    requires UniqueKeys(s)
    ensures Answers(true, s, commands) == Answers(false, s, commands) <==> NeverParts(s, commands)
    decreases |commands|
  {
    hide Perform, Parts, UniqueKeys;
    if commands != [] {
      if Parts(s, commands[0]) {
        StepParts(s, commands[0]);
        assert Answers(true, s, commands).1[0] != Answers(false, s, commands).1[0];
      } else {
        StepAgrees(s, commands[0]);
        var t := Perform(false, s, commands[0]).0;
        SqliteRefinesInMemory(t, commands[1..]);
        assert Answers(true, s, commands).1[1..] == Answers(true, t, commands[1..]).1;
        assert Answers(false, s, commands).1[1..] == Answers(false, t, commands[1..]).1;
      }
    }
  }

  // ---------------------------------------------------------------------
  // The tables
  // ---------------------------------------------------------------------

  datatype SqlTables = SqlTables(
    runRecords: map<string, RunRecord>, stepResults: map<(string, nat), StepResult>,
    receipts: map<string, RoutineReceipt>)

  function Abstract(t: SqlTables): RunTables {
    RunTables(map id | id in t.runRecords :: t.runRecords[id].payload,
              map id | id in t.runRecords :: ClaimOf(t.runRecords[id]), t.receipts)
  }

  ghost predicate RecordCoherent(id: string, r: RunRecord) {
    && r.payload.id == id && r.proposalId == r.payload.proposalId && r.idempotencyKey == r.payload.idempotencyKey
    && r.scheduledFor == r.payload.scheduledFor && r.status == r.payload.status
    && r.currentStep == r.payload.currentStep && r.attempts == r.payload.attempts
    && r.currentStepAttempts == r.payload.currentStepAttempts && r.steps == r.payload.steps
    && (r.claimState == Active ==> r.claimOwner.Some?)
  }

  /** The step-result rows of one run are its results, in order. */
  ghost predicate ResultsCoherent(rows: map<(string, nat), StepResult>, run: RoutineRun) {
    && (forall p: nat :: (run.id, p) in rows <==> p < |run.results|)
    && (forall p: nat :: p < |run.results| ==> rows[(run.id, p)] == run.results[p])
  }

  /** Status columns, payload and step-result table describe the same runs. */
  ghost predicate Consistent(t: SqlTables) {
    && (forall id :: id in t.runRecords ==>
         RecordCoherent(id, t.runRecords[id]) && ResultsCoherent(t.stepResults, t.runRecords[id].payload))
    && UniqueKeys(Abstract(t))
  }

  function WithClaimColumns(r: RunRecord, claim: RunClaim): RunRecord {
    r.(claimOwner := claim.owner, claimState := claim.state, revision := claim.revision)
  }

  lemma Lookup(t: SqlTables, id: string)
    requires Consistent(t)
    ensures (id in t.runRecords <==> Has(Abstract(t), id)) && Abstract(t).receipts == t.receipts
    ensures id in t.runRecords ==>
              && Abstract(t).claims[id] == ClaimOf(t.runRecords[id])
              && (t.runRecords[id].claimState == Active ==> t.runRecords[id].claimOwner.Some?)
  {
  }

  lemma AbstractUpdate(t: SqlTables, id: string, r: RunRecord, rows: map<(string, nat), StepResult>)
    ensures Abstract(SqlTables(t.runRecords[id := r], rows, t.receipts))
            == RunTables(Abstract(t).runs[id := r.payload], Abstract(t).claims[id := ClaimOf(r)], t.receipts)
  {
    var u := SqlTables(t.runRecords[id := r], rows, t.receipts);
    assert Abstract(u).runs == Abstract(t).runs[id := r.payload];
    assert Abstract(u).claims == Abstract(t).claims[id := ClaimOf(r)];
  }

  lemma ClaimUpdate(t: SqlTables, id: string, claim: RunClaim)
    requires Consistent(t) && id in t.runRecords && (claim.state == Active ==> claim.owner.Some?)
    ensures var u := t.(runRecords := t.runRecords[id := WithClaimColumns(t.runRecords[id], claim)]);
            Consistent(u) && Abstract(u) == WithClaim(Abstract(t), id, claim)
  {
    var u := t.(runRecords := t.runRecords[id := WithClaimColumns(t.runRecords[id], claim)]);
    assert Abstract(u) == WithClaim(Abstract(t), id, claim) by {
      AbstractUpdate(t, id, u.runRecords[id], t.stepResults);
      assert Abstract(t).runs[id := t.runRecords[id].payload] == Abstract(t).runs;
    }
    hide Abstract, ResultsCoherent;
    assert UniqueKeys(Abstract(u));
    hide UniqueKeys;
    forall i | i in u.runRecords
      ensures RecordCoherent(i, u.runRecords[i]) && ResultsCoherent(u.stepResults, u.runRecords[i].payload)
    {
      assert RecordCoherent(i, t.runRecords[i]) && ResultsCoherent(t.stepResults, t.runRecords[i].payload);
    }
  }

  lemma ReceiptUpdate(t: SqlTables, receipt: RoutineReceipt)
    requires Consistent(t)
    ensures var u := t.(receipts := t.receipts[receipt.runId := receipt]);
            Consistent(u) && Abstract(u) == Abstract(t).(receipts := t.receipts[receipt.runId := receipt])
            && Abstract(t).receipts == t.receipts
  {
  }

  /** The effect of `_replace_step_results`. */
  ghost predicate ResultsReplaced(before: map<(string, nat), StepResult>, after: map<(string, nat), StepResult>,
                                  run: RoutineRun) {
    && ResultsCoherent(after, run)
    && (forall id, p: nat :: id != run.id ==> ((id, p) in after <==> (id, p) in before))
    && (forall id, p: nat :: id != run.id && (id, p) in before ==> after[(id, p)] == before[(id, p)])
  }

  lemma RunUpdate(t: SqlTables, run: RoutineRun, claim: RunClaim, rows: map<(string, nat), StepResult>)
    requires Consistent(t) && ResultsReplaced(t.stepResults, rows, run) && !KeyTaken(Abstract(t), run)
    requires claim.state == Active ==> claim.owner.Some?
    ensures var u := SqlTables(t.runRecords[run.id := Columns(run, claim)], rows, t.receipts);
            && Consistent(u)
            && Abstract(u) == RunTables(Abstract(t).runs[run.id := run], Abstract(t).claims[run.id := claim],
                                        t.receipts)
  {
    var u := SqlTables(t.runRecords[run.id := Columns(run, claim)], rows, t.receipts);
    AbstractUpdate(t, run.id, Columns(run, claim), rows);
    hide Abstract;
    KeysStayUnique(Abstract(t), Abstract(u), run);
    hide UniqueKeys, KeyTaken, ResultsReplaced, ResultsCoherent;
    forall id | id in u.runRecords
      ensures RecordCoherent(id, u.runRecords[id]) && ResultsCoherent(rows, u.runRecords[id].payload)
    {
      if id != run.id {
        assert RecordCoherent(id, t.runRecords[id]);
        ResultsOfOthers(t.stepResults, rows, run, t.runRecords[id].payload);
      } else {
        ResultsOfRun(t.stepResults, rows, run);
      }
    }
  }

  lemma KeysStayUnique(s: RunTables, t: RunTables, run: RoutineRun)
    requires UniqueKeys(s) && !KeyTaken(s, run) && t.runs == s.runs[run.id := run]
    ensures UniqueKeys(t)
  {
  }

  lemma ResultsOfRun(before: map<(string, nat), StepResult>, after: map<(string, nat), StepResult>, run: RoutineRun)
    requires ResultsReplaced(before, after, run)
    ensures ResultsCoherent(after, run)
  {
  }

  lemma ResultsOfOthers(before: map<(string, nat), StepResult>, after: map<(string, nat), StepResult>,
                        run: RoutineRun, other: RoutineRun)
    requires ResultsReplaced(before, after, run) && other.id != run.id && ResultsCoherent(before, other)
    ensures ResultsCoherent(after, other)
  {
  }

  class SQLiteAutomationRepository {
    var runRecords: map<string, RunRecord>
    var stepResults: map<(string, nat), StepResult>
    var receipts: map<string, RoutineReceipt>

    function Rows(): SqlTables reads this { SqlTables(runRecords, stepResults, receipts) }

    function Tables(): RunTables reads this { Abstract(Rows()) }

    constructor ()
      ensures Consistent(Rows()) && Tables() == RunTables(map[], map[], map[])
    {
      runRecords, stepResults, receipts := map[], map[], map[];
    }

    method SelectRunByKey(key: string) returns (r: Option<RoutineRun>)
      requires Consistent(Rows())
      ensures r == Search(Tables(), key)
    {
      var todo := runRecords.Keys;
      while todo != {}
        invariant todo <= runRecords.Keys
        invariant forall id :: id in runRecords && id !in todo ==> runRecords[id].idempotencyKey != key
        decreases |todo|
      {
        var id :| id in todo;
        if runRecords[id].idempotencyKey == key {
          assert Tables().runs[id].idempotencyKey == key;
          SearchIsTheOnlyAnswer(Tables(), key, Some(runRecords[id].payload));
          return Some(runRecords[id].payload);
        }
        todo := todo - {id};
      }
      return None;
    }

    /** Deletes a run's step results and inserts the ones it has now. */
    method ReplaceStepResults(run: RoutineRun)
      modifies this`stepResults
      ensures ResultsReplaced(old(stepResults), stepResults, run)
    {
      stepResults := map key | key in stepResults && key.0 != run.id :: stepResults[key];
      for position := 0 to |run.results|
        invariant forall p: nat :: (run.id, p) in stepResults <==> p < position
        invariant forall p: nat :: p < position ==> stepResults[(run.id, p)] == run.results[p]
        invariant forall id, p: nat :: id != run.id ==> ((id, p) in stepResults <==> (id, p) in old(stepResults))
        invariant forall id, p: nat :: id != run.id && (id, p) in old(stepResults) ==>
                    stepResults[(id, p)] == old(stepResults)[(id, p)]
      {
        stepResults := stepResults[(run.id, position) := run.results[position]];
      }
    }

    /** Inserts or rewrites a run's record together with its step results. */
    method WriteRun(run: RoutineRun, claim: RunClaim)
      requires Consistent(Rows()) && !KeyTaken(Tables(), run) && (claim.state == Active ==> claim.owner.Some?)
      modifies this`runRecords, this`stepResults
      ensures Consistent(Rows()) && run.id in runRecords
      ensures Tables() == RunTables(old(Tables()).runs[run.id := run], old(Tables()).claims[run.id := claim], receipts)
    {
      ghost var t := Rows();
      runRecords := runRecords[run.id := Columns(run, claim)];
      ReplaceStepResults(run);
      RunUpdate(t, run, claim, stepResults);
    }

    method StartRun(run: RoutineRun) returns (r: Result<RoutineRun, AutomationError>)
      requires Consistent(Rows())
      modifies this`runRecords, this`stepResults
      ensures Consistent(Rows())
      ensures Call(Tables(), r) == StartCall(old(Tables()), run, Search(old(Tables()), run.idempotencyKey))
    {
      var existing := SelectRunByKey(run.idempotencyKey);
      if existing.Some? { return Ok(existing.value); }
      if run.id in runRecords { return Err(KeyReuse); }
      assert !KeyTaken(Tables(), run);
      Lookup(Rows(), run.id);
      hide Consistent, Abstract, KeyTaken;
      WriteRun(run, RunClaim(None, Unclaimed, 1));
      r := Ok(run);
    }

    /** `UPDATE routine_runs SET claim_owner, claim_state, revision WHERE run_id = ?` */
    method UpdateClaim(id: string, claim: RunClaim)
      requires Consistent(Rows()) && id in runRecords && (claim.state == Active ==> claim.owner.Some?)
      modifies this`runRecords
      ensures Consistent(Rows()) && Tables() == WithClaim(old(Tables()), id, claim)
    {
      ClaimUpdate(Rows(), id, claim);
      hide Consistent, Abstract, WithClaim;
      runRecords := runRecords[id := WithClaimColumns(runRecords[id], claim)];
    }

    method ClaimRun(id: string, owner: string) returns (r: Result<nat, AutomationError>)
      requires Consistent(Rows())
      modifies this`runRecords
      ensures Consistent(Rows()) && Call(Tables(), r) == ClaimCall(old(Tables()), id, owner)
    {
      Lookup(Rows(), id);
      hide Consistent, Abstract;
      if id !in runRecords { return Err(UnknownRun); }
      var row := ClaimOf(runRecords[id]);
      if row.state == Finalized { return Err(ClaimConflict); }
      if row.state == Active && OwnerText(row.owner) != owner { return Err(ClaimConflict); }
      assert ClaimedBy(Tables().claims[id], owner) == Ok(RunClaim(Some(owner), Active, row.revision + 1));
      UpdateClaim(id, RunClaim(Some(owner), Active, row.revision + 1));
      r := Ok(row.revision + 1);
    }

    method ReleaseRun(id: string, owner: string)
      requires Consistent(Rows())
      modifies this`runRecords
      ensures Consistent(Rows()) && Tables() == ReleaseCall(old(Tables()), id, owner)
    {
      Lookup(Rows(), id);
      hide Consistent, Abstract;
      if id in runRecords {
        var row := ClaimOf(runRecords[id]);
        if row.owner == Some(owner) && row.state == Active {
          assert ReleasedBy(Tables().claims[id], owner) == row.(state := Unclaimed, revision := row.revision + 1);
          UpdateClaim(id, row.(state := Unclaimed, revision := row.revision + 1));
        }
      }
    }

    method RecoverRun(id: string, expectedRevision: int, newOwner: string) returns (r: Result<nat, AutomationError>)
      requires Consistent(Rows())
      modifies this`runRecords
      ensures Consistent(Rows()) && Call(Tables(), r) == RecoverCall(old(Tables()), id, expectedRevision, newOwner)
    {
      Lookup(Rows(), id);
      hide Consistent, Abstract;
      if id !in runRecords { return Err(UnknownRun); }
      var row := ClaimOf(runRecords[id]);
      if row.revision != expectedRevision { return Err(ClaimConflict); }
      if row.state == Finalized { return Err(ClaimConflict); }
      assert RecoveredFor(Tables().claims[id], expectedRevision, newOwner)
             == Ok(RunClaim(Some(newOwner), Active, row.revision + 1));
      UpdateClaim(id, RunClaim(Some(newOwner), Active, row.revision + 1));
      r := Ok(row.revision + 1);
    }

    /** Whether the UNIQUE key column refuses the update. */
    method KeyConflict(run: RoutineRun) returns (taken: bool)
      requires Consistent(Rows())
      ensures taken == KeyTaken(Tables(), run)
    {
      assert forall id :: id in runRecords ==> RecordCoherent(id, runRecords[id]);
      taken := exists id :: id in runRecords && id != run.id && runRecords[id].idempotencyKey == run.idempotencyKey;
      if taken {
        ghost var id :| id in runRecords && id != run.id && runRecords[id].idempotencyKey == run.idempotencyKey;
        assert Tables().runs[id].idempotencyKey == run.idempotencyKey;
      }
    }

    method WriteRunProgress(run: RoutineRun, owner: string, expectedRevision: int)
      returns (r: Result<nat, AutomationError>)
      requires Consistent(Rows())
      modifies this`runRecords, this`stepResults
      ensures Consistent(Rows())
      ensures r == SqlProgressCall(old(Tables()), run, owner, expectedRevision).result
      ensures Tables() == SqlProgressCall(old(Tables()), run, owner, expectedRevision).tables
      ensures r.Ok? ==> run.id in runRecords
    {
      Lookup(Rows(), run.id);
      hide Consistent, Abstract, KeyTaken;
      if run.id !in runRecords { return Err(UnknownRun); }
      var row := ClaimOf(runRecords[run.id]);
      if OwnerText(row.owner) != owner { return Err(ClaimConflict); }
      if row.revision != expectedRevision { return Err(ClaimConflict); }
      var taken := KeyConflict(run);
      if taken { return Err(IntegrityError); }
      var claim := row.(revision := row.revision + 1);
      assert SqlProgressCall(Tables(), run, owner, expectedRevision)
             == Call(RunTables(Tables().runs[run.id := run], Tables().claims[run.id := claim], receipts),
                     Ok(row.revision + 1));
      WriteRun(run, claim);
      r := Ok(row.revision + 1);
    }

    /** `UPDATE ... SET claim_state = 'finalized' WHERE run_id = ? AND claim_owner = ?` */
    method MarkFinalized(id: string, owner: string)
      requires Consistent(Rows()) && id in runRecords
      modifies this`runRecords
      ensures Consistent(Rows()) && Has(old(Tables()), id)
      ensures Tables() == Marked(old(Tables()), id, owner)
    {
      Lookup(Rows(), id);
      hide Consistent, Abstract;
      var row := ClaimOf(runRecords[id]);
      if row.owner == Some(owner) {
        assert Marked(Tables(), id, owner) == WithClaim(Tables(), id, RunClaim(row.owner, Finalized, row.revision + 1));
        UpdateClaim(id, RunClaim(row.owner, Finalized, row.revision + 1));
      }
    }

    method InsertReceipt(receipt: RoutineReceipt)
      requires Consistent(Rows())
      modifies this`receipts
      ensures Consistent(Rows())
      ensures Tables() == old(Tables()).(receipts := old(Tables()).receipts[receipt.runId := receipt])
    {
      ReceiptUpdate(Rows(), receipt);
      receipts := receipts[receipt.runId := receipt];
    }

    method FinalizeRun(run: RoutineRun, receipt: RoutineReceipt, owner: string, expectedRevision: int)
      returns (r: Result<nat, AutomationError>)
      requires Consistent(Rows())
      modifies this
      ensures Consistent(Rows())
      ensures r == SqlFinalizeCall(old(Tables()), run, receipt, owner, expectedRevision).result
      ensures Tables() == SqlFinalizeCall(old(Tables()), run, receipt, owner, expectedRevision).tables
    {
      hide Consistent, Abstract, SqlProgressCall, SqlFinalizeCall, Marked, Tables;
      FinalizeInParts(Tables(), run, receipt, owner, expectedRevision);
      r := WriteRunProgress(run, owner, expectedRevision);
      if r.Err? { return; }
      MarkFinalized(run.id, owner);
      InsertReceipt(receipt);
      r := Ok(r.value + 1);
    }
  }
}
