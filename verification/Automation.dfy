/** The routine-run records, the claim transitions of one stored run, and the
    in-memory repository that applies them (src/reckoning/automation.py). */
module Automation {
  import opened Wrappers
  import opened Text

  datatype StepKind = Deterministic | Model
  datatype StepStatus = Success | Partial | Blocked | Failed
  datatype RunStatus = Running | Finished(outcome: StepStatus)

  datatype RoutineStep = RoutineStep(id: string, kind: StepKind, action: string)

  datatype StepResult = StepResult(status: StepStatus, detail: string, costUnits: int, modelCalls: int)

  datatype RoutineRun = RoutineRun(
    id: string, proposalId: string, scheduledFor: int, idempotencyKey: string, steps: seq<RoutineStep>,
    status: RunStatus, currentStep: nat, attempts: nat, currentStepAttempts: nat, results: seq<StepResult>)

  datatype RoutineReceipt = RoutineReceipt(
    runId: string, proposalId: string, status: StepStatus, completedAt: int, attempts: nat, results: seq<StepResult>)

  datatype ProposalStatus = Proposed | Confirmed | Superseded

  /** The negotiable content of a contract: `allowed_changes` of a revision plus the creation time. */
  datatype RoutineTerms = RoutineTerms(
    sourceRequest: string, createdAt: int, trigger: string, sourceScope: seq<string>, contextScope: seq<string>,
    tools: seq<string>, permissions: seq<string>, delivery: string, modelPolicy: string, costCeiling: int,
    retryLimit: int, delegationPolicy: string, failureBehavior: string)

  datatype RoutineProposal = RoutineProposal(
    id: string, routineId: string, version: nat, terms: RoutineTerms, status: ProposalStatus,
    supersedesProposalId: Option<string>)

  predicate AllNamed(values: seq<string>) { forall v :: v in values ==> !Blank(v) }

  predicate ValidTerms(routineId: string, t: RoutineTerms) {
    && !Blank(routineId) && !Blank(t.sourceRequest) && !Blank(t.trigger) && !Blank(t.delivery)
    && !Blank(t.modelPolicy) && !Blank(t.delegationPolicy) && !Blank(t.failureBehavior)
    && AllNamed(t.sourceScope) && AllNamed(t.contextScope) && AllNamed(t.tools) && AllNamed(t.permissions)
    && t.costCeiling >= 0 && t.retryLimit >= 0
  }

  /** `_validate_contract` */
  predicate ValidContract(p: RoutineProposal) { ValidTerms(p.routineId, p.terms) }

  datatype ClaimState = Unclaimed | Active | Finalized

  datatype RunClaim = RunClaim(owner: Option<string>, state: ClaimState, revision: nat)

  /** Everything one repository stores about one run. */
  datatype RunRow = RunRow(run: RoutineRun, claim: RunClaim, receipt: Option<RoutineReceipt>)

  datatype AutomationError =
    | UnknownRun | UnknownProposal | ClaimConflict | KeyReuse | IntegrityError | NotPermitted | InvalidValue
    | ExecutorInterrupted | QuoteRefused

  // ---------------------------------------------------------------------
  // Transitions of one claim, and of one stored run
  // ---------------------------------------------------------------------

  function ClaimedBy(claim: RunClaim, owner: string): Result<RunClaim, AutomationError> {
    if claim.state == Finalized then Err(ClaimConflict)
    else if claim.state == Active && claim.owner != Some(owner) then Err(ClaimConflict)
    else Ok(RunClaim(Some(owner), Active, claim.revision + 1))
  }

  function ReleasedBy(claim: RunClaim, owner: string): RunClaim {
    if claim.owner == Some(owner) && claim.state == Active then
      claim.(state := Unclaimed, revision := claim.revision + 1)
    else claim
  }

  function RecoveredFor(claim: RunClaim, expectedRevision: int, newOwner: string): Result<RunClaim, AutomationError> {
    if claim.revision != expectedRevision then Err(ClaimConflict)
    else if claim.state == Finalized then Err(ClaimConflict)
    else Ok(RunClaim(Some(newOwner), Active, claim.revision + 1))
  }

  /** The token check of a progress save: owner and revision, but not the claim state. */
  predicate TokenMatches(claim: RunClaim, owner: string, revision: int) {
    claim.owner == Some(owner) && claim.revision == revision
  }

  function ClaimRow(row: RunRow, owner: string): Result<RunRow, AutomationError> {
    match ClaimedBy(row.claim, owner)
    case Err(e) => Err(e)
    case Ok(claim) => Ok(row.(claim := claim))
  }

  function ReleaseRow(row: RunRow, owner: string): RunRow { row.(claim := ReleasedBy(row.claim, owner)) }

  function RecoverRow(row: RunRow, expectedRevision: int, newOwner: string): Result<RunRow, AutomationError> {
    match RecoveredFor(row.claim, expectedRevision, newOwner)
    case Err(e) => Err(e)
    case Ok(claim) => Ok(row.(claim := claim))
  }

  predicate Fenced(row: RunRow, owner: string, revision: int) { TokenMatches(row.claim, owner, revision) }

  function ProgressRow(row: RunRow, run: RoutineRun, owner: string, revision: int): Result<RunRow, AutomationError> {
    if !Fenced(row, owner, revision) then Err(ClaimConflict)
    else Ok(row.(run := run, claim := row.claim.(revision := row.claim.revision + 1)))
  }

  function FinalizeRow(row: RunRow, run: RoutineRun, receipt: RoutineReceipt, owner: string, revision: int)
    : Result<RunRow, AutomationError>
  {
    if !Fenced(row, owner, revision) then Err(ClaimConflict)
    else Ok(RunRow(run, RunClaim(row.claim.owner, Finalized, row.claim.revision + 2), Some(receipt)))
  }

  // ---------------------------------------------------------------------
  // The pure parts of a resume
  // ---------------------------------------------------------------------

  function TotalCost(results: seq<StepResult>): int {
    if results == [] then 0 else TotalCost(results[..|results| - 1]) + results[|results| - 1].costUnits
  }

  lemma TotalCostAppend(results: seq<StepResult>, r: StepResult)
    ensures TotalCost(results + [r]) == TotalCost(results) + r.costUnits
  {
    assert (results + [r])[..|results|] == results;
  }

  predicate Stops(r: StepResult) { r.status == Blocked || r.status == Failed }

  predicate HasStatus(results: seq<StepResult>, status: StepStatus) {
    exists i :: 0 <= i < |results| && results[i].status == status
  }

  /** `_aggregate_run_status`. */
  function AggregateStatus(results: seq<StepResult>, totalSteps: nat): StepStatus {
    if HasStatus(results, Blocked) then Blocked
    else if HasStatus(results, Failed) then (if HasStatus(results, Success) then Partial else Failed)
    else if |results| < totalSteps || HasStatus(results, Partial) then Partial
    else Success
  }

  /** A run is reported as a success exactly when every step is recorded and succeeded. */
  lemma SuccessMeansEveryStepSucceeded(results: seq<StepResult>, totalSteps: nat)
    requires |results| <= totalSteps
    ensures AggregateStatus(results, totalSteps) == Success <==>
            |results| == totalSteps && forall i :: 0 <= i < |results| ==> results[i].status == Success
  {
    if AggregateStatus(results, totalSteps) == Success {
      assert !HasStatus(results, Blocked) && !HasStatus(results, Failed) && !HasStatus(results, Partial);
    }
  }

  /** All four outcomes: blocked once anything is; failed when something failed and nothing succeeded; a success
      when every step is recorded and succeeded; and partial otherwise. */
  lemma OutcomesExactly(results: seq<StepResult>, totalSteps: nat)
    requires |results| <= totalSteps
    ensures AggregateStatus(results, totalSteps) == Blocked <==> exists r :: r in results && r.status == Blocked
    ensures AggregateStatus(results, totalSteps) == Failed <==>
              && (exists r :: r in results && r.status == Failed)
              && forall r :: r in results ==> r.status == Failed || r.status == Partial
    ensures AggregateStatus(results, totalSteps) == Success <==>
              |results| == totalSteps && forall r :: r in results ==> r.status == Success
  {
    hide AggregateStatus;
    forall status ensures HasStatus(results, status) <==> exists r :: r in results && r.status == status {
      StatusMember(results, status);
    }
    SuccessMeansEveryStepSucceeded(results, totalSteps);
    AggregateCases(results, totalSteps);
  }

  lemma StatusMember(results: seq<StepResult>, status: StepStatus)
    ensures HasStatus(results, status) <==> exists r :: r in results && r.status == status
  {
    if HasStatus(results, status) {
      var i :| 0 <= i < |results| && results[i].status == status;
      assert results[i] in results;
    }
  }

  lemma AggregateCases(results: seq<StepResult>, totalSteps: nat)
    ensures AggregateStatus(results, totalSteps) == Blocked <==> HasStatus(results, Blocked)
    ensures AggregateStatus(results, totalSteps) == Failed <==>
              !HasStatus(results, Blocked) && HasStatus(results, Failed) && !HasStatus(results, Success)
  {
    hide HasStatus;
  }

  function Charged(run: RoutineRun): RoutineRun {
    run.(attempts := run.attempts + 1, currentStepAttempts := run.currentStepAttempts + 1)
  }

  function Recorded(run: RoutineRun, result: StepResult): RoutineRun {
    run.(currentStep := run.currentStep + 1, currentStepAttempts := 0, results := run.results + [result])
  }

  function Terminal(run: RoutineRun): RoutineRun {
    run.(status := Finished(AggregateStatus(run.results, |run.steps|)))
  }

  function ReceiptOf(run: RoutineRun, completedAt: int): RoutineReceipt {
    RoutineReceipt(run.id, run.proposalId, AggregateStatus(run.results, |run.steps|), completedAt, run.attempts,
                   run.results)
  }
}
