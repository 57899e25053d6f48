/** The run tables of a routine repository as values, the effect of each repository call on them,
    and the in-memory repository (src/reckoning/automation.py:184-374). */
module AutomationRepository {
  import opened Wrappers
  import opened Automation

  datatype RunTables = RunTables(
    runs: map<string, RoutineRun>, claims: map<string, RunClaim>, receipts: map<string, RoutineReceipt>)

  /** The outcome of one repository call. */
  datatype Call<T> = Call(tables: RunTables, result: Result<T, AutomationError>)

  predicate Has(s: RunTables, id: string) { id in s.runs && id in s.claims }

  function RowOf(s: RunTables, id: string): RunRow
    requires Has(s, id)
  {
    RunRow(s.runs[id], s.claims[id], if id in s.receipts then Some(s.receipts[id]) else None)
  }

  function WithClaim(s: RunTables, id: string, claim: RunClaim): RunTables {
    s.(claims := s.claims[id := claim])
  }

  function ClaimCall(s: RunTables, id: string, owner: string): Call<nat> {
    if !Has(s, id) then Call(s, Err(UnknownRun))
    else match ClaimedBy(s.claims[id], owner)
      case Err(e) => Call(s, Err(e))
      case Ok(claim) => Call(WithClaim(s, id, claim), Ok(claim.revision))
  }

  function ReleaseCall(s: RunTables, id: string, owner: string): RunTables {
    if !Has(s, id) || ReleasedBy(s.claims[id], owner) == s.claims[id] then s
    else WithClaim(s, id, ReleasedBy(s.claims[id], owner))
  }

  function RecoverCall(s: RunTables, id: string, revision: int, newOwner: string): Call<nat> {
    if !Has(s, id) then Call(s, Err(UnknownRun))
    else match RecoveredFor(s.claims[id], revision, newOwner)
      case Err(e) => Call(s, Err(e))
      case Ok(claim) => Call(WithClaim(s, id, claim), Ok(claim.revision))
  }

  function ProgressCall(s: RunTables, run: RoutineRun, owner: string, revision: int): Call<nat> {
    if !Has(s, run.id) then Call(s, Err(UnknownRun))
    else if !TokenMatches(s.claims[run.id], owner, revision) then Call(s, Err(ClaimConflict))
    else
      var claim := s.claims[run.id].(revision := revision + 1);
      Call(s.(runs := s.runs[run.id := run], claims := s.claims[run.id := claim]), Ok(claim.revision))
  }

  function FinalizeCall(s: RunTables, run: RoutineRun, receipt: RoutineReceipt, owner: string, revision: int)
    : Call<nat>
  {
    if !Has(s, run.id) then Call(s, Err(UnknownRun))
    else if !TokenMatches(s.claims[run.id], owner, revision) then Call(s, Err(ClaimConflict))
    else
      var claim := RunClaim(Some(owner), Finalized, revision + 2);
      Call(RunTables(s.runs[run.id := run], s.claims[run.id := claim], s.receipts[receipt.runId := receipt]),
           Ok(claim.revision))
  }

  /** What a search by idempotency key may return. */
  ghost predicate Found(s: RunTables, key: string, r: Option<RoutineRun>) {
    match r
    case None => forall id :: id in s.runs ==> s.runs[id].idempotencyKey != key
    case Some(run) => exists id :: id in s.runs && s.runs[id] == run && run.idempotencyKey == key
  }

  ghost predicate UniqueKeys(s: RunTables) {
    forall a, b :: a in s.runs && b in s.runs && s.runs[a].idempotencyKey == s.runs[b].idempotencyKey ==> a == b
  }

  function StartCall(s: RunTables, run: RoutineRun, found: Option<RoutineRun>): Call<RoutineRun> {
    if found.Some? then Call(s, Ok(found.value))
    else if run.id in s.runs then Call(s, Err(KeyReuse))
    else Call(s.(runs := s.runs[run.id := run], claims := s.claims[run.id := RunClaim(None, Unclaimed, 1)]), Ok(run))
  }

  /** Starting twice under one key yields one run: the second call changes nothing and names the first. */
  lemma StartIsIdempotent(s: RunTables, run: RoutineRun, again: RoutineRun, found: Option<RoutineRun>)
    requires UniqueKeys(s) && Found(s, run.idempotencyKey, None) && run.id !in s.runs
    requires again.idempotencyKey == run.idempotencyKey
    requires Found(StartCall(s, run, None).tables, again.idempotencyKey, found)
    ensures UniqueKeys(StartCall(s, run, None).tables)
    ensures StartCall(StartCall(s, run, None).tables, again, found) == Call(StartCall(s, run, None).tables, Ok(run))
  {
    var t := StartCall(s, run, None).tables;
    assert run.id in t.runs && t.runs[run.id] == run;
  }

  class InMemoryAutomationRepository {
    var proposals: map<string, RoutineProposal>
    var runs: map<string, RoutineRun>
    var claims: map<string, RunClaim>
    var receipts: map<string, RoutineReceipt>

    ghost predicate Valid() reads this {
      && runs.Keys == claims.Keys && (forall id :: id in runs ==> runs[id].id == id)
      && forall id :: id in proposals ==> ValidContract(proposals[id])
    }

    function Tables(): RunTables reads this { RunTables(runs, claims, receipts) }

    constructor ()
      ensures Valid() && Tables() == RunTables(map[], map[], map[])
    {
      proposals, runs, claims, receipts := map[], map[], map[], map[];
    }

    method FindRunByKey(key: string) returns (r: Option<RoutineRun>)
      ensures Found(Tables(), key, r)
    {
      var todo := runs.Keys;
      while todo != {}
        invariant todo <= runs.Keys
        invariant forall id :: id in runs && id !in todo ==> runs[id].idempotencyKey != key
        decreases |todo|
      {
        var id :| id in todo;
        if runs[id].idempotencyKey == key { return Some(runs[id]); }
        todo := todo - {id};
      }
      return None;
    }

    method StartRun(run: RoutineRun) returns (r: Result<RoutineRun, AutomationError>, ghost found: Option<RoutineRun>)
      requires Valid()
      modifies this`runs, this`claims
      ensures Valid() && Found(old(Tables()), run.idempotencyKey, found)
      ensures Call(Tables(), r) == StartCall(old(Tables()), run, found)
    {
      var existing := FindRunByKey(run.idempotencyKey);
      found := existing;
      if existing.Some? { return Ok(existing.value), found; }
      if run.id in runs { return Err(KeyReuse), found; }
      runs := runs[run.id := run];
      claims := claims[run.id := RunClaim(None, Unclaimed, 1)];
      r := Ok(run);
    }

    method ClaimRun(id: string, owner: string) returns (r: Result<nat, AutomationError>)
      requires Valid()
      modifies this`claims
      ensures Valid() && Call(Tables(), r) == ClaimCall(old(Tables()), id, owner)
    {
      if id !in claims { return Err(UnknownRun); }
      var claim := claims[id];
      if claim.state == Finalized { return Err(ClaimConflict); }
      if claim.state == Active && claim.owner != Some(owner) { return Err(ClaimConflict); }
      claim := claim.(owner := Some(owner));
      claim := claim.(state := Active);
      claim := claim.(revision := claim.revision + 1);
      claims := claims[id := claim];
      r := Ok(claim.revision);
    }

    method ReleaseRun(id: string, owner: string)
      requires Valid()
      modifies this`claims
      ensures Valid() && Tables() == ReleaseCall(old(Tables()), id, owner)
    {
      if id in claims && claims[id].owner == Some(owner) && claims[id].state == Active {
        claims := claims[id := claims[id].(state := Unclaimed, revision := claims[id].revision + 1)];
      }
    }

    method RecoverRun(id: string, expectedRevision: int, newOwner: string) returns (r: Result<nat, AutomationError>)
      requires Valid()
      modifies this`claims
      ensures Valid() && Call(Tables(), r) == RecoverCall(old(Tables()), id, expectedRevision, newOwner)
    {
      if id !in claims { return Err(UnknownRun); }
      var claim := claims[id];
      if claim.revision != expectedRevision { return Err(ClaimConflict); }
      if claim.state == Finalized { return Err(ClaimConflict); }
      claims := claims[id := RunClaim(Some(newOwner), Active, claim.revision + 1)];
      r := Ok(claim.revision + 1);
    }

    method SaveRunProgress(run: RoutineRun, owner: string, expectedRevision: int)
      returns (r: Result<nat, AutomationError>)
      requires Valid()
      modifies this`runs, this`claims
      ensures Valid() && Call(Tables(), r) == ProgressCall(old(Tables()), run, owner, expectedRevision)
    {
      if run.id !in claims { return Err(UnknownRun); }
      var claim := claims[run.id];
      if claim.owner != Some(owner) { return Err(ClaimConflict); }
      if claim.revision != expectedRevision { return Err(ClaimConflict); }
      runs := runs[run.id := run];
      claims := claims[run.id := claim.(revision := expectedRevision + 1)];
      r := Ok(expectedRevision + 1);
    }

    method FinalizeRun(run: RoutineRun, receipt: RoutineReceipt, owner: string, expectedRevision: int)
      returns (r: Result<nat, AutomationError>)
      requires Valid()
      modifies this`runs, this`claims, this`receipts
      ensures Valid() && Call(Tables(), r) == FinalizeCall(old(Tables()), run, receipt, owner, expectedRevision)
    {
      var saved := SaveRunProgress(run, owner, expectedRevision);
      if saved.Err? { return saved; }
      var revision := saved.value;
      claims := claims[run.id := claims[run.id].(state := Finalized)];
      claims := claims[run.id := claims[run.id].(revision := revision + 1)];
      receipts := receipts[receipt.runId := receipt];
      r := Ok(revision + 1);
    }
  }
}
