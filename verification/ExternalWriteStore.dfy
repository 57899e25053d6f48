/** The tables of the external-write repository and its transactions
    (src/reckoning/external_write_store.py:434-868, 1094-1240). */
module ExternalWriteStore {
  import opened Wrappers

  /** The five fields an authority has to agree on. */
  datatype Scope = Scope(connectorId: string, actionType: string, target: string, trigger: string, boundary: string)

  datatype PreparedWrite = PreparedWrite(
    id: string, scope: Scope, payload: map<string, string>, preparedAt: int, payloadDigest: string,
    exactApprovalId: Option<string>)

  datatype ApprovalRecord = ApprovalRecord(
    approvalId: string, writeId: string, payloadDigest: string, approvedAt: int, active: bool)

  /** A row of `external_standing_permissions`; `active` is its state column. */
  datatype PermissionRecord = PermissionRecord(
    id: string, scope: Scope, grantedAt: int, revokedAt: Option<int>, active: bool)

  datatype AuthorizationKind = ExactApproval | StandingPermission

  datatype WriteAuthorization = WriteAuthorization(kind: AuthorizationKind, authorizationId: string, scope: string)

  datatype ClaimState = Claimed | Dispatched | Finalized | Aborted

  datatype ExecutionClaim = ExecutionClaim(
    payloadDigest: string, owner: string, state: ClaimState, idempotencyKey: string,
    authorization: WriteAuthorization, attempts: int, claimedAt: int, revision: nat)

  datatype WriteStatus = Success | Failed | Unknown

  datatype WriteReceipt = WriteReceipt(
    writeId: string, connectorId: string, status: WriteStatus, externalId: Option<string>, detail: string,
    attempts: int, idempotencyKey: string, completedAt: int, authorization: WriteAuthorization)

  datatype WriteError =
    | UnknownRecord | Conflict | ClaimConflict | AuthorityRevoked | IntegrityError | InvalidValue

  /** The sequences are in row order; `writes` holds rows without an approval identifier. */
  datatype Tables = Tables(
    writes: seq<PreparedWrite>, approvals: seq<ApprovalRecord>, permissions: seq<PermissionRecord>,
    executions: map<string, ExecutionClaim>, receipts: map<string, WriteReceipt>)

  datatype Tx<T> = Tx(tables: Tables, result: Result<T, WriteError>)

  // ---------------------------------------------------------------------
  // Queries
  // ---------------------------------------------------------------------

  function SelectPrepared(writes: seq<PreparedWrite>, id: string): (r: Option<PreparedWrite>)
    ensures r.Some? ==> r.value in writes && r.value.id == id
    ensures r == None ==> forall w :: w in writes ==> w.id != id
  {
    if writes == [] then None
    else if writes[0].id == id then Some(writes[0])
    else SelectPrepared(writes[1..], id)
  }

  function SelectApproval(approvals: seq<ApprovalRecord>, approvalId: string): (r: Option<ApprovalRecord>)
    ensures r.Some? ==> r.value in approvals && r.value.approvalId == approvalId
    ensures r == None ==> forall a :: a in approvals ==> a.approvalId != approvalId
  {
    if approvals == [] then None
    else if approvals[0].approvalId == approvalId then Some(approvals[0])
    else SelectApproval(approvals[1..], approvalId)
  }

  predicate Approves(a: ApprovalRecord, writeId: string) { a.writeId == writeId && a.active }

  function ActiveApprovalId(approvals: seq<ApprovalRecord>, writeId: string): (r: Option<string>)
    ensures r.Some? <==> exists a :: a in approvals && Approves(a, writeId)
    ensures r.Some? ==> exists a :: a in approvals && Approves(a, writeId) && a.approvalId == r.value
  {
    if approvals == [] then None
    else if Approves(approvals[0], writeId) then Some(approvals[0].approvalId)
    else ActiveApprovalId(approvals[1..], writeId)
  }

  function SelectPermission(permissions: seq<PermissionRecord>, id: string): (r: Option<PermissionRecord>)
    ensures r.Some? ==> r.value in permissions && r.value.id == id
    ensures r == None ==> forall p :: p in permissions ==> p.id != id
  {
    if permissions == [] then None
    else if permissions[0].id == id then Some(permissions[0])
    else SelectPermission(permissions[1..], id)
  }

  predicate Permits(p: PermissionRecord, scope: Scope) { p.active && p.scope == scope }

  function MatchingPermission(permissions: seq<PermissionRecord>, scope: Scope): (r: Option<string>)
    ensures r.Some? <==> exists p :: p in permissions && Permits(p, scope)
    ensures r.Some? ==> exists p :: p in permissions && Permits(p, scope) && p.id == r.value
  {
    if permissions == [] then None
    else if Permits(permissions[0], scope) then Some(permissions[0].id)
    else MatchingPermission(permissions[1..], scope)
  }

  function ScopeText(s: Scope): string {
    s.connectorId + "|" + s.actionType + "|" + s.target + "|" + s.trigger + "|" + s.boundary
  }

  /** `_authorization`: an exact approval first, else the first active permission on the same scope. */
  function Authorization(t: Tables, w: PreparedWrite): (r: Option<WriteAuthorization>)
    ensures r.Some? <==> || (exists a :: a in t.approvals && a.writeId == w.id && a.active)
                         || (exists p :: p in t.permissions && p.active && p.scope == w.scope)
    ensures r.Some? && r.value.kind == ExactApproval ==>
              exists a :: a in t.approvals && a.writeId == w.id && a.active && a.approvalId == r.value.authorizationId
    ensures r.Some? && r.value.kind == StandingPermission ==>
              && (forall a :: a in t.approvals && a.writeId == w.id ==> !a.active)
              && exists p :: p in t.permissions && p.active && p.scope == w.scope && p.id == r.value.authorizationId
    ensures r.Some? ==>
              r.value.scope == w.scope.connectorId + "|" + w.scope.actionType + "|" + w.scope.target + "|"
                               + w.scope.trigger + "|" + w.scope.boundary
  {
    assert forall a: ApprovalRecord :: Approves(a, w.id) <==> a.writeId == w.id && a.active;
    assert forall p: PermissionRecord :: Permits(p, w.scope) <==> p.active && p.scope == w.scope;
    var approval := ActiveApprovalId(t.approvals, w.id);
    if approval.Some? then Some(WriteAuthorization(ExactApproval, approval.value, ScopeText(w.scope)))
    else
      var permission := MatchingPermission(t.permissions, w.scope);
      if permission.Some? then Some(WriteAuthorization(StandingPermission, permission.value, ScopeText(w.scope)))
      else None
  }

  function WithApproval(w: PreparedWrite, approvals: seq<ApprovalRecord>): PreparedWrite {
    w.(exactApprovalId := ActiveApprovalId(approvals, w.id))
  }

  // ---------------------------------------------------------------------
  // Transactions
  // ---------------------------------------------------------------------

  predicate SamePrepared(a: PreparedWrite, b: PreparedWrite) {
    a.payloadDigest == b.payloadDigest && a.scope == b.scope
  }

  function PrepareTx(t: Tables, w: PreparedWrite): Tx<PreparedWrite> {
    var existing := SelectPrepared(t.writes, w.id);
    if existing == None then Tx(t.(writes := t.writes + [w]), Ok(w))
    else if !SamePrepared(existing.value, w) then Tx(t, Err(Conflict))
    else Tx(t, Ok(WithApproval(existing.value, t.approvals)))
  }

  function ApproveTx(t: Tables, writeId: string, digest: string, approvalId: string, at: int): Tx<ApprovalRecord> {
    var prepared := SelectPrepared(t.writes, writeId);
    if prepared == None then Tx(t, Err(UnknownRecord))
    else if prepared.value.payloadDigest != digest then Tx(t, Err(Conflict))
    else
      var existing := SelectApproval(t.approvals, approvalId);
      if existing.Some? then
        if existing.value.writeId == writeId && existing.value.payloadDigest == digest then Tx(t, Ok(existing.value))
        else Tx(t, Err(Conflict))
      else if ActiveApprovalId(t.approvals, writeId).Some? then Tx(t, Err(Conflict))
      else if exists a :: a in t.approvals && a.writeId == writeId && a.payloadDigest == digest then
        Tx(t, Err(IntegrityError))
      else
        var record := ApprovalRecord(approvalId, writeId, digest, at, true);
        Tx(t.(approvals := t.approvals + [record]), Ok(record))
  }

  function GrantTx(t: Tables, id: string, scope: Scope, at: int): Tx<PermissionRecord> {
    if SelectPermission(t.permissions, id).Some? then Tx(t, Err(Conflict))
    else
      var record := PermissionRecord(id, scope, at, None, true);
      Tx(t.(permissions := t.permissions + [record]), Ok(record))
  }

  function Revoked(permissions: seq<PermissionRecord>, id: string, at: int): (r: seq<PermissionRecord>)
    ensures |r| == |permissions|
    ensures forall i :: 0 <= i < |r| ==>
              r[i] == if permissions[i].id == id && permissions[i].active
                      then permissions[i].(active := false, revokedAt := Some(at)) else permissions[i]
  {
    if permissions == [] then []
    else
      var p := permissions[0];
      [if p.id == id && p.active then p.(active := false, revokedAt := Some(at)) else p]
      + Revoked(permissions[1..], id, at)
  }

  function RevokeTx(t: Tables, id: string, at: int): Tx<PermissionRecord> {
    var permission := SelectPermission(t.permissions, id);
    if permission == None then Tx(t, Err(UnknownRecord))
    else if permission.value.revokedAt.Some? then Tx(t, Ok(permission.value))
    else
      var u := t.(permissions := Revoked(t.permissions, id, at));
      var after := SelectPermission(u.permissions, id);
      if after == None then Tx(u, Err(UnknownRecord)) else Tx(u, Ok(after.value))
  }

  function SetClaim(t: Tables, id: string, claim: ExecutionClaim): Tables {
    t.(executions := t.executions[id := claim])
  }

  function ClaimTx(t: Tables, w: PreparedWrite, owner: string, key: string, auth: WriteAuthorization, at: int)
    : Tx<ExecutionClaim>
  {
    if w.id in t.executions then
      var existing := t.executions[w.id];
      if existing.payloadDigest != w.payloadDigest then Tx(t, Err(Conflict))
      else if existing.state == Finalized then Tx(t, Err(ClaimConflict))
      else if existing.state != Aborted && existing.owner != owner then Tx(t, Err(ClaimConflict))
      else if existing.owner == owner && (existing.state == Claimed || existing.state == Dispatched) then
        Tx(t, Ok(existing))
      else
        var claim := existing.(owner := owner, state := Claimed, idempotencyKey := key, authorization := auth,
                               claimedAt := at, revision := existing.revision + 1);
        Tx(SetClaim(t, w.id, claim), Ok(claim))
    else
      var claim := ExecutionClaim(w.payloadDigest, owner, Claimed, key, auth, 0, at, 1);
      Tx(SetClaim(t, w.id, claim), Ok(claim))
  }

  function OwnedClaim(t: Tables, id: string, owner: string): Result<ExecutionClaim, WriteError> {
    if id !in t.executions then Err(UnknownRecord)
    else if t.executions[id].owner != owner then Err(ClaimConflict)
    else Ok(t.executions[id])
  }

  function Advanced(claim: ExecutionClaim, state: ClaimState): ExecutionClaim {
    claim.(state := state, revision := claim.revision + 1)
  }

  /** A refused dispatch aborts the claim before anything else is looked at, and commits that. */
  function DispatchTx(t: Tables, id: string, owner: string): Tx<ExecutionClaim> {
    var owned := OwnedClaim(t, id, owner);
    if owned.Err? then Tx(t, Err(owned.error))
    else
      var prepared := SelectPrepared(t.writes, id);
      if prepared == None then Tx(t, Err(UnknownRecord))
      else if Authorization(t, prepared.value) == None then
        Tx(SetClaim(t, id, Advanced(owned.value, Aborted)), Err(AuthorityRevoked))
      else if owned.value.state != Claimed then Tx(t, Err(ClaimConflict))
      else
        var claim := Advanced(owned.value, Dispatched);
        Tx(SetClaim(t, id, claim), Ok(claim))
  }

  function AbortTx(t: Tables, id: string, owner: string): Tx<()> {
    var owned := OwnedClaim(t, id, owner);
    if owned.Err? then Tx(t, Err(owned.error)) else Tx(SetClaim(t, id, Advanced(owned.value, Aborted)), Ok(()))
  }

  function RecoverTx(t: Tables, id: string, expectedRevision: int, newOwner: string): Tx<ExecutionClaim> {
    if id !in t.executions then Tx(t, Err(UnknownRecord))
    else if t.executions[id].revision != expectedRevision then Tx(t, Err(Conflict))
    else if t.executions[id].state == Finalized then Tx(t, Err(Conflict))
    else
      var claim := Advanced(t.executions[id], Claimed).(owner := newOwner);
      Tx(SetClaim(t, id, claim), Ok(claim))
  }

  function FinalizeTx(t: Tables, id: string, owner: string, receipt: WriteReceipt): Tx<WriteReceipt> {
    var owned := OwnedClaim(t, id, owner);
    if owned.Err? then Tx(t, Err(owned.error))
    else if owned.value.state != Dispatched && owned.value.state != Claimed then Tx(t, Err(ClaimConflict))
    else if receipt.writeId in t.receipts then Tx(t, Err(IntegrityError))
    else
      var claim := Advanced(owned.value, Finalized).(attempts := receipt.attempts);
      Tx(SetClaim(t, id, claim).(receipts := t.receipts[receipt.writeId := receipt]), Ok(receipt))
  }

  /** The pending query: no receipt, no active approval of this very payload, no active permission. */
  predicate Pending(t: Tables, w: PreparedWrite) {
    && w.id !in t.receipts
    && !(exists a :: a in t.approvals && a.writeId == w.id && a.payloadDigest == w.payloadDigest && a.active)
    && !(exists p :: p in t.permissions && p.active && p.scope == w.scope)
  }

  function PendingIds(t: Tables, writes: seq<PreparedWrite>): seq<string> {
    if writes == [] then []
    else (if Pending(t, writes[0]) then [writes[0].id] else []) + PendingIds(t, writes[1..])
  }

  // ---------------------------------------------------------------------
  // The repository
  // ---------------------------------------------------------------------

  class SQLiteExternalWriteRepository {
    var writes: seq<PreparedWrite>
    var approvals: seq<ApprovalRecord>
    var permissions: seq<PermissionRecord>
    var executions: map<string, ExecutionClaim>
    var receipts: map<string, WriteReceipt>

    function Contents(): Tables reads this { Tables(writes, approvals, permissions, executions, receipts) }

    constructor ()
      ensures Contents() == Tables([], [], [], map[], map[])
    {
      writes, approvals, permissions, executions, receipts := [], [], [], map[], map[];
    }

    function GetPrepared(writeId: string): Result<PreparedWrite, WriteError> reads this {
      var row := SelectPrepared(writes, writeId);
      if row == None then Err(UnknownRecord) else Ok(WithApproval(row.value, approvals))
    }

    function GetReceipt(writeId: string): Option<WriteReceipt> reads this {
      if writeId in receipts then Some(receipts[writeId]) else None
    }

    method Prepare(w: PreparedWrite) returns (r: Result<PreparedWrite, WriteError>)
      modifies this`writes
      ensures Tx(Contents(), r) == PrepareTx(old(Contents()), w)
    {
      var existing := SelectPrepared(writes, w.id);
      if existing.Some? {
        if !SamePrepared(existing.value, w) { return Err(Conflict); }
        return Ok(WithApproval(existing.value, approvals));
      }
      writes := writes + [w];
      r := Ok(w);
    }

    method ApproveExact(writeId: string, digest: string, approvalId: string, approvedAt: int)
      returns (r: Result<ApprovalRecord, WriteError>)
      modifies this`approvals
      ensures Tx(Contents(), r) == ApproveTx(old(Contents()), writeId, digest, approvalId, approvedAt)
    {
      var prepared := SelectPrepared(writes, writeId);
      if prepared == None { return Err(UnknownRecord); }
      if prepared.value.payloadDigest != digest { return Err(Conflict); }
      var existing := SelectApproval(approvals, approvalId);
      if existing.Some? {
        if existing.value.writeId == writeId && existing.value.payloadDigest == digest { return Ok(existing.value); }
        return Err(Conflict);
      }
      if ActiveApprovalId(approvals, writeId).Some? { return Err(Conflict); }
      if exists a :: a in approvals && a.writeId == writeId && a.payloadDigest == digest { return Err(IntegrityError); }
      var record := ApprovalRecord(approvalId, writeId, digest, approvedAt, true);
      approvals := approvals + [record];
      r := Ok(record);
    }

    method GrantPermission(id: string, scope: Scope, grantedAt: int) returns (r: Result<PermissionRecord, WriteError>)
      modifies this`permissions
      ensures Tx(Contents(), r) == GrantTx(old(Contents()), id, scope, grantedAt)
    {
      if SelectPermission(permissions, id).Some? { return Err(Conflict); }
      var record := PermissionRecord(id, scope, grantedAt, None, true);
      permissions := permissions + [record];
      r := Ok(record);
    }

    method RevokePermission(id: string, revokedAt: int) returns (r: Result<PermissionRecord, WriteError>)
      modifies this`permissions
      ensures Tx(Contents(), r) == RevokeTx(old(Contents()), id, revokedAt)
    {
      var permission := SelectPermission(permissions, id);
      if permission == None { return Err(UnknownRecord); }
      if permission.value.revokedAt.Some? { return Ok(permission.value); }
      permissions := Revoked(permissions, id, revokedAt);
      permission := SelectPermission(permissions, id);
      if permission == None { return Err(UnknownRecord); }
      r := Ok(permission.value);
    }

    method ClaimExecution(w: PreparedWrite, owner: string, key: string, auth: WriteAuthorization, claimedAt: int)
      returns (r: Result<ExecutionClaim, WriteError>)
      modifies this`executions
      ensures Tx(Contents(), r) == ClaimTx(old(Contents()), w, owner, key, auth, claimedAt)
    {
      if w.id in executions {
        var existing := executions[w.id];
        if existing.payloadDigest != w.payloadDigest { return Err(Conflict); }
        if existing.state == Finalized { return Err(ClaimConflict); }
        if existing.state != Aborted && existing.owner != owner { return Err(ClaimConflict); }
        if existing.owner == owner && (existing.state == Claimed || existing.state == Dispatched) {
          return Ok(existing);
        }
        var claim := existing.(owner := owner, state := Claimed, idempotencyKey := key, authorization := auth,
                               claimedAt := claimedAt, revision := existing.revision + 1);
        executions := executions[w.id := claim];
        return Ok(claim);
      }
      var claim := ExecutionClaim(w.payloadDigest, owner, Claimed, key, auth, 0, claimedAt, 1);
      executions := executions[w.id := claim];
      r := Ok(claim);
    }

    method DispatchExecution(id: string, owner: string) returns (r: Result<ExecutionClaim, WriteError>)
      modifies this`executions
      ensures Tx(Contents(), r) == DispatchTx(old(Contents()), id, owner)
    {
      if id !in executions { return Err(UnknownRecord); }
      var claim := executions[id];
      if claim.owner != owner { return Err(ClaimConflict); }
      var prepared := SelectPrepared(writes, id);
      if prepared == None { return Err(UnknownRecord); }
      if Authorization(Contents(), prepared.value) == None {
        executions := executions[id := claim.(state := Aborted, revision := claim.revision + 1)];
        return Err(AuthorityRevoked);
      }
      if claim.state != Claimed { return Err(ClaimConflict); }
      claim := claim.(state := Dispatched, revision := claim.revision + 1);
      executions := executions[id := claim];
      r := Ok(claim);
    }

    method AbortExecution(id: string, owner: string) returns (r: Result<(), WriteError>)
      modifies this`executions
      ensures Tx(Contents(), r) == AbortTx(old(Contents()), id, owner)
    {
      if id !in executions { return Err(UnknownRecord); }
      var claim := executions[id];
      if claim.owner != owner { return Err(ClaimConflict); }
      executions := executions[id := claim.(state := Aborted, revision := claim.revision + 1)];
      r := Ok(());
    }

    method RecoverExecution(id: string, expectedRevision: int, newOwner: string)
      returns (r: Result<ExecutionClaim, WriteError>)
      modifies this`executions
      ensures Tx(Contents(), r) == RecoverTx(old(Contents()), id, expectedRevision, newOwner)
    {
      if id !in executions { return Err(UnknownRecord); }
      var claim := executions[id];
      if claim.revision != expectedRevision { return Err(Conflict); }
      if claim.state == Finalized { return Err(Conflict); }
      claim := claim.(owner := newOwner, state := Claimed, revision := claim.revision + 1);
      executions := executions[id := claim];
      r := Ok(claim);
    }

    method FinalizeExecution(id: string, owner: string, receipt: WriteReceipt)
      returns (r: Result<WriteReceipt, WriteError>)
      modifies this`executions, this`receipts
      ensures Tx(Contents(), r) == FinalizeTx(old(Contents()), id, owner, receipt)
    {
      if id !in executions { return Err(UnknownRecord); }
      var claim := executions[id];
      if claim.owner != owner { return Err(ClaimConflict); }
      if claim.state != Dispatched && claim.state != Claimed { return Err(ClaimConflict); }
      if receipt.writeId in receipts { return Err(IntegrityError); }
      executions := executions[id := claim.(state := Finalized, attempts := receipt.attempts,
                                            revision := claim.revision + 1)];
      receipts := receipts[receipt.writeId := receipt];
      r := Ok(receipt);
    }

    /** Walks the rows in order, as the query does. */
    method PendingApprovalIds() returns (ids: seq<string>)
      ensures ids == PendingIds(Contents(), writes)
    {
      ids := [];
      for i := 0 to |writes|
        invariant PendingIds(Contents(), writes) == ids + PendingIds(Contents(), writes[i..])
      {
        assert writes[i..][1..] == writes[i + 1..];
        if Pending(Contents(), writes[i]) { ids := ids + [writes[i].id]; }
      }
    }
  }
}
