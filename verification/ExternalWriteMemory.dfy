/** The in-memory external-write repository (src/reckoning/external_write_store.py:171-440), and
    where exactly the SQLite one answers or stores something else. */
module ExternalWriteMemory {
  import opened Wrappers
  import opened ExternalWriteStore

  /** `_permission_matches` */
  predicate MemoryPermits(p: PermissionRecord, scope: Scope) { p.revokedAt == None && p.scope == scope }

  function FirstPermission(permissions: seq<PermissionRecord>, scope: Scope): (r: Option<string>)
    ensures r.Some? <==> exists p :: p in permissions && MemoryPermits(p, scope)
  {
    if permissions == [] then None
    else if MemoryPermits(permissions[0], scope) then Some(permissions[0].id)
    else FirstPermission(permissions[1..], scope)
  }

  function MemoryAuthorization(t: Tables, w: PreparedWrite): Option<WriteAuthorization> {
    var approval := ActiveApprovalId(t.approvals, w.id);
    if approval.Some? then Some(WriteAuthorization(ExactApproval, approval.value, ScopeText(w.scope)))
    else
      var permission := FirstPermission(t.permissions, w.scope);
      if permission.Some? then Some(WriteAuthorization(StandingPermission, permission.value, ScopeText(w.scope)))
      else None
  }

  function FirstActive(approvals: seq<ApprovalRecord>, writeId: string): (r: Option<ApprovalRecord>)
    ensures r.Some? <==> ActiveApprovalId(approvals, writeId).Some?
    ensures r.Some? ==> r.value in approvals && Approves(r.value, writeId)
  {
    if approvals == [] then None
    else if Approves(approvals[0], writeId) then Some(approvals[0])
    else FirstActive(approvals[1..], writeId)
  }

  // ---------------------------------------------------------------------
  // The calls
  // ---------------------------------------------------------------------

  /** The digest is not compared with the prepared one, and the same digest twice is no conflict. */
  function MemoryApprove(t: Tables, writeId: string, digest: string, approvalId: string, at: int): Tx<ApprovalRecord> {
    if SelectPrepared(t.writes, writeId) == None then Tx(t, Err(UnknownRecord))
    else
      var existing := SelectApproval(t.approvals, approvalId);
      if existing.Some? then
        if existing.value.writeId == writeId && existing.value.payloadDigest == digest then Tx(t, Ok(existing.value))
        else Tx(t, Err(Conflict))
      else
        var active := FirstActive(t.approvals, writeId);
        if active.Some? then
          if active.value.payloadDigest == digest then Tx(t, Ok(active.value)) else Tx(t, Err(Conflict))
        else
          var record := ApprovalRecord(approvalId, writeId, digest, at, true);
          Tx(t.(approvals := t.approvals + [record]), Ok(record))
  }

  function MemoryClaim(t: Tables, w: PreparedWrite, owner: string, key: string, auth: WriteAuthorization, at: int)
    : Tx<ExecutionClaim>
  {
    var claim := ExecutionClaim(w.payloadDigest, owner, Claimed, key, auth, 0, at, 1);
    if w.id in t.executions && t.executions[w.id].payloadDigest != w.payloadDigest then Tx(t, Err(Conflict))
    else if w.id in t.executions && t.executions[w.id].state == Finalized then Tx(t, Err(ClaimConflict))
    else if w.id in t.executions && t.executions[w.id].state != Aborted then
      if t.executions[w.id].owner != owner then Tx(t, Err(ClaimConflict)) else Tx(t, Ok(t.executions[w.id]))
    else Tx(SetClaim(t, w.id, claim), Ok(claim))
  }

  /** A refused dispatch leaves the claim as it is. */
  function MemoryDispatch(t: Tables, id: string, owner: string): Tx<ExecutionClaim> {
    var owned := OwnedClaim(t, id, owner);
    if owned.Err? then Tx(t, Err(owned.error))
    else
      var prepared := SelectPrepared(t.writes, id);
      if prepared == None then Tx(t, Err(UnknownRecord))
      else if MemoryAuthorization(t, prepared.value) == None then Tx(t, Err(AuthorityRevoked))
      else if owned.value.state != Claimed then Tx(t, Err(ClaimConflict))
      else
        var claim := Advanced(owned.value, Dispatched);
        Tx(SetClaim(t, id, claim), Ok(claim))
  }

  /** A recovery dates the claim anew. */
  function MemoryRecover(t: Tables, id: string, expectedRevision: int, newOwner: string, at: int): Tx<ExecutionClaim> {
    if id !in t.executions then Tx(t, Err(UnknownRecord))
    else if t.executions[id].revision != expectedRevision then Tx(t, Err(Conflict))
    else if t.executions[id].state == Finalized then Tx(t, Err(Conflict))
    else
      var claim := Advanced(t.executions[id], Claimed).(owner := newOwner, claimedAt := at);
      Tx(SetClaim(t, id, claim), Ok(claim))
  }

  /** Neither the claim state nor an earlier receipt is looked at. */
  function MemoryFinalize(t: Tables, id: string, owner: string, receipt: WriteReceipt): Tx<WriteReceipt> {
    var owned := OwnedClaim(t, id, owner);
    if owned.Err? then Tx(t, Err(owned.error))
    else
      var claim := Advanced(owned.value, Finalized).(attempts := receipt.attempts);
      Tx(SetClaim(t, id, claim).(receipts := t.receipts[id := receipt]), Ok(receipt))
  }

  function MemoryPendingIds(t: Tables, writes: seq<PreparedWrite>): seq<string> {
    if writes == [] then []
    else
      (if writes[0].id !in t.receipts && MemoryAuthorization(t, writes[0]) == None then [writes[0].id] else [])
      + MemoryPendingIds(t, writes[1..])
  }

  // ---------------------------------------------------------------------
  // Where they agree
  // ---------------------------------------------------------------------

  /** What both repositories keep of their approvals and permissions. */
  ghost predicate Coherent(t: Tables) {
    && (forall p :: p in t.permissions ==> (p.active <==> p.revokedAt == None))
    && (forall a :: a in t.approvals ==>
          && a.active && SelectPrepared(t.writes, a.writeId).Some?
          && SelectPrepared(t.writes, a.writeId).value.payloadDigest == a.payloadDigest)
    && (forall id :: id in t.executions ==> t.executions[id].revision > 0)
  }

  lemma {:induction false} SamePermission(permissions: seq<PermissionRecord>, scope: Scope)
    requires forall p :: p in permissions ==> (p.active <==> p.revokedAt == None)
    ensures FirstPermission(permissions, scope) == MatchingPermission(permissions, scope)
    decreases |permissions|
  {
    if permissions != [] {
      assert permissions[0] in permissions;
      SamePermission(permissions[1..], scope);
    }
  }

  /** Both find the same authority. */
  lemma AuthorizationsAgree(t: Tables, w: PreparedWrite)
    requires Coherent(t)
    ensures MemoryAuthorization(t, w) == Authorization(t, w)
  {
    hide SelectPrepared;
    SamePermission(t.permissions, w.scope);
  }

  /** An unused approval identifier is where they part: SQLite refuses it for a digest that is not the stored
      one and for a write that is approved already, and memory takes it in either case but not in both. */
  lemma ApprovalsAgreeExactly(t: Tables, writeId: string, digest: string, approvalId: string, at: int)
    requires Coherent(t)
    ensures var row := SelectPrepared(t.writes, writeId);
            MemoryApprove(t, writeId, digest, approvalId, at) == ApproveTx(t, writeId, digest, approvalId, at)
            <==> !(row.Some? && SelectApproval(t.approvals, approvalId) == None
                   && (row.value.payloadDigest != digest <==> ActiveApprovalId(t.approvals, writeId) == None))
  {
    hide SelectPrepared, ActiveApprovalId;
    var row := SelectPrepared(t.writes, writeId);
    if row.Some? && SelectApproval(t.approvals, approvalId) == None {
      var active := FirstActive(t.approvals, writeId);
      if active == None {
        assert forall a :: a in t.approvals ==> a.writeId != writeId by {
          forall a | a in t.approvals ensures a.writeId != writeId { assert !Approves(a, writeId); }
        }
      }
    }
  }

  /** Claims agree but for the claim of an aborted write, whose revision memory starts again. */
  lemma ClaimsAgreeExactly(t: Tables, w: PreparedWrite, owner: string, key: string, auth: WriteAuthorization, at: int)
    requires Coherent(t)
    ensures MemoryClaim(t, w, owner, key, auth, at) == ClaimTx(t, w, owner, key, auth, at)
            <==> !(w.id in t.executions && t.executions[w.id].payloadDigest == w.payloadDigest
                   && t.executions[w.id].state == Aborted)
  {
    hide SelectPrepared;
    if w.id in t.executions { assert t.executions[w.id].revision > 0; }
  }

  /** Dispatches always answer alike, and store alike unless authority is gone: then only SQLite aborts. */
  lemma DispatchesAgreeExactly(t: Tables, id: string, owner: string)
    requires Coherent(t)
    ensures MemoryDispatch(t, id, owner).result == DispatchTx(t, id, owner).result
    ensures MemoryDispatch(t, id, owner).tables == DispatchTx(t, id, owner).tables
            <==> DispatchTx(t, id, owner).result != Err(AuthorityRevoked)
  {
    hide SelectPrepared, Authorization, MemoryAuthorization;
    if SelectPrepared(t.writes, id).Some? { AuthorizationsAgree(t, SelectPrepared(t.writes, id).value); }
    hide Coherent;
    if id in t.executions {
      var claim := t.executions[id];
      assert SetClaim(t, id, Advanced(claim, Aborted)).executions[id].revision == claim.revision + 1;
    }
  }

  lemma RecoveriesAgreeExactly(t: Tables, id: string, expectedRevision: int, newOwner: string, at: int)
    ensures MemoryRecover(t, id, expectedRevision, newOwner, at) == RecoverTx(t, id, expectedRevision, newOwner)
            <==> (RecoverTx(t, id, expectedRevision, newOwner).result.Ok? ==> t.executions[id].claimedAt == at)
  {
    if RecoverTx(t, id, expectedRevision, newOwner).result.Ok? {
      assert RecoverTx(t, id, expectedRevision, newOwner).result.value.claimedAt == t.executions[id].claimedAt;
      assert MemoryRecover(t, id, expectedRevision, newOwner, at).result.value.claimedAt == at;
    }
  }

  /** For a receipt of its own write, a finalization agrees exactly when the owner has no claim to finalize or
      its claim is live and the write has no receipt: memory would finalize twice and overwrite the receipt. */
  lemma FinalizationsAgreeExactly(t: Tables, id: string, owner: string, receipt: WriteReceipt)
    requires receipt.writeId == id
    ensures MemoryFinalize(t, id, owner, receipt) == FinalizeTx(t, id, owner, receipt)
            <==> (OwnedClaim(t, id, owner).Ok? ==>
                    (t.executions[id].state == Dispatched || t.executions[id].state == Claimed) && id !in t.receipts)
  {
  }

  /** Both list the same writes as pending. */
  lemma {:induction false} PendingAgrees(t: Tables, writes: seq<PreparedWrite>)
    requires Coherent(t)
    requires forall w :: w in writes ==> SelectPrepared(t.writes, w.id) == Some(w)
    ensures MemoryPendingIds(t, writes) == PendingIds(t, writes)
    decreases |writes|
  {
    if writes != [] {
      var w := writes[0];
      assert w in writes;
      AuthorizationsAgree(t, w);
      assert forall a :: a in t.approvals && a.writeId == w.id ==>
        Approves(a, w.id) && a.payloadDigest == w.payloadDigest;
      assert forall p :: p in t.permissions ==> (Permits(p, w.scope) <==> p.active && p.scope == w.scope);
      hide SelectPrepared, MemoryAuthorization;
      PendingAgrees(t, writes[1..]);
    }
  }

  // ---------------------------------------------------------------------
  // The repository
  // ---------------------------------------------------------------------

  /** The dictionaries that are walked in insertion order are sequences of their values. */
  class InMemoryExternalWriteRepository {
    var writes: seq<PreparedWrite>
    var approvals: seq<ApprovalRecord>
    var permissions: seq<PermissionRecord>
    var executions: map<string, ExecutionClaim>
    var receipts: map<string, WriteReceipt>

    function Contents(): Tables reads this { Tables(writes, approvals, permissions, executions, receipts) }

    method ApproveExact(writeId: string, digest: string, approvalId: string, approvedAt: int)
      returns (r: Result<ApprovalRecord, WriteError>)
      modifies this`approvals
      ensures Tx(Contents(), r) == MemoryApprove(old(Contents()), writeId, digest, approvalId, approvedAt)
    {
      hide SelectPrepared;
      if SelectPrepared(writes, writeId) == None { return Err(UnknownRecord); }
      var existing := SelectApproval(approvals, approvalId);
      if existing.Some? {
        if existing.value.writeId == writeId && existing.value.payloadDigest == digest { return Ok(existing.value); }
        return Err(Conflict);
      }
      for i := 0 to |approvals|
        invariant FirstActive(approvals, writeId) == FirstActive(approvals[i..], writeId)
      {
        var record := approvals[i];
        assert approvals[i..][1..] == approvals[i + 1..];
        if record.writeId == writeId && record.active {
          if record.payloadDigest == digest { return Ok(record); }
          return Err(Conflict);
        }
      }
      var record := ApprovalRecord(approvalId, writeId, digest, approvedAt, true);
      approvals := approvals + [record];
      r := Ok(record);
    }

    method ClaimExecution(w: PreparedWrite, owner: string, key: string, auth: WriteAuthorization, claimedAt: int)
      returns (r: Result<ExecutionClaim, WriteError>)
      modifies this`executions
      ensures Tx(Contents(), r) == MemoryClaim(old(Contents()), w, owner, key, auth, claimedAt)
    {
      if w.id in executions {
        var existing := executions[w.id];
        if existing.payloadDigest != w.payloadDigest { return Err(Conflict); }
        if existing.state == Finalized { return Err(ClaimConflict); }
        if existing.state != Aborted {
          if existing.owner != owner { return Err(ClaimConflict); }
          return Ok(existing);
        }
      }
      var claim := ExecutionClaim(w.payloadDigest, owner, Claimed, key, auth, 0, claimedAt, 1);
      executions := executions[w.id := claim];
      r := Ok(claim);
    }

    method DispatchExecution(id: string, owner: string) returns (r: Result<ExecutionClaim, WriteError>)
      modifies this`executions
      ensures Tx(Contents(), r) == MemoryDispatch(old(Contents()), id, owner)
    {
      hide SelectPrepared, MemoryAuthorization;
      if id !in executions { return Err(UnknownRecord); }
      var claim := executions[id];
      if claim.owner != owner { return Err(ClaimConflict); }
      var prepared := SelectPrepared(writes, id);
      if prepared == None { return Err(UnknownRecord); }
      if MemoryAuthorization(Contents(), prepared.value) == None { return Err(AuthorityRevoked); }
      if claim.state != Claimed { return Err(ClaimConflict); }
      claim := claim.(state := Dispatched, revision := claim.revision + 1);
      executions := executions[id := claim];
      r := Ok(claim);
    }

    method RecoverExecution(id: string, expectedRevision: int, newOwner: string, recoveredAt: int)
      returns (r: Result<ExecutionClaim, WriteError>)
      modifies this`executions
      ensures Tx(Contents(), r) == MemoryRecover(old(Contents()), id, expectedRevision, newOwner, recoveredAt)
    {
      if id !in executions { return Err(UnknownRecord); }
      var claim := executions[id];
      if claim.revision != expectedRevision { return Err(Conflict); }
      if claim.state == Finalized { return Err(Conflict); }
      claim := claim.(owner := newOwner, state := Claimed, claimedAt := recoveredAt, revision := claim.revision + 1);
      executions := executions[id := claim];
      r := Ok(claim);
    }

    method FinalizeExecution(id: string, owner: string, receipt: WriteReceipt)
      returns (r: Result<WriteReceipt, WriteError>)
      modifies this`executions, this`receipts
      ensures Tx(Contents(), r) == MemoryFinalize(old(Contents()), id, owner, receipt)
    {
      if id !in executions { return Err(UnknownRecord); }
      var claim := executions[id];
      if claim.owner != owner { return Err(ClaimConflict); }
      executions := executions[id := claim.(state := Finalized, attempts := receipt.attempts,
                                            revision := claim.revision + 1)];
      receipts := receipts[id := receipt];
      r := Ok(receipt);
    }
  }
}
