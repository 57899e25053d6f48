/** What preparing, approving, granting, revoking and claiming come to, for the calls after them
    (src/reckoning/external_write_store.py:434-892). */
module ExternalWriteLaws {
  import opened Wrappers
  import opened ExternalWriteStore
  import opened ExternalWriteProtocol
  import Text

  // ---------------------------------------------------------------------
  // Preparing
  // ---------------------------------------------------------------------

  /** A preparation under a new identifier is stored as given and found from then on; under a used one nothing is
      stored, and it is answered with what is there if digest and scope are the same, else with a conflict. */
  lemma PreparationTells(hash: Hash, t: Tables, id: string, scope: Scope, payload: map<string, string>, at: int)
    ensures var tx := PrepareTx(t, PreparedOf(hash, id, scope, payload, at));
            var row := SelectPrepared(t.writes, id);
            && (row == None ==>
                 && tx.result.Ok? && tx.tables == t.(writes := tx.tables.writes)
                 && SelectPrepared(tx.tables.writes, id)
                    == Some(PreparedWrite(id, scope, payload, at, hash(payload), None))
                 && forall other :: other != id ==>
                      SelectPrepared(tx.tables.writes, other) == SelectPrepared(t.writes, other))
            && (row.Some? ==>
                 && tx.tables == t
                 && (tx.result.Ok? <==> row.value.payloadDigest == hash(payload) && row.value.scope == scope)
                 && (tx.result.Err? ==> tx.result.error == Conflict)
                 && (tx.result.Ok? ==>
                      && tx.result.value == row.value.(exactApprovalId := tx.result.value.exactApprovalId)
                      && (tx.result.value.exactApprovalId.Some?
                          <==> exists a :: a in t.approvals && a.writeId == id && a.active)))
  {
    hide SelectPrepared;
    var w := PreparedOf(hash, id, scope, payload, at);
    forall other ensures SelectPrepared(t.writes + [w], other)
                      == if SelectPrepared(t.writes, other).Some? then SelectPrepared(t.writes, other)
                         else if other == id then Some(w) else None
    {
      SelectAppended(t.writes, w, other);
    }
    assert forall a: ApprovalRecord :: Approves(a, id) <==> a.writeId == id && a.active;
  }

  lemma {:induction false} SelectAppended(writes: seq<PreparedWrite>, w: PreparedWrite, id: string)
    ensures SelectPrepared(writes + [w], id)
         == if SelectPrepared(writes, id).Some? then SelectPrepared(writes, id)
            else if w.id == id then Some(w) else None
    decreases |writes|
  {
    if writes == [] {
      assert [w][1..] == [];
    } else {
      assert (writes + [w])[1..] == writes[1..] + [w];
      SelectAppended(writes[1..], w, id);
    }
  }

  // ---------------------------------------------------------------------
  // Authority
  // ---------------------------------------------------------------------

  /** An approval that goes through authorizes the write it names, under its own digest; a refused one changes
      nothing. */
  lemma ApprovalAuthorizes(t: Tables, id: string, digest: string, approvalId: string, at: int)
    requires forall a :: a in t.approvals ==> a.active
    ensures var tx := ApproveTx(t, id, digest, approvalId, at);
            && (tx.result.Err? ==> tx.tables == t)
            && (tx.result.Ok? ==>
                 && SelectPrepared(t.writes, id).Some? && SelectPrepared(t.writes, id).value.payloadDigest == digest
                 && tx.tables == t.(approvals := tx.tables.approvals)
                 && (tx.tables.approvals == t.approvals
                     || tx.tables.approvals == t.approvals + [ApprovalRecord(approvalId, id, digest, at, true)])
                 && (exists a :: a in tx.tables.approvals && a.approvalId == approvalId && a.writeId == id
                                 && a.payloadDigest == digest && a.active)
                 && Authorization(tx.tables, SelectPrepared(t.writes, id).value).Some?
                 && Authorization(tx.tables, SelectPrepared(t.writes, id).value).value.kind == ExactApproval)
            && (tx.result.Ok? && tx.tables != t ==>
                 && (forall a :: a in t.approvals ==> a.approvalId != approvalId && a.writeId != id))
  {
    hide SelectPrepared;
    assert forall a: ApprovalRecord :: Approves(a, id) <==> a.writeId == id && a.active;
    var tx := ApproveTx(t, id, digest, approvalId, at);
    if tx.result.Ok? {
      assert tx.result.value in tx.tables.approvals;
    }
  }

  /** At most one approval is ever stored for a write, and every one stored is active. */
  ghost predicate OneApproval(t: Tables) {
    && (forall a :: a in t.approvals ==> a.active)
    && (forall i, j :: 0 <= i < j < |t.approvals| ==>
          t.approvals[i].writeId != t.approvals[j].writeId && t.approvals[i].approvalId != t.approvals[j].approvalId)
  }

  lemma OneApprovalAfter(t: Tables, id: string, digest: string, approvalId: string, at: int)
    requires OneApproval(t)
    ensures OneApproval(ApproveTx(t, id, digest, approvalId, at).tables)
  {
    ApprovalAuthorizes(t, id, digest, approvalId, at);
    hide ApproveTx;
  }

  predicate SameAuthority(t: Tables, u: Tables) { u.approvals == t.approvals && u.permissions == t.permissions }

  lemma StepKeepsAuthority(s: World, owner: string, outcome: Outcome)
    requires owner in s.workers
    ensures SameAuthority(s.store, WorkerStep(s, owner, outcome).store)
  {
    var me := s.workers[owner];
    match me.pc
    case Claiming(p, auth) => ClaimKeeps(s.store, p, owner, KeyOf(p), auth, me.completedAt);
    case Dispatching(_, _) => DispatchKeeps(s.store, me.writeId, owner);
    case Aborting => AbortKeeps(s.store, me.writeId, owner);
    case Finalizing(receipt) => FinalizeKeeps(s.store, me.writeId, owner, receipt);
    case _ =>
    hide ClaimTx, DispatchTx, AbortTx, FinalizeTx, AfterRead, KeyOf, Retries, ResultOf, ReceiptFor;
  }

  lemma ClaimKeeps(t: Tables, w: PreparedWrite, owner: string, key: string, auth: WriteAuthorization, at: int)
    ensures SameAuthority(t, ClaimTx(t, w, owner, key, auth, at).tables)
  {
  }

  lemma DispatchKeeps(t: Tables, id: string, owner: string)
    ensures SameAuthority(t, DispatchTx(t, id, owner).tables)
  {
    hide SelectPrepared, Authorization;
  }

  lemma AbortKeeps(t: Tables, id: string, owner: string)
    ensures SameAuthority(t, AbortTx(t, id, owner).tables)
  {
  }

  lemma FinalizeKeeps(t: Tables, id: string, owner: string, receipt: WriteReceipt)
    ensures SameAuthority(t, FinalizeTx(t, id, owner, receipt).tables)
  {
  }

  lemma ApprovalsElsewhere(hash: Hash, s: World, e: Event)
    requires !e.Approve?
    ensures Apply(hash, s, e).store.approvals == s.store.approvals
  {
    hide WorkerStep, SelectPrepared, ValidPreparation, PreparedOf, Revoked, SelectPermission, Text.Strip;
    match e
    case Step(owner, outcome) => if owner in s.workers { StepKeepsAuthority(s, owner, outcome); }
    case _ =>
  }

  lemma {:induction false} OneApprovalAlways(hash: Hash, s: World, events: seq<Event>)
    requires OneApproval(s.store)
    ensures OneApproval(Run(hash, s, events).store)
    decreases |events|
  {
    if events != [] {
      var e := events[0];
      if e.Approve? {
        OneApprovalAfter(s.store, e.id, e.digest, e.approvalId, e.at);
      } else {
        ApprovalsElsewhere(hash, s, e);
      }
      assert OneApproval(Apply(hash, s, e).store);
      hide Apply, OneApproval;
      OneApprovalAlways(hash, Apply(hash, s, e), events[1..]);
    }
  }

  /** A grant under a new identifier is active at once, for every prepared write of its scope; a used identifier is
      refused. */
  lemma GrantAuthorizes(t: Tables, id: string, scope: Scope, at: int, w: PreparedWrite)
    requires w.scope == scope
    ensures var tx := GrantTx(t, id, scope, at);
            && (tx.result.Ok? <==> forall p :: p in t.permissions ==> p.id != id)
            && (tx.result.Err? ==> tx.tables == t && tx.result.error == Conflict)
            && (tx.result.Ok? ==>
                 && tx.tables == t.(permissions := t.permissions + [PermissionRecord(id, scope, at, None, true)])
                 && Authorization(tx.tables, w).Some?)
  {
    var tx := GrantTx(t, id, scope, at);
    if tx.result.Ok? {
      var record := PermissionRecord(id, scope, at, None, true);
      assert record in tx.tables.permissions;
    }
  }

  /** There is a permission of that identifier, and none that is active. */
  ghost predicate Withdrawn(permissions: seq<PermissionRecord>, id: string) {
    && (exists i :: 0 <= i < |permissions| && permissions[i].id == id)
    && forall i :: 0 <= i < |permissions| && permissions[i].id == id ==>
         !permissions[i].active && permissions[i].revokedAt.Some?
  }

  predicate Told(p: PermissionRecord) { p.active <==> p.revokedAt == None }

  ghost predicate DistinctPermissions(permissions: seq<PermissionRecord>) {
    forall i, j :: 0 <= i < j < |permissions| ==> permissions[i].id != permissions[j].id
  }

  /** Each identifier is granted once, and a permission is active until it is revoked. */
  ghost predicate GrantedOnce(permissions: seq<PermissionRecord>) {
    DistinctPermissions(permissions) && forall i :: 0 <= i < |permissions| ==> Told(permissions[i])
  }

  lemma UpdateKeeps(permissions: seq<PermissionRecord>, k: nat, p: PermissionRecord)
    requires k < |permissions| && GrantedOnce(permissions) && p.id == permissions[k].id && Told(p)
    ensures GrantedOnce(permissions[k := p])
  {
  }

  lemma UpdateWithdraws(permissions: seq<PermissionRecord>, k: nat, p: PermissionRecord, other: string)
    requires k < |permissions| && DistinctPermissions(permissions)
    requires p.id == permissions[k].id && !p.active && p.revokedAt.Some?
    ensures Withdrawn(permissions[k := p], p.id)
    ensures Withdrawn(permissions, other) ==> Withdrawn(permissions[k := p], other)
  {
    var u := permissions[k := p];
    assert u[k].id == p.id;
    if Withdrawn(permissions, other) {
      var i :| 0 <= i < |permissions| && permissions[i].id == other;
      assert u[i].id == other;
    }
  }

  /** Exactly the row of that identifier changes, and only if it was active. */
  lemma RevokedIs(permissions: seq<PermissionRecord>, k: nat, at: int)
    requires k < |permissions| && GrantedOnce(permissions)
    ensures var p := permissions[k];
            Revoked(permissions, p.id, at)
            == permissions[k := if p.revokedAt == None then p.(active := false, revokedAt := Some(at)) else p]
  {
  }

  lemma SelectedIs(permissions: seq<PermissionRecord>, k: nat)
    requires k < |permissions| && DistinctPermissions(permissions)
    ensures SelectPermission(permissions, permissions[k].id) == Some(permissions[k])
  {
    var found := SelectPermission(permissions, permissions[k].id);
    assert permissions[k] in permissions;
    var i :| 0 <= i < |permissions| && permissions[i] == found.value;
  }

  /** A revocation withdraws the permission, at the time given unless it was withdrawn before, and touches no
      other; an unknown one is refused. */
  lemma RevocationWithdraws(t: Tables, id: string, at: int) returns (k: nat)
    requires GrantedOnce(t.permissions)
    ensures var tx := RevokeTx(t, id, at);
            && (tx.result.Ok? <==> exists p :: p in t.permissions && p.id == id)
            && (tx.result.Err? ==> tx.tables == t && tx.result.error == UnknownRecord)
            && (tx.result.Ok? ==>
                 && k < |t.permissions| && t.permissions[k].id == id
                 && tx.result.value == (if t.permissions[k].revokedAt.Some? then t.permissions[k]
                                        else t.permissions[k].(active := false, revokedAt := Some(at)))
                 && tx.tables == t.(permissions := t.permissions[k := tx.result.value]))
  {
    k := 0;
    var found := SelectPermission(t.permissions, id);
    if found.Some? {
      k :| 0 <= k < |t.permissions| && t.permissions[k] == found.value;
      RevokedAtRow(t, k, at);
      hide RevokeTx, GrantedOnce, SelectPermission;
    }
  }

  lemma RevokedAtRow(t: Tables, k: nat, at: int)
    requires k < |t.permissions| && GrantedOnce(t.permissions)
    requires SelectPermission(t.permissions, t.permissions[k].id) == Some(t.permissions[k])
    ensures var p := t.permissions[k];
            var after := if p.revokedAt.Some? then p else p.(active := false, revokedAt := Some(at));
            RevokeTx(t, p.id, at) == Tx(t.(permissions := t.permissions[k := after]), Ok(after))
  {
    var p := t.permissions[k];
    var after := if p.revokedAt.Some? then p else p.(active := false, revokedAt := Some(at));
    hide SelectPermission, Revoked, DistinctPermissions;
    RevokedIs(t.permissions, k, at);
    assert Told(p);
    UpdateKeeps(t.permissions, k, after);
    SelectedIs(t.permissions[k := after], k);
    hide GrantedOnce;
    assert p.revokedAt.Some? ==> t.permissions[k := after] == t.permissions;
  }

  lemma RevocationKeeps(t: Tables, id: string, at: int)
    requires GrantedOnce(t.permissions)
    ensures var tx := RevokeTx(t, id, at);
            && GrantedOnce(tx.tables.permissions) && (tx.result.Ok? ==> Withdrawn(tx.tables.permissions, id))
            && forall other :: Withdrawn(t.permissions, other) ==> Withdrawn(tx.tables.permissions, other)
  {
    var k := RevocationWithdraws(t, id, at);
    var tx := RevokeTx(t, id, at);
    hide RevokeTx, Withdrawn, DistinctPermissions;
    if tx.result.Ok? {
      assert Told(t.permissions[k]);
      UpdateKeeps(t.permissions, k, tx.result.value);
      hide GrantedOnce;
      forall other { UpdateWithdraws(t.permissions, k, tx.result.value, other); }
      UpdateWithdraws(t.permissions, k, tx.result.value, id);
    }
  }

  lemma PermissionsElsewhere(hash: Hash, s: World, e: Event)
    requires !e.Grant? && !e.Revoke?
    ensures Apply(hash, s, e).store.permissions == s.store.permissions
  {
    hide WorkerStep, SelectPrepared, ValidPreparation, PreparedOf, SelectApproval, ActiveApprovalId, Text.Strip;
    match e
    case Step(owner, outcome) => if owner in s.workers { StepKeepsAuthority(s, owner, outcome); }
    case _ =>
  }

  lemma GrantKeepsOnce(t: Tables, id: string, scope: Scope, at: int)
    requires GrantedOnce(t.permissions)
    ensures GrantedOnce(GrantTx(t, id, scope, at).tables.permissions)
    ensures forall other ::
              Withdrawn(t.permissions, other) ==> Withdrawn(GrantTx(t, id, scope, at).tables.permissions, other)
  {
    hide SelectPermission;
    var u := GrantTx(t, id, scope, at).tables.permissions;
    forall other | Withdrawn(t.permissions, other) ensures Withdrawn(u, other) {
      var i :| 0 <= i < |t.permissions| && t.permissions[i].id == other;
      assert u[i].id == other && t.permissions[i] in t.permissions;
    }
  }

  lemma GrantedOnceAfter(hash: Hash, s: World, e: Event)
    requires GrantedOnce(s.store.permissions)
    ensures GrantedOnce(Apply(hash, s, e).store.permissions)
    ensures forall id :: Withdrawn(s.store.permissions, id) ==> Withdrawn(Apply(hash, s, e).store.permissions, id)
  {
    hide GrantTx, RevokeTx, PrepareTx, ApproveTx, WorkerStep, RecoverStep, Text.Strip, ValidScope;
    match e
    case Grant(id, scope, at) =>
      GrantKeepsOnce(s.store, id, scope, at);
      hide GrantedOnce, Withdrawn;
    case Revoke(id, at) =>
      RevocationKeeps(s.store, id, at);
      hide GrantedOnce, Withdrawn;
    case _ =>
      PermissionsElsewhere(hash, s, e);
      hide Apply;
  }

  /** Whatever happens after a revocation, the permission never authorizes anything again: a write is authorized by
      another permission or by an approval, or not at all. */
  lemma {:induction false} WithdrawnForGood(hash: Hash, s: World, events: seq<Event>, id: string, w: PreparedWrite)
    requires GrantedOnce(s.store.permissions) && Withdrawn(s.store.permissions, id)
    ensures var t := Run(hash, s, events).store;
            && Withdrawn(t.permissions, id)
            && (Authorization(t, w).Some? && Authorization(t, w).value.kind == StandingPermission ==>
                  Authorization(t, w).value.authorizationId != id)
    decreases |events|
  {
    hide Authorization;
    if events == [] {
      hide Run;
      if Authorization(s.store, w).Some? && Authorization(s.store, w).value.authorizationId == id {
        assert forall p :: p in s.store.permissions && p.id == id ==> !p.active;
      }
    } else {
      GrantedOnceAfter(hash, s, events[0]);
      hide Apply, GrantedOnce, Withdrawn;
      WithdrawnForGood(hash, Apply(hash, s, events[0]), events[1..], id, w);
    }
  }

  // ---------------------------------------------------------------------
  // Claims
  // ---------------------------------------------------------------------

  /** A claim goes through for a write nobody has claimed, for an aborted one, and for whoever holds it already; it
      is refused for a held one of somebody else, a finalized one, and one of another content.  A refused claim
      changes nothing. */
  lemma ClaimTells(t: Tables, w: PreparedWrite, owner: string, key: string, auth: WriteAuthorization, at: int)
    ensures var tx := ClaimTx(t, w, owner, key, auth, at);
            var claimed := w.id in t.executions;
            var free := claimed && t.executions[w.id].state == Aborted;
            var own := claimed && t.executions[w.id].owner == owner && t.executions[w.id].state != Finalized;
            && (tx.result.Ok? <==> !claimed || (t.executions[w.id].payloadDigest == w.payloadDigest && (free || own)))
            && (tx.result.Err? ==> tx.tables == t)
            && (tx.result.Err? && t.executions[w.id].payloadDigest == w.payloadDigest ==>
                  tx.result.error == ClaimConflict)
            && (tx.result.Ok? && own && !free ==> tx.tables == t && tx.result.value == t.executions[w.id])
            && (tx.result.Ok? && (!claimed || free) ==>
                 && tx.tables == t.(executions := t.executions[w.id := tx.result.value])
                 && tx.result.value == ExecutionClaim(
                      w.payloadDigest, owner, Claimed, key, auth,
                      if claimed then t.executions[w.id].attempts else 0, at,
                      if claimed then t.executions[w.id].revision + 1 else 1))
  {
  }

  /** From a claim to its receipt: the holder's dispatch goes through exactly while there is authority and it has
      not been dispatched before, and nobody else's does; then its finalization stores exactly its receipt, and
      after that every claim, dispatch, recovery and finalization is refused. */
  lemma ClaimToReceipt(t: Tables, id: string, owner: string, other: string, receipt: WriteReceipt)
    requires id in t.executions && t.executions[id].owner == owner && other != owner
    requires SelectPrepared(t.writes, id).Some? && receipt.writeId == id && id !in t.receipts
    ensures var tx := DispatchTx(t, id, owner);
            var claim := t.executions[id];
            var authorized := Authorization(t, SelectPrepared(t.writes, id).value).Some?;
            && DispatchTx(t, id, other) == Tx(t, Err(ClaimConflict))
            && (tx.result.Ok? <==> authorized && claim.state == Claimed)
            && (!authorized ==> tx.result == Err(AuthorityRevoked) && tx.tables.executions[id].state == Aborted)
            && (authorized && claim.state != Claimed ==> tx == Tx(t, Err(ClaimConflict)))
            && (tx.result.Ok? ==>
                 && tx.tables == t.(executions := t.executions[id := claim.(state := Dispatched,
                                                                            revision := claim.revision + 1)])
                 && var fin := FinalizeTx(tx.tables, id, owner, receipt);
                    && fin.result == Ok(receipt) && fin.tables.receipts == t.receipts[id := receipt]
                    && Ended(fin.tables, id, owner) && Ended(fin.tables, id, other))
  {
    hide SelectPrepared, Authorization;
  }

  /** Nothing can be done any more about the write. */
  ghost predicate Ended(t: Tables, id: string, owner: string) {
    && (forall w: PreparedWrite, key, auth, at :: w.id == id ==> ClaimTx(t, w, owner, key, auth, at).result.Err?)
    && DispatchTx(t, id, owner).result.Err?
    && (forall revision, taker :: RecoverTx(t, id, revision, taker) == Tx(t, Err(Conflict)))
    && forall receipt: WriteReceipt :: receipt.writeId == id ==>
         FinalizeTx(t, id, owner, receipt) == Tx(t, Err(ClaimConflict))
  }

  /** An abort frees the claim for anyone, and of two recoveries that expect one revision only the first goes
      through. */
  lemma AbortAndRecovery(t: Tables, w: PreparedWrite, owner: string, other: string, key: string,
                         auth: WriteAuthorization, at: int, revision: int, taker: string)
    requires w.id in t.executions && t.executions[w.id].payloadDigest == w.payloadDigest
    ensures var aborted := AbortTx(t, w.id, owner);
            var recovered := RecoverTx(t, w.id, revision, taker);
            var claim := t.executions[w.id];
            && (aborted.result.Ok? <==> claim.owner == owner) && (aborted.result.Err? ==> aborted.tables == t)
            && (aborted.result.Ok? ==> ClaimTx(aborted.tables, w, other, key, auth, at).result.Ok?)
            && (recovered.result.Ok? <==> claim.revision == revision && claim.state != Finalized)
            && (recovered.result.Err? ==> recovered.tables == t)
            && (recovered.result.Ok? ==>
                 && recovered.tables.executions[w.id]
                    == claim.(owner := taker, state := Claimed, revision := claim.revision + 1)
                 && RecoverTx(recovered.tables, w.id, revision, other) == Tx(recovered.tables, Err(Conflict)))
  {
  }

  // ---------------------------------------------------------------------
  // Waiting for an approval
  // ---------------------------------------------------------------------

  /** Nothing has been received for it, and no active approval of that payload nor active permission on that scope
      is there. */
  predicate Waits(t: Tables, w: PreparedWrite) {
    && w.id !in t.receipts
    && (forall a :: a in t.approvals && a.writeId == w.id && a.active ==> a.payloadDigest != w.payloadDigest)
    && (forall p :: p in t.permissions && p.scope == w.scope ==> !p.active)
  }

  /** The query lists exactly the writes that wait. */
  lemma {:induction false} PendingIdsExactly(t: Tables, writes: seq<PreparedWrite>, id: string)
    ensures id in PendingIds(t, writes) <==> exists w :: w in writes && w.id == id && Waits(t, w)
    decreases |writes|
  {
    if writes != [] {
      assert Pending(t, writes[0]) <==> Waits(t, writes[0]);
      hide Pending, Waits;
      PendingIdsExactly(t, writes[1..], id);
      assert writes == [writes[0]] + writes[1..];
    }
  }
}
