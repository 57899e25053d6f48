/** Any number of `execute` calls on one store, interleaved at their transactions
    with preparations, approvals, grants, revocations, recoveries and crashes
    (src/reckoning/connectors.py:511-720).  Owners are fresh; a behaviour is a
    list of events, and the theorems hold after every list. */
module ExternalWriteProtocol {
  import opened Wrappers
  import opened ExternalWriteStore
  import Text

  datatype WriteResult = WriteResult(status: WriteStatus, externalId: Option<string>, detail: string)

  /** What one adapter call does: it raises, or it returns. */
  datatype Outcome = Raised(error: string) | Returned(result: WriteResult)

  datatype AdapterCall = AdapterCall(
    owner: string, writeId: string, payload: map<string, string>, key: string, attempt: nat, outcome: Outcome)

  datatype Dispatch = Dispatch(writeId: string, owner: string)

  /** Where an `execute` call stands, with what it has read so far. */
  datatype Pc =
    | ReadingReceipt
    | ReadingPrepared
    | ReadingAuthority(prepared: PreparedWrite)
    | Claiming(prepared: PreparedWrite, auth: WriteAuthorization)
    | Dispatching(prepared: PreparedWrite, auth: WriteAuthorization)
    | Aborting
    | Invoking(prepared: PreparedWrite, auth: WriteAuthorization, attempt: nat)
    | Finalizing(receipt: WriteReceipt)
    | Stopped

  datatype Worker = Worker(writeId: string, maxRetries: int, completedAt: int, pc: Pc)

  /** `dispatches`, `calls` and `recoveries` log what happened; `imported` holds
      the receipts that came from the legacy file. */
  datatype World = World(
    store: Tables, imported: map<string, WriteReceipt>, workers: map<string, Worker>,
    dispatches: seq<Dispatch>, calls: seq<AdapterCall>, recoveries: seq<string>)

  datatype Event =
    | Prepare(id: string, scope: Scope, payload: map<string, string>, at: int)
    | Approve(id: string, digest: string, approvalId: string, at: int)
    | Grant(id: string, scope: Scope, at: int)
    | Revoke(id: string, at: int)
    | Start(owner: string, id: string, maxRetries: int, completedAt: int)
    | Step(owner: string, outcome: Outcome)
    | Crash(owner: string)
    | Recover(id: string, expectedRevision: int, owner: string, maxRetries: int, completedAt: int)

  type Hash = map<string, string> -> string

  // ---------------------------------------------------------------------
  // The service's own part of each operation
  // ---------------------------------------------------------------------

  predicate ValidScope(s: Scope) {
    && Text.Strip(s.connectorId) != "" && Text.Strip(s.actionType) != "" && Text.Strip(s.target) != ""
    && Text.Strip(s.trigger) != "" && Text.Strip(s.boundary) != ""
  }

  predicate ValidPreparation(id: string, scope: Scope, payload: map<string, string>) {
    ValidScope(scope) && Text.Strip(id) != "" && payload != map[]
  }

  function PreparedOf(hash: Hash, id: string, scope: Scope, payload: map<string, string>, at: int): PreparedWrite {
    PreparedWrite(id, scope, payload, at, hash(payload), None)
  }

  function KeyOf(w: PreparedWrite): string { "reckoning-write:" + w.id + ":" + w.payloadDigest }

  /** The result `_invoke_adapter` works with after one call. */
  function ResultOf(outcome: Outcome): WriteResult {
    match outcome
    case Raised(error) => WriteResult(Unknown, None, "Write outcome unknown: " + error)
    case Returned(r) => r
  }

  /** Only a definite failure with attempts left is tried again. */
  predicate Retries(outcome: Outcome, attempt: int, maxRetries: int) {
    outcome.Returned? && outcome.result.status == Failed && attempt < maxRetries + 1
  }

  function ReceiptFor(p: PreparedWrite, auth: WriteAuthorization, r: WriteResult, attempts: nat, at: int)
    : WriteReceipt
  {
    WriteReceipt(p.id, p.scope.connectorId, r.status, r.externalId, r.detail, attempts, KeyOf(p), at, auth)
  }

  // ---------------------------------------------------------------------
  // Steps
  // ---------------------------------------------------------------------

  function SetWorker(s: World, owner: string, me: Worker): World { s.(workers := s.workers[owner := me]) }

  function Goto(s: World, owner: string, pc: Pc): World
    requires owner in s.workers
  {
    SetWorker(s, owner, s.workers[owner].(pc := pc))
  }

  predicate Reading(pc: Pc) { pc.ReadingReceipt? || pc.ReadingPrepared? || pc.ReadingAuthority? }

  /** An existing receipt ends the call, and so do a missing write, missing authority or a negative limit. */
  function AfterRead(t: Tables, me: Worker): Pc
    requires Reading(me.pc)
  {
    match me.pc
    case ReadingReceipt => if me.writeId in t.receipts then Stopped else ReadingPrepared
    case ReadingPrepared =>
      var row := SelectPrepared(t.writes, me.writeId);
      if row == None then Stopped else ReadingAuthority(WithApproval(row.value, t.approvals))
    case ReadingAuthority(p) =>
      var auth := Authorization(t, p);
      if auth == None || me.maxRetries < 0 then Stopped else Claiming(p, auth.value)
  }

  function ReadStep(s: World, owner: string): World
    requires owner in s.workers
  {
    if Reading(s.workers[owner].pc) then Goto(s, owner, AfterRead(s.store, s.workers[owner])) else s
  }

  function ClaimStep(s: World, owner: string): World
    requires owner in s.workers && s.workers[owner].pc.Claiming?
  {
    var me := s.workers[owner];
    var tx := ClaimTx(s.store, me.pc.prepared, owner, KeyOf(me.pc.prepared), me.pc.auth, me.completedAt);
    Goto(s.(store := tx.tables), owner, if tx.result.Ok? then Dispatching(me.pc.prepared, me.pc.auth) else Stopped)
  }

  function DispatchStep(s: World, owner: string): World
    requires owner in s.workers && s.workers[owner].pc.Dispatching?
  {
    var me := s.workers[owner];
    var tx := DispatchTx(s.store, me.writeId, owner);
    var next := if tx.result.Ok? then Invoking(me.pc.prepared, me.pc.auth, 1)
                else if tx.result.error == AuthorityRevoked then Aborting else Stopped;
    Goto(s.(store := tx.tables,
            dispatches := if tx.result.Ok? then s.dispatches + [Dispatch(me.writeId, owner)] else s.dispatches),
         owner, next)
  }

  function InvokeStep(s: World, owner: string, outcome: Outcome): World
    requires owner in s.workers && s.workers[owner].pc.Invoking?
  {
    var me := s.workers[owner];
    var p, attempt := me.pc.prepared, me.pc.attempt;
    var next := if Retries(outcome, attempt, me.maxRetries) then me.pc.(attempt := attempt + 1)
                else Finalizing(ReceiptFor(p, me.pc.auth, ResultOf(outcome), attempt, me.completedAt));
    Goto(s.(calls := s.calls + [AdapterCall(owner, me.writeId, p.payload, KeyOf(p), attempt, outcome)]), owner, next)
  }

  function FinishStep(s: World, owner: string): World
    requires owner in s.workers && (s.workers[owner].pc.Aborting? || s.workers[owner].pc.Finalizing?)
  {
    var me := s.workers[owner];
    var store := if me.pc.Aborting? then AbortTx(s.store, me.writeId, owner).tables
                 else FinalizeTx(s.store, me.writeId, owner, me.pc.receipt).tables;
    Goto(s.(store := store), owner, Stopped)
  }

  function WorkerStep(s: World, owner: string, outcome: Outcome): World
    requires owner in s.workers
  {
    match s.workers[owner].pc
    case Claiming(_, _) => ClaimStep(s, owner)
    case Dispatching(_, _) => DispatchStep(s, owner)
    case Invoking(_, _, _) => InvokeStep(s, owner, outcome)
    case Aborting => FinishStep(s, owner)
    case Finalizing(_) => FinishStep(s, owner)
    case _ => ReadStep(s, owner)
  }

  /** A recovery hands the claim to a fresh owner, who takes it from dispatch on. */
  function RecoverStep(s: World, id: string, expectedRevision: int, owner: string, maxRetries: int, at: int): World {
    var tx := RecoverTx(s.store, id, expectedRevision, owner);
    var row := SelectPrepared(s.store.writes, id);
    if owner in s.workers || tx.result.Err? || row == None || maxRetries < 0 then s
    else SetWorker(s.(store := tx.tables, recoveries := s.recoveries + [id]), owner,
                   Worker(id, maxRetries, at, Dispatching(row.value, tx.result.value.authorization)))
  }

  /** The administrative operations, which only touch writes, approvals and permissions. */
  function Administer(hash: Hash, t: Tables, e: Event): Tables
    requires e.Prepare? || e.Approve? || e.Grant? || e.Revoke?
  {
    match e
    case Prepare(id, scope, payload, at) =>
      if ValidPreparation(id, scope, payload) then PrepareTx(t, PreparedOf(hash, id, scope, payload, at)).tables else t
    case Approve(id, digest, approvalId, at) =>
      if Text.Strip(approvalId) != "" then ApproveTx(t, id, digest, approvalId, at).tables else t
    case Grant(id, scope, at) =>
      if Text.Strip(id) != "" && ValidScope(scope) then GrantTx(t, id, scope, at).tables else t
    case Revoke(id, at) => RevokeTx(t, id, at).tables
  }

  function Apply(hash: Hash, s: World, e: Event): World {
    match e
    case Start(owner, id, maxRetries, at) =>
      if owner in s.workers then s else SetWorker(s, owner, Worker(id, maxRetries, at, ReadingReceipt))
    case Step(owner, outcome) => if owner in s.workers then WorkerStep(s, owner, outcome) else s
    case Crash(owner) => if owner in s.workers then Goto(s, owner, Stopped) else s
    case Recover(id, revision, owner, maxRetries, at) => RecoverStep(s, id, revision, owner, maxRetries, at)
    case _ => s.(store := Administer(hash, s.store, e))
  }

  function Run(hash: Hash, s: World, events: seq<Event>): World
    decreases |events|
  {
    if events == [] then s else Run(hash, Apply(hash, s, events[0]), events[1..])
  }

  // ---------------------------------------------------------------------
  // The invariant of the tables
  // ---------------------------------------------------------------------

  ghost predicate WritesSound(hash: Hash, writes: seq<PreparedWrite>) {
    forall i :: 0 <= i < |writes| ==>
      && writes[i].payloadDigest == hash(writes[i].payload) && writes[i].exactApprovalId == None
      && SelectPrepared(writes, writes[i].id) == Some(writes[i])
  }

  ghost predicate ApprovalSound(writes: seq<PreparedWrite>, a: ApprovalRecord) {
    && a.active && a.approvalId != ""
    && SelectPrepared(writes, a.writeId).Some?
    && SelectPrepared(writes, a.writeId).value.payloadDigest == a.payloadDigest
  }

  ghost predicate ApprovalsSound(writes: seq<PreparedWrite>, approvals: seq<ApprovalRecord>) {
    && (forall a :: a in approvals ==> ApprovalSound(writes, a))
    && (forall i, j :: 0 <= i < j < |approvals| ==> approvals[i].writeId != approvals[j].writeId)
  }

  ghost predicate PermissionsSound(permissions: seq<PermissionRecord>) {
    forall p :: p in permissions ==> (p.active <==> p.revokedAt == None)
  }

  /** A claim carries the digest of the stored payload and the key made from it. */
  ghost predicate ClaimSound(writes: seq<PreparedWrite>, id: string, claim: ExecutionClaim) {
    var row := SelectPrepared(writes, id);
    row.Some? && claim.payloadDigest == row.value.payloadDigest && claim.idempotencyKey == KeyOf(row.value)
  }

  ghost predicate ClaimsSound(t: Tables) {
    forall id :: id in t.executions ==> ClaimSound(t.writes, id, t.executions[id])
  }

  predicate IsFinalized(t: Tables, id: string) { id in t.executions && t.executions[id].state == Finalized }

  ghost predicate ReceiptsSound(t: Tables, imported: map<string, WriteReceipt>) {
    && (forall id :: id in t.receipts <==> id in imported || IsFinalized(t, id))
    && (forall id :: id in imported ==> id !in t.executions && id in t.receipts && t.receipts[id] == imported[id])
    && (forall id :: IsFinalized(t, id) ==>
          t.receipts[id].writeId == id && t.receipts[id].idempotencyKey == t.executions[id].idempotencyKey
          && t.receipts[id].attempts == t.executions[id].attempts)
  }

  ghost predicate StoreSound(hash: Hash, t: Tables) {
    WritesSound(hash, t.writes) && ApprovalsSound(t.writes, t.approvals)
    && PermissionsSound(t.permissions) && ClaimsSound(t)
  }

  // ---------------------------------------------------------------------
  // The invariant of a worker
  // ---------------------------------------------------------------------

  predicate IsRow(writes: seq<PreparedWrite>, p: PreparedWrite) {
    SelectPrepared(writes, p.id) == Some(p.(exactApprovalId := None))
  }

  predicate Early(pc: Pc) { pc.ReadingReceipt? || pc.ReadingPrepared? || pc.ReadingAuthority? || pc.Claiming? }

  predicate PcShape(writes: seq<PreparedWrite>, me: Worker) {
    match me.pc
    case ReadingAuthority(p) => p.id == me.writeId && IsRow(writes, p)
    case Claiming(p, _) => p.id == me.writeId && IsRow(writes, p) && me.maxRetries >= 0
    case Dispatching(p, _) => p.id == me.writeId && IsRow(writes, p) && me.maxRetries >= 0
    case Invoking(p, _, attempt) =>
      p.id == me.writeId && IsRow(writes, p) && 1 <= attempt <= me.maxRetries + 1
    case Finalizing(receipt) =>
      && receipt.writeId == me.writeId && SelectPrepared(writes, me.writeId).Some?
      && receipt.idempotencyKey == KeyOf(SelectPrepared(writes, me.writeId).value)
    case _ => true
  }

  /** The only claim states an owner can find its own claim in. */
  predicate StateFits(pc: Pc, state: ClaimState) {
    match pc
    case Dispatching(_, _) => state == Claimed
    case Aborting => state == Aborted
    case Invoking(_, _, _) => state == Dispatched
    case Finalizing(_) => state == Dispatched
    case Stopped => true
    case _ => false
  }

  predicate OwnedSound(executions: map<string, ExecutionClaim>, owner: string, me: Worker) {
    me.writeId in executions && executions[me.writeId].owner == owner ==>
      StateFits(me.pc, executions[me.writeId].state)
  }

  /** A call that the receipt of its owner may report. */
  predicate Reports(c: AdapterCall, owner: string, receipt: WriteReceipt) {
    && c.owner == owner && c.attempt == receipt.attempts
    && ResultOf(c.outcome) == WriteResult(receipt.status, receipt.externalId, receipt.detail)
  }

  /** The receipt tells the outcome of the last adapter call of its owner. */
  ghost predicate TellsLastCall(calls: seq<AdapterCall>, owner: string, receipt: WriteReceipt) {
    && (exists c :: c in calls && Reports(c, owner, receipt))
    && (forall c :: c in calls && c.owner == owner ==> c.attempt <= receipt.attempts)
  }

  ghost predicate NoDispatchBy(dispatches: seq<Dispatch>, owner: string) {
    forall d :: d in dispatches ==> d.owner != owner
  }

  ghost predicate NoCallBy(calls: seq<AdapterCall>, owner: string) { forall c :: c in calls ==> c.owner != owner }

  predicate DefiniteFailure(outcome: Outcome) { outcome.Returned? && outcome.result.status == Failed }

  ghost predicate LogSound(dispatches: seq<Dispatch>, calls: seq<AdapterCall>, owner: string, me: Worker) {
    match me.pc
    case Invoking(_, _, attempt) =>
      && Dispatch(me.writeId, owner) in dispatches
      && forall c :: c in calls && c.owner == owner ==> c.attempt < attempt && DefiniteFailure(c.outcome)
    case Finalizing(receipt) => Dispatch(me.writeId, owner) in dispatches && TellsLastCall(calls, owner, receipt)
    case Aborting => true
    case Stopped => true
    case _ => NoDispatchBy(dispatches, owner)
  }

  ghost predicate WorkerSound(
    t: Tables, dispatches: seq<Dispatch>, calls: seq<AdapterCall>, owner: string, me: Worker)
  {
    PcShape(t.writes, me) && OwnedSound(t.executions, owner, me) && LogSound(dispatches, calls, owner, me)
  }

  // ---------------------------------------------------------------------
  // The invariant of the logs
  // ---------------------------------------------------------------------

  function DispatchCount(dispatches: seq<Dispatch>, id: string): nat {
    if dispatches == [] then 0
    else
      var last := |dispatches| - 1;
      DispatchCount(dispatches[..last], id) + (if dispatches[last].writeId == id then 1 else 0)
  }

  function RecoveryCount(recoveries: seq<string>, id: string): nat {
    if recoveries == [] then 0
    else
      var last := |recoveries| - 1;
      RecoveryCount(recoveries[..last], id) + (if recoveries[last] == id then 1 else 0)
  }

  predicate Spent(t: Tables, id: string) {
    id in t.executions && (t.executions[id].state == Dispatched || t.executions[id].state == Finalized)
  }

  /** A recovery buys one dispatch, and so does the first claim. */
  ghost predicate BudgetKept(t: Tables, dispatches: seq<Dispatch>, recoveries: seq<string>) {
    forall id :: DispatchCount(dispatches, id) <= RecoveryCount(recoveries, id) + (if Spent(t, id) then 1 else 0)
  }

  ghost predicate DispatchesSound(s: World) {
    && (forall d :: d in s.dispatches ==>
          d.owner in s.workers && s.workers[d.owner].writeId == d.writeId && d.writeId in s.store.executions)
    && (forall i, j :: 0 <= i < j < |s.dispatches| ==> s.dispatches[i].owner != s.dispatches[j].owner)
  }

  ghost predicate CallSound(s: World, c: AdapterCall) {
    && c.owner in s.workers && s.workers[c.owner].writeId == c.writeId
    && Dispatch(c.writeId, c.owner) in s.dispatches
    && 1 <= c.attempt <= s.workers[c.owner].maxRetries + 1
    && SelectPrepared(s.store.writes, c.writeId).Some?
    && c.payload == SelectPrepared(s.store.writes, c.writeId).value.payload
    && c.key == KeyOf(SelectPrepared(s.store.writes, c.writeId).value)
  }

  ghost predicate CallsSound(s: World) {
    && (forall c :: c in s.calls ==> CallSound(s, c))
    && (forall i, j :: 0 <= i < j < |s.calls| && s.calls[i].owner == s.calls[j].owner ==>
          s.calls[i].attempt < s.calls[j].attempt && DefiniteFailure(s.calls[i].outcome))
  }

  ghost predicate OwnersKnown(s: World) {
    forall id :: id in s.store.executions ==>
      var owner := s.store.executions[id].owner;
      owner in s.workers && s.workers[owner].writeId == id
  }

  ghost predicate ReceiptsTell(s: World) {
    forall id :: IsFinalized(s.store, id) && id in s.store.receipts ==>
      TellsLastCall(s.calls, s.store.executions[id].owner, s.store.receipts[id])
  }

  ghost predicate WorkersSound(s: World) {
    forall o :: o in s.workers ==> WorkerSound(s.store, s.dispatches, s.calls, o, s.workers[o])
  }

  /** A write imported with its receipt is left at the first read. */
  ghost predicate ImportedLeft(s: World) {
    forall o :: o in s.workers && s.workers[o].writeId in s.imported ==>
      s.workers[o].pc.ReadingReceipt? || s.workers[o].pc.Stopped?
  }

  ghost predicate Inv(hash: Hash, s: World) {
    && StoreSound(hash, s.store) && ReceiptsSound(s.store, s.imported) && ImportedLeft(s)
    && WorkersSound(s) && OwnersKnown(s)
    && DispatchesSound(s) && CallsSound(s) && ReceiptsTell(s) && BudgetKept(s.store, s.dispatches, s.recoveries)
  }

  /** A store with what the legacy import accepts, and nobody at work yet. */
  ghost predicate Initial(hash: Hash, s: World) {
    && WritesSound(hash, s.store.writes) && ApprovalsSound(s.store.writes, s.store.approvals)
    && PermissionsSound(s.store.permissions)
    && s.store.executions == map[] && s.store.receipts == s.imported
    && s.workers == map[] && s.dispatches == [] && s.calls == [] && s.recoveries == []
  }

  lemma InvInitially(hash: Hash, s: World)
    requires Initial(hash, s)
    ensures Inv(hash, s)
  {
  }

  // ---------------------------------------------------------------------
  // One step
  // ---------------------------------------------------------------------

  ghost predicate WritesKept(writes: seq<PreparedWrite>, next: seq<PreparedWrite>) {
    forall id :: SelectPrepared(writes, id).Some? ==> SelectPrepared(next, id) == SelectPrepared(writes, id)
  }

  lemma {:induction false} SelectPreparedAppend(writes: seq<PreparedWrite>, w: PreparedWrite, id: string)
    ensures SelectPrepared(writes + [w], id)
         == if SelectPrepared(writes, id).Some? then SelectPrepared(writes, id)
            else if w.id == id then Some(w) else None
  {
    if writes == [] {
      assert writes + [w] == [w];
    } else {
      assert (writes + [w])[1..] == writes[1..] + [w];
      SelectPreparedAppend(writes[1..], w, id);
    }
  }

  /** What `owner`'s update may do, seen from the others: the claim it touched is
      its own, and the logs only grow by its entries. */
  ghost predicate Elsewhere(s: World, t: World, owner: string) {
    && WritesKept(s.store.writes, t.store.writes)
    && (forall id :: id in t.store.executions && t.store.executions[id].owner != owner ==>
          id in s.store.executions && t.store.executions[id] == s.store.executions[id])
    && (t.dispatches == s.dispatches
        || (owner in s.workers && t.dispatches == s.dispatches + [Dispatch(s.workers[owner].writeId, owner)]))
    && s.calls <= t.calls && (forall c :: c in t.calls && c.owner != owner ==> c in s.calls)
  }

  lemma BystanderSound(s: World, t: World, owner: string, o: string, me: Worker)
    requires Elsewhere(s, t, owner) && o != owner
    requires WorkerSound(s.store, s.dispatches, s.calls, o, me)
    ensures WorkerSound(t.store, t.dispatches, t.calls, o, me)
  {
    hide SelectPrepared, Reports;
    if me.pc.Finalizing? {
      var c :| c in s.calls && Reports(c, o, me.pc.receipt);
      assert c in t.calls;
    }
  }

  lemma AllSound(s: World, t: World, owner: string, me: Worker)
    requires WorkersSound(s) && Elsewhere(s, t, owner) && t.workers == s.workers[owner := me]
    requires WorkerSound(t.store, t.dispatches, t.calls, owner, me)
    ensures WorkersSound(t)
  {
    forall o | o in t.workers ensures WorkerSound(t.store, t.dispatches, t.calls, o, t.workers[o]) {
      if o != owner { BystanderSound(s, t, owner, o, s.workers[o]); }
    }
  }

  /** Jobs do not change once started. */
  ghost predicate JobsKept(workers: map<string, Worker>, next: map<string, Worker>) {
    forall o :: o in workers ==>
      && o in next && next[o].writeId == workers[o].writeId && next[o].maxRetries == workers[o].maxRetries
  }

  /** The calls stay sound when jobs and dispatches are only added and the writes are kept. */
  lemma CallsKept(s: World, t: World)
    requires CallsSound(s) && t.calls == s.calls
    requires JobsKept(s.workers, t.workers) && WritesKept(s.store.writes, t.store.writes)
    requires s.dispatches <= t.dispatches
    ensures CallsSound(t)
  {
    hide SelectPrepared;
    forall c | c in t.calls ensures CallSound(t, c) { assert CallSound(s, c); }
  }

  lemma DispatchesKept(s: World, t: World)
    requires DispatchesSound(s) && t.dispatches == s.dispatches && JobsKept(s.workers, t.workers)
    requires s.store.executions.Keys <= t.store.executions.Keys
    ensures DispatchesSound(t)
  {
  }

  lemma LocalStep(hash: Hash, s: World, owner: string, me: Worker)
    requires Inv(hash, s)
    requires owner in s.workers ==>
               && me.writeId == s.workers[owner].writeId && me.maxRetries == s.workers[owner].maxRetries
    requires WorkerSound(s.store, s.dispatches, s.calls, owner, me)
    requires me.writeId in s.imported ==> me.pc.ReadingReceipt? || me.pc.Stopped?
    ensures Inv(hash, SetWorker(s, owner, me))
  {
    hide SelectPrepared, StoreSound, ReceiptsSound, CallsSound;
    var t := SetWorker(s, owner, me);
    AllSound(s, t, owner, me);
    CallsKept(s, t);
  }

  lemma RowIsSound(hash: Hash, t: Tables, id: string)
    requires WritesSound(hash, t.writes) && SelectPrepared(t.writes, id).Some?
    ensures IsRow(t.writes, SelectPrepared(t.writes, id).value)
    ensures IsRow(t.writes, WithApproval(SelectPrepared(t.writes, id).value, t.approvals))
  {
    var row := SelectPrepared(t.writes, id).value;
    var i :| 0 <= i < |t.writes| && t.writes[i] == row;
    assert row.(exactApprovalId := None) == row;
  }

  /** Nothing is claimed, dispatched or called while a worker is still reading. */
  lemma StillReading(t: Tables, dispatches: seq<Dispatch>, calls: seq<AdapterCall>, owner: string, me: Worker, pc: Pc)
    requires WorkerSound(t, dispatches, calls, owner, me) && Early(me.pc)
    requires pc.Stopped? || Early(pc)
    requires PcShape(t.writes, me.(pc := pc))
    ensures WorkerSound(t, dispatches, calls, owner, me.(pc := pc))
  {
    hide PcShape;
  }

  lemma AfterReadShape(hash: Hash, t: Tables, me: Worker)
    requires WritesSound(hash, t.writes) && PcShape(t.writes, me)
    requires Reading(me.pc)
    ensures PcShape(t.writes, me.(pc := AfterRead(t, me)))
    ensures AfterRead(t, me).Stopped? || Early(AfterRead(t, me))
    ensures me.pc.ReadingReceipt? && me.writeId in t.receipts ==> AfterRead(t, me).Stopped?
  {
    hide Authorization, ActiveApprovalId;
    if me.pc.ReadingPrepared? && SelectPrepared(t.writes, me.writeId).Some? { RowIsSound(hash, t, me.writeId); }
  }

  lemma InvAfterRead(hash: Hash, s: World, owner: string)
    requires Inv(hash, s) && owner in s.workers
    ensures Inv(hash, ReadStep(s, owner))
  {
    hide SelectPrepared, PcShape, OwnedSound, LogSound, AfterRead;
    hide WritesSound, ApprovalsSound, PermissionsSound, ClaimsSound;
    hide OwnersKnown, DispatchesSound, CallsSound, ReceiptsTell, BudgetKept;
    var me := s.workers[owner];
    assert WorkerSound(s.store, s.dispatches, s.calls, owner, me);
    if Reading(me.pc) {
      var pc := AfterRead(s.store, me);
      AfterReadShape(hash, s.store, me);
      StillReading(s.store, s.dispatches, s.calls, owner, me, pc);
      assert me.writeId in s.imported ==> me.writeId in s.store.receipts;
      LocalStep(hash, s, owner, me.(pc := pc));
    }
  }

  lemma SetClaimSound(t: Tables, imported: map<string, WriteReceipt>, id: string, claim: ExecutionClaim)
    requires ClaimsSound(t) && ReceiptsSound(t, imported)
    requires id !in imported && !IsFinalized(t, id)
    requires ClaimSound(t.writes, id, claim) && claim.state != Finalized
    ensures ClaimsSound(SetClaim(t, id, claim)) && ReceiptsSound(SetClaim(t, id, claim), imported)
  {
    hide SelectPrepared, ClaimSound;
    var u := SetClaim(t, id, claim);
    forall i ensures IsFinalized(u, i) <==> IsFinalized(t, i) {}
  }

  /** What is known of owners and receipts when `owner` moves its claim of `id`, and itself. */
  lemma OwnersAfterClaim(s: World, t: World, owner: string, id: string, claim: ExecutionClaim, me: Worker)
    requires OwnersKnown(s) && ReceiptsTell(s) && ImportedLeft(s)
    requires t.store == SetClaim(s.store, id, claim) && t.imported == s.imported && t.calls == s.calls
    requires t.workers == s.workers[owner := me] && claim.owner == owner && me.writeId == id
    requires owner in s.workers ==> s.workers[owner].writeId == id
    requires id !in s.imported && !IsFinalized(s.store, id) && claim.state != Finalized
    ensures OwnersKnown(t) && ReceiptsTell(t) && ImportedLeft(t)
  {
    hide TellsLastCall;
    forall i
      ensures IsFinalized(t.store, i) ==> IsFinalized(s.store, i) && t.store.executions[i] == s.store.executions[i] {}
  }

  /** The whole invariant in that case; the logs of dispatches and recoveries may grow. */
  lemma ClaimUpdate(hash: Hash, s: World, t: World, owner: string, id: string, claim: ExecutionClaim, me: Worker)
    requires Inv(hash, s)
    requires t.store == SetClaim(s.store, id, claim) && t.imported == s.imported && t.calls == s.calls
    requires t.workers == s.workers[owner := me] && claim.owner == owner && me.writeId == id
    requires owner in s.workers ==> s.workers[owner].writeId == id && s.workers[owner].maxRetries == me.maxRetries
    requires id !in s.imported && !IsFinalized(s.store, id)
    requires ClaimSound(s.store.writes, id, claim) && claim.state != Finalized
    requires t.dispatches == s.dispatches
             || (owner in s.workers && t.dispatches == s.dispatches + [Dispatch(id, owner)])
    requires DispatchesSound(t) && BudgetKept(t.store, t.dispatches, t.recoveries)
    requires WorkerSound(t.store, t.dispatches, t.calls, owner, me)
    ensures Inv(hash, t)
  {
    hide SelectPrepared, WritesSound, ApprovalsSound, PermissionsSound, ClaimSound;
    hide CallsSound, BudgetKept, DispatchesSound, WorkerSound;
    SetClaimSound(s.store, s.imported, id, claim);
    hide ReceiptsSound, ClaimsSound;
    OwnersAfterClaim(s, t, owner, id, claim, me);
    hide OwnersKnown, ReceiptsTell, ImportedLeft, IsFinalized;
    AllSound(s, t, owner, me);
    hide WorkersSound, Elsewhere;
    CallsKept(s, t);
  }

  // --- counting dispatches ---

  lemma DispatchCountAppend(dispatches: seq<Dispatch>, d: Dispatch, id: string)
    ensures DispatchCount(dispatches + [d], id) == DispatchCount(dispatches, id) + (if d.writeId == id then 1 else 0)
  {
    assert (dispatches + [d])[..|dispatches|] == dispatches;
  }

  lemma RecoveryCountAppend(recoveries: seq<string>, r: string, id: string)
    ensures RecoveryCount(recoveries + [r], id) == RecoveryCount(recoveries, id) + (if r == id then 1 else 0)
  {
    assert (recoveries + [r])[..|recoveries|] == recoveries;
  }

  // --- claim, dispatch, abort ---

  /** A claim taken by a fresh owner: nothing to lose, and sound. */
  lemma ClaimTaken(t: Tables, p: PreparedWrite, owner: string, auth: WriteAuthorization, at: int)
    requires ClaimsSound(t) && IsRow(t.writes, p)
    requires p.id in t.executions ==> t.executions[p.id].owner != owner
    ensures var tx := ClaimTx(t, p, owner, KeyOf(p), auth, at);
            if tx.result.Err? then tx.tables == t
            else
              var claim := tx.result.value;
              && tx.tables == SetClaim(t, p.id, claim) && ClaimSound(t.writes, p.id, claim)
              && claim.owner == owner && claim.state == Claimed && !Spent(t, p.id) && !IsFinalized(t, p.id)
  {
    assert KeyOf(p.(exactApprovalId := None)) == KeyOf(p);
    if p.id in t.executions { assert ClaimSound(t.writes, p.id, t.executions[p.id]); }
  }

  lemma InvAfterClaim(hash: Hash, s: World, owner: string)
    requires Inv(hash, s) && owner in s.workers && s.workers[owner].pc.Claiming?
    ensures Inv(hash, ClaimStep(s, owner))
  {
    hide SelectPrepared, WritesSound, ApprovalsSound, PermissionsSound, ClaimsSound, ReceiptsSound, CallsSound;
    hide DispatchCount, KeyOf, ClaimTx, IsFinalized, ReceiptsTell, IsRow, ClaimSound;
    var me := s.workers[owner];
    var id, p := me.writeId, me.pc.prepared;
    assert WorkerSound(s.store, s.dispatches, s.calls, owner, me);
    var t := ClaimStep(s, owner);
    ClaimTaken(s.store, p, owner, me.pc.auth, me.completedAt);
    var tx := ClaimTx(s.store, p, owner, KeyOf(p), me.pc.auth, me.completedAt);
    if tx.result.Err? {
      LocalStep(hash, s, owner, me.(pc := Stopped));
    } else {
      ClaimUpdate(hash, s, t, owner, id, tx.result.value, me.(pc := Dispatching(p, me.pc.auth)));
    }
  }

  lemma AdvancedSound(t: Tables, id: string, state: ClaimState)
    requires ClaimsSound(t) && id in t.executions
    ensures ClaimSound(t.writes, id, Advanced(t.executions[id], state))
  {
  }

  lemma DispatchLogged(s: World, t: World, owner: string, id: string)
    requires owner in s.workers && s.workers[owner].writeId == id && t.workers.Keys == s.workers.Keys
    requires JobsKept(s.workers, t.workers) && DispatchesSound(s) && NoDispatchBy(s.dispatches, owner)
    requires BudgetKept(s.store, s.dispatches, s.recoveries) && t.recoveries == s.recoveries
             && t.dispatches == s.dispatches + [Dispatch(id, owner)]
    requires !Spent(s.store, id) && Spent(t.store, id) && s.store.executions.Keys <= t.store.executions.Keys
    requires forall i :: i != id ==> (Spent(t.store, i) <==> Spent(s.store, i))
    ensures DispatchesSound(t) && BudgetKept(t.store, t.dispatches, t.recoveries)
  {
    hide DispatchCount, RecoveryCount;
    forall i ensures DispatchCount(t.dispatches, i) == DispatchCount(s.dispatches, i) + (if id == i then 1 else 0) {
      DispatchCountAppend(s.dispatches, Dispatch(id, owner), i);
    }
  }

  /** The three ends of a dispatch by an owner that finds its claim claimed, if it still has it. */
  lemma DispatchEnds(t: Tables, id: string, owner: string)
    requires ClaimsSound(t)
    requires id in t.executions && t.executions[id].owner == owner ==> t.executions[id].state == Claimed
    ensures var tx := DispatchTx(t, id, owner);
            if tx.result.Err? && tx.result.error != AuthorityRevoked then tx.tables == t
            else
              var claim := Advanced(t.executions[id], if tx.result.Ok? then Dispatched else Aborted);
              && id in t.executions && t.executions[id].owner == owner && t.executions[id].state == Claimed
              && tx.tables == SetClaim(t, id, claim) && ClaimSound(t.writes, id, claim)
  {
    hide SelectPrepared, Authorization, ClaimSound;
    if id in t.executions { AdvancedSound(t, id, Aborted); AdvancedSound(t, id, Dispatched); }
  }

  lemma InvAfterDispatched(hash: Hash, s: World, owner: string)
    requires Inv(hash, s) && owner in s.workers && s.workers[owner].pc.Dispatching?
    requires DispatchTx(s.store, s.workers[owner].writeId, owner).result.Ok?
    ensures Inv(hash, DispatchStep(s, owner))
  {
    hide SelectPrepared, WritesSound, ApprovalsSound, PermissionsSound, ClaimsSound, ReceiptsSound;
    hide DispatchCount, RecoveryCount, ReceiptsTell, IsRow, ClaimSound, DispatchTx, DispatchesSound, KeyOf;
    var me := s.workers[owner];
    var id := me.writeId;
    assert WorkerSound(s.store, s.dispatches, s.calls, owner, me);
    var t := DispatchStep(s, owner);
    DispatchEnds(s.store, id, owner);
    assert NoCallBy(s.calls, owner);
    hide CallsSound;
    DispatchLogged(s, t, owner, id);
    ClaimUpdate(hash, s, t, owner, id, Advanced(s.store.executions[id], Dispatched), t.workers[owner]);
  }

  lemma InvAfterDispatch(hash: Hash, s: World, owner: string)
    requires Inv(hash, s) && owner in s.workers && s.workers[owner].pc.Dispatching?
    ensures Inv(hash, DispatchStep(s, owner))
  {
    hide SelectPrepared, WritesSound, ApprovalsSound, PermissionsSound, ClaimsSound, ReceiptsSound, CallsSound;
    hide DispatchCount, RecoveryCount, ReceiptsTell, IsRow, ClaimSound, DispatchTx, DispatchesSound, KeyOf;
    var me := s.workers[owner];
    var id := me.writeId;
    assert WorkerSound(s.store, s.dispatches, s.calls, owner, me);
    var t := DispatchStep(s, owner);
    var tx := DispatchTx(s.store, id, owner);
    DispatchEnds(s.store, id, owner);
    if tx.result.Ok? {
      InvAfterDispatched(hash, s, owner);
    } else if tx.result.error == AuthorityRevoked {
      AbortedSound(s, t, owner, id);
      ClaimUpdate(hash, s, t, owner, id, Advanced(s.store.executions[id], Aborted), me.(pc := Aborting));
    } else {
      LocalStep(hash, s, owner, me.(pc := Stopped));
    }
  }

  lemma AbortedSound(s: World, t: World, owner: string, id: string)
    requires BudgetKept(s.store, s.dispatches, s.recoveries) && DispatchesSound(s) && JobsKept(s.workers, t.workers)
    requires t.recoveries == s.recoveries && t.dispatches == s.dispatches
    requires id in s.store.executions && !Spent(s.store, id)
    requires t.store == SetClaim(s.store, id, Advanced(s.store.executions[id], Aborted))
    ensures BudgetKept(t.store, t.dispatches, t.recoveries) && DispatchesSound(t)
  {
    hide DispatchCount, RecoveryCount;
  }

  lemma InvAfterAbort(hash: Hash, s: World, owner: string)
    requires Inv(hash, s) && owner in s.workers && s.workers[owner].pc.Aborting?
    ensures Inv(hash, FinishStep(s, owner))
  {
    hide SelectPrepared, WritesSound, ApprovalsSound, PermissionsSound, ClaimsSound, ReceiptsSound, CallsSound;
    hide DispatchCount, KeyOf, ReceiptsTell, IsRow, ClaimSound;
    var me := s.workers[owner];
    var id := me.writeId;
    assert WorkerSound(s.store, s.dispatches, s.calls, owner, me);
    var t := FinishStep(s, owner);
    if OwnedClaim(s.store, id, owner).Err? {
      LocalStep(hash, s, owner, me.(pc := Stopped));
    } else {
      AdvancedSound(s.store, id, Aborted);
      ClaimUpdate(hash, s, t, owner, id, Advanced(s.store.executions[id], Aborted), me.(pc := Stopped));
    }
  }

  // --- finalize ---

  function FinalClaim(claim: ExecutionClaim, receipt: WriteReceipt): ExecutionClaim {
    Advanced(claim, Finalized).(attempts := receipt.attempts)
  }

  function WithReceipt(t: Tables, id: string, receipt: WriteReceipt): Tables
    requires id in t.executions
  {
    SetClaim(t, id, FinalClaim(t.executions[id], receipt)).(receipts := t.receipts[id := receipt])
  }

  lemma WithReceiptClaims(t: Tables, id: string, receipt: WriteReceipt)
    requires ClaimsSound(t) && id in t.executions
    ensures ClaimsSound(WithReceipt(t, id, receipt))
  {
    hide SelectPrepared, KeyOf;
    var u := WithReceipt(t, id, receipt);
    forall i | i in u.executions ensures ClaimSound(u.writes, i, u.executions[i]) {
      assert ClaimSound(t.writes, i, t.executions[i]);
    }
  }

  lemma WithReceiptSound(t: Tables, imported: map<string, WriteReceipt>, id: string, receipt: WriteReceipt)
    requires ReceiptsSound(t, imported)
    requires id in t.executions && id !in imported && !IsFinalized(t, id)
    requires receipt.writeId == id && receipt.idempotencyKey == t.executions[id].idempotencyKey
    ensures ReceiptsSound(WithReceipt(t, id, receipt), imported)
  {
    var u := WithReceipt(t, id, receipt);
    forall i ensures IsFinalized(u, i) <==> IsFinalized(t, i) || i == id {}
    assert forall i :: i in u.receipts <==> i in t.receipts || i == id;
    assert forall i :: i != id && i in t.executions ==> u.executions[i] == t.executions[i];
    assert forall i :: i != id && i in t.receipts ==> u.receipts[i] == t.receipts[i];
  }

  lemma OwnersAfterReceipt(s: World, t: World, owner: string, id: string, receipt: WriteReceipt)
    requires OwnersKnown(s) && ReceiptsTell(s) && ImportedLeft(s) && BudgetKept(s.store, s.dispatches, s.recoveries)
    requires owner in s.workers && id in s.store.executions && s.store.executions[id].owner == owner
    requires s.store.executions[id].state == Dispatched && TellsLastCall(s.calls, owner, receipt)
    requires t == Goto(s.(store := WithReceipt(s.store, id, receipt)), owner, Stopped)
    ensures OwnersKnown(t) && ReceiptsTell(t) && ImportedLeft(t) && BudgetKept(t.store, t.dispatches, t.recoveries)
  {
    hide TellsLastCall, DispatchCount, RecoveryCount;
    forall i ensures Spent(t.store, i) <==> Spent(s.store, i) {}
  }

  lemma FinalizerFacts(hash: Hash, s: World, owner: string, id: string, receipt: WriteReceipt)
    requires Inv(hash, s) && owner in s.workers && s.workers[owner].pc == Finalizing(receipt)
    requires id == s.workers[owner].writeId && id in s.store.executions && s.store.executions[id].owner == owner
    ensures id !in s.imported && !IsFinalized(s.store, id) && s.store.executions[id].state == Dispatched
    ensures receipt.writeId == id && receipt.idempotencyKey == s.store.executions[id].idempotencyKey
    ensures TellsLastCall(s.calls, owner, receipt)
  {
    hide SelectPrepared, WritesSound, ApprovalsSound, PermissionsSound, TellsLastCall, ReceiptsSound, ReceiptsTell;
    hide DispatchesSound, BudgetKept, CallsSound, OwnersKnown, KeyOf;
    assert WorkerSound(s.store, s.dispatches, s.calls, owner, s.workers[owner]);
    assert ClaimSound(s.store.writes, id, s.store.executions[id]);
  }

  lemma InvAfterReceipt(hash: Hash, s: World, owner: string, id: string, receipt: WriteReceipt)
    requires Inv(hash, s) && owner in s.workers && s.workers[owner].pc == Finalizing(receipt)
    requires id == s.workers[owner].writeId && id in s.store.executions && s.store.executions[id].owner == owner
    ensures Inv(hash, Goto(s.(store := WithReceipt(s.store, id, receipt)), owner, Stopped))
  {
    hide WritesSound, ApprovalsSound, PermissionsSound, ClaimsSound, TellsLastCall, SelectPrepared, ReceiptsSound;
    hide BudgetKept, CallsSound, OwnersKnown, ReceiptsTell, ImportedLeft, WorkerSound, WorkersSound, IsFinalized;
    var t := Goto(s.(store := WithReceipt(s.store, id, receipt)), owner, Stopped);
    FinalizerFacts(hash, s, owner, id, receipt);
    WithReceiptClaims(s.store, id, receipt);
    WithReceiptSound(s.store, s.imported, id, receipt);
    OwnersAfterReceipt(s, t, owner, id, receipt);
    StoppedSound(t.store, t.dispatches, t.calls, owner, t.workers[owner]);
    AllSound(s, t, owner, t.workers[owner]);
    CallsKept(s, t);
  }

  lemma StoppedSound(t: Tables, dispatches: seq<Dispatch>, calls: seq<AdapterCall>, owner: string, me: Worker)
    requires me.pc.Stopped?
    ensures WorkerSound(t, dispatches, calls, owner, me)
  {
  }

  lemma FinalizeEnds(hash: Hash, s: World, owner: string, receipt: WriteReceipt)
    requires Inv(hash, s) && owner in s.workers && s.workers[owner].pc == Finalizing(receipt)
    ensures var id := s.workers[owner].writeId;
            var owned := id in s.store.executions && s.store.executions[id].owner == owner;
            && id !in s.imported
            && FinishStep(s, owner)
               == Goto(if owned then s.(store := WithReceipt(s.store, id, receipt)) else s, owner, Stopped)
  {
    hide SelectPrepared, StoreSound, CallsSound, BudgetKept, TellsLastCall, DispatchesSound, ReceiptsTell, OwnersKnown;
    assert WorkerSound(s.store, s.dispatches, s.calls, owner, s.workers[owner]);
  }

  lemma InvAfterFinalize(hash: Hash, s: World, owner: string)
    requires Inv(hash, s) && owner in s.workers && s.workers[owner].pc.Finalizing?
    ensures Inv(hash, FinishStep(s, owner))
  {
    hide Inv, FinishStep;
    var me := s.workers[owner];
    FinalizeEnds(hash, s, owner, me.pc.receipt);
    if me.writeId in s.store.executions && s.store.executions[me.writeId].owner == owner {
      InvAfterReceipt(hash, s, owner, me.writeId, me.pc.receipt);
    } else {
      InvAfterStop(hash, s, owner);
    }
  }

  lemma InvAfterStop(hash: Hash, s: World, owner: string)
    requires Inv(hash, s) && owner in s.workers
    ensures Inv(hash, Goto(s, owner, Stopped))
  {
    hide SelectPrepared, StoreSound, CallsSound, BudgetKept, DispatchesSound, ReceiptsTell, OwnersKnown, ReceiptsSound;
    LocalStep(hash, s, owner, s.workers[owner].(pc := Stopped));
  }

  // --- the adapter ---

  lemma CallLogged(s: World, t: World, owner: string, c: AdapterCall)
    requires CallsSound(s) && t.calls == s.calls + [c] && c.owner == owner
    requires JobsKept(s.workers, t.workers) && t.store == s.store && t.dispatches == s.dispatches
    requires CallSound(t, c)
    requires forall d :: d in s.calls && d.owner == owner ==> d.attempt < c.attempt && DefiniteFailure(d.outcome)
    ensures CallsSound(t)
  {
    hide SelectPrepared;
    forall d | d in t.calls ensures CallSound(t, d) {
      if d != c { assert CallSound(s, d); }
    }
  }

  /** Receipts of others keep telling the last call when `owner`, who has no receipt, makes one. */
  lemma ReceiptsStillTell(s: World, t: World, owner: string, c: AdapterCall)
    requires ReceiptsTell(s) && t.store == s.store && t.calls == s.calls + [c] && c.owner == owner
    requires forall id :: IsFinalized(s.store, id) ==> s.store.executions[id].owner != owner
    ensures ReceiptsTell(t)
  {
    forall id | IsFinalized(t.store, id) && id in t.store.receipts
      ensures TellsLastCall(t.calls, t.store.executions[id].owner, t.store.receipts[id])
    {
      var o, receipt := s.store.executions[id].owner, s.store.receipts[id];
      assert TellsLastCall(s.calls, o, receipt);
      var d :| d in s.calls && Reports(d, o, receipt);
      assert d in t.calls;
    }
  }

  lemma InvokerSound(t: Tables, dispatches: seq<Dispatch>, calls: seq<AdapterCall>, owner: string, me: Worker,
                     c: AdapterCall, next: Pc)
    requires WorkerSound(t, dispatches, calls, owner, me) && me.pc.Invoking?
    requires c.owner == owner && c.attempt == me.pc.attempt
    requires next == if Retries(c.outcome, me.pc.attempt, me.maxRetries) then me.pc.(attempt := me.pc.attempt + 1)
                     else Finalizing(ReceiptFor(me.pc.prepared, me.pc.auth, ResultOf(c.outcome), me.pc.attempt,
                                                me.completedAt))
    ensures WorkerSound(t, dispatches, calls + [c], owner, me.(pc := next))
  {
    hide SelectPrepared;
    assert KeyOf(me.pc.prepared.(exactApprovalId := None)) == KeyOf(me.pc.prepared);
    if next.Finalizing? {
      assert c in calls + [c] && Reports(c, owner, next.receipt);
    }
  }

  lemma NotFinalizedYet(s: World, owner: string)
    requires WorkersSound(s) && OwnersKnown(s) && owner in s.workers && s.workers[owner].pc.Invoking?
    ensures forall id :: IsFinalized(s.store, id) ==> s.store.executions[id].owner != owner
  {
    hide SelectPrepared;
    forall id | IsFinalized(s.store, id) ensures s.store.executions[id].owner != owner {
      assert WorkerSound(s.store, s.dispatches, s.calls, owner, s.workers[owner]);
    }
  }

  /** The call of an invoking worker is sound, and so is the worker after it. */
  lemma CallMade(hash: Hash, s: World, owner: string, outcome: Outcome) returns (t: World, c: AdapterCall)
    requires Inv(hash, s) && owner in s.workers && s.workers[owner].pc.Invoking?
    ensures t == InvokeStep(s, owner, outcome) && t == Goto(s.(calls := s.calls + [c]), owner, t.workers[owner].pc)
    ensures c.owner == owner && CallsSound(t) && JobsKept(s.workers, t.workers)
    ensures WorkerSound(t.store, t.dispatches, t.calls, owner, t.workers[owner])
  {
    hide SelectPrepared, StoreSound, BudgetKept, DispatchesSound, ReceiptsTell, OwnersKnown, CallsSound;
    hide Retries, ResultOf, ReceiptFor;
    var me := s.workers[owner];
    var p := me.pc.prepared;
    assert WorkerSound(s.store, s.dispatches, s.calls, owner, me);
    hide WorkersSound;
    t := InvokeStep(s, owner, outcome);
    c := AdapterCall(owner, me.writeId, p.payload, KeyOf(p), me.pc.attempt, outcome);
    InvokerSound(s.store, s.dispatches, s.calls, owner, me, c, t.workers[owner].pc);
    assert KeyOf(p.(exactApprovalId := None)) == KeyOf(p);
    CallLogged(s, t, owner, c);
  }

  lemma InvAfterInvoke(hash: Hash, s: World, owner: string, outcome: Outcome)
    requires Inv(hash, s) && owner in s.workers && s.workers[owner].pc.Invoking?
    ensures Inv(hash, InvokeStep(s, owner, outcome))
  {
    hide StoreSound, ReceiptsSound, BudgetKept, CallsSound, WorkerSound, JobsKept, InvokeStep;
    var t, c := CallMade(hash, s, owner, outcome);
    DispatchesKept(s, t);
    hide DispatchesSound;
    NotFinalizedYet(s, owner);
    ReceiptsStillTell(s, t, owner, c);
    hide ReceiptsTell;
    AllSound(s, t, owner, t.workers[owner]);
    hide Elsewhere, WorkersSound;
  }

  // --- recovery ---

  lemma RecoveredSound(s: World, t: World, id: string, owner: string)
    requires BudgetKept(s.store, s.dispatches, s.recoveries) && DispatchesSound(s) && JobsKept(s.workers, t.workers)
    requires t.recoveries == s.recoveries + [id] && t.dispatches == s.dispatches
    requires id in s.store.executions
    requires t.store == SetClaim(s.store, id, Advanced(s.store.executions[id], Claimed).(owner := owner))
    ensures BudgetKept(t.store, t.dispatches, t.recoveries) && DispatchesSound(t)
  {
    hide DispatchCount, RecoveryCount;
    forall i ensures RecoveryCount(t.recoveries, i) == RecoveryCount(s.recoveries, i) + (if id == i then 1 else 0) {
      RecoveryCountAppend(s.recoveries, id, i);
    }
  }

  lemma RecoveredClaimSound(t: Tables, id: string, owner: string)
    requires ClaimsSound(t) && id in t.executions
    ensures ClaimSound(t.writes, id, Advanced(t.executions[id], Claimed).(owner := owner))
  {
  }

  lemma FreshOwner(s: World, owner: string)
    requires DispatchesSound(s) && CallsSound(s) && OwnersKnown(s) && owner !in s.workers
    ensures NoDispatchBy(s.dispatches, owner) && NoCallBy(s.calls, owner)
    ensures forall id :: id in s.store.executions ==> s.store.executions[id].owner != owner
  {
    hide SelectPrepared;
    forall c | c in s.calls ensures c.owner != owner { assert CallSound(s, c); }
  }

  lemma InvAfterRecover(hash: Hash, s: World, id: string, revision: int, owner: string, maxRetries: int, at: int)
    requires Inv(hash, s)
    ensures Inv(hash, RecoverStep(s, id, revision, owner, maxRetries, at))
  {
    hide WritesSound, ApprovalsSound, PermissionsSound, ClaimsSound, ClaimSound, ReceiptsTell, BudgetKept, IsRow;
    hide DispatchesSound, CallsSound, SelectPrepared, WorkersSound, ImportedLeft, OwnersKnown;
    var t := RecoverStep(s, id, revision, owner, maxRetries, at);
    if t != s {
      var claim := Advanced(s.store.executions[id], Claimed).(owner := owner);
      assert !IsFinalized(s.store, id) && id !in s.imported;
      hide ReceiptsSound, IsFinalized;
      var me := Worker(id, maxRetries, at, Dispatching(SelectPrepared(s.store.writes, id).value, claim.authorization));
      assert t == SetWorker(s.(store := SetClaim(s.store, id, claim), recoveries := s.recoveries + [id]), owner, me);
      hide RecoverStep, RecoverTx;
      RecoveredClaimSound(s.store, id, owner);
      FreshOwner(s, owner);
      RecoveredSound(s, t, id, owner);
      RecovererSound(hash, t.store, t.dispatches, t.calls, owner, me);
      ClaimUpdate(hash, s, t, owner, id, claim, me);
    }
  }

  lemma RecovererSound(hash: Hash, t: Tables, dispatches: seq<Dispatch>, calls: seq<AdapterCall>, owner: string,
                       me: Worker)
    requires WritesSound(hash, t.writes) && me.writeId in t.executions && t.executions[me.writeId].state == Claimed
    requires SelectPrepared(t.writes, me.writeId).Some? && me.maxRetries >= 0
    requires me.pc.Dispatching? && me.pc.prepared == SelectPrepared(t.writes, me.writeId).value
    requires NoDispatchBy(dispatches, owner)
    ensures WorkerSound(t, dispatches, calls, owner, me)
  {
    RowIsSound(hash, t, me.writeId);
  }

  // --- preparation, approval, grant, revocation ---

  lemma PreparedSound(hash: Hash, t: Tables, w: PreparedWrite)
    requires WritesSound(hash, t.writes) && w.payloadDigest == hash(w.payload) && w.exactApprovalId == None
    ensures var u := PrepareTx(t, w).tables;
            WritesSound(hash, u.writes) && WritesKept(t.writes, u.writes) && u == t.(writes := u.writes)
  {
    var u := PrepareTx(t, w).tables;
    if u != t {
      forall id ensures SelectPrepared(u.writes, id)
                     == if SelectPrepared(t.writes, id).Some? then SelectPrepared(t.writes, id)
                        else if w.id == id then Some(w) else None {
        SelectPreparedAppend(t.writes, w, id);
      }
      forall i | 0 <= i < |u.writes| ensures SelectPrepared(u.writes, u.writes[i].id) == Some(u.writes[i]) {
        if i < |t.writes| { assert u.writes[i] == t.writes[i]; }
      }
    }
  }

  lemma WritesKeptSound(t: Tables, writes: seq<PreparedWrite>)
    requires WritesKept(t.writes, writes) && ApprovalsSound(t.writes, t.approvals) && ClaimsSound(t)
    ensures ApprovalsSound(writes, t.approvals) && ClaimsSound(t.(writes := writes))
  {
    hide SelectPrepared, KeyOf;
    forall a | a in t.approvals ensures ApprovalSound(writes, a) { assert ApprovalSound(t.writes, a); }
    forall id | id in t.executions ensures ClaimSound(writes, id, t.executions[id]) {
      assert ClaimSound(t.writes, id, t.executions[id]);
    }
  }

  lemma ApprovedSound(t: Tables, id: string, digest: string, approvalId: string, at: int)
    requires ApprovalsSound(t.writes, t.approvals) && approvalId != ""
    ensures var u := ApproveTx(t, id, digest, approvalId, at).tables;
            ApprovalsSound(t.writes, u.approvals) && u == t.(approvals := u.approvals)
  {
    hide SelectPrepared, SelectApproval;
    var u := ApproveTx(t, id, digest, approvalId, at).tables;
    if u != t {
      forall a | a in t.approvals ensures a.writeId != id { assert ApprovalSound(t.writes, a) && !Approves(a, id); }
    }
  }

  lemma RevokedSound(permissions: seq<PermissionRecord>, id: string, at: int)
    requires PermissionsSound(permissions)
    ensures PermissionsSound(Revoked(permissions, id, at))
  {
    var revoked := Revoked(permissions, id, at);
    forall p | p in revoked ensures p.active <==> p.revokedAt == None {
      var i :| 0 <= i < |revoked| && revoked[i] == p;
      assert permissions[i] in permissions;
    }
  }

  lemma GrantedSound(t: Tables, id: string, scope: Scope, at: int)
    requires PermissionsSound(t.permissions)
    ensures var u := GrantTx(t, id, scope, at).tables;
            PermissionsSound(u.permissions) && u == t.(permissions := u.permissions)
  {
  }

  lemma AdministerSound(hash: Hash, t: Tables, e: Event)
    requires StoreSound(hash, t) && (e.Prepare? || e.Approve? || e.Grant? || e.Revoke?)
    ensures var u := Administer(hash, t, e);
            StoreSound(hash, u) && WritesKept(t.writes, u.writes)
            && u.executions == t.executions && u.receipts == t.receipts
  {
    hide SelectPrepared, WritesSound, ApprovalsSound, PermissionsSound, ClaimSound, ValidPreparation, ValidScope;
    hide PrepareTx, ApproveTx, GrantTx, RevokeTx;
    var u := Administer(hash, t, e);
    match e
    case Prepare(id, scope, payload, at) =>
      PreparedSound(hash, t, PreparedOf(hash, id, scope, payload, at));
      hide Administer;
      WritesKeptSound(t, u.writes);
    case Approve(id, digest, approvalId, at) =>
      if Text.Strip(approvalId) != "" { ApprovedSound(t, id, digest, approvalId, at); }
    case Grant(id, scope, at) => GrantedSound(t, id, scope, at);
    case Revoke(id, at) => RevocationSound(t, id, at);
  }

  lemma RevocationSound(t: Tables, id: string, at: int)
    requires PermissionsSound(t.permissions)
    ensures var u := RevokeTx(t, id, at).tables;
            PermissionsSound(u.permissions) && u == t.(permissions := u.permissions)
  {
    RevokedSound(t.permissions, id, at);
    hide Revoked, PermissionsSound;
  }

  lemma InvAfterAdminister(hash: Hash, s: World, e: Event)
    requires Inv(hash, s) && (e.Prepare? || e.Approve? || e.Grant? || e.Revoke?)
    ensures Inv(hash, Apply(hash, s, e))
  {
    hide SelectPrepared, StoreSound, WorkerSound, CallsSound, TellsLastCall, DispatchCount, RecoveryCount, Administer;
    AdministerSound(hash, s.store, e);
    var t := Apply(hash, s, e);
    CallsKept(s, t);
    forall o | o in t.workers ensures WorkerSound(t.store, t.dispatches, t.calls, o, t.workers[o]) {
      assert |o + "'"| != |o|;
      BystanderSound(s, t, o + "'", o, s.workers[o]);
    }
  }

  lemma InvAfterStart(hash: Hash, s: World, owner: string, me: Worker)
    requires Inv(hash, s) && owner !in s.workers && me.pc == ReadingReceipt
    ensures Inv(hash, SetWorker(s, owner, me))
  {
    hide SelectPrepared, StoreSound, ReceiptsSound, BudgetKept, ReceiptsTell;
    FreshOwner(s, owner);
    hide CallsSound, OwnersKnown, DispatchesSound;
    LocalStep(hash, s, owner, me);
  }

  lemma InvPreserved(hash: Hash, s: World, e: Event)
    requires Inv(hash, s)
    ensures Inv(hash, Apply(hash, s, e))
  {
    hide Inv, ReadStep, ClaimStep, DispatchStep, InvokeStep, FinishStep, RecoverStep, Administer;
    match e
    case Start(owner, id, maxRetries, at) =>
      if owner !in s.workers { InvAfterStart(hash, s, owner, Worker(id, maxRetries, at, ReadingReceipt)); }
    case Step(owner, outcome) =>
      if owner in s.workers {
        match s.workers[owner].pc
        case Claiming(_, _) => InvAfterClaim(hash, s, owner);
        case Dispatching(_, _) => InvAfterDispatch(hash, s, owner);
        case Invoking(_, _, _) => InvAfterInvoke(hash, s, owner, outcome);
        case Aborting => InvAfterAbort(hash, s, owner);
        case Finalizing(_) => InvAfterFinalize(hash, s, owner);
        case _ => InvAfterRead(hash, s, owner);
      }
    case Crash(owner) => if owner in s.workers { InvAfterStop(hash, s, owner); }
    case Recover(id, revision, owner, maxRetries, at) => InvAfterRecover(hash, s, id, revision, owner, maxRetries, at);
    case _ => InvAfterAdminister(hash, s, e);
  }

  lemma {:induction false} InvAlways(hash: Hash, s: World, events: seq<Event>)
    requires Inv(hash, s)
    ensures Inv(hash, Run(hash, s, events))
    decreases |events|
  {
    if events != [] {
      InvPreserved(hash, s, events[0]);
      InvAlways(hash, Apply(hash, s, events[0]), events[1..]);
    }
  }
}
