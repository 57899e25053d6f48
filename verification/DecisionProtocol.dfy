/** Any number of decision requests on one store, interleaved between their transactions
    (src/reckoning/application.py:640-1040). */
module DecisionProtocol {
  import opened Wrappers
  import opened Continuity
  import opened ContinuityStore
  import Text

  type Hash = string -> string

  /** What a client asks for.  The submission is "" when there is none. */
  datatype Request =
    | StartRequest(text: string, op: Option<string>)
    | CorrectRequest(reckoningId: string, recordId: string, meaning: string, expected: Option<int>,
                     op: Option<string>, submission: string)
    | ConfirmRequest(reckoningId: string, expected: Option<int>, op: Option<string>, submission: string)
    | CheckInRequest(reckoningId: string, outcome: string)

  datatype Provided = Blocked | Unavailable | Crossed(draft: Draft) | Drafted(draft: Draft)

  /** What a step takes from outside: the provider, fresh identifiers and the clock. */
  datatype Env = Env(provided: Provided, freshId: string, recordIds: seq<string>, at: int)

  datatype Reply = Decision(reckoning: Reckoning) | CheckedIn(checkIn: CheckIn) | Refused(error: DecisionError)

  datatype Pc =
    | Checking                                      // input and operation id not looked at yet
    | Fetching(resultId: string)                    // a completed replay
    | Preparing                                     // before the provider or the stored decision
    | Saving(base: Option<Reckoning>, next: Reckoning, record: Option<OperationRecord>)
    | Recording(entry: OperationRecord, reply: Reply)
    | Explaining(decision: Reckoning)
    | CheckingIn(checkIn: CheckIn)
    | Done(reply: Reply)

  datatype Worker = Worker(request: Request, pc: Pc)

  /** A decision mutation that was committed, with the operation it was committed under. */
  datatype Commit = Commit(op: Option<string>, reckoning: Reckoning)

  datatype World = World(store: Store, workers: map<nat, Worker>, commits: seq<Commit>)

  datatype Event = Submit(w: nat, request: Request) | Step(w: nat, env: Env) | Crash(w: nat)

  // ---------------------------------------------------------------------
  // Operation identity
  // ---------------------------------------------------------------------

  /** `str(expected_revision)` */
  function RevisionText(r: Option<int>): string {
    match r
    case None => "None"
    case Some(n) => if n < 0 then "-" + Text.Decimal(-n) else Text.Decimal(n)
  }

  function Joined(parts: seq<string>): string {
    if parts == [] then "" else if |parts| == 1 then parts[0] else parts[0] + "|" + Joined(parts[1..])
  }

  function Parts(r: Request): seq<string> {
    match r
    case StartRequest(text, _) => [Text.Strip(text)]
    case CorrectRequest(id, recordId, meaning, expected, _, submission) =>
      [id, recordId, Text.Strip(meaning), RevisionText(expected), submission]
    case ConfirmRequest(id, expected, _, submission) => [id, RevisionText(expected), submission]
    case CheckInRequest(id, outcome) => []
  }

  /** The digest sees only the joined text, and not the kind of the request. */
  function DigestOf(hash: Hash, r: Request): string { hash(Joined(Parts(r))) }

  function OpOf(r: Request): Option<string> { if r.CheckInRequest? then None else r.op }

  function Replay(hash: Hash, s: Store, r: Request): Result<Option<string>, DecisionError> {
    var op := OpOf(r);
    if op == None || op.value !in s.operations then Ok(None)
    else
      var record := s.operations[op.value];
      if record.digest != DigestOf(hash, r) then Err(OperationConflict)
      else if record.status == Failed then Ok(None)
      else Ok(Some(record.resultId))
  }

  function CompletedOperation(hash: Hash, r: Request, resultId: string, at: int): Option<OperationRecord>
    requires !r.CheckInRequest?
  {
    if r.op == None then None
    else
      var digest := DigestOf(hash, r);
      Some(match r
           case StartRequest(text, op) =>
             OperationRecord(op.value, digest, Completed, resultId, "", at, "start-reckoning", resultId, None, "", "",
                             Text.Strip(text))
           case CorrectRequest(id, recordId, meaning, expected, op, submission) =>
             OperationRecord(op.value, digest, Completed, resultId, "", at, "correct", id, expected, recordId,
                             Text.Strip(meaning), submission)
           case ConfirmRequest(id, expected, op, submission) =>
             OperationRecord(op.value, digest, Completed, resultId, "", at, "confirm", id, expected,
                             "", "", submission))
  }

  function FailedOperation(hash: Hash, r: Request, at: int): Option<OperationRecord>
    requires r.StartRequest?
  {
    if r.op == None then None
    else Some(OperationRecord(r.op.value, DigestOf(hash, r), Failed, "", Text.Strip(r.text), at, "start-reckoning", "",
                              None, "", "", Text.Strip(r.text)))
  }

  // ---------------------------------------------------------------------
  // Steps
  // ---------------------------------------------------------------------

  predicate Empty(r: Request) {
    match r
    case StartRequest(text, _) => Stripped(text)
    case CorrectRequest(_, _, meaning, _, _, _) => Stripped(meaning)
    case ConfirmRequest(_, _, _, _) => false
    case CheckInRequest(_, outcome) => Stripped(outcome)
  }

  function AfterCheck(hash: Hash, s: Store, r: Request): Pc {
    if Empty(r) then Done(Refused(InvalidValue))
    else
      var replay := Replay(hash, s, r);
      if replay.Err? then Done(Refused(replay.error))
      else if replay.value.Some? then Fetching(replay.value.value)
      else Preparing
  }

  /** Fresh identifiers: one per proposed record, all different. */
  predicate FreshIds(draft: Draft, ids: seq<string>) {
    |ids| == |draft.proposedRecords| && forall i, j :: 0 <= i < j < |ids| ==> ids[i] != ids[j]
  }

  function AfterProvider(hash: Hash, r: Request, env: Env): Pc
    requires r.StartRequest?
  {
    match env.provided
    case Blocked => Done(Refused(ProcessingBlocked))
    case Unavailable =>
      var failed := FailedOperation(hash, r, env.at);
      if failed == None then Done(Refused(ProviderFailed)) else Recording(failed.value, Refused(ProviderFailed))
    case Crossed(draft) => Done(Refused(if ValidDraft(draft) then ProtectedBoundary else InvalidDraft))
    case Drafted(draft) =>
      if !ValidDraft(draft) then Done(Refused(InvalidDraft))
      else if !FreshIds(draft, env.recordIds) then Preparing
      else
        var next := Started(env.freshId, Text.Strip(r.text), draft, env.recordIds, env.at);
        Saving(None, next, CompletedOperation(hash, r, next.id, env.at))
  }

  predicate Stale(base: Reckoning, expected: Option<int>) { expected.Some? && base.version != expected.value }

  function AfterReadToCorrect(hash: Hash, r: Request, base: Reckoning, env: Env): Pc
    requires r.CorrectRequest?
  {
    if Stale(base, r.expected) then Done(Refused(RevisionConflict))
    else if base.status == Confirmed then Done(Refused(InvalidValue))
    else
      var current := FindRecord(CurrentRecords(base.recordVersions), r.recordId);
      if current == None then Done(Refused(UnknownRecord))
      else
        Saving(Some(base), Corrected(base, current.value, Text.Strip(r.meaning), env.freshId, env.at),
               CompletedOperation(hash, r, r.reckoningId, env.at))
  }

  function AfterReadToConfirm(hash: Hash, r: Request, base: Reckoning, env: Env): Pc
    requires r.ConfirmRequest?
  {
    if Stale(base, r.expected) then Done(Refused(RevisionConflict))
    else
      var completed := CompletedOperation(hash, r, r.reckoningId, env.at);
      if base.status == Confirmed then
        if completed == None then Done(Decision(base)) else Recording(completed.value, Decision(base))
      else Saving(Some(base), ConfirmedReckoning(base, env.at), completed)
  }

  function AfterPreparing(hash: Hash, s: Store, r: Request, env: Env): Pc {
    if r.StartRequest? then AfterProvider(hash, r, env)
    else if r.reckoningId !in s.reckonings then Done(Refused(UnknownReckoning))
    else
      var base := s.reckonings[r.reckoningId];
      match r
      case CorrectRequest(_, _, _, _, _, _) => AfterReadToCorrect(hash, r, base, env)
      case ConfirmRequest(_, _, _, _) => AfterReadToConfirm(hash, r, base, env)
      case _ => if base.status != Confirmed then Done(Refused(InvalidValue)) else Explaining(base)
  }

  function AfterExplaining(s: Store, r: Request, decision: Reckoning, env: Env): Pc
    requires r.CheckInRequest?
  {
    if r.reckoningId !in s.reckonings then Done(Refused(UnknownReckoning))
    else
      var why := Explain(s.reckonings[r.reckoningId]);
      CheckingIn(CheckIn(env.freshId, decision.id, env.at, Text.Strip(r.outcome), IdsOf(why.evidence)))
  }

  function Goto(s: World, w: nat, pc: Pc): World
    requires w in s.workers
  {
    s.(workers := s.workers[w := s.workers[w].(pc := pc)])
  }

  function SaveStep(s: World, w: nat): World
    requires w in s.workers && s.workers[w].pc.Saving?
  {
    var me := s.workers[w];
    var expected := if me.pc.base == None then 0 else me.pc.base.value.version;
    var tx := SaveTx(s.store, me.pc.next, expected, me.pc.record);
    match tx.result
    case Err(error) => Goto(s, w, Done(Refused(error)))
    case Ok(_) =>
      Goto(World(tx.store, s.workers, s.commits + [Commit(OpOf(me.request), me.pc.next)]),
           w, Done(Decision(me.pc.next)))
  }

  function RecordStep(s: World, w: nat): World
    requires w in s.workers && s.workers[w].pc.Recording?
  {
    var me := s.workers[w];
    var tx := RecordTx(s.store, me.pc.entry);
    Goto(s.(store := tx.store), w, Done(if tx.result.Err? then Refused(tx.result.error) else me.pc.reply))
  }

  function CheckInStep(s: World, w: nat): World
    requires w in s.workers && s.workers[w].pc.CheckingIn?
  {
    var c := s.workers[w].pc.checkIn;
    var tx := SaveCheckInTx(s.store, c);
    Goto(s.(store := tx.store), w, Done(if tx.result.Err? then Refused(tx.result.error) else CheckedIn(c)))
  }

  /** The steps that only read. */
  function AfterReading(hash: Hash, s: Store, me: Worker, env: Env): Pc {
    match me.pc
    case Checking => AfterCheck(hash, s, me.request)
    case Fetching(id) => Done(if id in s.reckonings then Decision(s.reckonings[id]) else Refused(UnknownReckoning))
    case Preparing => AfterPreparing(hash, s, me.request, env)
    case Explaining(decision) =>
      if me.request.CheckInRequest? then AfterExplaining(s, me.request, decision, env) else me.pc
    case _ => me.pc
  }

  function WorkerStep(hash: Hash, s: World, w: nat, env: Env): World
    requires w in s.workers
  {
    var me := s.workers[w];
    if me.pc.Saving? then SaveStep(s, w)
    else if me.pc.Recording? then RecordStep(s, w)
    else if me.pc.CheckingIn? then CheckInStep(s, w)
    else Goto(s, w, AfterReading(hash, s.store, me, env))
  }

  function Apply(hash: Hash, s: World, e: Event): World {
    match e
    case Submit(w, request) =>
      if w in s.workers then s else s.(workers := s.workers[w := Worker(request, Checking)])
    case Step(w, env) => if w in s.workers then WorkerStep(hash, s, w, env) else s
    case Crash(w) => s.(workers := s.workers - {w})
  }

  function Run(hash: Hash, s: World, events: seq<Event>): World
    decreases |events|
  {
    if events == [] then s else Run(hash, Apply(hash, s, events[0]), events[1..])
  }

  // ---------------------------------------------------------------------
  // The invariant
  // ---------------------------------------------------------------------

  ghost predicate StoreSound(s: Store) {
    && (forall id :: id in s.reckonings ==> s.reckonings[id].id == id && DecisionSound(s.reckonings[id]))
    && (forall op :: IsCompleted(s, op) ==> s.operations[op].resultId in s.reckonings)
    && (forall c :: c in s.checkIns ==> CheckInSound(s, c))
  }

  ghost predicate CheckInSound(s: Store, c: CheckIn) {
    && c.decisionId in s.reckonings && s.reckonings[c.decisionId].status == Confirmed
    && Cites(c, s.reckonings[c.decisionId])
  }

  /** A snapshot that still is, or once was, the stored decision. */
  predicate Snapshot(s: Store, base: Reckoning) {
    && base.id in s.reckonings && base.version <= s.reckonings[base.id].version
    && (base.version == s.reckonings[base.id].version ==> base == s.reckonings[base.id])
  }

  ghost predicate RecordFits(r: Request, record: Option<OperationRecord>, resultId: string) {
    && (record.Some? <==> OpOf(r).Some?)
    && (record.Some? ==> record.value.operationId == OpOf(r).value && record.value.status == Completed
                         && record.value.resultId == resultId)
  }

  ghost predicate WorkerSound(s: Store, me: Worker) {
    match me.pc
    case Fetching(id) => id in s.reckonings
    case Saving(base, next, record) =>
      && RecordFits(me.request, record, next.id) && DecisionSound(next)
      && (if base == None then next.version == 1 else Follows(base.value, next) && Snapshot(s, base.value))
    case Recording(record, _) => record.status == Completed ==> record.resultId in s.reckonings
    case Explaining(d) => d.id in s.reckonings && s.reckonings[d.id] == d && d.status == Confirmed
                          && me.request.CheckInRequest? && me.request.reckoningId == d.id
    case CheckingIn(c) => CheckInSound(s, c)
    case _ => true
  }

  function LastCommit(commits: seq<Commit>, id: string): Option<Reckoning> {
    if commits == [] then None
    else
      var last := |commits| - 1;
      if commits[last].reckoning.id == id then Some(commits[last].reckoning) else LastCommit(commits[..last], id)
  }

  /** A commit starts a decision or takes it one version further. */
  ghost predicate Extends(before: seq<Commit>, c: Commit) {
    match LastCommit(before, c.reckoning.id)
    case None => c.reckoning.version == 1
    case Some(p) => Follows(p, c.reckoning)
  }

  ghost predicate ChainSound(commits: seq<Commit>) {
    forall i :: 0 <= i < |commits| ==> Extends(commits[..i], commits[i])
  }

  ghost predicate LastIsStored(store: Store, commits: seq<Commit>) {
    forall id :: LastCommit(commits, id) == if id in store.reckonings then Some(store.reckonings[id]) else None
  }

  /** The operation of a commit is completed and names its decision, and no two commits share one. */
  ghost predicate OperationsSound(store: Store, commits: seq<Commit>) {
    && (forall i :: 0 <= i < |commits| && commits[i].op.Some? ==>
          && IsCompleted(store, commits[i].op.value)
          && store.operations[commits[i].op.value].resultId == commits[i].reckoning.id)
    && (forall i, j :: 0 <= i < j < |commits| && commits[i].op.Some? ==> commits[i].op != commits[j].op)
  }

  ghost predicate CommitsSound(store: Store, commits: seq<Commit>) {
    ChainSound(commits) && LastIsStored(store, commits) && OperationsSound(store, commits)
  }

  ghost predicate WorkersSound(s: World) { forall w :: w in s.workers ==> WorkerSound(s.store, s.workers[w]) }

  ghost predicate Inv(s: World) { StoreSound(s.store) && WorkersSound(s) && CommitsSound(s.store, s.commits) }

  function EmptyWorld(): World { World(Store(map[], map[], []), map[], []) }

  // ---------------------------------------------------------------------
  // One step
  // ---------------------------------------------------------------------

  /** Decisions only move on, and a confirmed one does not move. */
  ghost predicate Grows(s: Store, t: Store) {
    forall id :: id in s.reckonings ==>
      && id in t.reckonings
      && (t.reckonings[id] == s.reckonings[id]
          || (s.reckonings[id].status == Proposed && t.reckonings[id].version > s.reckonings[id].version))
  }

  lemma BystanderSound(s: Store, t: Store, me: Worker)
    requires WorkerSound(s, me) && Grows(s, t)
    ensures WorkerSound(t, me)
  {
    hide DecisionSound, Cites;
  }

  lemma UpdateSound(s: World, t: World, w: nat, me: Worker)
    requires WorkersSound(s) && Grows(s.store, t.store) && t.workers == s.workers[w := me] && WorkerSound(t.store, me)
    ensures WorkersSound(t)
  {
    hide WorkerSound;
    forall v | v in t.workers ensures WorkerSound(t.store, t.workers[v]) {
      if v != w { BystanderSound(s.store, t.store, s.workers[v]); }
    }
  }

  lemma AfterCheckSound(hash: Hash, s: Store, me: Worker)
    requires StoreSound(s)
    ensures WorkerSound(s, me.(pc := AfterCheck(hash, s, me.request)))
  {
    hide DigestOf, DecisionSound, CheckInSound, Empty;
    var r := me.request;
    if OpOf(r).Some? && IsCompleted(s, OpOf(r).value) { assert s.operations[OpOf(r).value].resultId in s.reckonings; }
    hide StoreSound;
  }

  lemma AfterProviderSound(hash: Hash, s: Store, me: Worker, env: Env)
    requires me.request.StartRequest?
    ensures WorkerSound(s, me.(pc := AfterProvider(hash, me.request, env)))
  {
    hide DigestOf, DecisionSound, ValidDraft, Text.Strip;
    var pc := AfterProvider(hash, me.request, env);
    if pc.Saving? {
      StartedSound(env.freshId, Text.Strip(me.request.text), env.provided.draft, env.recordIds, env.at);
    }
  }

  lemma AfterReadSound(hash: Hash, s: Store, me: Worker, env: Env)
    requires StoreSound(s) && !me.request.StartRequest? && me.request.reckoningId in s.reckonings
    ensures WorkerSound(s, me.(pc := AfterPreparing(hash, s, me.request, env)))
  {
    hide DigestOf, DecisionSound, Text.Strip, CurrentRecords, Corrected, ConfirmedReckoning;
    var base := s.reckonings[me.request.reckoningId];
    if base.status == Proposed {
      ConfirmedSound(base, env.at);
      if me.request.CorrectRequest? {
        var id := me.request.recordId;
        CurrentIsLatest(base.recordVersions, id);
        if Latest(base.recordVersions, id).Some? {
          CorrectedSound(base, id, Text.Strip(me.request.meaning), env.freshId, env.at);
        }
      }
    }
  }

  lemma AfterExplainingSound(s: Store, me: Worker, env: Env)
    requires StoreSound(s) && WorkerSound(s, me) && me.pc.Explaining?
    ensures WorkerSound(s, me.(pc := AfterExplaining(s, me.request, me.pc.decision, env)))
  {
    hide DecisionSound, Text.Strip, Explain, Cites;
    CheckInCites(env.freshId, s.reckonings[me.request.reckoningId], Text.Strip(me.request.outcome), env.at);
  }

  lemma InvAfterReading(hash: Hash, s: World, w: nat, env: Env)
    requires Inv(s) && w in s.workers
    requires !s.workers[w].pc.Saving? && !s.workers[w].pc.Recording? && !s.workers[w].pc.CheckingIn?
    ensures Inv(WorkerStep(hash, s, w, env))
  {
    var me := s.workers[w];
    var next := me.(pc := AfterReading(hash, s.store, me, env));
    assert WorkerSound(s.store, me);
    assert WorkerSound(s.store, next) by {
      hide StoreSound, CommitsSound, AfterCheck, AfterExplaining;
      match me.pc
      case Checking => AfterCheckSound(hash, s.store, me);
      case Preparing =>
        if me.request.StartRequest? { AfterProviderSound(hash, s.store, me, env); }
        else if me.request.reckoningId in s.store.reckonings { AfterReadSound(hash, s.store, me, env); }
      case Explaining(_) => AfterExplainingSound(s.store, me, env);
      case _ =>
    }
    hide AfterReading, StoreSound, WorkerSound;
    UpdateSound(s, WorkerStep(hash, s, w, env), w, next);
  }

  lemma ChainAppended(commits: seq<Commit>, c: Commit)
    requires ChainSound(commits) && Extends(commits, c)
    ensures ChainSound(commits + [c])
  {
    hide Extends;
    var next := commits + [c];
    forall i | 0 <= i < |next| ensures Extends(next[..i], next[i]) {
      if i < |commits| { assert next[..i] == commits[..i]; } else { assert next[..i] == commits; }
    }
  }

  lemma LastAppended(s: Store, t: Store, commits: seq<Commit>, c: Commit)
    requires LastIsStored(s, commits) && t.reckonings == s.reckonings[c.reckoning.id := c.reckoning]
    ensures LastIsStored(t, commits + [c])
  {
    assert (commits + [c])[..|commits|] == commits;
  }

  lemma CommitAppended(s: Store, t: Store, commits: seq<Commit>, c: Commit)
    requires CommitsSound(s, commits) && Extends(commits, c)
    requires t.reckonings == s.reckonings[c.reckoning.id := c.reckoning]
    requires forall op :: IsCompleted(s, op) ==> IsCompleted(t, op) && t.operations[op] == s.operations[op]
    requires c.op.Some? ==> !IsCompleted(s, c.op.value) && IsCompleted(t, c.op.value)
                            && t.operations[c.op.value].resultId == c.reckoning.id
    ensures CommitsSound(t, commits + [c])
  {
    ChainAppended(commits, c);
    LastAppended(s, t, commits, c);
    hide ChainSound, LastIsStored, Extends;
  }

  lemma StoredVersionPositive(s: Store, id: string)
    requires StoreSound(s) && id in s.reckonings
    ensures s.reckonings[id].version >= 1 && s.reckonings[id].id == id
  {
    assert DecisionSound(s.reckonings[id]);
  }

  /** A save that goes through replaces exactly the snapshot it was built from. */
  lemma SaveReplacesSnapshot(s: Store, me: Worker, expected: nat)
    requires StoreSound(s) && me.pc.Saving? && WorkerSound(s, me)
    requires expected == if me.pc.base == None then 0 else me.pc.base.value.version
    requires SaveTx(s, me.pc.next, expected, me.pc.record).result.Ok?
    ensures var t := SaveTx(s, me.pc.next, expected, me.pc.record).store;
            var next := me.pc.next;
            && t.reckonings == s.reckonings[next.id := next] && t.checkIns == s.checkIns
            && (if me.pc.base == None then next.id !in s.reckonings
                else next.id in s.reckonings && s.reckonings[next.id] == me.pc.base.value)
            && Grows(s, t)
            && (forall op :: IsCompleted(s, op) ==> IsCompleted(t, op) && t.operations[op] == s.operations[op])
            && (OpOf(me.request).Some? ==>
                  !IsCompleted(s, OpOf(me.request).value) && IsCompleted(t, OpOf(me.request).value)
                  && t.operations[OpOf(me.request).value].resultId == next.id)
  {
    hide DecisionSound, CheckInSound;
    var next := me.pc.next;
    if next.id in s.reckonings { StoredVersionPositive(s, next.id); }
    hide StoreSound;
  }

  lemma SavedStoreSound(s: Store, me: Worker, t: Store)
    requires StoreSound(s) && me.pc.Saving? && WorkerSound(s, me) && Grows(s, t)
    requires t.reckonings == s.reckonings[me.pc.next.id := me.pc.next] && t.checkIns == s.checkIns
    requires forall op :: IsCompleted(t, op) ==> t.operations[op].resultId in t.reckonings
    ensures StoreSound(t)
  {
    hide DecisionSound, Cites, Follows, Snapshot;
    forall c | c in t.checkIns ensures CheckInSound(t, c) { assert CheckInSound(s, c); }
  }

  lemma SavedOperations(s: Store, me: Worker, expected: nat, op: string)
    requires StoreSound(s) && me.pc.Saving? && WorkerSound(s, me)
    requires IsCompleted(SaveTx(s, me.pc.next, expected, me.pc.record).store, op)
    ensures var t := SaveTx(s, me.pc.next, expected, me.pc.record).store; t.operations[op].resultId in t.reckonings
  {
    hide DecisionSound, CheckInSound, Follows, Snapshot;
    if IsCompleted(s, op) { assert s.operations[op].resultId in s.reckonings; }
  }

  lemma InvAfterSave(s: World, w: nat)
    requires Inv(s) && w in s.workers && s.workers[w].pc.Saving?
    ensures Inv(SaveStep(s, w))
  {
    hide StoreSound, CommitsSound;
    var t := SaveStep(s, w);
    var me := s.workers[w];
    var expected := if me.pc.base == None then 0 else me.pc.base.value.version;
    assert WorkerSound(s.store, me);
    if SaveTx(s.store, me.pc.next, expected, me.pc.record).result.Err? {
      UpdateSound(s, t, w, t.workers[w]);
    } else {
      SaveReplacesSnapshot(s.store, me, expected);
      forall op | IsCompleted(t.store, op) ensures t.store.operations[op].resultId in t.store.reckonings {
        SavedOperations(s.store, me, expected, op);
      }
      hide SaveTx, IsCompleted, DecisionSound;
      SavedStoreSound(s.store, me, t.store);
      UpdateSound(s, t, w, t.workers[w]);
      hide WorkersSound, Grows;
      ExtendsByBase(s, me);
      CommitAppended(s.store, t.store, s.commits, Commit(OpOf(me.request), me.pc.next));
    }
  }

  lemma ExtendsByBase(s: World, me: Worker)
    requires CommitsSound(s.store, s.commits) && me.pc.Saving? && WorkerSound(s.store, me)
    requires if me.pc.base == None then me.pc.next.id !in s.store.reckonings
             else me.pc.next.id in s.store.reckonings && s.store.reckonings[me.pc.next.id] == me.pc.base.value
    ensures Extends(s.commits, Commit(OpOf(me.request), me.pc.next))
  {
    hide DecisionSound, Follows, LastCommit;
  }

  lemma InvAfterRecord(s: World, w: nat)
    requires Inv(s) && w in s.workers && s.workers[w].pc.Recording?
    ensures Inv(RecordStep(s, w))
  {
    hide DecisionSound, Cites, LastCommit, Extends;
    var t := RecordStep(s, w);
    assert WorkerSound(s.store, s.workers[w]);
    UpdateSound(s, t, w, t.workers[w]);
  }

  lemma InvAfterCheckIn(s: World, w: nat)
    requires Inv(s) && w in s.workers && s.workers[w].pc.CheckingIn?
    ensures Inv(CheckInStep(s, w))
  {
    hide DecisionSound, Cites, LastCommit, Extends;
    var t := CheckInStep(s, w);
    assert WorkerSound(s.store, s.workers[w]);
    UpdateSound(s, t, w, t.workers[w]);
  }

  lemma InvPreserved(hash: Hash, s: World, e: Event)
    requires Inv(s)
    ensures Inv(Apply(hash, s, e))
  {
    match e
    case Submit(w, request) => hide StoreSound, CommitsSound;
    case Crash(w) => hide StoreSound;
    case Step(w, env) =>
      hide Inv, SaveStep, RecordStep, CheckInStep, AfterReading;
      if w in s.workers {
        if s.workers[w].pc.Saving? { InvAfterSave(s, w); }
        else if s.workers[w].pc.Recording? { InvAfterRecord(s, w); }
        else if s.workers[w].pc.CheckingIn? { InvAfterCheckIn(s, w); }
        else { InvAfterReading(hash, s, w, env); }
      }
  }

  lemma {:induction false} InvAlways(hash: Hash, s: World, events: seq<Event>)
    requires Inv(s)
    ensures Inv(Run(hash, s, events))
    decreases |events|
  {
    if events != [] {
      InvPreserved(hash, s, events[0]);
      InvAlways(hash, Apply(hash, s, events[0]), events[1..]);
    }
  }

  lemma InvInitially()
    ensures Inv(EmptyWorld())
  {
  }
}
