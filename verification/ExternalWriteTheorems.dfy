/** What every behaviour of the external-write protocol keeps. */
module ExternalWriteTheorems {
  import opened Wrappers
  import opened ExternalWriteStore
  import opened ExternalWriteProtocol
  import Text

  // ---------------------------------------------------------------------
  // Dispatches and adapter calls are bounded
  // ---------------------------------------------------------------------

  /** A write is dispatched at most once, plus once for each recovery of it. */
  lemma BoundedDispatch(hash: Hash, s: World, events: seq<Event>, id: string)
    requires Initial(hash, s)
    ensures var t := Run(hash, s, events); DispatchCount(t.dispatches, id) <= 1 + RecoveryCount(t.recoveries, id)
  {
    InvInitially(hash, s);
    InvAlways(hash, s, events);
  }

  lemma {:induction false} CountedDispatches(dispatches: seq<Dispatch>, i: nat, j: nat, id: string)
    requires j < |dispatches| && dispatches[j].writeId == id
    requires i < j ==> dispatches[i].writeId == id
    ensures DispatchCount(dispatches, id) >= if i < j then 2 else 1
    decreases |dispatches|
  {
    var last := |dispatches| - 1;
    if j < last {
      CountedDispatches(dispatches[..last], i, j, id);
    } else if i < j {
      CountedDispatches(dispatches[..last], i, i, id);
    }
  }

  lemma SoleDispatcher(s: World, id: string, a: string, b: string)
    requires Dispatch(id, a) in s.dispatches && Dispatch(id, b) in s.dispatches
    requires DispatchCount(s.dispatches, id) <= 1
    ensures a == b
  {
    var i :| 0 <= i < |s.dispatches| && s.dispatches[i] == Dispatch(id, a);
    var j :| 0 <= j < |s.dispatches| && s.dispatches[j] == Dispatch(id, b);
    if i != j { CountedDispatches(s.dispatches, if i < j then i else j, if i < j then j else i, id); }
  }

  /** Without a recovery of the write, only one owner ever reaches the adapter. */
  lemma OneOwnerReachesTheAdapter(hash: Hash, s: World, events: seq<Event>, c: AdapterCall, d: AdapterCall)
    requires Initial(hash, s)
    requires var t := Run(hash, s, events);
             c in t.calls && d in t.calls && c.writeId == d.writeId && RecoveryCount(t.recoveries, c.writeId) == 0
    ensures c.owner == d.owner
  {
    var t := Run(hash, s, events);
    BoundedDispatch(hash, s, events, c.writeId);
    InvInitially(hash, s);
    InvAlways(hash, s, events);
    assert CallSound(t, c) && CallSound(t, d);
    SoleDispatcher(t, c.writeId, c.owner, d.owner);
  }

  /** The number of adapter calls made by the given owners. */
  function CallsOf(calls: seq<AdapterCall>, owners: set<string>): nat {
    if calls == [] then 0
    else
      var last := |calls| - 1;
      CallsOf(calls[..last], owners) + (if calls[last].owner in owners then 1 else 0)
  }

  function CallsFor(calls: seq<AdapterCall>, id: string): nat {
    if calls == [] then 0
    else
      var last := |calls| - 1;
      CallsFor(calls[..last], id) + (if calls[last].writeId == id then 1 else 0)
  }

  /** Attempts of one owner are numbered upwards from one, so they are at most as many as the last number. */
  lemma {:induction false} AttemptsCount(calls: seq<AdapterCall>, owner: string, limit: nat)
    requires forall c :: c in calls && c.owner == owner ==> 1 <= c.attempt <= limit
    requires forall i, j :: 0 <= i < j < |calls| && calls[i].owner == calls[j].owner ==>
               calls[i].attempt < calls[j].attempt
    ensures CallsOf(calls, {owner}) <= limit
    decreases |calls|
  {
    if calls != [] {
      var last := |calls| - 1;
      var rest := calls[..last];
      if calls[last].owner == owner {
        forall c | c in rest && c.owner == owner ensures c.attempt <= calls[last].attempt - 1 {
          var i :| 0 <= i < last && calls[i] == c;
        }
        AttemptsCount(rest, owner, calls[last].attempt - 1);
      } else {
        AttemptsCount(rest, owner, limit);
      }
    }
  }

  /** One `execute` call makes at most `max_retries + 1` adapter calls. */
  lemma AttemptsBounded(hash: Hash, s: World, events: seq<Event>, owner: string)
    requires Initial(hash, s) && owner in Run(hash, s, events).workers
    ensures var t := Run(hash, s, events);
            CallsOf(t.calls, {owner}) <= if t.workers[owner].maxRetries < 0 then 0 else t.workers[owner].maxRetries + 1
  {
    InvInitially(hash, s);
    InvAlways(hash, s, events);
    var t := Run(hash, s, events);
    forall c | c in t.calls && c.owner == owner ensures 1 <= c.attempt <= t.workers[owner].maxRetries + 1 {
      assert CallSound(t, c);
    }
    AttemptsCount(t.calls, owner, if t.workers[owner].maxRetries < 0 then 0 else t.workers[owner].maxRetries + 1);
  }

  lemma {:induction false} CallsOfUnion(calls: seq<AdapterCall>, owners: set<string>, owner: string)
    ensures CallsOf(calls, owners + {owner}) <= CallsOf(calls, owners) + CallsOf(calls, {owner})
    decreases |calls|
  {
    if calls != [] { CallsOfUnion(calls[..|calls| - 1], owners, owner); }
  }

  lemma {:induction false} CallsOfNobody(calls: seq<AdapterCall>)
    ensures CallsOf(calls, {}) == 0
    decreases |calls|
  {
    if calls != [] { CallsOfNobody(calls[..|calls| - 1]); }
  }

  lemma {:induction false} CallsForAtMost(calls: seq<AdapterCall>, id: string, owners: set<string>)
    requires forall c :: c in calls && c.writeId == id ==> c.owner in owners
    ensures CallsFor(calls, id) <= CallsOf(calls, owners)
    decreases |calls|
  {
    if calls != [] { CallsForAtMost(calls[..|calls| - 1], id, owners); }
  }

  function DispatchersOf(dispatches: seq<Dispatch>, id: string): (r: set<string>)
    ensures forall o :: o in r <==> Dispatch(id, o) in dispatches
  {
    if dispatches == [] then {}
    else
      var last := |dispatches| - 1;
      assert dispatches == dispatches[..last] + [dispatches[last]];
      DispatchersOf(dispatches[..last], id) + (if dispatches[last].writeId == id then {dispatches[last].owner} else {})
  }

  /** If every dispatcher makes at most `limit` calls, together they make at most that times the dispatches. */
  lemma {:induction false} CallsOfDispatchers(
    calls: seq<AdapterCall>, dispatches: seq<Dispatch>, id: string, limit: nat)
    requires forall d :: d in dispatches && d.writeId == id ==> CallsOf(calls, {d.owner}) <= limit
    ensures CallsOf(calls, DispatchersOf(dispatches, id)) <= DispatchCount(dispatches, id) * limit
    decreases |dispatches|
  {
    if dispatches == [] {
      CallsOfNobody(calls);
    } else {
      var last := |dispatches| - 1;
      var rest := dispatches[..last];
      CallsOfDispatchers(calls, rest, id, limit);
      if dispatches[last].writeId == id {
        CallsOfUnion(calls, DispatchersOf(rest, id), dispatches[last].owner);
        assert (DispatchCount(rest, id) + 1) * limit == DispatchCount(rest, id) * limit + limit;
      } else {
        assert DispatchersOf(dispatches, id) == DispatchersOf(rest, id);
      }
    }
  }

  lemma Monotone(a: nat, b: nat, k: nat)
    requires a <= b
    ensures a * k <= b * k
  {
    assert b * k == a * k + (b - a) * k;
  }

  lemma CallersAreDispatchers(t: World, id: string)
    requires CallsSound(t)
    ensures forall c :: c in t.calls && c.writeId == id ==> c.owner in DispatchersOf(t.dispatches, id)
  {
    hide SelectPrepared, KeyOf, DispatchersOf;
    forall c | c in t.calls && c.writeId == id ensures c.owner in DispatchersOf(t.dispatches, id) {
      assert CallSound(t, c);
    }
  }

  /** All adapter calls for a write, whoever makes them: at most `limit + 1` for each of one dispatch and
      one more per recovery, when no worker on it was given more than `limit` retries. */
  lemma AdapterCallsBounded(hash: Hash, s: World, events: seq<Event>, id: string, limit: nat)
    requires Initial(hash, s)
    requires forall o :: o in Run(hash, s, events).workers ==> Run(hash, s, events).workers[o].maxRetries <= limit
    ensures var t := Run(hash, s, events);
            CallsFor(t.calls, id) <= (1 + RecoveryCount(t.recoveries, id)) * (limit + 1)
  {
    hide Initial, Run, CallsSound, StoreSound, ReceiptsSound, WorkersSound, BudgetKept, OwnersKnown, ReceiptsTell;
    hide CallsFor, CallsOf, DispatchCount, RecoveryCount;
    InvInitially(hash, s);
    InvAlways(hash, s, events);
    var t := Run(hash, s, events);
    BoundedDispatch(hash, s, events, id);
    CallersAreDispatchers(t, id);
    CallsForAtMost(t.calls, id, DispatchersOf(t.dispatches, id));
    forall d | d in t.dispatches && d.writeId == id ensures CallsOf(t.calls, {d.owner}) <= limit + 1 {
      AttemptsBounded(hash, s, events, d.owner);
    }
    CallsOfDispatchers(t.calls, t.dispatches, id, limit + 1);
    Monotone(DispatchCount(t.dispatches, id), 1 + RecoveryCount(t.recoveries, id), limit + 1);
  }

  /** An outcome that is not a definite failure is never followed by another call of the same owner,
      nor of anyone else while the write is not recovered. */
  lemma AmbiguousIsNeverRetried(hash: Hash, s: World, events: seq<Event>, i: nat, j: nat)
    requires Initial(hash, s)
    requires i < j < |Run(hash, s, events).calls|
    requires var t := Run(hash, s, events); t.calls[i].writeId == t.calls[j].writeId
    requires var t := Run(hash, s, events);
             t.calls[i].owner == t.calls[j].owner || RecoveryCount(t.recoveries, t.calls[i].writeId) == 0
    ensures DefiniteFailure(Run(hash, s, events).calls[i].outcome)
  {
    var t := Run(hash, s, events);
    InvInitially(hash, s);
    InvAlways(hash, s, events);
    if t.calls[i].owner != t.calls[j].owner {
      OneOwnerReachesTheAdapter(hash, s, events, t.calls[i], t.calls[j]);
    }
  }

  // ---------------------------------------------------------------------
  // Receipts
  // ---------------------------------------------------------------------

  ghost predicate ReceiptsKept(s: World, t: World) {
    && t.imported == s.imported
    && forall id :: id in s.store.receipts ==> id in t.store.receipts && t.store.receipts[id] == s.store.receipts[id]
  }

  lemma ReceiptsGrowByWorker(s: World, owner: string, outcome: Outcome)
    requires owner in s.workers
    ensures ReceiptsKept(s, WorkerStep(s, owner, outcome))
  {
    hide Authorization, SelectPrepared, AfterRead, KeyOf, Retries, ReceiptFor, ResultOf;
    match s.workers[owner].pc
    case Claiming(_, _) => assert ReceiptsKept(s, ClaimStep(s, owner));
    case Dispatching(_, _) => assert ReceiptsKept(s, DispatchStep(s, owner));
    case Invoking(_, _, _) => assert ReceiptsKept(s, InvokeStep(s, owner, outcome));
    case Aborting => assert ReceiptsKept(s, FinishStep(s, owner));
    case Finalizing(_) => assert ReceiptsKept(s, FinishStep(s, owner));
    case _ => assert ReceiptsKept(s, ReadStep(s, owner));
  }

  lemma ReceiptsAdministered(hash: Hash, t: Tables, e: Event)
    requires e.Prepare? || e.Approve? || e.Grant? || e.Revoke?
    ensures Administer(hash, t, e).receipts == t.receipts
  {
    hide SelectPrepared, SelectApproval, SelectPermission, Revoked, ValidPreparation, ValidScope, ActiveApprovalId;
    hide Text.Strip, Text.Blank, SamePrepared, PreparedOf;
    match e
    case Prepare(id, scope, payload, at) =>
      assert PrepareTx(t, PreparedOf(hash, id, scope, payload, at)).tables.receipts == t.receipts;
    case Approve(id, digest, approvalId, at) =>
      assert ApproveTx(t, id, digest, approvalId, at).tables.receipts == t.receipts;
    case Grant(id, scope, at) => assert GrantTx(t, id, scope, at).tables.receipts == t.receipts;
    case Revoke(id, at) => assert RevokeTx(t, id, at).tables.receipts == t.receipts;
  }

  lemma ReceiptsGrow(hash: Hash, s: World, e: Event)
    ensures ReceiptsKept(s, Apply(hash, s, e))
  {
    hide WorkerStep, Administer, SelectPrepared;
    match e
    case Step(owner, outcome) => if owner in s.workers { ReceiptsGrowByWorker(s, owner, outcome); }
    case Start(_, _, _, _) =>
    case Crash(_) =>
    case Recover(_, _, _, _, _) =>
    case _ => ReceiptsAdministered(hash, s.store, e);
  }

  /** At most one receipt is ever stored for a write, and it never changes. */
  lemma {:induction false} ReceiptsFinal(hash: Hash, s: World, events: seq<Event>, id: string)
    requires id in s.store.receipts
    ensures var t := Run(hash, s, events);
            id in t.store.receipts && t.store.receipts[id] == s.store.receipts[id]
    decreases |events|
  {
    if events != [] {
      ReceiptsGrow(hash, s, events[0]);
      hide Apply;
      ReceiptsFinal(hash, Apply(hash, s, events[0]), events[1..], id);
    }
  }

  /** A write that was not imported with a receipt has one exactly when its claim is finalized. */
  lemma ReceiptExactlyWhenFinalized(hash: Hash, s: World, events: seq<Event>, id: string)
    requires Initial(hash, s) && id !in s.imported
    ensures var t := Run(hash, s, events); id in t.store.receipts <==> IsFinalized(t.store, id)
  {
    InvInitially(hash, s);
    InvAlways(hash, s, events);
    ImportedConstant(hash, s, events);
  }

  lemma {:induction false} ImportedConstant(hash: Hash, s: World, events: seq<Event>)
    ensures Run(hash, s, events).imported == s.imported
    decreases |events|
  {
    if events != [] {
      ReceiptsGrow(hash, s, events[0]);
      hide Apply;
      ImportedConstant(hash, Apply(hash, s, events[0]), events[1..]);
    }
  }

  /** The receipt tells what the last adapter call of the finalizing owner returned, and its number;
      without a recovery that is the last call ever made for the write. */
  lemma ReceiptTellsTheLastCall(hash: Hash, s: World, events: seq<Event>, id: string)
    requires Initial(hash, s) && IsFinalized(Run(hash, s, events).store, id)
    ensures var t := Run(hash, s, events);
            && id in t.store.receipts
            && TellsLastCall(t.calls, t.store.executions[id].owner, t.store.receipts[id])
            && (RecoveryCount(t.recoveries, id) == 0 ==>
                  forall c :: c in t.calls && c.writeId == id ==> c.attempt <= t.store.receipts[id].attempts)
  {
    InvInitially(hash, s);
    InvAlways(hash, s, events);
    var t := Run(hash, s, events);
    var owner, receipt := t.store.executions[id].owner, t.store.receipts[id];
    var last :| last in t.calls && Reports(last, owner, receipt);
    assert CallSound(t, last);
    if RecoveryCount(t.recoveries, id) == 0 {
      forall c | c in t.calls && c.writeId == id ensures c.attempt <= receipt.attempts {
        OneOwnerReachesTheAdapter(hash, s, events, c, last);
      }
    }
  }

  // ---------------------------------------------------------------------
  // Who moves a claim
  // ---------------------------------------------------------------------

  predicate SameClaim(s: Tables, t: Tables, id: string) {
    (id in s.executions <==> id in t.executions) && (id in s.executions ==> s.executions[id] == t.executions[id])
  }

  /** The event is a step of an owner on its own write, with its own claim or taking it ... */
  predicate MovedByItsOwner(s: World, t: World, e: Event, id: string) {
    && e.Step? && e.owner in s.workers && s.workers[e.owner].writeId == id
    && id in t.store.executions && t.store.executions[id].owner == e.owner
    && (s.workers[e.owner].pc.Claiming? || (id in s.store.executions && s.store.executions[id].owner == e.owner))
  }

  /** ... or a recovery of the write by an owner never seen before. */
  predicate MovedByRecovery(s: World, t: World, e: Event, id: string) {
    && e.Recover? && e.id == id && e.owner !in s.workers
    && id in t.store.executions && t.store.executions[id].owner == e.owner
  }

  lemma StepMovesOwnClaim(hash: Hash, s: World, owner: string, outcome: Outcome, id: string)
    requires Inv(hash, s) && owner in s.workers
    ensures var t := WorkerStep(s, owner, outcome);
            SameClaim(s.store, t.store, id)
            || (MovedByItsOwner(s, t, Step(owner, outcome), id) && !IsFinalized(s.store, id))
  {
    hide StoreSound, ReceiptsSound, OwnersKnown, DispatchesSound, CallsSound, ReceiptsTell, BudgetKept, ImportedLeft;
    hide SelectPrepared, Authorization, LogSound, KeyOf, AfterRead, Retries, ReceiptFor, ResultOf;
    assert WorkerSound(s.store, s.dispatches, s.calls, owner, s.workers[owner]);
    hide WorkersSound;
    match s.workers[owner].pc
    case Claiming(_, _) =>
    case Dispatching(_, _) =>
    case Invoking(_, _, _) =>
    case Aborting =>
    case Finalizing(_) =>
    case _ =>
  }

  lemma AdministrationMovesNoClaim(hash: Hash, t: Tables, e: Event)
    requires StoreSound(hash, t) && (e.Prepare? || e.Approve? || e.Grant? || e.Revoke?)
    ensures Administer(hash, t, e).executions == t.executions
  {
    hide StoreSound, Administer;
    AdministerSound(hash, t, e);
  }

  /** A claim changes only by the hand of its owner or by a recovery, and never once it is finalized. */
  lemma OnlyItsOwnerMovesAClaim(hash: Hash, s: World, e: Event, id: string)
    requires Inv(hash, s)
    ensures var t := Apply(hash, s, e);
            || SameClaim(s.store, t.store, id)
            || ((MovedByItsOwner(s, t, e, id) || MovedByRecovery(s, t, e, id)) && !IsFinalized(s.store, id))
  {
    hide WorkerStep, Administer, SelectPrepared, StoreSound, ReceiptsSound, WorkersSound, CallsSound, ReceiptsTell;
    hide BudgetKept, DispatchesSound, OwnersKnown, ImportedLeft;
    match e
    case Step(owner, outcome) => if owner in s.workers { StepMovesOwnClaim(hash, s, owner, outcome, id); }
    case Start(_, _, _, _) =>
    case Crash(_) =>
    case Recover(_, _, _, _, _) =>
    case _ => AdministrationMovesNoClaim(hash, s.store, e);
  }

  /** Once finalized, a claim never moves again. */
  lemma {:induction false} FinalizedIsAbsorbing(hash: Hash, s: World, events: seq<Event>, id: string)
    requires Inv(hash, s) && IsFinalized(s.store, id)
    ensures SameClaim(s.store, Run(hash, s, events).store, id)
    decreases |events|
  {
    if events != [] {
      OnlyItsOwnerMovesAClaim(hash, s, events[0], id);
      InvPreserved(hash, s, events[0]);
      hide Inv, Apply;
      FinalizedIsAbsorbing(hash, Apply(hash, s, events[0]), events[1..], id);
    }
  }

  /** A worker that claimed its write and is no longer the owner of the claim. */
  predicate Displaced(s: World, owner: string) {
    && owner in s.workers && !Early(s.workers[owner].pc)
    && s.workers[owner].writeId in s.store.executions
    && s.store.executions[s.workers[owner].writeId].owner != owner
  }

  /** An effective recovery displaces the owner it takes the claim from. */
  lemma RecoveryDisplaces(hash: Hash, s: World, id: string, revision: int, owner: string, maxRetries: int, at: int)
    requires Inv(hash, s)
    requires var t := Apply(hash, s, Recover(id, revision, owner, maxRetries, at)); t != s
    ensures var t := Apply(hash, s, Recover(id, revision, owner, maxRetries, at));
            id in s.store.executions && Displaced(t, s.store.executions[id].owner)
  {
    hide StoreSound, ReceiptsSound, DispatchesSound, CallsSound, ReceiptsTell, BudgetKept, ImportedLeft;
    hide SelectPrepared, LogSound, PcShape;
    var previous := s.store.executions[id].owner;
    assert WorkerSound(s.store, s.dispatches, s.calls, previous, s.workers[previous]);
  }

  /** What a displaced owner does leaves store and dispatches alone. */
  lemma DisplacedStep(hash: Hash, s: World, owner: string, outcome: Outcome)
    requires Displaced(s, owner)
    ensures var t := Apply(hash, s, Step(owner, outcome)); t.store == s.store && t.dispatches == s.dispatches
  {
    hide SelectPrepared, Authorization, KeyOf, AfterRead, Retries, ReceiptFor, ResultOf;
  }

  lemma OwnStepMovesForward(hash: Hash, s: World, owner: string, outcome: Outcome)
    requires owner in s.workers
    ensures var t := Apply(hash, s, Step(owner, outcome));
            && owner in t.workers && t.workers[owner].writeId == s.workers[owner].writeId
            && (!Early(s.workers[owner].pc) ==> !Early(t.workers[owner].pc))
  {
    hide SelectPrepared, Authorization, KeyOf, AfterRead, Retries, ReceiptFor, ResultOf, Administer;
    hide ClaimTx, DispatchTx, AbortTx, FinalizeTx, RecoverTx;
  }

  lemma OthersStandStill(hash: Hash, s: World, e: Event, owner: string)
    requires owner in s.workers && (e.Step? ==> e.owner != owner)
    ensures var t := Apply(hash, s, e);
            && owner in t.workers && t.workers[owner].writeId == s.workers[owner].writeId
            && (!Early(s.workers[owner].pc) ==> !Early(t.workers[owner].pc))
  {
    hide SelectPrepared, Authorization, KeyOf, AfterRead, Retries, ReceiptFor, ResultOf, Administer;
    hide ClaimTx, DispatchTx, AbortTx, FinalizeTx, RecoverTx;
  }

  lemma WorkersMoveForward(hash: Hash, s: World, e: Event, owner: string)
    requires owner in s.workers
    ensures var t := Apply(hash, s, e);
            && owner in t.workers && t.workers[owner].writeId == s.workers[owner].writeId
            && (!Early(s.workers[owner].pc) ==> !Early(t.workers[owner].pc))
  {
    hide Apply, Early;
    if e.Step? && e.owner == owner {
      OwnStepMovesForward(hash, s, owner, e.outcome);
    } else {
      OthersStandStill(hash, s, e, owner);
    }
  }

  lemma DisplacedStays(hash: Hash, s: World, e: Event, owner: string)
    requires Inv(hash, s) && Displaced(s, owner)
    ensures Displaced(Apply(hash, s, e), owner)
  {
    var id := s.workers[owner].writeId;
    OnlyItsOwnerMovesAClaim(hash, s, e, id);
    WorkersMoveForward(hash, s, e, owner);
    hide Apply, Inv;
  }

  /** Once displaced, an owner can never dispatch, abort or finalize: whatever happens, its next step
      changes neither the store nor the record of dispatches. */
  lemma {:induction false} DisplacedIsPowerless(
    hash: Hash, s: World, events: seq<Event>, owner: string, outcome: Outcome)
    requires Inv(hash, s) && Displaced(s, owner)
    ensures var t := Run(hash, s, events);
            && Displaced(t, owner)
            && Apply(hash, t, Step(owner, outcome)).store == t.store
            && Apply(hash, t, Step(owner, outcome)).dispatches == t.dispatches
    decreases |events|
  {
    hide Inv, Apply;
    if events == [] {
      DisplacedStep(hash, s, owner, outcome);
    } else {
      DisplacedStays(hash, s, events[0], owner);
      InvPreserved(hash, s, events[0]);
      DisplacedIsPowerless(hash, Apply(hash, s, events[0]), events[1..], owner, outcome);
    }
  }

  // ---------------------------------------------------------------------
  // What was approved is what is sent
  // ---------------------------------------------------------------------

  /** Every call carries the stored payload of its write, whose digest the claim, the key and every
      approval of the write agree on. */
  lemma ApprovedIsSent(hash: Hash, s: World, events: seq<Event>, c: AdapterCall)
    requires Initial(hash, s) && c in Run(hash, s, events).calls
    ensures var t := Run(hash, s, events).store;
            var row := SelectPrepared(t.writes, c.writeId);
            && row.Some? && c.payload == row.value.payload && row.value.payloadDigest == hash(c.payload)
            && c.key == "reckoning-write:" + c.writeId + ":" + hash(c.payload)
            && c.writeId in t.executions
            && t.executions[c.writeId].payloadDigest == hash(c.payload)
            && t.executions[c.writeId].idempotencyKey == c.key
            && forall a :: a in t.approvals && a.writeId == c.writeId ==> a.payloadDigest == hash(c.payload)
  {
    InvInitially(hash, s);
    InvAlways(hash, s, events);
    CallMatches(hash, Run(hash, s, events), c);
  }

  lemma CallMatches(hash: Hash, t: World, c: AdapterCall)
    requires Inv(hash, t) && c in t.calls
    ensures var row := SelectPrepared(t.store.writes, c.writeId);
            && row.Some? && c.payload == row.value.payload && row.value.payloadDigest == hash(c.payload)
            && c.key == "reckoning-write:" + c.writeId + ":" + hash(c.payload)
            && c.writeId in t.store.executions
            && t.store.executions[c.writeId].payloadDigest == hash(c.payload)
            && t.store.executions[c.writeId].idempotencyKey == c.key
            && forall a :: a in t.store.approvals && a.writeId == c.writeId ==> a.payloadDigest == hash(c.payload)
  {
    hide ReceiptsSound, WorkersSound, OwnersKnown, ReceiptsTell, BudgetKept, ImportedLeft;
    assert CallSound(t, c);
    hide CallsSound;
    var row := SelectPrepared(t.store.writes, c.writeId).value;
    var i :| 0 <= i < |t.store.writes| && t.store.writes[i] == row;
    forall a | a in t.store.approvals && a.writeId == c.writeId ensures a.payloadDigest == hash(c.payload) {
      assert ApprovalSound(t.store.writes, a);
    }
    assert ClaimSound(t.store.writes, c.writeId, t.store.executions[c.writeId]);
  }

  /** A step that dispatches finds, in the very tables it reads, an active approval of the stored payload
      or a permission that was never revoked and agrees on all five scope fields. */
  lemma DispatchHasAuthority(hash: Hash, s: World, events: seq<Event>, owner: string, outcome: Outcome)
    requires Initial(hash, s)
    requires var t := Run(hash, s, events); Apply(hash, t, Step(owner, outcome)).dispatches != t.dispatches
    ensures var t := Run(hash, s, events);
            && owner in t.workers
            && var row := SelectPrepared(t.store.writes, t.workers[owner].writeId);
            && row.Some? && row.value.payloadDigest == hash(row.value.payload)
            && ((exists a :: a in t.store.approvals && a.writeId == row.value.id && a.active
                             && a.payloadDigest == row.value.payloadDigest)
                || (exists p :: p in t.store.permissions && p.active && p.scope == row.value.scope
                                && p.revokedAt == None))
  {
    InvInitially(hash, s);
    InvAlways(hash, s, events);
    DispatcherHasAuthority(hash, Run(hash, s, events), owner, outcome);
  }

  lemma DispatcherHasAuthority(hash: Hash, t: World, owner: string, outcome: Outcome)
    requires Inv(hash, t) && Apply(hash, t, Step(owner, outcome)).dispatches != t.dispatches
    ensures owner in t.workers
    ensures var row := SelectPrepared(t.store.writes, t.workers[owner].writeId);
            && row.Some? && row.value.payloadDigest == hash(row.value.payload)
            && ((exists a :: a in t.store.approvals && a.writeId == row.value.id && a.active
                             && a.payloadDigest == row.value.payloadDigest)
                || (exists p :: p in t.store.permissions && p.active && p.scope == row.value.scope
                                && p.revokedAt == None))
  {
    hide ReceiptsSound, WorkersSound, OwnersKnown, ReceiptsTell, BudgetKept, ImportedLeft, CallsSound, DispatchesSound;
    hide ClaimsSound;
    assert t.workers[owner].pc.Dispatching? && DispatchTx(t.store, t.workers[owner].writeId, owner).result.Ok?;
    hide WorkerStep;
    var row := SelectPrepared(t.store.writes, t.workers[owner].writeId).value;
    var i :| 0 <= i < |t.store.writes| && t.store.writes[i] == row;
    assert Authorization(t.store, row).Some?;
    hide DispatchTx, Authorization;
    if a :| a in t.store.approvals && Approves(a, row.id) {
      assert ApprovalSound(t.store.writes, a);
    } else {
      var p :| p in t.store.permissions && Permits(p, row.scope);
    }
  }

  // ---------------------------------------------------------------------
  // The two lists of pending approvals
  // ---------------------------------------------------------------------

  /** Python's `not item.get("exact_approval_id")`. */
  predicate Falsy(approvalId: Option<string>) { approvalId == None || approvalId.value == "" }

  /** Control's own recomputation from the listed writes, permissions and receipts. */
  predicate ControlPending(t: Tables, w: PreparedWrite) {
    && w.id !in t.receipts
    && Falsy(WithApproval(w, t.approvals).exactApprovalId)
    && !(exists p :: p in t.permissions && p.revokedAt == None && p.scope == w.scope)
  }

  function ControlPendingIds(t: Tables, writes: seq<PreparedWrite>): seq<string> {
    if writes == [] then []
    else (if ControlPending(t, writes[0]) then [writes[0].id] else []) + ControlPendingIds(t, writes[1..])
  }

  /** On tables whose approvals are active and carry the digest of their write, and whose permissions are
      active until revoked, the two judge a write alike unless it is held back only by an approval with an
      empty identifier. */
  lemma PendingAgreesExactly(t: Tables, w: PreparedWrite)
    requires forall a :: a in t.approvals && a.writeId == w.id ==> a.active && a.payloadDigest == w.payloadDigest
    requires PermissionsSound(t.permissions)
    ensures (Pending(t, w) <==> ControlPending(t, w))
            <==> !(ActiveApprovalId(t.approvals, w.id) == Some("") && w.id !in t.receipts
                   && !exists p :: p in t.permissions && Permits(p, w.scope))
  {
    var byQuery := exists a :: a in t.approvals && a.writeId == w.id && a.payloadDigest == w.payloadDigest && a.active;
    assert byQuery <==> ActiveApprovalId(t.approvals, w.id).Some? by {
      assert forall a :: a in t.approvals && Approves(a, w.id) ==> a.payloadDigest == w.payloadDigest;
    }
    assert forall p :: p in t.permissions ==> (Permits(p, w.scope) <==> p.active && p.scope == w.scope);
    assert forall p :: p in t.permissions ==> (Permits(p, w.scope) <==> p.revokedAt == None && p.scope == w.scope);
  }

  lemma {:induction false} ListsAgree(t: Tables, writes: seq<PreparedWrite>)
    requires forall w :: w in writes ==> (Pending(t, w) <==> ControlPending(t, w))
    ensures PendingIds(t, writes) == ControlPendingIds(t, writes)
    decreases |writes|
  {
    if writes != [] {
      assert writes[0] in writes;
      ListsAgree(t, writes[1..]);
    }
  }

  /** In every reachable state the query and Control list the same writes in the same order: those with
      no receipt and nothing that authorizes them. */
  lemma PendingListsAgree(hash: Hash, s: World, events: seq<Event>)
    requires Initial(hash, s)
    ensures var t := Run(hash, s, events).store;
            && PendingIds(t, t.writes) == ControlPendingIds(t, t.writes)
            && forall w :: w in t.writes ==>
                 (Pending(t, w) <==> w.id !in t.receipts && Authorization(t, w) == None)
  {
    InvInitially(hash, s);
    InvAlways(hash, s, events);
    var t := Run(hash, s, events).store;
    forall w | w in t.writes
      ensures Pending(t, w) <==> ControlPending(t, w)
      ensures Pending(t, w) <==> w.id !in t.receipts && Authorization(t, w) == None
    {
      PendingInSoundStore(hash, t, w);
    }
    ListsAgree(t, t.writes);
  }

  lemma PendingInSoundStore(hash: Hash, t: Tables, w: PreparedWrite)
    requires StoreSound(hash, t) && w in t.writes
    ensures Pending(t, w) <==> ControlPending(t, w)
    ensures Pending(t, w) <==> w.id !in t.receipts && Authorization(t, w) == None
  {
    hide ClaimsSound;
    var i :| 0 <= i < |t.writes| && t.writes[i] == w;
    assert SelectPrepared(t.writes, w.id) == Some(w);
    forall a | a in t.approvals && a.writeId == w.id
      ensures a.active && a.payloadDigest == w.payloadDigest && a.approvalId != ""
    {
      assert ApprovalSound(t.writes, a);
    }
    PendingAgreesExactly(t, w);
    assert forall a :: a in t.approvals && Approves(a, w.id) ==> a.payloadDigest == w.payloadDigest;
    assert forall p :: p in t.permissions ==> (Permits(p, w.scope) <==> p.active && p.scope == w.scope);
  }

  /** The repository itself accepts an empty approval identifier, and then the lists differ. */
  lemma EmptyApprovalIdSplitsTheLists()
    ensures exists w: PreparedWrite ::
              var t := ApproveTx(Tables([w], [], [], map[], map[]), w.id, w.payloadDigest, "", 0).tables;
              PendingIds(t, t.writes) == [] && ControlPendingIds(t, t.writes) == [w.id]
  {
    var w := PreparedWrite("w", Scope("c", "a", "t", "g", "b"), map["k" := "v"], 0, "d", None);
    var t0 := Tables([w], [], [], map[], map[]);
    assert SelectPrepared([w], "w") == Some(w);
    var record := ApprovalRecord("", "w", "d", 0, true);
    var t := ApproveTx(t0, "w", "d", "", 0).tables;
    assert t == t0.(approvals := [record]);
    assert record in t.approvals;
    assert !Pending(t, w);
    assert Approves(record, "w");
    assert ActiveApprovalId(t.approvals, "w") == Some("");
    assert ControlPending(t, w);
    assert t.writes == [w];
    ListsOfOne(t, w);
  }

  lemma ListsOfOne(t: Tables, w: PreparedWrite)
    ensures PendingIds(t, [w]) == if Pending(t, w) then [w.id] else []
    ensures ControlPendingIds(t, [w]) == if ControlPending(t, w) then [w.id] else []
  {
    hide Pending, ControlPending;
    assert [w][1..] == [];
    assert PendingIds(t, []) == [] && ControlPendingIds(t, []) == [];
  }

  /** The bound on dispatches is the protocol's, not the repository's: an owner that calls
      `dispatch_execution` twice around a revocation aborts its own dispatched claim, and after a new
      approval the write is claimed and dispatched a second time with no recovery. */
  lemma RepositoryAloneDispatchesTwice(t: Tables, id: string, owner: string, other: string, auth: WriteAuthorization)
    requires SelectPrepared(t.writes, id).Some? && SelectPrepared(t.writes, id).value.id == id
    requires id in t.executions && t.executions[id].state == Dispatched && t.executions[id].owner == owner
    requires t.executions[id].payloadDigest == SelectPrepared(t.writes, id).value.payloadDigest
    requires Authorization(t, SelectPrepared(t.writes, id).value) == None
    ensures var row := SelectPrepared(t.writes, id).value;
            var aborted := DispatchTx(t, id, owner).tables;
            var claimed := ClaimTx(aborted, row, other, KeyOf(row), auth, 0);
            forall approvals :: Authorization(claimed.tables.(approvals := approvals), row).Some? ==>
              claimed.result.Ok? && DispatchTx(claimed.tables.(approvals := approvals), id, other).result.Ok?
  {
    hide Authorization, SelectPrepared, KeyOf;
  }
}
