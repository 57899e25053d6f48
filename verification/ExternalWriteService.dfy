/** `ExternalWriteService` (src/reckoning/connectors.py:511-720): one call from start to end,
    shown to be a behaviour of the protocol. */
module ExternalWriteService {
  import opened Wrappers
  import opened ExternalWriteStore
  import opened ExternalWriteProtocol
  import Text

  /** What `adapter.execute` was given. */
  datatype Sent = Sent(payload: map<string, string>, key: string)

  /** The adapter handed to `execute`: whatever it answers, call by call. */
  class WriteConnector {
    const outcomes: nat -> Outcome
    var calls: seq<Sent>

    method Execute(payload: map<string, string>, key: string) returns (outcome: Outcome)
      modifies this
      ensures calls == old(calls) + [Sent(payload, key)] && outcome == outcomes(|old(calls)|)
    {
      outcome := outcomes(|calls|);
      calls := calls + [Sent(payload, key)];
    }
  }

  datatype Reply = Receipt(receipt: WriteReceipt) | ApprovalRequest(writeId: string, payload: map<string, string>)

  // ---------------------------------------------------------------------
  // Following one worker through the protocol
  // ---------------------------------------------------------------------

  lemma {:induction false} RunConcat(hash: Hash, s: World, a: seq<Event>, b: seq<Event>)
    ensures Run(hash, s, a + b) == Run(hash, Run(hash, s, a), b)
    decreases |a|
  {
    hide Apply;
    if a == [] {
      assert a + b == b;
    } else {
      assert (a + b)[1..] == a[1..] + b;
      RunConcat(hash, Apply(hash, s, a[0]), a[1..], b);
    }
  }

  lemma RunOne(hash: Hash, s: World, e: Event)
    ensures Run(hash, s, [e]) == Apply(hash, s, e)
  {
    assert [e][1..] == [];
  }

  /** The steps of one worker, one for each outcome. */
  function StepsOf(owner: string, outcomes: seq<Outcome>): seq<Event> {
    if outcomes == [] then [] else [Step(owner, outcomes[0])] + StepsOf(owner, outcomes[1..])
  }

  /** All attempts but the last are retried, and the last is not. */
  ghost predicate Attempted(outcomes: seq<Outcome>, first: nat, maxRetries: int) {
    && outcomes != []
    && forall i :: 0 <= i < |outcomes| ==> (Retries(outcomes[i], first + i, maxRetries) <==> i < |outcomes| - 1)
  }

  function CallsMade(owner: string, p: PreparedWrite, outcomes: seq<Outcome>, first: nat): seq<AdapterCall> {
    seq(|outcomes|, (i: nat) requires i < |outcomes| =>
          AdapterCall(owner, p.id, p.payload, KeyOf(p), first + i, outcomes[i]))
  }

  lemma InvocationStep(hash: Hash, s: World, owner: string, outcome: Outcome) returns (t: World)
    requires owner in s.workers && s.workers[owner].pc.Invoking?
    requires s.workers[owner].pc.prepared.id == s.workers[owner].writeId
    ensures t == Apply(hash, s, Step(owner, outcome))
    ensures var me := s.workers[owner];
            var first, p := me.pc.attempt, me.pc.prepared;
            t == Goto(s.(calls := s.calls + CallsMade(owner, p, [outcome], first)), owner,
                      if Retries(outcome, first, me.maxRetries) then me.pc.(attempt := first + 1)
                      else Finalizing(ReceiptFor(p, me.pc.auth, ResultOf(outcome), first, me.completedAt)))
  {
    hide Retries, ResultOf, ReceiptFor, KeyOf, CallsMade;
    CallsMadeSplit(owner, s.workers[owner].pc.prepared, [outcome], s.workers[owner].pc.attempt);
    t := InvokeStep(s, owner, outcome);
  }

  /** The protocol's one-call steps, played for the outcomes of a retry loop, end where the loop ends. */
  lemma {:induction false} InvocationsFollow(hash: Hash, s: World, owner: string, outcomes: seq<Outcome>)
    requires owner in s.workers && s.workers[owner].pc.Invoking?
    requires s.workers[owner].pc.prepared.id == s.workers[owner].writeId
    requires Attempted(outcomes, s.workers[owner].pc.attempt, s.workers[owner].maxRetries)
    ensures var me := s.workers[owner];
            var first, p, auth := me.pc.attempt, me.pc.prepared, me.pc.auth;
            var receipt := ReceiptFor(p, auth, ResultOf(outcomes[|outcomes| - 1]), first + |outcomes| - 1,
                                      me.completedAt);
            Run(hash, s, StepsOf(owner, outcomes))
            == Goto(s.(calls := s.calls + CallsMade(owner, p, outcomes, first)), owner, Finalizing(receipt))
    decreases |outcomes|
  {
    assert outcomes != [];
    hide Apply, Run, Goto, StepsOf, Retries, ResultOf, ReceiptFor, KeyOf, CallsMade, Attempted;
    var me := s.workers[owner];
    var first, p, auth := me.pc.attempt, me.pc.prepared, me.pc.auth;
    AttemptedTail(outcomes, first, me.maxRetries);
    CallsMadeSplit(owner, p, outcomes, first);
    StepsSplit(hash, s, owner, outcomes);
    var t := InvocationStep(hash, s, owner, outcomes[0]);
    var head, tail := CallsMade(owner, p, [outcomes[0]], first), CallsMade(owner, p, outcomes[1..], first + 1);
    if |outcomes| > 1 {
      GotoReaches(s.(calls := s.calls + head), owner, me.pc.(attempt := first + 1));
      InvocationsFollow(hash, t, owner, outcomes[1..]);
      CallsConcat(s.calls, head, tail);
      GotoAgain(s, s.calls + head, t.calls + tail, owner, me.pc.(attempt := first + 1),
                Finalizing(ReceiptFor(p, auth, ResultOf(outcomes[|outcomes| - 1]), first + |outcomes| - 1,
                                      me.completedAt)));
    } else {
      assert outcomes == [outcomes[0]];
    }
  }

  lemma GotoReaches(s: World, owner: string, pc: Pc)
    requires owner in s.workers
    ensures Goto(s, owner, pc) == s.(workers := s.workers[owner := s.workers[owner].(pc := pc)])
  {
  }

  lemma GotoAgain(s: World, a: seq<AdapterCall>, b: seq<AdapterCall>, owner: string, pc: Pc, next: Pc)
    requires owner in s.workers
    ensures owner in Goto(s.(calls := a), owner, pc).workers
    ensures Goto(Goto(s.(calls := a), owner, pc).(calls := b), owner, next) == Goto(s.(calls := b), owner, next)
  {
  }

  lemma StepsSplit(hash: Hash, s: World, owner: string, outcomes: seq<Outcome>)
    requires outcomes != []
    ensures Run(hash, s, StepsOf(owner, outcomes))
         == Run(hash, Apply(hash, s, Step(owner, outcomes[0])), StepsOf(owner, outcomes[1..]))
    ensures forall t: World :: outcomes[1..] == [] ==> Run(hash, t, StepsOf(owner, outcomes[1..])) == t
  {
    hide Apply;
    assert StepsOf(owner, outcomes)[1..] == StepsOf(owner, outcomes[1..]);
  }

  lemma AttemptedTail(outcomes: seq<Outcome>, first: nat, maxRetries: int)
    requires Attempted(outcomes, first, maxRetries)
    ensures Retries(outcomes[0], first, maxRetries) <==> |outcomes| > 1
    ensures |outcomes| > 1 ==> Attempted(outcomes[1..], first + 1, maxRetries)
  {
    hide Retries;
    assert Retries(outcomes[0], first + 0, maxRetries) <==> 0 < |outcomes| - 1;
    forall i | 0 <= i < |outcomes| - 1
      ensures Retries(outcomes[1..][i], first + 1 + i, maxRetries) <==> i < |outcomes| - 2
    {
      assert Retries(outcomes[i + 1], first + (i + 1), maxRetries) <==> i + 1 < |outcomes| - 1;
    }
  }

  lemma CallsMadeSplit(owner: string, p: PreparedWrite, outcomes: seq<Outcome>, first: nat)
    requires outcomes != []
    ensures CallsMade(owner, p, outcomes, first)
         == CallsMade(owner, p, [outcomes[0]], first) + CallsMade(owner, p, outcomes[1..], first + 1)
    ensures CallsMade(owner, p, [outcomes[0]], first)
         == [AdapterCall(owner, p.id, p.payload, KeyOf(p), first, outcomes[0])]
    ensures CallsMade(owner, p, [], first) == []
  {
    hide KeyOf;
  }

  lemma CallsConcat(a: seq<AdapterCall>, b: seq<AdapterCall>, c: seq<AdapterCall>)
    ensures a + (b + c) == a + b + c
  {
  }

  /** `w` is what the events lead to, its tables are the stored ones, and the worker stands as told. */
  ghost predicate Follows(hash: Hash, s: World, trace: seq<Event>, w: World, store: Tables, owner: string, me: Worker) {
    w == Run(hash, s, trace) && w.store == store && owner in w.workers && w.workers[owner] == me
  }

  lemma FollowStart(hash: Hash, s: World, owner: string, me: Worker)
    requires owner !in s.workers && me.pc == ReadingReceipt
    ensures var e := Start(owner, me.writeId, me.maxRetries, me.completedAt);
            Follows(hash, s, [e], SetWorker(s, owner, me), s.store, owner, me)
  {
    var e := Start(owner, me.writeId, me.maxRetries, me.completedAt);
    RunOne(hash, s, e);
  }

  lemma FollowStep(hash: Hash, s: World, trace: seq<Event>, w: World, owner: string)
    requires w == Run(hash, s, trace) && owner in w.workers
    ensures Run(hash, s, trace + [Step(owner, Raised(""))]) == WorkerStep(w, owner, Raised(""))
  {
    hide WorkerStep;
    RunConcat(hash, s, trace, [Step(owner, Raised(""))]);
    RunOne(hash, w, Step(owner, Raised("")));
  }

  lemma FollowRead(hash: Hash, s: World, trace: seq<Event>, w: World, store: Tables, owner: string, me: Worker)
    returns (next: seq<Event>, t: World)
    requires Follows(hash, s, trace, w, store, owner, me) && Reading(me.pc)
    ensures && Follows(hash, s, next, t, store, owner, me.(pc := AfterRead(store, me)))
            && t.calls == w.calls
  {
    hide AfterRead;
    FollowStep(hash, s, trace, w, owner);
    hide Run;
    next, t := trace + [Step(owner, Raised(""))], WorkerStep(w, owner, Raised(""));
  }

  lemma FollowClaim(hash: Hash, s: World, trace: seq<Event>, w: World, store: Tables, owner: string, me: Worker)
    returns (next: seq<Event>, t: World)
    requires Follows(hash, s, trace, w, store, owner, me) && me.pc.Claiming?
    ensures var p, auth := me.pc.prepared, me.pc.auth;
            var tx := ClaimTx(store, p, owner, KeyOf(p), auth, me.completedAt);
            && Follows(hash, s, next, t, tx.tables, owner,
                       me.(pc := if tx.result.Ok? then Dispatching(p, auth) else Stopped))
            && t.calls == w.calls
  {
    hide ClaimTx, KeyOf;
    FollowStep(hash, s, trace, w, owner);
    hide Run;
    next, t := trace + [Step(owner, Raised(""))], WorkerStep(w, owner, Raised(""));
  }

  lemma FollowDispatch(hash: Hash, s: World, trace: seq<Event>, w: World, store: Tables, owner: string, me: Worker)
    returns (next: seq<Event>, t: World)
    requires Follows(hash, s, trace, w, store, owner, me) && me.pc.Dispatching?
    ensures var tx := DispatchTx(store, me.writeId, owner);
            && Follows(hash, s, next, t, tx.tables, owner,
                       me.(pc := if tx.result.Ok? then Invoking(me.pc.prepared, me.pc.auth, 1)
                                 else if tx.result.error == AuthorityRevoked then Aborting else Stopped))
            && t.calls == w.calls
  {
    hide DispatchTx;
    FollowStep(hash, s, trace, w, owner);
    hide Run;
    next, t := trace + [Step(owner, Raised(""))], WorkerStep(w, owner, Raised(""));
  }

  lemma FollowFinish(hash: Hash, s: World, trace: seq<Event>, w: World, store: Tables, owner: string, me: Worker)
    returns (next: seq<Event>, t: World)
    requires Follows(hash, s, trace, w, store, owner, me) && (me.pc.Aborting? || me.pc.Finalizing?)
    ensures var u := if me.pc.Aborting? then AbortTx(store, me.writeId, owner).tables
                     else FinalizeTx(store, me.writeId, owner, me.pc.receipt).tables;
            && Follows(hash, s, next, t, u, owner, me.(pc := Stopped))
            && t.calls == w.calls
  {
    hide AbortTx, FinalizeTx;
    FollowStep(hash, s, trace, w, owner);
    hide Run;
    next, t := trace + [Step(owner, Raised(""))], WorkerStep(w, owner, Raised(""));
  }

  lemma FollowInvocations(hash: Hash, s: World, trace: seq<Event>, w: World, store: Tables, owner: string, me: Worker,
                          outcomes: seq<Outcome>)
    returns (next: seq<Event>, t: World)
    requires Follows(hash, s, trace, w, store, owner, me) && me.pc.Invoking? && me.pc.attempt == 1
    requires me.pc.prepared.id == me.writeId && Attempted(outcomes, 1, me.maxRetries)
    ensures var receipt := ReceiptFor(me.pc.prepared, me.pc.auth, ResultOf(outcomes[|outcomes| - 1]), |outcomes|,
                                      me.completedAt);
            && Follows(hash, s, next, t, store, owner, me.(pc := Finalizing(receipt)))
            && t.calls == w.calls + CallsMade(owner, me.pc.prepared, outcomes, 1)
  {
    hide Retries, ResultOf, ReceiptFor, KeyOf, CallsMade, StepsOf;
    RunConcat(hash, s, trace, StepsOf(owner, outcomes));
    InvocationsFollow(hash, w, owner, outcomes);
    hide Run;
    next := trace + StepsOf(owner, outcomes);
    t := Run(hash, s, next);
  }

  /** What a worker stands for before and after it has read, when nothing stops it. */
  ghost predicate Ready(t: Tables, w: PreparedWrite, auth: WriteAuthorization) {
    && SelectPrepared(t.writes, w.id).Some? && w == WithApproval(SelectPrepared(t.writes, w.id).value, t.approvals)
    && Authorization(t, w) == Some(auth) && Authorization(t, SelectPrepared(t.writes, w.id).value).Some?
    && w.id !in t.receipts && w.id !in t.executions
  }

  lemma FollowReads(hash: Hash, s: World, owner: string, me: Worker, w: PreparedWrite, auth: WriteAuthorization)
    returns (trace: seq<Event>, t: World)
    requires owner !in s.workers && me.pc == ReadingReceipt && me.maxRetries >= 0
    requires Ready(s.store, w, auth) && me.writeId == w.id
    ensures Follows(hash, s, trace, t, s.store, owner, me.(pc := Claiming(w, auth))) && t.calls == s.calls
  {
    trace, t := [Start(owner, me.writeId, me.maxRetries, me.completedAt)], SetWorker(s, owner, me);
    FollowStart(hash, s, owner, me);
    hide Follows, SelectPrepared, Authorization;
    trace, t := FollowRead(hash, s, trace, t, s.store, owner, me);
    trace, t := FollowRead(hash, s, trace, t, s.store, owner, me.(pc := ReadingPrepared));
    trace, t := FollowRead(hash, s, trace, t, s.store, owner, me.(pc := ReadingAuthority(w)));
  }

  /** A new claim is dispatched when there is authority, and then it can be finalized. */
  lemma ClaimThenDispatch(t: Tables, w: PreparedWrite, owner: string, auth: WriteAuthorization, at: int)
    requires Ready(t, w, auth)
    ensures var claimed := ClaimTx(t, w, owner, KeyOf(w), auth, at);
            var dispatched := DispatchTx(claimed.tables, w.id, owner);
            && claimed.result.Ok? && dispatched.result.Ok?
            && forall receipt: WriteReceipt :: receipt.writeId == w.id ==>
                 var tx := FinalizeTx(dispatched.tables, w.id, owner, receipt);
                 tx.result == Ok(receipt) && tx.tables.receipts == t.receipts[w.id := receipt]
  {
    hide SelectPrepared, KeyOf;
    var row := SelectPrepared(t.writes, w.id).value;
    var claimed := ClaimTx(t, w, owner, KeyOf(w), auth, at);
    assert Authorization(claimed.tables, row) == Authorization(t, row);
    hide Authorization;
  }

  /** Progress: a prepared, authorized write that nobody has claimed is executed by a fresh owner alone, with
      whatever its adapter answers, and ends with the receipt of the last answer. */
  lemma AuthorizedWriteCompletes(hash: Hash, s: World, owner: string, me: Worker, w: PreparedWrite,
                                 auth: WriteAuthorization, outcomes: seq<Outcome>)
    returns (trace: seq<Event>, t: World)
    requires owner !in s.workers && me.pc == ReadingReceipt && me.maxRetries >= 0
    requires Ready(s.store, w, auth) && me.writeId == w.id && Attempted(outcomes, 1, me.maxRetries)
    ensures Follows(hash, s, trace, t, t.store, owner, me.(pc := Stopped))
    ensures t.calls == s.calls + CallsMade(owner, w, outcomes, 1)
    ensures t.store.receipts
         == s.store.receipts[w.id := ReceiptFor(w, auth, ResultOf(outcomes[|outcomes| - 1]), |outcomes|,
                                                me.completedAt)]
  {
    trace, t := FollowReads(hash, s, owner, me, w, auth);
    ClaimThenDispatch(s.store, w, owner, auth, me.completedAt);
    hide Ready, KeyOf, ClaimTx, DispatchTx, FinalizeTx, CallsMade, ResultOf;
    var store1 := ClaimTx(s.store, w, owner, KeyOf(w), auth, me.completedAt).tables;
    var store2 := DispatchTx(store1, w.id, owner).tables;
    trace, t := FollowClaim(hash, s, trace, t, s.store, owner, me.(pc := Claiming(w, auth)));
    trace, t := FollowDispatch(hash, s, trace, t, store1, owner, me.(pc := Dispatching(w, auth)));
    trace, t := FollowInvocations(hash, s, trace, t, store2, owner, me.(pc := Invoking(w, auth, 1)), outcomes);
    var receipt := ReceiptFor(w, auth, ResultOf(outcomes[|outcomes| - 1]), |outcomes|, me.completedAt);
    trace, t := FollowFinish(hash, s, trace, t, store2, owner, me.(pc := Finalizing(receipt)));
  }

  function SentOf(calls: seq<AdapterCall>): seq<Sent> {
    seq(|calls|, (i: nat) requires i < |calls| => Sent(calls[i].payload, calls[i].key))
  }

  /** The adapter was called once for each logged call, with what is logged. */
  ghost predicate SentAsLogged(before: seq<AdapterCall>, after: seq<AdapterCall>, sent: seq<Sent>, now: seq<Sent>) {
    before <= after && now == sent + SentOf(after[|before|..])
  }

  /** What the adapter of the call answered from its call `first` on is what is logged, attempt by attempt. */
  ghost predicate AnswersLogged(before: seq<AdapterCall>, after: seq<AdapterCall>, owner: string, writeId: string,
                                adapter: WriteConnector, first: nat)
  {
    && |before| <= |after|
    && forall k :: |before| <= k < |after| ==>
         && after[k].owner == owner && after[k].writeId == writeId && after[k].attempt == k - |before| + 1
         && after[k].outcome == adapter.outcomes(first + (k - |before|))
  }

  /** The receipt repeats an answer of the adapter: an exception leaves the outcome unknown, with its text. */
  predicate Repeats(receipt: WriteReceipt, answer: Outcome) {
    match answer
    case Raised(error) =>
      && receipt.status == Unknown && receipt.externalId == None
      && receipt.detail == "Write outcome unknown: " + error
    case Returned(result) =>
      && receipt.status == result.status && receipt.externalId == result.externalId
      && receipt.detail == result.detail
  }

  /** The calls from `first` to `last` are what a limit of `maxRetries` makes of the answers: each but the last
      was answered with a definite failure, and the last was not, or was the last one allowed. */
  ghost predicate TriedAsAllowed(adapter: WriteConnector, first: nat, last: nat, maxRetries: int) {
    && first < last <= first + maxRetries + 1
    && (forall k :: first <= k < last - 1 ==>
          adapter.outcomes(k).Returned? && adapter.outcomes(k).result.status == Failed)
    && (adapter.outcomes(last - 1).Returned? && adapter.outcomes(last - 1).result.status == Failed ==>
          last == first + maxRetries + 1)
  }

  /** What a call that reached the adapter hands back: a receipt with the last answer, the number of calls, and
      connector, key, authorization and time as in the stored write and the arguments. */
  ghost predicate ReceiptOfAnswers(receipt: WriteReceipt, adapter: WriteConnector, first: nat, last: nat,
                                   maxRetries: int, prepared: PreparedWrite, authorization: WriteAuthorization,
                                   completedAt: int)
  {
    && TriedAsAllowed(adapter, first, last, maxRetries)
    && Repeats(receipt, adapter.outcomes(last - 1)) && receipt.attempts == last - first
    && receipt.writeId == prepared.id && receipt.connectorId == prepared.scope.connectorId
    && receipt.idempotencyKey == "reckoning-write:" + prepared.id + ":" + prepared.payloadDigest
    && receipt.authorization == authorization && receipt.completedAt == completedAt
  }

  /** The same of a whole call on the tables `before`: the write and its authorization are the ones found there. */
  ghost predicate ExecutedOn(before: Tables, after: Tables, writeId: string, owner: string, receipt: WriteReceipt,
                             adapter: WriteConnector, first: nat, last: nat, maxRetries: int, completedAt: int)
  {
    var row := SelectPrepared(before.writes, writeId);
    && row.Some? && Authorization(before, row.value).Some?
    && ReceiptOfAnswers(receipt, adapter, first, last, maxRetries, row.value, Authorization(before, row.value).value,
                        completedAt)
    && (HoldsNone(before, writeId, owner) ==> ClaimMatches(after, receipt))
  }

  /** The answers that end a call before its claim, and what a request for approval shows. */
  ghost predicate Answered(before: Tables, after: Tables, writeId: string, maxRetries: int,
                           r: Result<Reply, WriteError>)
  {
    var row := SelectPrepared(before.writes, writeId);
    var early := if writeId in before.receipts then Some(Ok(Receipt(before.receipts[writeId])))
                 else if row == None then Some(Err(UnknownRecord))
                 else if Authorization(before, row.value) == None then
                   Some(Ok(ApprovalRequest(writeId, row.value.payload)))
                 else if maxRetries < 0 then Some(Err(InvalidValue))
                 else None;
    && (early.Some? ==> r == early.value && after == before)
    && (r.Ok? && r.value.ApprovalRequest? ==>
          row.Some? && r.value.writeId == writeId && r.value.payload == row.value.payload)
  }

  /** The write can be claimed and dispatched: it is unclaimed or aborted, or claimed by `owner` itself. */
  predicate Claimable(t: Tables, id: string, digest: string, owner: string) {
    id in t.executions ==>
      && t.executions[id].payloadDigest == digest
      && (t.executions[id].state == Aborted
          || (t.executions[id].owner == owner && t.executions[id].state == Claimed))
  }

  /** What becomes of a call on an authorized write: it is carried out exactly when the write is claimable;
      otherwise it is refused, with nothing changed. */
  predicate CarriedOut(before: Tables, after: Tables, id: string, digest: string, owner: string,
                       r: Result<Reply, WriteError>)
  {
    if Claimable(before, id, digest, owner) then r.Ok? && r.value.Receipt?
    else
      && id in before.executions && after == before
      && r == Err(if before.executions[id].payloadDigest != digest then Conflict else ClaimConflict)
  }

  lemma ClaimableGoes(t: Tables, p: PreparedWrite, owner: string, key: string, auth: WriteAuthorization, at: int)
    requires SelectPrepared(t.writes, p.id).Some? && Authorization(t, SelectPrepared(t.writes, p.id).value).Some?
    ensures var claimed := ClaimTx(t, p, owner, key, auth, at);
            var dispatched := DispatchTx(claimed.tables, p.id, owner);
            if Claimable(t, p.id, p.payloadDigest, owner) then claimed.result.Ok? && dispatched.result.Ok?
            else
              && (claimed.result.Err? ==>
                    && claimed.tables == t && p.id in t.executions
                    && claimed.result.error
                       == if t.executions[p.id].payloadDigest != p.payloadDigest then Conflict else ClaimConflict)
              && (claimed.result.Ok? ==>
                    && p.id in t.executions && t.executions[p.id].payloadDigest == p.payloadDigest
                    && dispatched == Tx(t, Err(ClaimConflict)))
  {
    hide Authorization, SelectPrepared, DispatchTx;
    var claimed := ClaimTx(t, p, owner, key, auth, at);
    if claimed.result.Ok? {
      var row := SelectPrepared(t.writes, p.id).value;
      assert claimed.tables == t.(executions := claimed.tables.executions);
      AuthorityStays(t, claimed.tables.executions, row);
      OwnDispatch(claimed.tables, p.id, owner, row);
    }
  }

  lemma AuthorityStays(t: Tables, executions: map<string, ExecutionClaim>, w: PreparedWrite)
    ensures Authorization(t.(executions := executions), w) == Authorization(t, w)
  {
  }

  lemma OwnDispatch(t: Tables, id: string, owner: string, row: PreparedWrite)
    requires SelectPrepared(t.writes, id) == Some(row) && Authorization(t, row).Some?
    requires id in t.executions && t.executions[id].owner == owner
    ensures t.executions[id].state == Claimed ==> DispatchTx(t, id, owner).result.Ok?
    ensures t.executions[id].state != Claimed ==> DispatchTx(t, id, owner) == Tx(t, Err(ClaimConflict))
  {
    hide Authorization, SelectPrepared;
  }

  /** `owner` holds no live claim on the write yet. */
  predicate HoldsNone(t: Tables, id: string, owner: string) {
    id in t.executions ==> t.executions[id].owner != owner
  }

  /** The claim on the write carries authorization and key of the receipt, and its number of calls. */
  predicate ClaimMatches(t: Tables, receipt: WriteReceipt) {
    && receipt.writeId in t.executions
    && var claim := t.executions[receipt.writeId];
       && claim.state == Finalized && claim.authorization == receipt.authorization
       && claim.idempotencyKey == receipt.idempotencyKey && claim.attempts == receipt.attempts
  }

  lemma AnswersAreLogged(t0: World, t: World, owner: string, p: PreparedWrite, outcomes: seq<Outcome>,
                         adapter: WriteConnector, first: nat)
    requires t.calls == t0.calls + CallsMade(owner, p, outcomes, 1)
    requires outcomes == seq(|outcomes|, (i: nat) => adapter.outcomes(first + i))
    ensures AnswersLogged(t0.calls, t.calls, owner, p.id, adapter, first)
  {
    hide KeyOf;
    forall k | |t0.calls| <= k < |t.calls| ensures t.calls[k].outcome == adapter.outcomes(first + (k - |t0.calls|)) {
      assert t.calls[k].outcome == outcomes[k - |t0.calls|];
    }
  }

  lemma AttemptsAreAllowed(outcomes: seq<Outcome>, adapter: WriteConnector, first: nat, maxRetries: int)
    requires Attempted(outcomes, 1, maxRetries) && |outcomes| <= maxRetries + 1
    requires outcomes == seq(|outcomes|, (i: nat) => adapter.outcomes(first + i))
    ensures TriedAsAllowed(adapter, first, first + |outcomes|, maxRetries)
  {
    var n := |outcomes|;
    assert forall i :: 0 <= i < n ==> outcomes[i] == adapter.outcomes(first + i);
    forall k | first <= k < first + n - 1
      ensures adapter.outcomes(k).Returned? && adapter.outcomes(k).result.status == Failed
    {
      assert Retries(outcomes[k - first], 1 + (k - first), maxRetries);
    }
    assert !Retries(outcomes[n - 1], 1 + (n - 1), maxRetries);
  }

  lemma ReceiptTellsAnswers(receipt: WriteReceipt, adapter: WriteConnector, first: nat, last: nat,
                            maxRetries: int, prepared: PreparedWrite, authorization: WriteAuthorization,
                            completedAt: int)
    requires TriedAsAllowed(adapter, first, last, maxRetries)
    requires receipt == ReceiptFor(prepared, authorization, ResultOf(adapter.outcomes(last - 1)), last - first,
                                   completedAt)
    ensures ReceiptOfAnswers(receipt, adapter, first, last, maxRetries, prepared, authorization, completedAt)
  {
  }

  class ExternalWriteService {
    const repository: SQLiteExternalWriteRepository
    const hash: Hash

    constructor (repository: SQLiteExternalWriteRepository, hash: Hash)
      ensures this.repository == repository && this.hash == hash
    {
      this.repository, this.hash := repository, hash;
    }

    method Prepare(id: string, scope: Scope, payload: map<string, string>, preparedAt: int)
      returns (r: Result<PreparedWrite, WriteError>)
      modifies repository
      ensures repository.Contents()
           == Administer(hash, old(repository.Contents()),
                           ExternalWriteProtocol.Prepare(id, scope, payload, preparedAt))
      ensures r == if ValidPreparation(id, scope, payload)
                   then PrepareTx(old(repository.Contents()), PreparedOf(hash, id, scope, payload, preparedAt)).result
                   else Err(InvalidValue)
      ensures r == Err(InvalidValue) <==>
                || Text.Blank(scope.connectorId) || Text.Blank(scope.actionType) || Text.Blank(scope.target)
                || Text.Blank(scope.trigger) || Text.Blank(scope.boundary) || Text.Blank(id) || payload == map[]
    {
      hide SelectPrepared, Text.Strip;
      if !ValidScope(scope) || Text.Strip(id) == "" || payload == map[] { return Err(InvalidValue); }
      r := repository.Prepare(PreparedWrite(id, scope, payload, preparedAt, hash(payload), None));
    }

    /** The digest approved is the one stored at that moment, and the reply carries the approval. */
    method ApproveExact(writeId: string, approvalId: string, approvedAt: int)
      returns (r: Result<PreparedWrite, WriteError>)
      modifies repository
      ensures r.Err? ==> repository.Contents() == old(repository.Contents())
      ensures var row := SelectPrepared(old(repository.writes), writeId);
              r.Ok? <==> && !Text.Blank(approvalId) && row.Some?
                         && ApproveTx(old(repository.Contents()), writeId, row.value.payloadDigest, approvalId,
                                      approvedAt).result.Ok?
      ensures r.Err? && Text.Blank(approvalId) ==> r.error == InvalidValue
      ensures r.Err? && !Text.Blank(approvalId) && SelectPrepared(old(repository.writes), writeId) == None ==>
                r.error == UnknownRecord
      ensures r.Ok? ==>
                && SelectPrepared(old(repository.writes), writeId).Some?
                && (var digest := SelectPrepared(old(repository.writes), writeId).value.payloadDigest;
                    repository.Contents() == Administer(hash, old(repository.Contents()),
                                                        Approve(writeId, digest, approvalId, approvedAt)))
                && r == repository.GetPrepared(writeId)
    {
      hide SelectPrepared, Text.Strip;
      if Text.Strip(approvalId) == "" { return Err(InvalidValue); }
      var prepared := repository.GetPrepared(writeId);
      if prepared.Err? { return Err(prepared.error); }
      var approved := repository.ApproveExact(writeId, prepared.value.payloadDigest, approvalId, approvedAt);
      if approved.Err? { return Err(approved.error); }
      r := repository.GetPrepared(writeId);
    }

    method GrantStandingPermission(id: string, scope: Scope, grantedAt: int)
      returns (r: Result<PermissionRecord, WriteError>)
      modifies repository
      ensures repository.Contents() == Administer(hash, old(repository.Contents()), Grant(id, scope, grantedAt))
      ensures r == Err(InvalidValue) <==>
                || Text.Blank(scope.connectorId) || Text.Blank(scope.actionType) || Text.Blank(scope.target)
                || Text.Blank(scope.trigger) || Text.Blank(scope.boundary) || Text.Blank(id)
      ensures r.Err? ==> repository.Contents() == old(repository.Contents())
      ensures r.Err? && r.error != InvalidValue ==>
                r.error == Conflict && exists p :: p in old(repository.permissions) && p.id == id
      ensures r.Ok? ==>
                && r.value == PermissionRecord(id, scope, grantedAt, None, true)
                && repository.permissions == old(repository.permissions) + [r.value]
    {
      hide Text.Strip;
      if Text.Strip(id) == "" || !ValidScope(scope) { return Err(InvalidValue); }
      r := repository.GrantPermission(id, scope, grantedAt);
    }

    method RevokeStandingPermission(id: string, revokedAt: int) returns (r: Result<PermissionRecord, WriteError>)
      modifies repository
      ensures Tx(repository.Contents(), r) == RevokeTx(old(repository.Contents()), id, revokedAt)
      ensures repository.Contents() == Administer(hash, old(repository.Contents()), Revoke(id, revokedAt))
    {
      r := repository.RevokePermission(id, revokedAt);
    }

    /** The retry loop: definite failures are tried again while attempts are left, nothing else is. */
    method InvokeAdapter(adapter: WriteConnector, prepared: PreparedWrite, key: string, maxRetries: int)
      returns (result: WriteResult, attempts: nat, ghost outcomes: seq<Outcome>)
      modifies adapter
      ensures outcomes == seq(attempts, (i: nat) => adapter.outcomes(|old(adapter.calls)| + i))
      ensures adapter.calls == old(adapter.calls) + seq(attempts, (i: nat) => Sent(prepared.payload, key))
      ensures maxRetries >= 0 ==>
                Attempted(outcomes, 1, maxRetries) && result == ResultOf(outcomes[attempts - 1])
      ensures maxRetries < 0 ==> attempts == 0 && result.status == Failed
      ensures attempts <= if maxRetries < 0 then 0 else maxRetries + 1
    {
      result := WriteResult(Failed, None, "Write adapter was not called.");
      attempts := 0;
      outcomes := [];
      while attempts < maxRetries + 1
        invariant attempts <= if maxRetries < 0 then 0 else maxRetries + 1
        invariant outcomes == seq(attempts, (i: nat) => adapter.outcomes(|old(adapter.calls)| + i))
        invariant adapter.calls == old(adapter.calls) + seq(attempts, (i: nat) => Sent(prepared.payload, key))
        invariant forall i :: 0 <= i < attempts ==> DefiniteFailure(outcomes[i])
        invariant attempts > 0 ==> result == ResultOf(outcomes[attempts - 1])
        invariant attempts == 0 ==> result.status == Failed
      {
        attempts := attempts + 1;
        var outcome := adapter.Execute(prepared.payload, key);
        outcomes := outcomes + [outcome];
        if outcome.Raised? {
          return WriteResult(Unknown, None, "Write outcome unknown: " + outcome.error), attempts, outcomes;
        }
        result := outcome.result;
        if result.status == Success || result.status == Unknown { break; }
      }
    }

    /** One `execute` call with nothing in between.  `s` is any world around the stored tables in which
        `owner` is new; the call is the behaviour `trace` of the protocol from there, and ends stopped. */
    method Execute(writeId: string, adapter: WriteConnector, completedAt: int, maxRetries: int, owner: string,
                   ghost s: World)
      returns (r: Result<Reply, WriteError>, ghost trace: seq<Event>, ghost t: World)
      requires s.store == repository.Contents() && owner !in s.workers
      modifies repository, adapter
      ensures Follows(hash, s, trace, t, repository.Contents(), owner,
                      Worker(writeId, maxRetries, completedAt, Stopped))
      ensures SentAsLogged(s.calls, t.calls, old(adapter.calls), adapter.calls)
      ensures r.Ok? && r.value.Receipt? ==> repository.GetReceipt(writeId) == Some(r.value.receipt)
      ensures (r.Err? || r.value.ApprovalRequest?) ==>
                t.calls == s.calls && repository.receipts == old(repository.receipts)
      ensures writeId in old(repository.receipts) ==> repository.Contents() == old(repository.Contents())
      ensures Answered(old(repository.Contents()), repository.Contents(), writeId, maxRetries, r)
      ensures AnswersLogged(s.calls, t.calls, owner, writeId, adapter, |old(adapter.calls)|)
      ensures |adapter.calls| > |old(adapter.calls)| <==>
                r.Ok? && r.value.Receipt? && writeId !in old(repository.receipts)
      ensures var row := SelectPrepared(old(repository.writes), writeId);
              && writeId !in old(repository.receipts) && row.Some? && maxRetries >= 0
              && Authorization(old(repository.Contents()), row.value).Some? ==>
                CarriedOut(old(repository.Contents()), repository.Contents(), writeId, row.value.payloadDigest, owner,
                           r)
      ensures |adapter.calls| > |old(adapter.calls)| ==>
                ExecutedOn(old(repository.Contents()), repository.Contents(), writeId, owner, r.value.receipt, adapter,
                           |old(adapter.calls)|, |adapter.calls|, maxRetries, completedAt)
    {
      ghost var me := Worker(writeId, maxRetries, completedAt, ReadingReceipt);
      trace, t := [Start(owner, writeId, maxRetries, completedAt)], SetWorker(s, owner, me);
      FollowStart(hash, s, owner, me);
      hide Follows, WorkerStep, SelectPrepared, Authorization, KeyOf;

      var existing := repository.GetReceipt(writeId);
      trace, t := FollowRead(hash, s, trace, t, s.store, owner, me);
      me := me.(pc := AfterRead(s.store, me));
      if existing.Some? { return Ok(Receipt(existing.value)), trace, t; }

      var prepared := repository.GetPrepared(writeId);
      trace, t := FollowRead(hash, s, trace, t, s.store, owner, me);
      me := me.(pc := AfterRead(s.store, me));
      if prepared.Err? { return Err(prepared.error), trace, t; }

      var authorization := Authorization(repository.Contents(), prepared.value);
      trace, t := FollowRead(hash, s, trace, t, s.store, owner, me);
      me := me.(pc := AfterRead(s.store, me));
      if authorization == None { return Ok(ApprovalRequest(prepared.value.id, prepared.value.payload)), trace, t; }
      if maxRetries < 0 { return Err(InvalidValue), trace, t; }

      r, trace, t := Carry(prepared.value, authorization.value, adapter, completedAt, maxRetries, owner, s, trace, t);
    }

    /** The part of `execute` from the claim on. */
    method Carry(prepared: PreparedWrite, authorization: WriteAuthorization, adapter: WriteConnector, completedAt: int,
                 maxRetries: int, owner: string, ghost s: World, ghost trace0: seq<Event>, ghost t0: World)
      returns (r: Result<Reply, WriteError>, ghost trace: seq<Event>, ghost t: World)
      requires maxRetries >= 0 && prepared.id !in repository.receipts
      requires Follows(hash, s, trace0, t0, repository.Contents(), owner,
                       Worker(prepared.id, maxRetries, completedAt, Claiming(prepared, authorization)))
      modifies repository, adapter
      ensures Follows(hash, s, trace, t, repository.Contents(), owner,
                      Worker(prepared.id, maxRetries, completedAt, Stopped))
      ensures SentAsLogged(t0.calls, t.calls, old(adapter.calls), adapter.calls)
      ensures r.Ok? && r.value.Receipt? ==> repository.GetReceipt(prepared.id) == Some(r.value.receipt)
      ensures (r.Err? || r.value.ApprovalRequest?) ==>
                t.calls == t0.calls && repository.receipts == old(repository.receipts)
      ensures r.Ok? && r.value.ApprovalRequest? ==> r == Ok(ApprovalRequest(prepared.id, prepared.payload))
      ensures AnswersLogged(t0.calls, t.calls, owner, prepared.id, adapter, |old(adapter.calls)|)
      ensures |adapter.calls| > |old(adapter.calls)| <==> r.Ok? && r.value.Receipt?
      ensures var row := SelectPrepared(old(repository.writes), prepared.id);
              row.Some? && Authorization(old(repository.Contents()), row.value).Some? ==>
                CarriedOut(old(repository.Contents()), repository.Contents(), prepared.id, prepared.payloadDigest,
                           owner, r)
      ensures |adapter.calls| > |old(adapter.calls)| ==>
                && ReceiptOfAnswers(r.value.receipt, adapter, |old(adapter.calls)|, |adapter.calls|, maxRetries,
                                    prepared, authorization, completedAt)
                && (HoldsNone(old(repository.Contents()), prepared.id, owner) ==>
                      ClaimMatches(repository.Contents(), r.value.receipt))
    {
      hide Follows, WorkerStep, SelectPrepared, Authorization, KeyOf;
      trace, t := trace0, t0;
      ghost var me := Worker(prepared.id, maxRetries, completedAt, Claiming(prepared, authorization));
      var key := KeyOf(prepared);
      ghost var row := SelectPrepared(repository.writes, prepared.id);
      if row.Some? && Authorization(repository.Contents(), row.value).Some? {
        ClaimableGoes(repository.Contents(), prepared, owner, key, authorization, completedAt);
      }
      trace, t := FollowClaim(hash, s, trace, t, repository.Contents(), owner, me);
      var claimed := repository.ClaimExecution(prepared, owner, key, authorization, completedAt);
      if claimed.Err? { return Err(claimed.error), trace, t; }
      me := me.(pc := Dispatching(prepared, authorization));

      trace, t := FollowDispatch(hash, s, trace, t, repository.Contents(), owner, me);
      var dispatched := repository.DispatchExecution(prepared.id, owner);
      if dispatched.Err? {
        if dispatched.error != AuthorityRevoked { return Err(dispatched.error), trace, t; }
        trace, t := FollowFinish(hash, s, trace, t, repository.Contents(), owner, me.(pc := Aborting));
        var aborted := repository.AbortExecution(prepared.id, owner);
        if aborted.Err? { return Err(aborted.error), trace, t; }
        return Ok(ApprovalRequest(prepared.id, prepared.payload)), trace, t;
      }

      r, trace, t := Deliver(prepared, authorization, adapter, completedAt, maxRetries, owner, s, trace, t);
    }

    /** The part of `execute` from the adapter on: the owner holds its dispatched claim. */
    method Deliver(prepared: PreparedWrite, authorization: WriteAuthorization, adapter: WriteConnector,
                   completedAt: int, maxRetries: int, owner: string, ghost s: World, ghost trace0: seq<Event>,
                   ghost t0: World)
      returns (r: Result<Reply, WriteError>, ghost trace: seq<Event>, ghost t: World)
      requires maxRetries >= 0 && prepared.id !in repository.receipts && prepared.id in repository.executions
      requires var claim := repository.executions[prepared.id]; claim.owner == owner && claim.state == Dispatched
      requires Follows(hash, s, trace0, t0, repository.Contents(), owner,
                       Worker(prepared.id, maxRetries, completedAt, Invoking(prepared, authorization, 1)))
      modifies repository, adapter
      ensures Follows(hash, s, trace, t, repository.Contents(), owner,
                      Worker(prepared.id, maxRetries, completedAt, Stopped))
      ensures SentAsLogged(t0.calls, t.calls, old(adapter.calls), adapter.calls)
      ensures r.Ok? && r.value.Receipt? && repository.GetReceipt(prepared.id) == Some(r.value.receipt)
      ensures AnswersLogged(t0.calls, t.calls, owner, prepared.id, adapter, |old(adapter.calls)|)
      ensures ReceiptOfAnswers(r.value.receipt, adapter, |old(adapter.calls)|, |adapter.calls|, maxRetries,
                               prepared, authorization, completedAt)
      ensures r.value.receipt.idempotencyKey == KeyOf(prepared)
      ensures var claim := old(repository.executions[prepared.id]);
              claim.authorization == authorization && claim.idempotencyKey == r.value.receipt.idempotencyKey ==>
                ClaimMatches(repository.Contents(), r.value.receipt)
    {
      hide Follows, KeyOf, ResultOf, Attempted, StepsOf;
      trace, t := trace0, t0;
      ghost var me := Worker(prepared.id, maxRetries, completedAt, Invoking(prepared, authorization, 1));
      var result, attempts, outcomes := InvokeAdapter(adapter, prepared, KeyOf(prepared), maxRetries);
      trace, t := FollowInvocations(hash, s, trace, t, repository.Contents(), owner, me, outcomes);
      assert SentOf(CallsMade(owner, prepared, outcomes, 1))
          == seq(attempts, (i: nat) => Sent(prepared.payload, KeyOf(prepared)));
      assert t.calls[|t0.calls|..] == CallsMade(owner, prepared, outcomes, 1);
      AnswersAreLogged(t0, t, owner, prepared, outcomes, adapter, |old(adapter.calls)|);
      AttemptsAreAllowed(outcomes, adapter, |old(adapter.calls)|, maxRetries);
      var receipt := ReceiptFor(prepared, authorization, result, attempts, completedAt);
      ReceiptTellsAnswers(receipt, adapter, |old(adapter.calls)|, |adapter.calls|, maxRetries, prepared, authorization,
                          completedAt);
      trace, t := FollowFinish(hash, s, trace, t, repository.Contents(), owner, me.(pc := Finalizing(receipt)));
      var finalized := repository.FinalizeExecution(prepared.id, owner, receipt);
      r := Ok(Receipt(finalized.value));
    }
  }
}
