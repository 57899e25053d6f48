/** What becomes of an operation id that is used a second time
    (src/reckoning/application.py:644-663, src/reckoning/persistence.py:478-509). */
module DecisionReplays {
  import opened Wrappers
  import opened Continuity
  import opened ContinuityStore
  import opened DecisionProtocol
  import Text

  // ---------------------------------------------------------------------
  // One step
  // ---------------------------------------------------------------------

  predicate Used(s: Store, op: string) { op in s.operations }

  /** The replay check refuses a request exactly when its id has a record of another digest, be the operation
      completed or failed; and it changes nothing. */
  lemma CheckRefusesExactly(hash: Hash, s: World, w: nat, env: Env)
    requires w in s.workers && s.workers[w].pc == Checking && !Empty(s.workers[w].request)
    ensures var r := s.workers[w].request;
            var t := Apply(hash, s, Step(w, env));
            && t.store == s.store && t.commits == s.commits
            && (t.workers[w].pc == Done(Refused(OperationConflict))
                <==> OpOf(r).Some? && Used(s.store, OpOf(r).value)
                     && s.store.operations[OpOf(r).value].digest != DigestOf(hash, r))
  {
    hide DigestOf, Empty;
  }

  /** A record step is refused exactly when its id is completed by then, and otherwise replaces the record,
      whatever digest that had. */
  lemma RecordRefusedExactly(hash: Hash, s: World, w: nat, env: Env)
    requires w in s.workers && s.workers[w].pc.Recording?
    ensures var entry := s.workers[w].pc.entry;
            var t := Apply(hash, s, Step(w, env));
            && t.workers[w].pc == Done(if IsCompleted(s.store, entry.operationId) then Refused(OperationConflict)
                                       else s.workers[w].pc.reply)
            && t.store == if IsCompleted(s.store, entry.operationId) then s.store
                          else s.store.(operations := s.store.operations[entry.operationId := entry])
  {
  }

  /** A save step of an up-to-date snapshot is refused exactly when its id is completed by then, and one of a
      stale snapshot always is; a refused one stores neither decision nor operation. */
  lemma SaveRefusedExactly(hash: Hash, s: World, w: nat, env: Env)
    requires Inv(s) && w in s.workers && s.workers[w].pc.Saving?
    ensures var pc := s.workers[w].pc;
            var current := CurrentVersion(s.store, pc.next.id) == pc.next.version - 1;
            var completed := pc.record.Some? && IsCompleted(s.store, pc.record.value.operationId);
            var t := Apply(hash, s, Step(w, env));
            && t.workers[w].pc == Done(if !current then Refused(RevisionConflict)
                                       else if completed then Refused(OperationConflict) else Decision(pc.next))
            && (!current || completed ==> t.store == s.store && t.commits == s.commits)
  {
    hide StoreSound, CommitsSound, DecisionSound;
    assert WorkerSound(s.store, s.workers[w]);
  }

  // ---------------------------------------------------------------------
  // Over a behaviour
  // ---------------------------------------------------------------------

  /** A worker whose request passed the replay check, and is on its way to the operation table. */
  predicate Passed(me: Worker, op: string) {
    OpOf(me.request) == Some(op) && (me.pc.Preparing? || me.pc.Saving? || me.pc.Recording?)
  }

  /** What a worker is about to record is its own id and digest. */
  ghost predicate CarriesOwnDigest(hash: Hash, me: Worker) {
    match me.pc
    case Saving(_, _, record) => record.Some? ==>
      OpOf(me.request) == Some(record.value.operationId) && record.value.digest == DigestOf(hash, me.request)
    case Recording(entry, _) =>
      OpOf(me.request) == Some(entry.operationId) && entry.digest == DigestOf(hash, me.request)
    case _ => true
  }

  ghost predicate DigestsCarried(hash: Hash, s: World) {
    forall w :: w in s.workers ==> CarriesOwnDigest(hash, s.workers[w])
  }

  /** A digest that stands, or may still come to stand, under an id. */
  ghost predicate MayStand(hash: Hash, s: World, op: string, digest: string) {
    || (Used(s.store, op) && s.store.operations[op].digest == digest)
    || exists w :: w in s.workers && Passed(s.workers[w], op) && DigestOf(hash, s.workers[w].request) == digest
  }

  lemma StartCarries(hash: Hash, me: Worker, env: Env)
    requires me.request.StartRequest?
    ensures CarriesOwnDigest(hash, me.(pc := AfterProvider(hash, me.request, env)))
  {
    hide DigestOf, Started, ValidDraft, Text.Strip;
  }

  lemma ChangeCarries(hash: Hash, me: Worker, base: Reckoning, env: Env)
    ensures me.request.CorrectRequest? ==>
              CarriesOwnDigest(hash, me.(pc := AfterReadToCorrect(hash, me.request, base, env)))
    ensures me.request.ConfirmRequest? ==>
              CarriesOwnDigest(hash, me.(pc := AfterReadToConfirm(hash, me.request, base, env)))
  {
    hide DigestOf, Corrected, ConfirmedReckoning, CurrentRecords, FindRecord, Text.Strip;
  }

  lemma ReadingCarries(hash: Hash, s: Store, me: Worker, env: Env)
    requires CarriesOwnDigest(hash, me)
    ensures CarriesOwnDigest(hash, me.(pc := AfterReading(hash, s, me, env)))
  {
    hide DigestOf, Explain, AfterProvider, AfterReadToCorrect, AfterReadToConfirm, Replay, Empty;
    if me.pc.Preparing? {
      if me.request.StartRequest? { StartCarries(hash, me, env); }
      else if me.request.reckoningId in s.reckonings {
        ChangeCarries(hash, me, s.reckonings[me.request.reckoningId], env);
      }
    }
  }

  lemma CarriedStep(hash: Hash, s: World, e: Event)
    requires DigestsCarried(hash, s)
    ensures DigestsCarried(hash, Apply(hash, s, e))
  {
    hide AfterReading, DigestOf, SaveTx, RecordTx, SaveCheckInTx;
    if e.Step? && e.w in s.workers { ReadingCarries(hash, s.store, s.workers[e.w], e.env); }
  }

  lemma {:induction false} CarriedAlways(hash: Hash, s: World, events: seq<Event>)
    requires DigestsCarried(hash, s)
    ensures DigestsCarried(hash, Run(hash, s, events))
    decreases |events|
  {
    if events != [] {
      CarriedStep(hash, s, events[0]);
      hide Apply;
      CarriedAlways(hash, Apply(hash, s, events[0]), events[1..]);
    }
  }

  /** A read step gets a request past the check of a used id only with the recorded digest. */
  lemma PassedReading(hash: Hash, s: World, w: nat, env: Env, op: string)
    requires w in s.workers && Used(s.store, op)
    requires !s.workers[w].pc.Saving? && !s.workers[w].pc.Recording? && !s.workers[w].pc.CheckingIn?
    requires Passed(WorkerStep(hash, s, w, env).workers[w], op)
    ensures MayStand(hash, s, op, DigestOf(hash, s.workers[w].request))
  {
    hide DigestOf, AfterPreparing, AfterExplaining;
  }

  /** Only what stood, or was past the check, is recorded. */
  lemma RecordedByPassed(hash: Hash, s: World, w: nat, env: Env, op: string)
    requires DigestsCarried(hash, s) && w in s.workers
    ensures var t := WorkerStep(hash, s, w, env);
            && (Used(s.store, op) ==> Used(t.store, op))
            && (Used(t.store, op) ==> MayStand(hash, s, op, t.store.operations[op].digest))
  {
    hide DigestOf, AfterReading;
    assert CarriesOwnDigest(hash, s.workers[w]);
    hide DigestsCarried;
  }

  lemma MayStandStep(hash: Hash, s: World, e: Event, op: string, digest: string)
    requires DigestsCarried(hash, s) && Used(s.store, op)
    ensures var t := Apply(hash, s, e);
            Used(t.store, op) && (MayStand(hash, t, op, digest) ==> MayStand(hash, s, op, digest))
  {
    hide DigestOf, WorkerStep, DigestsCarried;
    var t := Apply(hash, s, e);
    match e
    case Step(w, env) =>
      if w in s.workers {
        RecordedByPassed(hash, s, w, env, op);
        OthersStay(hash, s, w, env);
        if Passed(t.workers[w], op) { PassedBefore(hash, s, w, env, op); }
      }
    case _ =>
  }

  lemma OthersStay(hash: Hash, s: World, w: nat, env: Env)
    requires w in s.workers
    ensures var t := WorkerStep(hash, s, w, env);
            && t.workers.Keys == s.workers.Keys && t.workers[w].request == s.workers[w].request
            && forall v :: v in s.workers && v != w ==> t.workers[v] == s.workers[v]
  {
    hide AfterReading;
  }

  lemma PassedBefore(hash: Hash, s: World, w: nat, env: Env, op: string)
    requires w in s.workers && Used(s.store, op) && Passed(WorkerStep(hash, s, w, env).workers[w], op)
    ensures MayStand(hash, s, op, DigestOf(hash, s.workers[w].request))
  {
    hide AfterReading, DigestOf;
    assert !s.workers[w].pc.Saving? && !s.workers[w].pc.Recording? && !s.workers[w].pc.CheckingIn?;
    PassedReading(hash, s, w, env, op);
  }

  /** From the moment an id is recorded, no digest comes to stand under it but the one recorded then and those
      of requests that had passed the check before that moment. */
  lemma {:induction false} NoNewDigestUnderAUsedId(
    hash: Hash, s: World, events: seq<Event>, op: string, digest: string)
    requires DigestsCarried(hash, s) && Used(s.store, op)
    ensures var t := Run(hash, s, events);
            Used(t.store, op) && (MayStand(hash, t, op, digest) ==> MayStand(hash, s, op, digest))
    decreases |events|
  {
    if events != [] {
      MayStandStep(hash, s, events[0], op, digest);
      CarriedStep(hash, s, events[0]);
      hide Apply, MayStand, DigestsCarried;
      NoNewDigestUnderAUsedId(hash, Apply(hash, s, events[0]), events[1..], op, digest);
    }
  }

  /** In every behaviour: if the digest under an id is another one later than it was at some point, then at that
      point a request with that other digest was past its check; so with no such request in flight when the id
      is first recorded, its digest is fixed and every request with another one is refused for good. */
  lemma AnotherDigestNeedsAnEarlierCheck(hash: Hash, events: seq<Event>, later: seq<Event>, op: string)
    requires Used(Run(hash, EmptyWorld(), events).store, op)
    ensures var s := Run(hash, EmptyWorld(), events);
            var t := Run(hash, s, later);
            && Used(t.store, op)
            && (t.store.operations[op].digest == s.store.operations[op].digest
                || exists w :: w in s.workers && Passed(s.workers[w], op)
                               && DigestOf(hash, s.workers[w].request) == t.store.operations[op].digest)
            && forall w :: w in t.workers && Passed(t.workers[w], op) ==>
                 MayStand(hash, s, op, DigestOf(hash, t.workers[w].request))
  {
    hide Apply, DigestOf;
    CarriedAlways(hash, EmptyWorld(), events);
    var s := Run(hash, EmptyWorld(), events);
    var t := Run(hash, s, later);
    NoNewDigestUnderAUsedId(hash, s, later, op, "");
    NoNewDigestUnderAUsedId(hash, s, later, op, t.store.operations[op].digest);
    assert MayStand(hash, t, op, t.store.operations[op].digest);
    forall w | w in t.workers && Passed(t.workers[w], op)
      ensures MayStand(hash, s, op, DigestOf(hash, t.workers[w].request))
    {
      NoNewDigestUnderAUsedId(hash, s, later, op, DigestOf(hash, t.workers[w].request));
    }
  }

  // ---------------------------------------------------------------------
  // The race
  // ---------------------------------------------------------------------

  function Failing(at: int): Env { Env(Unavailable, "", [], at) }

  /** A start that is past its check, under an id that is not completed, replaces what stands under the id when
      its provider fails, digest and outstanding input with it, and without a conflict. */
  lemma StartPastItsCheckReplaces(hash: Hash, s: World, w: nat, at: int) returns (t: World)
    requires w in s.workers && s.workers[w].pc == Preparing && s.workers[w].request.StartRequest?
    requires s.workers[w].request.op.Some? && !IsCompleted(s.store, s.workers[w].request.op.value)
    ensures t == Run(hash, s, [Step(w, Failing(at)), Step(w, Failing(at))])
    ensures var r := s.workers[w].request;
            && t.store.operations == s.store.operations[r.op.value := FailedOperation(hash, r, at).value]
            && t.workers == s.workers[w := Worker(r, Done(Refused(ProviderFailed)))]
  {
    var e := Step(w, Failing(at));
    var s1 := ProviderFails(hash, s, w, at);
    t := Apply(hash, s1, e);
    RunTwo(hash, s, e, e);
    RecordRefusedExactly(hash, s1, w, Failing(at));
    hide Run, FailedOperation, IsCompleted;
    assert s1.workers[w].pc.entry.operationId == s.workers[w].request.op.value;
  }

  lemma ProviderFails(hash: Hash, s: World, w: nat, at: int) returns (t: World)
    requires w in s.workers && s.workers[w].pc == Preparing
    requires s.workers[w].request.StartRequest? && s.workers[w].request.op.Some?
    ensures t == Apply(hash, s, Step(w, Failing(at))) && t.store == s.store
    ensures var r := s.workers[w].request;
            && FailedOperation(hash, r, at).value.operationId == r.op.value
            && t.workers
               == s.workers[w := Worker(r, Recording(FailedOperation(hash, r, at).value, Refused(ProviderFailed)))]
  {
    hide DigestOf, Text.Strip;
    t := Apply(hash, s, Step(w, Failing(at)));
  }

  lemma RunTwo(hash: Hash, s: World, a: Event, b: Event)
    ensures Run(hash, s, [a, b]) == Apply(hash, Apply(hash, s, a), b)
  {
    hide Apply;
    assert [a, b][1..] == [b] && [b][1..] == [];
    assert Run(hash, Apply(hash, s, a), [b]) == Run(hash, Apply(hash, Apply(hash, s, a), b), []);
  }

  lemma {:induction false} RunConcat(hash: Hash, s: World, a: seq<Event>, b: seq<Event>)
    ensures Run(hash, s, a + b) == Run(hash, Run(hash, s, a), b)
    decreases |a|
  {
    hide Apply;
    if a == [] {
      assert a + b == b;
    } else {
      assert (a + b)[1..] == a[1..] + b;
      RunConcat(hash, Apply(hash, s, a[0]), a[1..], b);
    }
  }

  /** Two starts under one id whose texts are not blank pass the check of an empty store together ... */
  lemma BothPass(hash: Hash, first: Request, second: Request) returns (events: seq<Event>)
    requires first.StartRequest? && second.StartRequest? && first.op.Some? && second.op == first.op
    requires !Empty(first) && !Empty(second)
    ensures var s := Run(hash, EmptyWorld(), events);
            && s.store == EmptyWorld().store
            && s.workers == map[1 := Worker(first, Preparing), 2 := Worker(second, Preparing)]
  {
    hide DigestOf, Empty;
    var s0 := EmptyWorld();
    var s1 := Apply(hash, s0, Submit(1, first));
    var s2 := Apply(hash, s1, Submit(2, second));
    var s3 := Apply(hash, s2, Step(1, Failing(0)));
    assert s3.workers == map[1 := Worker(first, Preparing), 2 := Worker(second, Checking)];
    var s4 := Apply(hash, s3, Step(2, Failing(0)));
    events := [Submit(1, first), Submit(2, second)] + [Step(1, Failing(0)), Step(2, Failing(0))];
    RunConcat(hash, s0, [Submit(1, first), Submit(2, second)], [Step(1, Failing(0)), Step(2, Failing(0))]);
    RunTwo(hash, s0, Submit(1, first), Submit(2, second));
    RunTwo(hash, s2, Step(1, Failing(0)), Step(2, Failing(0)));
  }

  /** ... and then the digest under a used id does change without a conflict: the first provider fails and leaves
      a record, the second fails and replaces it, and with it the input that was outstanding. */
  lemma SecondStartReplacesTheFirst(hash: Hash, first: Request, second: Request)
    returns (before: seq<Event>, after: seq<Event>, s: World, t: World)
    requires first.StartRequest? && second.StartRequest? && first.op.Some? && second.op == first.op
    requires !Empty(first) && !Empty(second)
    ensures s == Run(hash, EmptyWorld(), before) && t == Run(hash, s, after)
    ensures var op := first.op.value;
            && Used(s.store, op) && s.store.operations[op].digest == DigestOf(hash, first)
            && Used(t.store, op) && t.store.operations[op].digest == DigestOf(hash, second)
            && t.store.operations[op].pendingInput == Text.Strip(second.text)
            && 2 in t.workers && t.workers[2].pc == Done(Refused(ProviderFailed))
  {
    hide DigestOf, Empty, Apply, Run;
    var passed := BothPass(hash, first, second);
    var one := [Step(1, Failing(0)), Step(1, Failing(0))];
    s := StartPastItsCheckReplaces(hash, Run(hash, EmptyWorld(), passed), 1, 0);
    RunConcat(hash, EmptyWorld(), passed, one);
    before := passed + one;
    after := [Step(2, Failing(0)), Step(2, Failing(0))];
    t := StartPastItsCheckReplaces(hash, s, 2, 0);
  }
}
