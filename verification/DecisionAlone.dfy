/** One decision request with nothing between its steps: that it is a behaviour of the protocol, and what it
    stores and answers, said of the request and of what is stored (src/reckoning/application.py:640-1055). */
module DecisionAlone {
  import opened Wrappers
  import opened Continuity
  import opened ContinuityStore
  import opened DecisionProtocol
  import Text

  // ---------------------------------------------------------------------
  // A request served alone
  // ---------------------------------------------------------------------

  function Finished(s: Store, r: Request, pc: Pc, env: Env): (Store, Reply) {
    match pc
    case Done(reply) => (s, reply)
    case Fetching(id) => (s, if id in s.reckonings then Decision(s.reckonings[id]) else Refused(UnknownReckoning))
    case Saving(base, next, record) =>
      var tx := SaveTx(s, next, if base == None then 0 else base.value.version, record);
      (tx.store, if tx.result.Err? then Refused(tx.result.error) else Decision(next))
    case Recording(entry, reply) =>
      var tx := RecordTx(s, entry);
      (tx.store, if tx.result.Err? then Refused(tx.result.error) else reply)
    case CheckingIn(c) =>
      var tx := SaveCheckInTx(s, c);
      (tx.store, if tx.result.Err? then Refused(tx.result.error) else CheckedIn(c))
    case _ => (s, Refused(InvalidValue))
  }

  /** What a request does to the store, and what it is answered, when nothing comes between its steps. */
  function Alone(hash: Hash, s: Store, r: Request, env: Env): (Store, Reply) {
    var checked := AfterCheck(hash, s, r);
    if !checked.Preparing? then Finished(s, r, checked, env)
    else
      var prepared := AfterPreparing(hash, s, r, env);
      if prepared.Explaining? && r.CheckInRequest? then
        Finished(s, r, AfterExplaining(s, r, prepared.decision, env), env)
      else Finished(s, r, prepared, env)
  }

  /** The identifiers handed out are all different. */
  predicate Fresh(env: Env) { env.provided.Drafted? ==> FreshIds(env.provided.draft, env.recordIds) }

  function Settled(s: World, w: nat): (Store, Option<Reply>) {
    (s.store, if w in s.workers && s.workers[w].pc.Done? then Some(s.workers[w].pc.reply) else None)
  }

  lemma LastStep(hash: Hash, s: World, w: nat, env: Env)
    requires w in s.workers && !s.workers[w].pc.Checking? && !s.workers[w].pc.Preparing? && !s.workers[w].pc.Explaining?
    ensures var t := Apply(hash, s, Step(w, env));
            var f := Finished(s.store, s.workers[w].request, s.workers[w].pc, env);
            && w in t.workers && t.workers[w].pc.Done? && t.workers[w].request == s.workers[w].request
            && Settled(t, w) == (f.0, Some(f.1))
  {
  }

  lemma DoneStays(hash: Hash, s: World, w: nat, env: Env)
    requires w in s.workers && s.workers[w].pc.Done?
    ensures Apply(hash, s, Step(w, env)) == s
  {
    assert s.workers[w := s.workers[w]] == s.workers;
  }

  /** Serving a request alone is what the protocol does in at most four steps of its worker. */
  lemma AloneIsABehaviour(hash: Hash, s: Store, r: Request, env: Env)
    requires Fresh(env)
    ensures var e := Step(0, env);
            var t := Apply(hash, Apply(hash, Apply(hash, Apply(hash,
              World(s, map[0 := Worker(r, Checking)], []), e), e),
                                                   e), e);
            Settled(t, 0) == (Alone(hash, s, r, env).0, Some(Alone(hash, s, r, env).1))
  {
    hide Finished, AfterCheck, AfterPreparing, AfterExplaining, SaveStep, RecordStep, CheckInStep;
    var e := Step(0, env);
    var s0 := World(s, map[0 := Worker(r, Checking)], []);
    var s1, s2 := Apply(hash, s0, e), Apply(hash, Apply(hash, s0, e), e);
    var s3 := Apply(hash, s2, e);
    CheckShape(hash, s, r);
    PreparedShape(hash, s, r, env);
    assert s1.store == s && s1.workers[0] == Worker(r, AfterCheck(hash, s, r));
    if !s1.workers[0].pc.Preparing? {
      LastStep(hash, s1, 0, env);
      DoneStays(hash, s2, 0, env);
      DoneStays(hash, s3, 0, env);
    } else {
      assert s2.store == s && s2.workers[0] == Worker(r, AfterPreparing(hash, s, r, env));
      if !s2.workers[0].pc.Explaining? {
        LastStep(hash, s2, 0, env);
        DoneStays(hash, s3, 0, env);
      } else {
        ExplainedShape(s, r, s2.workers[0].pc.decision, env);
        assert s3.store == s && s3.workers[0] == Worker(r, AfterExplaining(s, r, s2.workers[0].pc.decision, env));
        LastStep(hash, s3, 0, env);
      }
    }
  }

  lemma CheckShape(hash: Hash, s: Store, r: Request)
    ensures var pc := AfterCheck(hash, s, r); pc.Done? || pc.Fetching? || pc.Preparing?
  {
  }

  lemma PreparedShape(hash: Hash, s: Store, r: Request, env: Env)
    requires Fresh(env)
    ensures var pc := AfterPreparing(hash, s, r, env);
            && (pc.Done? || pc.Saving? || pc.Recording? || pc.Explaining?)
            && (pc.Explaining? ==> r.CheckInRequest?)
  {
    hide CompletedOperation, FailedOperation, Started, Corrected, ConfirmedReckoning, CurrentRecords, ValidDraft;
  }

  lemma ExplainedShape(s: Store, r: Request, decision: Reckoning, env: Env)
    requires r.CheckInRequest?
    ensures var pc := AfterExplaining(s, r, decision, env); pc.Done? || pc.CheckingIn?
  {
  }

  // ---------------------------------------------------------------------
  // Replays and operations
  // ---------------------------------------------------------------------

  /** The operation id was used for a request that went through. */
  predicate Replayed(s: Store, op: Option<string>) { op.Some? && IsCompleted(s, op.value) }

  /** A replay is answered with the stored decision its operation names, and changes nothing. */
  predicate AnsweredByReplay(s: Store, op: Option<string>, t: Store, reply: Reply)
    requires Replayed(s, op)
  {
    && t == s
    && (reply.Decision? ==>
          var id := s.operations[op.value].resultId;
          id in s.reckonings && reply.reckoning == s.reckonings[id])
  }

  /** Only the operation of the request is recorded. */
  predicate OperationRecorded(s: Store, t: Store, op: Option<string>, record: OperationRecord) {
    t.operations == if op.Some? then s.operations[op.value := record] else s.operations
  }

  // ---------------------------------------------------------------------
  // Starting
  // ---------------------------------------------------------------------

  predicate SomeText(texts: seq<string>) { exists i :: 0 <= i < |texts| && !Text.Blank(texts[i]) }

  /** A draft that a decision can be started from: at most three questions, each with a text and an effect; a
      conflict and a next step; something to go by; and records that mean something, each on evidence of the
      draft. */
  ghost predicate AcceptableDraft(d: Draft) {
    && |d.questions| <= 3 && !Text.Blank(d.conflict) && !Text.Blank(d.nextStep)
    && (forall i :: 0 <= i < |d.questions| ==>
          !Text.Blank(d.questions[i].text) && !Text.Blank(d.questions[i].effect))
    && (|| d.questions != []
        || SomeText(d.mattersNow) || SomeText(d.maintained) || SomeText(d.parked) || SomeText(d.uncertainties)
        || (exists i :: 0 <= i < |d.known| && !Text.Blank(d.known[i].text))
        || (exists i :: 0 <= i < |d.inferences| && !Text.Blank(d.inferences[i].text)))
    && forall i :: 0 <= i < |d.proposedRecords| ==>
         && !Text.Blank(d.proposedRecords[i].meaning) && d.proposedRecords[i].evidenceIds != []
         && forall id :: id in d.proposedRecords[i].evidenceIds ==> exists e :: e in d.evidence && e.id == id
  }

  /** The new decision: the stripped text, the draft as it was given, and one record for each proposal, with its
      kind, meaning and evidence, proposed and current. */
  ghost predicate StartsAs(r: Reckoning, text: string, draft: Draft, env: Env) {
    && r.id == env.freshId && r.version == 1 && r.status == Proposed && r.createdAt == env.at
    && Text.Trims(r.sourceInput, text) && r.sourceInput != "" && r.draft == draft
    && |r.recordVersions| == |draft.proposedRecords| == |env.recordIds|
    && forall i :: 0 <= i < |r.recordVersions| ==>
         var v, proposal := r.recordVersions[i], draft.proposedRecords[i];
         && v.recordId == env.recordIds[i] && v.version == 1 && v.status == Proposed && v.supersedes == None
         && v.recordType == proposal.recordType && v.meaning == proposal.meaning
         && v.evidenceIds == proposal.evidenceIds && v.createdAt == env.at
         && Latest(r.recordVersions, env.recordIds[i]) == Some(v)
  }

  /** What a start stores and answers: a decision from the draft, or, when the provider failed, a failed operation
      that keeps the input. */
  ghost predicate StartAnswered(hash: Hash, s: Store, text: string, op: Option<string>, env: Env, t: Store,
                                reply: Reply)
  {
    && t.checkIns == s.checkIns && !reply.CheckedIn?
    && (Replayed(s, op) ==> AnsweredByReplay(s, op, t, reply))
    && (!Replayed(s, op) && reply.Decision? ==>
         && env.provided.Drafted? && AcceptableDraft(env.provided.draft)
         && StartsAs(reply.reckoning, text, env.provided.draft, env)
         && (StoreSound(s) ==> env.freshId !in s.reckonings)
         && t.reckonings == s.reckonings[env.freshId := reply.reckoning]
         && (op.Some? ==>
               OperationRecorded(s, t, op, OperationRecord(
                 op.value, hash(reply.reckoning.sourceInput), Completed, env.freshId, "", env.at, "start-reckoning",
                 env.freshId, None, "", "", reply.reckoning.sourceInput)))
         && (op == None ==> t.operations == s.operations))
    && (reply == Refused(ProviderFailed) ==>
         && env.provided == Unavailable && t.reckonings == s.reckonings
         && (op == None ==> t == s)
         && (op.Some? ==>
               && op.value in t.operations && Text.Trims(t.operations[op.value].pendingInput, text)
               && OperationRecorded(s, t, op, OperationRecord(
                    op.value, hash(t.operations[op.value].pendingInput), Failed, "",
                    t.operations[op.value].pendingInput, env.at, "start-reckoning", "", None, "", "",
                    t.operations[op.value].pendingInput))))
    && (reply.Refused? && reply.error != ProviderFailed ==> t == s)
    && (reply == Refused(InvalidDraft) ==> env.provided.Drafted? || env.provided.Crossed?)
    && (reply == Refused(InvalidDraft) ==> !AcceptableDraft(env.provided.draft))
    && (Text.Blank(text) ==> reply == Refused(InvalidValue))
  }

  // ---------------------------------------------------------------------
  // Correcting
  // ---------------------------------------------------------------------

  /** The next version of a decision: one record means what was said, on one new piece of evidence that says it;
      everything else is as it was. */
  ghost predicate CorrectsTo(base: Reckoning, next: Reckoning, recordId: string, meaning: string, env: Env) {
    && next.id == base.id && next.version == base.version + 1 && base.status == Proposed && next.status == Proposed
    && next.createdAt == base.createdAt && next.sourceInput == base.sourceInput
    && Latest(base.recordVersions, recordId).Some? && Latest(next.recordVersions, recordId).Some?
    && (var before, v := Latest(base.recordVersions, recordId).value, Latest(next.recordVersions, recordId).value;
        && Text.Trims(v.meaning, meaning) && v.meaning != "" && v.evidenceIds == [env.freshId] && v.createdAt == env.at
        && v.recordType == before.recordType && v.version == before.version + 1 && v.status == Proposed
        && v.supersedes == Some(before.version)
        && next.draft == base.draft.(evidence := base.draft.evidence
             + [Evidence(env.freshId, "direct user correction", v.meaning)]))
    && forall other :: other != recordId ==> Latest(next.recordVersions, other) == Latest(base.recordVersions, other)
  }

  /** What a correction stores and answers. */
  ghost predicate CorrectionAnswered(hash: Hash, s: Store, id: string, recordId: string, meaning: string,
                                     expected: Option<int>, op: Option<string>, submission: string, env: Env,
                                     t: Store, reply: Reply)
  {
    && t.checkIns == s.checkIns && !reply.CheckedIn?
    && (Replayed(s, op) ==> AnsweredByReplay(s, op, t, reply))
    && (!Replayed(s, op) && reply.Decision? ==>
         && id in s.reckonings && (expected.Some? ==> s.reckonings[id].version == expected.value)
         && CorrectsTo(s.reckonings[id], reply.reckoning, recordId, meaning, env)
         && t.reckonings == s.reckonings[s.reckonings[id].id := reply.reckoning]
         && var kept := Latest(reply.reckoning.recordVersions, recordId).value.meaning;
            && (op.Some? ==>
                  OperationRecorded(s, t, op, OperationRecord(
                    op.value, DigestOf(hash, CorrectRequest(id, recordId, meaning, expected, op, submission)),
                    Completed, id, "", env.at, "correct", id, expected, recordId, kept, submission)))
            && (op == None ==> t.operations == s.operations))
    && (reply.Refused? ==> t == s)
    && (Text.Blank(meaning) ==> reply == Refused(InvalidValue))
  }

  // ---------------------------------------------------------------------
  // Confirming
  // ---------------------------------------------------------------------

  /** The confirmed version of a decision: each record as it was, confirmed in one more version. */
  ghost predicate ConfirmsTo(base: Reckoning, next: Reckoning, env: Env) {
    && next == base.(version := base.version + 1, status := Status.Confirmed, recordVersions := next.recordVersions)
    && base.status == Proposed
    && forall id ::
         && Latest(next.recordVersions, id).Some? == Latest(base.recordVersions, id).Some?
         && (Latest(base.recordVersions, id).Some? ==>
               var before := Latest(base.recordVersions, id).value;
               Latest(next.recordVersions, id)
               == Some(before.(version := before.version + 1, status := Status.Confirmed, createdAt := env.at,
                               supersedes := Some(before.version))))
  }

  /** What a confirmation stores and answers, also of a decision that is confirmed already. */
  ghost predicate ConfirmationAnswered(hash: Hash, s: Store, id: string, expected: Option<int>, op: Option<string>,
                                       submission: string, env: Env, t: Store, reply: Reply)
  {
    && t.checkIns == s.checkIns && !reply.CheckedIn?
    && (Replayed(s, op) ==> AnsweredByReplay(s, op, t, reply))
    && (!Replayed(s, op) && reply.Decision? ==>
         && id in s.reckonings && (expected.Some? ==> s.reckonings[id].version == expected.value)
         && (if s.reckonings[id].status == Confirmed
             then reply.reckoning == s.reckonings[id] && t.reckonings == s.reckonings
             else ConfirmsTo(s.reckonings[id], reply.reckoning, env)
                  && t.reckonings == s.reckonings[s.reckonings[id].id := reply.reckoning])
         && (op.Some? ==>
               OperationRecorded(s, t, op, OperationRecord(
                 op.value, DigestOf(hash, ConfirmRequest(id, expected, op, submission)), Completed, id, "", env.at,
                 "confirm", id, expected, "", "", submission)))
         && (op == None ==> t.operations == s.operations))
    && (reply.Refused? ==> t == s)
  }

  // ---------------------------------------------------------------------
  // Checking in
  // ---------------------------------------------------------------------

  /** Some fact, inference or current record of the decision names the evidence. */
  ghost predicate Named(r: Reckoning, evidenceId: string) {
    || (exists f :: f in r.draft.known && evidenceId in f.evidenceIds)
    || (exists i :: i in r.draft.inferences && evidenceId in i.evidenceIds)
    || (exists v :: v in r.recordVersions && Latest(r.recordVersions, v.recordId) == Some(v)
                    && evidenceId in v.evidenceIds)
  }

  /** The ids of the named evidence, in the order of the evidence. */
  ghost predicate CitesAllNamed(ids: seq<string>, r: Reckoning, evidence: seq<Evidence>)
    decreases |evidence|
  {
    if evidence == [] then ids == []
    else if Named(r, evidence[0].id) then
      ids != [] && ids[0] == evidence[0].id && CitesAllNamed(ids[1..], r, evidence[1..])
    else CitesAllNamed(ids, r, evidence[1..])
  }

  /** What a check-in stores and answers. */
  ghost predicate CheckInAnswered(s: Store, id: string, outcome: string, env: Env, t: Store, reply: Reply) {
    && t.reckonings == s.reckonings && t.operations == s.operations && !reply.Decision?
    && (reply.CheckedIn? ==>
         && id in s.reckonings && s.reckonings[id].status == Confirmed
         && reply.checkIn.id == env.freshId && reply.checkIn.decisionId == s.reckonings[id].id
         && reply.checkIn.occurredAt == env.at
         && Text.Trims(reply.checkIn.outcome, outcome) && reply.checkIn.outcome != ""
         && CitesAllNamed(reply.checkIn.evidenceIds, s.reckonings[id], s.reckonings[id].draft.evidence)
         && t.checkIns == s.checkIns + [reply.checkIn])
    && (reply.Refused? ==> t == s)
    && (Text.Blank(outcome) ==> reply == Refused(InvalidValue))
  }

  // ---------------------------------------------------------------------
  // The requests answer so
  // ---------------------------------------------------------------------

  lemma ReplayAlone(hash: Hash, s: Store, r: Request, env: Env)
    requires Replayed(s, OpOf(r))
    ensures var (t, reply) := Alone(hash, s, r, env); AnsweredByReplay(s, OpOf(r), t, reply) && !reply.CheckedIn?
    ensures Empty(r) ==> Alone(hash, s, r, env).1 == Refused(InvalidValue)
  {
    hide DigestOf, AfterPreparing, Empty;
  }

  lemma StartedAs(source: string, text: string, draft: Draft, env: Env)
    requires Text.Trims(source, text) && source != "" && FreshIds(draft, env.recordIds)
    ensures var r := Started(env.freshId, source, draft, env.recordIds, env.at);
            StartsAs(r, text, draft, env) && r.id == env.freshId && r.version == 1 && r.sourceInput == source
  {
    hide Text.Trims;
    var r := Started(env.freshId, source, draft, env.recordIds, env.at);
    forall i | 0 <= i < |r.recordVersions|
      ensures Latest(r.recordVersions, env.recordIds[i]) == Some(r.recordVersions[i])
    {
      DistinctLatest(r.recordVersions, i);
    }
  }

  lemma StrippedIsBlank()
    ensures forall text :: Stripped(text) <==> Text.Blank(text)
  {
  }

  lemma MeaningfulExactly(d: Draft)
    ensures Meaningful(d) <==>
              || d.questions != []
              || SomeText(d.mattersNow) || SomeText(d.maintained) || SomeText(d.parked) || SomeText(d.uncertainties)
              || (exists i :: 0 <= i < |d.known| && !Text.Blank(d.known[i].text))
              || (exists i :: 0 <= i < |d.inferences| && !Text.Blank(d.inferences[i].text))
  {
    StrippedIsBlank();
    hide Stripped, Text.Blank;
    TextIn(d.mattersNow);
    TextIn(d.maintained);
    TextIn(d.parked);
    TextIn(d.uncertainties);
    var all := d.mattersNow + d.maintained + d.parked + d.uncertainties;
    assert forall t :: t in all <==> t in d.mattersNow || t in d.maintained || t in d.parked || t in d.uncertainties;
    hide SomeText;
    assert forall i :: 0 <= i < |d.known| ==> d.known[i] in d.known;
    assert forall i :: 0 <= i < |d.inferences| ==> d.inferences[i] in d.inferences;
  }

  lemma TextIn(texts: seq<string>)
    ensures SomeText(texts) <==> exists t :: t in texts && !Text.Blank(t)
  {
    hide Text.Blank;
    if SomeText(texts) {
      var i :| 0 <= i < |texts| && !Text.Blank(texts[i]);
      assert texts[i] in texts;
    }
  }

  /** `ReckoningDraft.validate` accepts exactly such drafts. */
  lemma DraftsExactly(d: Draft)
    ensures ValidDraft(d) <==> AcceptableDraft(d)
  {
    StrippedIsBlank();
    MeaningfulExactly(d);
    hide Stripped, Text.Blank, Meaningful, SomeText;
    assert forall i :: 0 <= i < |d.questions| ==> d.questions[i] in d.questions;
    assert forall i :: 0 <= i < |d.proposedRecords| ==> d.proposedRecords[i] in d.proposedRecords;
  }

  lemma PreparedStart(hash: Hash, s: Store, text: string, op: Option<string>, env: Env)
    requires Text.Strip(text) != "" && env.provided.Drafted? && ValidDraft(env.provided.draft) && Fresh(env)
    ensures var r := StartRequest(text, op);
            var next := Started(env.freshId, Text.Strip(text), env.provided.draft, env.recordIds, env.at);
            && AfterPreparing(hash, s, r, env) == Saving(None, next, CompletedOperation(hash, r, next.id, env.at))
            && next.id == env.freshId && next.version == 1
  {
    hide Text.Strip, DigestOf, ValidDraft, CompletedOperation;
  }

  lemma UnpreparedStart(hash: Hash, s: Store, text: string, op: Option<string>, env: Env)
    requires !(env.provided.Drafted? && ValidDraft(env.provided.draft))
    ensures var r := StartRequest(text, op);
            var pc := AfterPreparing(hash, s, r, env);
            if env.provided == Unavailable && op.Some?
            then pc == Recording(FailedOperation(hash, r, env.at).value, Refused(ProviderFailed))
            else && pc.Done? && pc.reply.Refused?
                 && (pc.reply.error == ProviderFailed <==> env.provided == Unavailable)
                 && (pc.reply.error == InvalidDraft ==>
                      (env.provided.Drafted? || env.provided.Crossed?) && !ValidDraft(env.provided.draft))
  {
    hide Text.Strip, DigestOf, ValidDraft;
  }

  lemma StartIsAnswered(hash: Hash, s: Store, text: string, op: Option<string>, env: Env)
    requires Fresh(env)
    ensures var (t, reply) := Alone(hash, s, StartRequest(text, op), env);
            StartAnswered(hash, s, text, op, env, t, reply)
  {
    hide Text.Strip, Text.Trims, Text.Blank, StartsAs, ValidDraft, Started, AfterPreparing, AcceptableDraft;
    if env.provided.Drafted? || env.provided.Crossed? { DraftsExactly(env.provided.draft); }
    if Replayed(s, op) {
      ReplayAlone(hash, s, StartRequest(text, op), env);
      hide Alone, AnsweredByReplay;
      return;
    }
    Text.StripTrims(text);
    assert StoreSound(s) && env.freshId in s.reckonings ==> s.reckonings[env.freshId].version >= 1;
    assert DigestOf(hash, StartRequest(text, op)) == hash(Text.Strip(text));
    hide DigestOf, StoreSound;
    if env.provided.Drafted? && ValidDraft(env.provided.draft) {
      if Text.Strip(text) != "" {
        PreparedStart(hash, s, text, op, env);
        StartedAs(Text.Strip(text), text, env.provided.draft, env);
      }
    } else {
      UnpreparedStart(hash, s, text, op, env);
    }
  }

  lemma {:induction false} LatestOfAppended(versions: seq<RecordVersion>, v: RecordVersion, id: string)
    ensures Latest(versions + [v], id) == if v.recordId == id then Some(v) else Latest(versions, id)
  {
    assert (versions + [v])[..|versions|] == versions;
  }

  lemma CorrectedTo(base: Reckoning, recordId: string, kept: string, meaning: string, env: Env)
    requires Latest(base.recordVersions, recordId).Some? && base.status == Proposed
    requires Text.Trims(kept, meaning) && kept != ""
    ensures var next := Corrected(base, Latest(base.recordVersions, recordId).value, kept, env.freshId, env.at);
            && CorrectsTo(base, next, recordId, meaning, env)
            && Latest(next.recordVersions, recordId).value.meaning == kept
  {
    hide Text.Trims;
    var next := Corrected(base, Latest(base.recordVersions, recordId).value, kept, env.freshId, env.at);
    var v := next.recordVersions[|base.recordVersions|];
    assert next.recordVersions == base.recordVersions + [v];
    hide Latest;
    forall id ensures Latest(next.recordVersions, id)
                   == if v.recordId == id then Some(v) else Latest(base.recordVersions, id)
    {
      LatestOfAppended(base.recordVersions, v, id);
    }
  }

  /** Nothing stands in the way of a correction but its expected revision and the operation table. */
  predicate Correctable(s: Store, id: string, recordId: string, meaning: string) {
    && id in s.reckonings && s.reckonings[id].status == Proposed && Text.Strip(meaning) != ""
    && Latest(s.reckonings[id].recordVersions, recordId).Some?
  }

  lemma NoCorrection(hash: Hash, s: Store, id: string, recordId: string, meaning: string,
                     expected: Option<int>, op: Option<string>, submission: string, env: Env)
    requires !Replayed(s, op) && !Correctable(s, id, recordId, meaning)
    ensures var (t, reply) := Alone(hash, s, CorrectRequest(id, recordId, meaning, expected, op, submission), env);
            t == s && reply.Refused? && (Text.Strip(meaning) == "" ==> reply == Refused(InvalidValue))
  {
    hide Text.Strip, DigestOf, Corrected, CurrentRecords, Latest, FindRecord, CompletedOperation;
    if id in s.reckonings { CurrentIsLatest(s.reckonings[id].recordVersions, recordId); }
  }

  lemma CorrectionAlone(hash: Hash, s: Store, id: string, recordId: string, meaning: string,
                        expected: Option<int>, op: Option<string>, submission: string, env: Env)
    requires !Replayed(s, op) && Correctable(s, id, recordId, meaning)
    ensures var r := CorrectRequest(id, recordId, meaning, expected, op, submission);
            var base := s.reckonings[id];
            var next := Corrected(base, Latest(base.recordVersions, recordId).value, Text.Strip(meaning), env.freshId,
                                  env.at);
            var (t, reply) := Alone(hash, s, r, env);
            && (reply.Refused? ==> t == s) && !reply.CheckedIn?
            && (reply.Decision? ==>
                 && reply.reckoning == next && (expected.Some? ==> base.version == expected.value)
                 && t == s.(reckonings := s.reckonings[next.id := next],
                            operations := if op.Some?
                                          then s.operations[op.value := CompletedOperation(hash, r, id, env.at).value]
                                          else s.operations))
  {
    hide Text.Strip, DigestOf, Corrected, CurrentRecords, Latest, FindRecord;
    CurrentIsLatest(s.reckonings[id].recordVersions, recordId);
  }

  lemma CorrectionIsAnswered(hash: Hash, s: Store, id: string, recordId: string, meaning: string,
                             expected: Option<int>, op: Option<string>, submission: string, env: Env)
    ensures var (t, reply) := Alone(hash, s, CorrectRequest(id, recordId, meaning, expected, op, submission), env);
            CorrectionAnswered(hash, s, id, recordId, meaning, expected, op, submission, env, t, reply)
  {
    hide Text.Strip, Text.Trims, Text.Blank, DigestOf, CorrectsTo, Corrected, Latest, Alone;
    Text.StripTrims(meaning);
    if Replayed(s, op) {
      ReplayAlone(hash, s, CorrectRequest(id, recordId, meaning, expected, op, submission), env);
      hide AnsweredByReplay;
    } else if Correctable(s, id, recordId, meaning) {
      var base := s.reckonings[id];
      CorrectionAlone(hash, s, id, recordId, meaning, expected, op, submission, env);
      CorrectedTo(base, recordId, Text.Strip(meaning), meaning, env);
      CorrectedIs(base, Latest(base.recordVersions, recordId).value, Text.Strip(meaning), env);
      var (t, reply) := Alone(hash, s, CorrectRequest(id, recordId, meaning, expected, op, submission), env);
      assert reply.Decision? ==> t.reckonings == s.reckonings[base.id := reply.reckoning];
    } else {
      NoCorrection(hash, s, id, recordId, meaning, expected, op, submission, env);
    }
  }

  lemma CorrectedIs(base: Reckoning, current: RecordVersion, meaning: string, env: Env)
    ensures var next := Corrected(base, current, meaning, env.freshId, env.at);
            next.id == base.id && next.version == base.version + 1
  {
  }

  /** The latest version of a record after a confirmation. */
  function ConfirmedLatest(before: Option<RecordVersion>, at: int): Option<RecordVersion> {
    match before
    case None => None
    case Some(v) => Some(v.(version := v.version + 1, status := Status.Confirmed, createdAt := at,
                            supersedes := Some(v.version)))
  }

  lemma ConfirmedTo(base: Reckoning, env: Env)
    requires base.status == Proposed
    ensures ConfirmsTo(base, ConfirmedReckoning(base, env.at), env)
  {
    var next := ConfirmedReckoning(base, env.at);
    hide Latest, ConfirmedVersions, CurrentRecords;
    forall id ensures Latest(next.recordVersions, id) == ConfirmedLatest(Latest(base.recordVersions, id), env.at) {
      EachConfirmed(base.recordVersions, id, env.at);
    }
  }

  lemma EachConfirmed(versions: seq<RecordVersion>, id: string, at: int)
    ensures Latest(versions + ConfirmedVersions(CurrentRecords(versions), at), id)
         == ConfirmedLatest(Latest(versions, id), at)
  {
    hide Latest, CurrentRecords, ConfirmedVersions;
    LatestAppend(versions, ConfirmedVersions(CurrentRecords(versions), at), id);
    if Latest(versions, id).Some? { OneConfirmed(versions, id, at); } else { NoneConfirmed(versions, id, at); }
  }

  lemma OneConfirmed(versions: seq<RecordVersion>, id: string, at: int)
    requires Latest(versions, id).Some?
    ensures Latest(ConfirmedVersions(CurrentRecords(versions), at), id) == ConfirmedLatest(Latest(versions, id), at)
  {
    hide LatestOf, Latest, CurrentRecords, RecordIds, ConfirmedVersions;
    var current := CurrentRecords(versions);
    assert id in RecordIds(versions);
    var k :| 0 <= k < |current| && RecordIds(versions)[k] == id;
    assert Latest(versions, id) == Some(current[k]);
    DistinctLatest(ConfirmedVersions(current, at), k);
  }

  lemma NoneConfirmed(versions: seq<RecordVersion>, id: string, at: int)
    requires Latest(versions, id) == None
    ensures Latest(ConfirmedVersions(CurrentRecords(versions), at), id) == None
  {
    hide LatestOf, Latest, CurrentRecords, RecordIds, ConfirmedVersions;
    var current := CurrentRecords(versions);
    forall v | v in ConfirmedVersions(current, at) ensures v.recordId != id {
      var k :| 0 <= k < |current| && ConfirmedVersions(current, at)[k] == v;
      assert Latest(versions, current[k].recordId) == Some(current[k]);
    }
  }

  lemma ReconfirmationIsAnswered(hash: Hash, s: Store, id: string, expected: Option<int>, op: Option<string>,
                                 submission: string, env: Env)
    requires !Replayed(s, op) && id in s.reckonings && s.reckonings[id].status == Confirmed
    ensures var (t, reply) := Alone(hash, s, ConfirmRequest(id, expected, op, submission), env);
            ConfirmationAnswered(hash, s, id, expected, op, submission, env, t, reply)
  {
    hide DigestOf, ConfirmsTo, ConfirmedReckoning;
  }

  lemma FirstConfirmationIsAnswered(hash: Hash, s: Store, id: string, expected: Option<int>, op: Option<string>,
                                    submission: string, env: Env)
    requires !Replayed(s, op) && id in s.reckonings && s.reckonings[id].status == Proposed
    ensures var (t, reply) := Alone(hash, s, ConfirmRequest(id, expected, op, submission), env);
            ConfirmationAnswered(hash, s, id, expected, op, submission, env, t, reply)
  {
    hide DigestOf, ConfirmsTo, ConfirmedVersions, CurrentRecords;
    var base := s.reckonings[id];
    var next := ConfirmedReckoning(base, env.at);
    ConfirmedTo(base, env);
    assert next.id == base.id && next.version == base.version + 1;
    hide ConfirmedReckoning;
  }

  lemma ConfirmationIsAnswered(hash: Hash, s: Store, id: string, expected: Option<int>, op: Option<string>,
                               submission: string, env: Env)
    ensures var (t, reply) := Alone(hash, s, ConfirmRequest(id, expected, op, submission), env);
            ConfirmationAnswered(hash, s, id, expected, op, submission, env, t, reply)
  {
    hide DigestOf, ConfirmsTo, ConfirmedReckoning;
    if Replayed(s, op) {
      ReplayAlone(hash, s, ConfirmRequest(id, expected, op, submission), env);
      hide Alone, AnsweredByReplay;
    } else if id in s.reckonings {
      hide Alone, ConfirmationAnswered;
      if s.reckonings[id].status == Confirmed {
        ReconfirmationIsAnswered(hash, s, id, expected, op, submission, env);
      } else {
        FirstConfirmationIsAnswered(hash, s, id, expected, op, submission, env);
      }
    }
  }

  lemma MaterialIsNamed(r: Reckoning, evidenceId: string)
    ensures evidenceId in MaterialIds(r) <==> Named(r, evidenceId)
  {
    forall v ensures v in CurrentRecords(r.recordVersions)
                 <==> v in r.recordVersions && Latest(r.recordVersions, v.recordId) == Some(v)
    {
      CurrentExactly(r.recordVersions, v);
    }
    hide CurrentRecords, Latest;
  }

  lemma CurrentExactly(versions: seq<RecordVersion>, v: RecordVersion)
    ensures v in CurrentRecords(versions) <==> v in versions && Latest(versions, v.recordId) == Some(v)
  {
    var current := CurrentRecords(versions);
    if v in current {
      var k :| 0 <= k < |current| && current[k] == v;
    }
    if v in versions && Latest(versions, v.recordId) == Some(v) {
      assert v.recordId in RecordIds(versions);
      var k :| 0 <= k < |current| && RecordIds(versions)[k] == v.recordId;
      assert current[k] == v;
    }
  }

  lemma {:induction false} MaterialCites(r: Reckoning, evidence: seq<Evidence>)
    ensures CitesAllNamed(IdsOf(Material(evidence, MaterialIds(r))), r, evidence)
    decreases |evidence|
  {
    hide MaterialIds, Named;
    if evidence != [] {
      MaterialIsNamed(r, evidence[0].id);
      MaterialCites(r, evidence[1..]);
      var rest := Material(evidence[1..], MaterialIds(r));
      assert ([evidence[0]] + rest)[1..] == rest && [] + rest == rest;
    }
  }

  lemma CheckInIsAnswered(hash: Hash, s: Store, id: string, outcome: string, env: Env)
    ensures var (t, reply) := Alone(hash, s, CheckInRequest(id, outcome), env);
            CheckInAnswered(s, id, outcome, env, t, reply)
  {
    hide Text.Strip, Text.Trims, Text.Blank, CitesAllNamed, IdsOf, Explain, Replay, AfterProvider;
    Text.StripTrims(outcome);
    if id in s.reckonings { ExplainCites(s.reckonings[id]); }
    hide Alone;
    CheckInAlone(hash, s, id, outcome, env);
  }

  lemma CheckInAlone(hash: Hash, s: Store, id: string, outcome: string, env: Env)
    ensures Alone(hash, s, CheckInRequest(id, outcome), env)
         == if Text.Strip(outcome) == "" then (s, Refused(InvalidValue))
            else if id !in s.reckonings then (s, Refused(UnknownReckoning))
            else if s.reckonings[id].status != Confirmed then (s, Refused(InvalidValue))
            else
              var c := CheckIn(env.freshId, s.reckonings[id].id, env.at, Text.Strip(outcome),
                               IdsOf(Explain(s.reckonings[id]).evidence));
              var tx := SaveCheckInTx(s, c);
              (tx.store, if tx.result.Err? then Refused(tx.result.error) else CheckedIn(c))
  {
    hide Text.Strip, IdsOf, Explain, AfterProvider, SaveCheckInTx;
  }

  lemma ExplainCites(r: Reckoning)
    ensures CitesAllNamed(IdsOf(Explain(r).evidence), r, r.draft.evidence)
  {
    hide CitesAllNamed, CurrentRecords, MaterialIds, IdsOf;
    MaterialCites(r, r.draft.evidence);
  }

  // ---------------------------------------------------------------------
  // When a request goes through
  // ---------------------------------------------------------------------

  /** The operation id is free, or keeps a failed operation of the very same digest. */
  predicate Admitted(hash: Hash, s: Store, r: Request) {
    OpOf(r).Some? && OpOf(r).value in s.operations ==>
      var record := s.operations[OpOf(r).value]; record.status == Failed && record.digest == DigestOf(hash, r)
  }

  /** A request that is no replay starts a decision exactly for a text that is not blank and an acceptable draft;
      and it is refused for the provider exactly when the provider failed. */
  lemma StartGoesThrough(hash: Hash, s: Store, text: string, op: Option<string>, env: Env)
    requires Fresh(env) && !Replayed(s, op) && env.freshId !in s.reckonings
    ensures var r := StartRequest(text, op);
            var reply := Alone(hash, s, r, env).1;
            && (reply.Decision? <==> && !Text.Blank(text) && Admitted(hash, s, r)
                                     && env.provided.Drafted? && AcceptableDraft(env.provided.draft))
            && (reply == Refused(ProviderFailed) <==>
                  !Text.Blank(text) && Admitted(hash, s, r) && env.provided == Unavailable)
  {
    hide Text.Strip, Text.Blank, ValidDraft, Started, AfterPreparing, AcceptableDraft, DigestOf;
    if env.provided.Drafted? || env.provided.Crossed? { DraftsExactly(env.provided.draft); }
    if env.provided.Drafted? && ValidDraft(env.provided.draft) {
      if Text.Strip(text) != "" { PreparedStart(hash, s, text, op, env); }
    } else {
      UnpreparedStart(hash, s, text, op, env);
    }
  }

  /** A request that is no replay corrects a record exactly when the decision is there, proposed and at the expected
      version, the record is there, and the meaning is not blank. */
  lemma CorrectionGoesThrough(hash: Hash, s: Store, id: string, recordId: string, meaning: string,
                              expected: Option<int>, op: Option<string>, submission: string, env: Env)
    requires !Replayed(s, op) && (id in s.reckonings ==> s.reckonings[id].id == id)
    ensures var r := CorrectRequest(id, recordId, meaning, expected, op, submission);
            Alone(hash, s, r, env).1.Decision? <==>
              && !Text.Blank(meaning) && Admitted(hash, s, r) && id in s.reckonings
              && (expected.Some? ==> s.reckonings[id].version == expected.value)
              && s.reckonings[id].status == Proposed && Latest(s.reckonings[id].recordVersions, recordId).Some?
  {
    hide Text.Strip, Text.Blank, DigestOf, CurrentRecords, Latest, FindRecord;
    if Correctable(s, id, recordId, meaning) {
      var base := s.reckonings[id];
      CurrentIsLatest(base.recordVersions, recordId);
      CorrectedIs(base, Latest(base.recordVersions, recordId).value, Text.Strip(meaning), env);
      hide Corrected;
    } else {
      NoCorrection(hash, s, id, recordId, meaning, expected, op, submission, env);
      hide Alone;
    }
  }

  /** A request that is no replay confirms a decision exactly when it is there, at the expected version. */
  lemma ConfirmationGoesThrough(hash: Hash, s: Store, id: string, expected: Option<int>, op: Option<string>,
                                submission: string, env: Env)
    requires !Replayed(s, op) && (id in s.reckonings ==> s.reckonings[id].id == id)
    ensures var r := ConfirmRequest(id, expected, op, submission);
            Alone(hash, s, r, env).1.Decision? <==>
              && Admitted(hash, s, r) && id in s.reckonings
              && (expected.Some? ==> s.reckonings[id].version == expected.value)
  {
    hide DigestOf;
    if id in s.reckonings {
      var next := ConfirmedReckoning(s.reckonings[id], env.at);
      assert next.id == id && next.version == s.reckonings[id].version + 1;
    }
    hide ConfirmedReckoning;
  }

  /** A check-in is kept exactly for a confirmed decision, an outcome that is not blank and a new identifier. */
  lemma CheckInGoesThrough(hash: Hash, s: Store, id: string, outcome: string, env: Env)
    requires id in s.reckonings ==> s.reckonings[id].id == id
    ensures Alone(hash, s, CheckInRequest(id, outcome), env).1.CheckedIn? <==>
              && !Text.Blank(outcome) && id in s.reckonings && s.reckonings[id].status == Confirmed
              && forall c :: c in s.checkIns ==> c.id != env.freshId
  {
    CheckInAlone(hash, s, id, outcome, env);
    hide Text.Strip, Text.Blank, IdsOf, Explain, Alone;
  }

  /** The why-view names the decision, shows its current records, and shows exactly the evidence that a fact, an
      inference or a current record names. */
  lemma WhyShowsExactly(r: Reckoning)
    ensures var why := Explain(r);
            && why.reckoningId == r.id
            && (forall v :: v in why.records <==>
                  v in r.recordVersions && Latest(r.recordVersions, v.recordId) == Some(v))
            && (forall e :: e in why.evidence <==> e in r.draft.evidence && Named(r, e.id))
            && CitesAllNamed(IdsOf(why.evidence), r, r.draft.evidence)
  {
    forall v ensures v in CurrentRecords(r.recordVersions)
                 <==> v in r.recordVersions && Latest(r.recordVersions, v.recordId) == Some(v)
    {
      CurrentExactly(r.recordVersions, v);
    }
    forall e: Evidence ensures e.id in MaterialIds(r) <==> Named(r, e.id) { MaterialIsNamed(r, e.id); }
    MaterialCites(r, r.draft.evidence);
    hide MaterialIds, Named, Latest, CurrentRecords, CitesAllNamed;
  }
}
