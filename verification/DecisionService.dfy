/** The decision methods of the application (src/reckoning/application.py:640-1040): one call
    from start to end, shown to be a behaviour of the protocol. */
module DecisionService {
  import opened Wrappers
  import opened Continuity
  import opened ContinuityStore
  import opened DecisionProtocol
  import opened DecisionAlone
  import Text

  // ---------------------------------------------------------------------
  // The methods
  // ---------------------------------------------------------------------

  class ReckonApplication {
    const repository: JsonFileReckoningRepository
    const hash: Hash

    constructor (repository: JsonFileReckoningRepository, hash: Hash)
      ensures this.repository == repository && this.hash == hash
    {
      this.repository, this.hash := repository, hash;
    }

    /** `_replay_result` */
    method ReplayResult(request: Request, digest: string) returns (r: Result<Option<string>, DecisionError>)
      requires digest == DigestOf(hash, request)
      ensures r == Replay(hash, repository.Contents(), request)
    {
      hide DigestOf;
      var op := OpOf(request);
      if op == None { return Ok(None); }
      var record := repository.LookupOperation(op.value);
      if record == None { return Ok(None); }
      if record.value.digest != digest { return Err(OperationConflict); }
      if record.value.status == Failed { return Ok(None); }
      r := Ok(Some(record.value.resultId));
    }

    method StartReckoning(text: string, op: Option<string>, env: Env) returns (reply: Reply)
      requires Fresh(env)
      modifies repository
      ensures (repository.Contents(), reply) == Alone(hash, old(repository.Contents()), StartRequest(text, op), env)
      ensures StartAnswered(hash, old(repository.Contents()), text, op, env, repository.Contents(), reply)
    {
      hide DigestOf, ValidDraft, Text.Strip, Started, StartAnswered;
      StartIsAnswered(hash, repository.Contents(), text, op, env);
      var request := StartRequest(text, op);
      var source := Text.Strip(text);
      if source == "" { return Refused(InvalidValue); }
      var digest := DigestOf(hash, request);
      var previous := ReplayResult(request, digest);
      if previous.Err? { return Refused(previous.error); }
      if previous.value.Some? {
        var found := repository.Get(previous.value.value);
        return if found.Err? then Refused(found.error) else Decision(found.value);
      }
      if env.provided.Blocked? { return Refused(ProcessingBlocked); }
      if env.provided.Unavailable? {
        var failed := FailedOperation(hash, request, env.at);
        if failed.Some? {
          var recorded := repository.RecordOperation(failed.value);
          if recorded.Err? { return Refused(OperationConflict); }
        }
        return Refused(ProviderFailed);
      }
      var draft := env.provided.draft;
      if !ValidDraft(draft) { return Refused(InvalidDraft); }
      if env.provided.Crossed? { return Refused(ProtectedBoundary); }
      var next := Started(env.freshId, source, draft, env.recordIds, env.at);
      var saved := repository.Save(next, 0, CompletedOperation(hash, request, next.id, env.at));
      reply := if saved.Err? then Refused(saved.error) else Decision(next);
    }

    method CorrectPersonalRecord(reckoningId: string, recordId: string, correctedMeaning: string,
                                 expected: Option<int>, op: Option<string>, submission: string, env: Env)
      returns (reply: Reply)
      modifies repository
      ensures (repository.Contents(), reply)
           == Alone(hash, old(repository.Contents()),
                    CorrectRequest(reckoningId, recordId, correctedMeaning, expected, op, submission), env)
      ensures CorrectionAnswered(hash, old(repository.Contents()), reckoningId, recordId, correctedMeaning, expected,
                                 op, submission, env, repository.Contents(), reply)
    {
      hide DigestOf, Text.Strip, Corrected, CurrentRecords, CompletedOperation, CorrectionAnswered;
      CorrectionIsAnswered(hash, repository.Contents(), reckoningId, recordId, correctedMeaning, expected, op,
                           submission, env);
      var request := CorrectRequest(reckoningId, recordId, correctedMeaning, expected, op, submission);
      var meaning := Text.Strip(correctedMeaning);
      if meaning == "" { return Refused(InvalidValue); }
      var digest := DigestOf(hash, request);
      var previous := ReplayResult(request, digest);
      if previous.Err? { return Refused(previous.error); }
      if previous.value.Some? {
        var found := repository.Get(previous.value.value);
        return if found.Err? then Refused(found.error) else Decision(found.value);
      }
      var stored := repository.Get(reckoningId);
      if stored.Err? { return Refused(stored.error); }
      var base := stored.value;
      if expected.Some? && base.version != expected.value { return Refused(RevisionConflict); }
      if base.status == Confirmed { return Refused(InvalidValue); }
      var records := CollectCurrentRecords(base.recordVersions);
      var current := FindRecord(records, recordId);
      if current == None { return Refused(UnknownRecord); }
      var next := Corrected(base, current.value, meaning, env.freshId, env.at);
      var saved := repository.Save(next, base.version, CompletedOperation(hash, request, reckoningId, env.at));
      reply := if saved.Err? then Refused(saved.error) else Decision(next);
    }

    method ConfirmReckoning(reckoningId: string, expected: Option<int>, op: Option<string>, submission: string,
                            env: Env)
      returns (reply: Reply)
      modifies repository
      ensures (repository.Contents(), reply)
           == Alone(hash, old(repository.Contents()), ConfirmRequest(reckoningId, expected, op, submission), env)
      ensures ConfirmationAnswered(hash, old(repository.Contents()), reckoningId, expected, op, submission, env,
                                   repository.Contents(), reply)
    {
      hide DigestOf, ConfirmedReckoning, CompletedOperation, ConfirmationAnswered;
      ConfirmationIsAnswered(hash, repository.Contents(), reckoningId, expected, op, submission, env);
      var request := ConfirmRequest(reckoningId, expected, op, submission);
      var digest := DigestOf(hash, request);
      var previous := ReplayResult(request, digest);
      if previous.Err? { return Refused(previous.error); }
      if previous.value.Some? {
        var found := repository.Get(previous.value.value);
        return if found.Err? then Refused(found.error) else Decision(found.value);
      }
      var stored := repository.Get(reckoningId);
      if stored.Err? { return Refused(stored.error); }
      var base := stored.value;
      if expected.Some? && base.version != expected.value { return Refused(RevisionConflict); }
      var completed := CompletedOperation(hash, request, reckoningId, env.at);
      if base.status == Confirmed {
        if completed.Some? {
          var recorded := repository.RecordOperation(completed.value);
          if recorded.Err? { return Refused(recorded.error); }
        }
        return Decision(base);
      }
      var next := ConfirmedReckoning(base, env.at);
      var saved := repository.Save(next, base.version, completed);
      reply := if saved.Err? then Refused(saved.error) else Decision(next);
    }

    method ExplainReckoning(reckoningId: string) returns (r: Result<WhyView, DecisionError>)
      ensures r == if reckoningId in repository.reckonings then Ok(Explain(repository.reckonings[reckoningId]))
                   else Err(UnknownReckoning)
    {
      var stored := repository.Get(reckoningId);
      if stored.Err? { return Err(stored.error); }
      var records := CollectCurrentRecords(stored.value.recordVersions);
      r := Ok(WhyView(stored.value.id, Material(stored.value.draft.evidence, MaterialIds(stored.value)), records));
    }

    method RecordCheckIn(reckoningId: string, outcome: string, env: Env) returns (reply: Reply)
      modifies repository
      ensures (repository.Contents(), reply)
           == Alone(hash, old(repository.Contents()), CheckInRequest(reckoningId, outcome), env)
      ensures CheckInAnswered(old(repository.Contents()), reckoningId, outcome, env, repository.Contents(), reply)
    {
      hide Text.Strip, Explain, CheckInAnswered;
      CheckInIsAnswered(hash, repository.Contents(), reckoningId, outcome, env);
      var recorded := Text.Strip(outcome);
      if recorded == "" { return Refused(InvalidValue); }
      var stored := repository.Get(reckoningId);
      if stored.Err? { return Refused(stored.error); }
      if stored.value.status != Confirmed { return Refused(InvalidValue); }
      var why := ExplainReckoning(reckoningId);
      if why.Err? { return Refused(UnknownReckoning); }
      var checkIn := CheckIn(env.freshId, stored.value.id, env.at, recorded, IdsOf(why.value.evidence));
      var saved := repository.SaveCheckIn(checkIn);
      reply := if saved.Err? then Refused(saved.error) else CheckedIn(checkIn);
    }
  }
}
