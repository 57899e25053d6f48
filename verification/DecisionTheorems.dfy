/** What every behaviour of the decision protocol keeps. */
module DecisionTheorems {
  import opened Wrappers
  import opened Continuity
  import opened ContinuityStore
  import opened DecisionProtocol
  import Text

  // ---------------------------------------------------------------------
  // Exactly once
  // ---------------------------------------------------------------------

  /** However many requests pass the replay check together, at most one commit is made under an operation
      id, and a commit leaves its operation completed and naming the decision it made. */
  lemma AtMostOneCommitPerOperation(hash: Hash, events: seq<Event>, i: nat, j: nat)
    requires i < |Run(hash, EmptyWorld(), events).commits| && j < |Run(hash, EmptyWorld(), events).commits|
    requires var commits := Run(hash, EmptyWorld(), events).commits;
             commits[i].op.Some? && commits[i].op == commits[j].op
    ensures i == j
    ensures var t := Run(hash, EmptyWorld(), events);
            && IsCompleted(t.store, t.commits[i].op.value)
            && t.store.operations[t.commits[i].op.value].resultId == t.commits[i].reckoning.id
  {
    InvInitially();
    InvAlways(hash, EmptyWorld(), events);
    var t := Run(hash, EmptyWorld(), events);
    assert OperationsSound(t.store, t.commits);
  }

  /** What one step does to a completed operation and to the commits: nothing to the first, and it adds
      none under it. */
  lemma CompletedStep(hash: Hash, s: World, e: Event, op: string)
    requires IsCompleted(s.store, op) && Inv(s)
    ensures var t := Apply(hash, s, e);
            && IsCompleted(t.store, op) && t.store.operations[op] == s.store.operations[op]
            && s.commits <= t.commits
            && forall i :: |s.commits| <= i < |t.commits| ==> t.commits[i].op != Some(op)
  {
    hide StoreSound, CommitsSound, AfterReading;
    if e.Step? && e.w in s.workers { assert WorkerSound(s.store, s.workers[e.w]); }
    hide WorkersSound, DecisionSound, Snapshot;
  }

  /** A completed operation never changes again, and nothing is ever committed under it again, not even by
      a request that had passed the replay check before. */
  lemma {:induction false} CompletedIsFinal(hash: Hash, s: World, events: seq<Event>, op: string)
    requires Inv(s) && IsCompleted(s.store, op)
    ensures var t := Run(hash, s, events);
            && IsCompleted(t.store, op) && t.store.operations[op] == s.store.operations[op]
            && s.commits <= t.commits
            && forall i :: |s.commits| <= i < |t.commits| ==> t.commits[i].op != Some(op)
    decreases |events|
  {
    if events != [] {
      CompletedStep(hash, s, events[0], op);
      InvPreserved(hash, s, events[0]);
      hide Apply, Inv;
      CompletedIsFinal(hash, Apply(hash, s, events[0]), events[1..], op);
    }
  }

  lemma CheckAnswersReplay(hash: Hash, s: World, w: nat, env: Env) returns (t: World)
    requires w in s.workers && s.workers[w].pc == Checking && !Empty(s.workers[w].request)
    requires var op := OpOf(s.workers[w].request); op.Some? && IsCompleted(s.store, op.value)
    ensures t == Apply(hash, s, Step(w, env)) && t.store == s.store && t.commits == s.commits && w in t.workers
    ensures var record := s.store.operations[OpOf(s.workers[w].request).value];
            t.workers[w].pc == if record.digest == DigestOf(hash, s.workers[w].request) then Fetching(record.resultId)
                               else Done(Refused(OperationConflict))
  {
    hide DigestOf, Empty, OpOf, AfterPreparing, AfterExplaining;
    t := Goto(s, w, AfterCheck(hash, s.store, s.workers[w].request));
  }

  lemma ReadingStep(hash: Hash, s: World, w: nat, env: Env) returns (t: World)
    requires w in s.workers && (s.workers[w].pc.Fetching? || s.workers[w].pc.Done?)
    ensures t == Apply(hash, s, Step(w, env)) && t.store == s.store && t.commits == s.commits && w in t.workers
    ensures var pc := s.workers[w].pc;
            t.workers[w].pc == if pc.Done? then pc
                               else Done(if pc.resultId in s.store.reckonings
                                         then Decision(s.store.reckonings[pc.resultId])
                                         else Refused(UnknownReckoning))
  {
    hide AfterCheck, AfterPreparing, AfterExplaining;
    t := Apply(hash, s, Step(w, env));
  }

  /** A request under a completed operation id, alone: with the same digest it is answered with the decision
      the operation names, with another digest it is a conflict, and either way nothing is stored. */
  lemma ReplayChangesNothing(hash: Hash, s: World, w: nat, env: Env, env': Env) returns (t: World)
    requires Inv(s) && w in s.workers && s.workers[w].pc == Checking && !Empty(s.workers[w].request)
    requires var op := OpOf(s.workers[w].request); op.Some? && IsCompleted(s.store, op.value)
    ensures t == Apply(hash, Apply(hash, s, Step(w, env)), Step(w, env'))
    ensures t.store == s.store && t.commits == s.commits && w in t.workers
    ensures var record := s.store.operations[OpOf(s.workers[w].request).value];
            && record.resultId in s.store.reckonings
            && t.workers[w].pc
               == Done(if record.digest == DigestOf(hash, s.workers[w].request)
                       then Decision(s.store.reckonings[record.resultId])
                       else Refused(OperationConflict))
  {
    hide DigestOf, WorkersSound, CommitsSound, Empty, OpOf, Apply;
    var op := OpOf(s.workers[w].request).value;
    assert s.store.operations[op].resultId in s.store.reckonings;
    hide StoreSound;
    var s1 := CheckAnswersReplay(hash, s, w, env);
    t := ReadingStep(hash, s1, w, env');
  }

  // ---------------------------------------------------------------------
  // Histories
  // ---------------------------------------------------------------------

  /** The committed versions of one decision, in order. */
  function HistoryOf(commits: seq<Commit>, id: string): seq<Reckoning> {
    if commits == [] then []
    else
      var last := |commits| - 1;
      HistoryOf(commits[..last], id) + (if commits[last].reckoning.id == id then [commits[last].reckoning] else [])
  }

  /** Versions 1 to n, each following the one before. */
  ghost predicate Chain(history: seq<Reckoning>) {
    && (forall k :: 0 <= k < |history| ==> history[k].version == k + 1)
    && (forall k :: 0 < k < |history| ==> Follows(history[k - 1], history[k]))
  }

  lemma FollowsRaises()
    ensures forall a, b :: Follows(a, b) ==> b.version == a.version + 1
  {
  }

  lemma ChainOneMore(history: seq<Reckoning>, r: Reckoning)
    requires Chain(history)
    requires if history == [] then r.version == 1 else Follows(history[|history| - 1], r)
    ensures Chain(history + [r])
  {
    FollowsRaises();
    hide Follows;
  }

  lemma {:induction false} CommitsFormChains(commits: seq<Commit>, id: string)
    requires ChainSound(commits)
    ensures Chain(HistoryOf(commits, id))
    ensures LastCommit(commits, id)
         == if HistoryOf(commits, id) == [] then None else Some(HistoryOf(commits, id)[|HistoryOf(commits, id)| - 1])
    decreases |commits|
  {
    if commits != [] {
      var last := |commits| - 1;
      var rest := commits[..last];
      ChainPrefix(commits);
      CommitsFormChains(rest, id);
      hide Chain, ChainSound, Follows;
      if commits[last].reckoning.id == id { ChainOneMore(HistoryOf(rest, id), commits[last].reckoning); }
    }
  }

  lemma ChainPrefix(commits: seq<Commit>)
    requires ChainSound(commits) && commits != []
    ensures ChainSound(commits[..|commits| - 1]) && Extends(commits[..|commits| - 1], commits[|commits| - 1])
  {
    hide Extends;
    var rest := commits[..|commits| - 1];
    forall i | 0 <= i < |rest| ensures Extends(rest[..i], rest[i]) {
      assert rest[..i] == commits[..i] && rest[i] == commits[i];
    }
  }

  /** No update is lost: the stored decision is the last of its committed versions, which number 1 to n, and
      each extends the records and the evidence of the one before and changes nothing else. */
  lemma NoLostUpdate(hash: Hash, events: seq<Event>, id: string)
    ensures var t := Run(hash, EmptyWorld(), events);
            var history := HistoryOf(t.commits, id);
            && Chain(history)
            && (id in t.store.reckonings <==> history != [])
            && (id in t.store.reckonings ==>
                  t.store.reckonings[id] == history[|history| - 1] && t.store.reckonings[id].version == |history|)
  {
    InvInitially();
    InvAlways(hash, EmptyWorld(), events);
    var t := Run(hash, EmptyWorld(), events);
    assert LastIsStored(t.store, t.commits) && ChainSound(t.commits);
    CommitsFormChains(t.commits, id);
    assert LastCommit(t.commits, id) == if id in t.store.reckonings then Some(t.store.reckonings[id]) else None;
  }

  lemma StoreGrows(hash: Hash, s: World, e: Event)
    requires Inv(s)
    ensures Grows(s.store, Apply(hash, s, e).store)
  {
    hide CommitsSound, AfterReading, DecisionSound, WorkersSound;
    if e.Step? && e.w in s.workers && s.workers[e.w].pc.Saving? {
      var me := s.workers[e.w];
      assert WorkerSound(s.store, me) by { assert WorkersSound(s); WorkerIn(s, e.w); }
      var expected := if me.pc.base == None then 0 else me.pc.base.value.version;
      if SaveTx(s.store, me.pc.next, expected, me.pc.record).result.Ok? {
        SaveReplacesSnapshot(s.store, me, expected);
      }
    }
  }

  lemma WorkerIn(s: World, w: nat)
    requires WorkersSound(s) && w in s.workers
    ensures WorkerSound(s.store, s.workers[w])
  {
    hide WorkerSound;
  }

  /** A confirmed decision never changes again. */
  lemma {:induction false} ConfirmedIsFinal(hash: Hash, s: World, events: seq<Event>, id: string)
    requires Inv(s) && id in s.store.reckonings && s.store.reckonings[id].status == Confirmed
    ensures var t := Run(hash, s, events);
            id in t.store.reckonings && t.store.reckonings[id] == s.store.reckonings[id]
    decreases |events|
  {
    if events != [] {
      StoreGrows(hash, s, events[0]);
      InvPreserved(hash, s, events[0]);
      hide Apply, Inv;
      ConfirmedIsFinal(hash, Apply(hash, s, events[0]), events[1..], id);
    }
  }

  /** Every stored decision: records in versions 1 to n, each superseding its predecessor, all proposed before
      the confirmation and all current ones confirmed after it, and each current record with support that the
      why-view shows. */
  lemma StoredDecisionsAreSound(hash: Hash, events: seq<Event>, id: string, recordId: string)
    requires id in Run(hash, EmptyWorld(), events).store.reckonings
    ensures var r := Run(hash, EmptyWorld(), events).store.reckonings[id];
            && (forall k :: 0 <= k < |VersionsOf(r.recordVersions, recordId)| ==>
                  VersionsOf(r.recordVersions, recordId)[k] == k + 1)
            && (forall v :: v in r.recordVersions ==> SupersedesItsPredecessor(v))
            && (r.status == Proposed ==> forall v :: v in r.recordVersions ==> v.status == Proposed)
            && (r.status == Confirmed ==> forall v :: v in CurrentRecords(r.recordVersions) ==> v.status == Confirmed)
            && (forall v :: v in Explain(r).records ==>
                  v.evidenceIds != []
                  && forall e :: e in v.evidenceIds ==> exists x :: x in Explain(r).evidence && x.id == e)
  {
    InvInitially();
    InvAlways(hash, EmptyWorld(), events);
    hide WorkersSound, CommitsSound;
    var t := Run(hash, EmptyWorld(), events);
    var r := t.store.reckonings[id];
    assert DecisionSound(r);
    hide StoreSound;
    VersionsAreOneToN(r.recordVersions, recordId);
    VersionsSupersede(r.recordVersions);
    WhyShowsSupport(r);
  }

  /** Every stored check-in is of a confirmed decision, and all it cites is still evidence of it. */
  lemma CheckInsStayResolvable(hash: Hash, events: seq<Event>, c: CheckIn)
    requires c in Run(hash, EmptyWorld(), events).store.checkIns
    ensures var t := Run(hash, EmptyWorld(), events).store;
            && c.decisionId in t.reckonings && t.reckonings[c.decisionId].status == Confirmed
            && Cites(c, t.reckonings[c.decisionId])
  {
    InvInitially();
    InvAlways(hash, EmptyWorld(), events);
    hide WorkersSound, CommitsSound;
    assert CheckInSound(Run(hash, EmptyWorld(), events).store, c);
  }
}
