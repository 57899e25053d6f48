/** Decisions and the records they keep (src/reckoning/continuity.py:28-170), and the new
    decision values that starting, correcting and confirming build
    (src/reckoning/application.py:766-985). */
module Continuity {
  import opened Wrappers
  import Text

  datatype Evidence = Evidence(id: string, source: string, content: string)

  datatype SourcedFact = SourcedFact(text: string, evidenceIds: seq<string>)

  datatype Inference = Inference(text: string, evidenceIds: seq<string>, uncertainty: string)

  datatype MaterialQuestion = MaterialQuestion(text: string, effect: string)

  datatype RecordProposal = RecordProposal(recordType: string, meaning: string, evidenceIds: seq<string>)

  datatype Status = Proposed | Confirmed

  datatype RecordVersion = RecordVersion(
    recordId: string, version: nat, status: Status, recordType: string, meaning: string, evidenceIds: seq<string>,
    createdAt: int, supersedes: Option<nat>)

  datatype Draft = Draft(
    conflict: string, questions: seq<MaterialQuestion>, mattersNow: seq<string>, maintained: seq<string>,
    parked: seq<string>, uncertainties: seq<string>, known: seq<SourcedFact>, inferences: seq<Inference>,
    evidence: seq<Evidence>, nextStep: string, proposedRecords: seq<RecordProposal>)

  datatype Reckoning = Reckoning(
    id: string, version: nat, status: Status, createdAt: int, sourceInput: string, draft: Draft,
    recordVersions: seq<RecordVersion>)

  datatype WhyView = WhyView(reckoningId: string, evidence: seq<Evidence>, records: seq<RecordVersion>)

  datatype CheckIn = CheckIn(id: string, decisionId: string, occurredAt: int, outcome: string, evidenceIds: seq<string>)

  predicate Stripped(text: string) { Text.Strip(text) == "" }

  function EvidenceIds(evidence: seq<Evidence>): (r: set<string>)
    ensures forall id :: id in r <==> exists e :: e in evidence && e.id == id
  {
    set e | e in evidence :: e.id
  }

  /** Ids that name something, and nothing outside the evidence. */
  predicate Supported(ids: seq<string>, evidence: set<string>) {
    ids != [] && forall id :: id in ids ==> id in evidence
  }

  // ---------------------------------------------------------------------
  // Drafts
  // ---------------------------------------------------------------------

  predicate Meaningful(d: Draft) {
    || d.questions != []
    || (exists t :: t in d.mattersNow + d.maintained + d.parked + d.uncertainties && !Stripped(t))
    || (exists f :: f in d.known && !Stripped(f.text))
    || (exists i :: i in d.inferences && !Stripped(i.text))
  }

  /** `ReckoningDraft.validate` raises nothing. */
  predicate ValidDraft(d: Draft) {
    && |d.questions| <= 3
    && (forall q :: q in d.questions ==> !Stripped(q.text) && !Stripped(q.effect))
    && !Stripped(d.conflict) && !Stripped(d.nextStep) && Meaningful(d)
    && forall p :: p in d.proposedRecords ==> !Stripped(p.meaning) && Supported(p.evidenceIds, EvidenceIds(d.evidence))
  }

  // ---------------------------------------------------------------------
  // Current records
  // ---------------------------------------------------------------------

  /** The last version of a record. */
  function Latest(versions: seq<RecordVersion>, id: string): (r: Option<RecordVersion>)
    ensures r.Some? ==> r.value in versions && r.value.recordId == id
    ensures r == None ==> forall v :: v in versions ==> v.recordId != id
  {
    if versions == [] then None
    else
      var last := |versions| - 1;
      if versions[last].recordId == id then Some(versions[last]) else Latest(versions[..last], id)
  }

  /** The record ids in the order of their first version. */
  function RecordIds(versions: seq<RecordVersion>): (r: seq<string>)
    ensures forall id :: id in r <==> exists v :: v in versions && v.recordId == id
    ensures forall i, j :: 0 <= i < j < |r| ==> r[i] != r[j]
  {
    if versions == [] then []
    else
      var last := |versions| - 1;
      assert versions == versions[..last] + [versions[last]];
      var ids := RecordIds(versions[..last]);
      if versions[last].recordId in ids then ids else ids + [versions[last].recordId]
  }

  function LatestOf(versions: seq<RecordVersion>, ids: seq<string>): (r: seq<RecordVersion>)
    requires forall id :: id in ids ==> Latest(versions, id).Some?
    ensures |r| == |ids| && forall i :: 0 <= i < |ids| ==> r[i] == Latest(versions, ids[i]).value
  {
    if ids == [] then [] else [Latest(versions, ids[0]).value] + LatestOf(versions, ids[1..])
  }

  /** `current_records`: the last version of each record, in the order the records first appeared. */
  function CurrentRecords(versions: seq<RecordVersion>): (r: seq<RecordVersion>)
    ensures |r| == |RecordIds(versions)|
    ensures forall i :: 0 <= i < |r| ==> r[i].recordId == RecordIds(versions)[i]
                                         && Latest(versions, r[i].recordId) == Some(r[i])
  {
    forall id | id in RecordIds(versions) ensures Latest(versions, id).Some? {}
    LatestOf(versions, RecordIds(versions))
  }

  /** One turn of the dictionary loop below. */
  lemma CurrentAfterOne(versions: seq<RecordVersion>, i: nat)
    requires i < |versions|
    ensures var v, before, after := versions[i], versions[..i], versions[..i + 1];
            && RecordIds(after) == (if v.recordId in RecordIds(before) then RecordIds(before)
                                    else RecordIds(before) + [v.recordId])
            && forall id :: Latest(after, id) == if id == v.recordId then Some(v) else Latest(before, id)
  {
    assert versions[..i + 1][..i] == versions[..i];
  }

  /** The dictionary as a map with its keys in insertion order. */
  ghost predicate IndexedById(versions: seq<RecordVersion>, byId: map<string, RecordVersion>, keys: seq<string>) {
    && keys == RecordIds(versions)
    && (forall id :: id in byId <==> id in keys)
    && (forall id :: id in keys ==> Latest(versions, id) == Some(byId[id]))
  }

  lemma IndexedNext(versions: seq<RecordVersion>, i: nat, byId: map<string, RecordVersion>, keys: seq<string>)
    requires i < |versions| && IndexedById(versions[..i], byId, keys)
    ensures IndexedById(versions[..i + 1], byId[versions[i].recordId := versions[i]],
                        if versions[i].recordId in byId then keys else keys + [versions[i].recordId])
  {
    CurrentAfterOne(versions, i);
    hide Latest, RecordIds;
  }

  method IndexById(versions: seq<RecordVersion>) returns (byId: map<string, RecordVersion>, keys: seq<string>)
    ensures IndexedById(versions, byId, keys)
  {
    assert IndexedById(versions[..0], map[], []);
    hide IndexedById;
    byId, keys := map[], [];
    for i := 0 to |versions|
      invariant IndexedById(versions[..i], byId, keys)
    {
      IndexedNext(versions, i, byId, keys);
      if versions[i].recordId !in byId { keys := keys + [versions[i].recordId]; }
      byId := byId[versions[i].recordId := versions[i]];
    }
    assert versions[..|versions|] == versions;
  }

  /** The loop of `current_records`. */
  method CollectCurrentRecords(versions: seq<RecordVersion>) returns (r: seq<RecordVersion>)
    ensures r == CurrentRecords(versions)
  {
    var byId, keys := IndexById(versions);
    hide Latest, RecordIds, CurrentRecords;
    r := [];
    for i := 0 to |keys|
      invariant |r| == i && forall k :: 0 <= k < i ==> r[k] == CurrentRecords(versions)[k]
    {
      assert keys[i] in keys;
      assert CurrentRecords(versions)[i].recordId == keys[i];
      r := r + [byId[keys[i]]];
    }
  }

  /** Some version of the first record stands before every version of the second. */
  ghost predicate FirstSeen(versions: seq<RecordVersion>, first: string, second: string) {
    exists a :: 0 <= a < |versions| && versions[a].recordId == first
                && forall b :: 0 <= b < |versions| && versions[b].recordId == second ==> a < b
  }

  /** The order of the ids is the order of first appearance. */
  lemma {:induction false} RecordIdsInOrder(versions: seq<RecordVersion>, i: nat, j: nat)
    requires i < j < |RecordIds(versions)|
    ensures FirstSeen(versions, RecordIds(versions)[i], RecordIds(versions)[j])
    decreases |versions|
  {
    var last := |versions| - 1;
    var rest := versions[..last];
    var ids := RecordIds(rest);
    if j < |ids| {
      RecordIdsInOrder(rest, i, j);
      hide FirstSeen;
      FirstSeenStill(rest, versions[last], ids[i], ids[j]);
      assert versions == rest + [versions[last]];
    } else {
      hide FirstSeen;
      FirstSeenLast(rest, versions[last], ids[i]);
      assert versions == rest + [versions[last]];
    }
  }

  lemma FirstSeenStill(rest: seq<RecordVersion>, v: RecordVersion, first: string, second: string)
    requires FirstSeen(rest, first, second)
    ensures FirstSeen(rest + [v], first, second)
  {
    var a :| 0 <= a < |rest| && rest[a].recordId == first
             && forall b :: 0 <= b < |rest| && rest[b].recordId == second ==> a < b;
    assert (rest + [v])[a] == rest[a];
  }

  lemma FirstSeenLast(rest: seq<RecordVersion>, v: RecordVersion, first: string)
    requires first in RecordIds(rest) && v.recordId !in RecordIds(rest)
    ensures FirstSeen(rest + [v], first, v.recordId)
  {
    var seen :| seen in rest && seen.recordId == first;
    var a :| 0 <= a < |rest| && rest[a] == seen;
    assert (rest + [v])[a] == rest[a];
    forall b | 0 <= b < |rest| ensures rest[b].recordId != v.recordId { assert rest[b] in rest; }
  }

  function FindRecord(records: seq<RecordVersion>, id: string): (r: Option<RecordVersion>)
    ensures r.Some? ==> r.value in records && r.value.recordId == id
    ensures r == None ==> forall v :: v in records ==> v.recordId != id
  {
    if records == [] then None else if records[0].recordId == id then Some(records[0]) else FindRecord(records[1..], id)
  }

  lemma CurrentIsLatest(versions: seq<RecordVersion>, id: string)
    ensures FindRecord(CurrentRecords(versions), id) == Latest(versions, id)
  {
    var current := CurrentRecords(versions);
    if Latest(versions, id).Some? {
      assert id in RecordIds(versions);
      var i :| 0 <= i < |current| && RecordIds(versions)[i] == id;
      assert current[i] in current;
    }
  }

  // ---------------------------------------------------------------------
  // Histories
  // ---------------------------------------------------------------------

  /** `v` continues the history before it: version one without a predecessor, or the successor of the last. */
  predicate Continues(before: seq<RecordVersion>, v: RecordVersion) {
    match Latest(before, v.recordId)
    case None => v.version == 1 && v.supersedes == None
    case Some(p) => v.version == p.version + 1 && v.supersedes == Some(p.version) && v.recordType == p.recordType
  }

  ghost predicate HistorySound(versions: seq<RecordVersion>) {
    forall i :: 0 <= i < |versions| ==> Continues(versions[..i], versions[i])
  }

  function VersionsOf(versions: seq<RecordVersion>, id: string): seq<nat> {
    if versions == [] then []
    else
      var last := |versions| - 1;
      VersionsOf(versions[..last], id) + (if versions[last].recordId == id then [versions[last].version] else [])
  }

  /** In a sound history the versions of a record are exactly 1 to n, in order. */
  lemma {:induction false} VersionsAreOneToN(versions: seq<RecordVersion>, id: string)
    requires HistorySound(versions)
    ensures var numbers := VersionsOf(versions, id);
            && (forall k :: 0 <= k < |numbers| ==> numbers[k] == k + 1)
            && Latest(versions, id).Some? == (numbers != [])
            && (Latest(versions, id).Some? ==> Latest(versions, id).value.version == |numbers|)
    decreases |versions|
  {
    if versions != [] {
      var last := |versions| - 1;
      assert Continues(versions[..last], versions[last]);
      HistoryTake(versions, last);
      hide HistorySound;
      VersionsAreOneToN(versions[..last], id);
    }
  }

  predicate SupersedesItsPredecessor(v: RecordVersion) {
    v.version >= 1 && v.supersedes == if v.version == 1 then None else Some(v.version - 1)
  }

  lemma VersionSupersedes(versions: seq<RecordVersion>, i: nat)
    requires HistorySound(versions) && i < |versions|
    ensures SupersedesItsPredecessor(versions[i])
  {
    assert Continues(versions[..i], versions[i]);
    HistoryTake(versions, i);
    hide HistorySound, Latest, VersionsOf;
    VersionsAreOneToN(versions[..i], versions[i].recordId);
  }

  /** And each version names the one before it as the one it supersedes. */
  lemma VersionsSupersede(versions: seq<RecordVersion>)
    requires HistorySound(versions)
    ensures forall v :: v in versions ==> SupersedesItsPredecessor(v)
  {
    hide HistorySound, SupersedesItsPredecessor;
    forall v | v in versions ensures SupersedesItsPredecessor(v) {
      var i :| 0 <= i < |versions| && versions[i] == v;
      VersionSupersedes(versions, i);
    }
  }

  lemma HistoryTake(versions: seq<RecordVersion>, n: nat)
    requires HistorySound(versions) && n <= |versions|
    ensures HistorySound(versions[..n])
  {
    forall i | 0 <= i < n ensures Continues(versions[..n][..i], versions[..n][i]) {
      assert versions[..n][..i] == versions[..i];
    }
  }

  lemma HistoryAppend(versions: seq<RecordVersion>, v: RecordVersion)
    requires HistorySound(versions) && Continues(versions, v)
    ensures HistorySound(versions + [v])
  {
    var next := versions + [v];
    forall i | 0 <= i < |next| ensures Continues(next[..i], next[i]) {
      if i < |versions| { assert next[..i] == versions[..i]; } else { assert next[..i] == versions; }
    }
  }

  // ---------------------------------------------------------------------
  // Sound decisions
  // ---------------------------------------------------------------------

  ghost predicate RecordsSupported(versions: seq<RecordVersion>, evidence: set<string>) {
    forall v :: v in versions ==> Supported(v.evidenceIds, evidence)
  }

  /** What every stored decision is. */
  ghost predicate DecisionSound(r: Reckoning) {
    && r.version >= 1
    && HistorySound(r.recordVersions)
    && RecordsSupported(r.recordVersions, EvidenceIds(r.draft.evidence))
    && (r.status == Proposed ==> forall v :: v in r.recordVersions ==> v.status == Proposed)
    && (r.status == Confirmed ==> forall v :: v in CurrentRecords(r.recordVersions) ==> v.status == Confirmed)
  }

  /** The next stored version of a decision: nothing before is rewritten, and a confirmed one has no next. */
  ghost predicate Follows(before: Reckoning, after: Reckoning) {
    && after.id == before.id && after.version == before.version + 1 && before.status == Proposed
    && after.createdAt == before.createdAt && after.sourceInput == before.sourceInput
    && before.recordVersions <= after.recordVersions
    && after.draft == before.draft.(evidence := after.draft.evidence)
    && before.draft.evidence <= after.draft.evidence
  }

  // --- starting ---

  function FirstVersions(proposals: seq<RecordProposal>, ids: seq<string>, at: int): (r: seq<RecordVersion>)
    requires |ids| == |proposals|
    ensures |r| == |proposals|
    ensures forall i :: 0 <= i < |r| ==>
              r[i] == RecordVersion(ids[i], 1, Proposed, proposals[i].recordType, proposals[i].meaning,
                                    proposals[i].evidenceIds, at, None)
  {
    if proposals == [] then []
    else
      [RecordVersion(ids[0], 1, Proposed, proposals[0].recordType, proposals[0].meaning, proposals[0].evidenceIds, at,
                     None)]
      + FirstVersions(proposals[1..], ids[1..], at)
  }

  function Started(id: string, source: string, draft: Draft, recordIds: seq<string>, at: int): Reckoning
    requires |recordIds| == |draft.proposedRecords|
  {
    Reckoning(id, 1, Proposed, at, source, draft, FirstVersions(draft.proposedRecords, recordIds, at))
  }

  lemma StartedSound(id: string, source: string, draft: Draft, recordIds: seq<string>, at: int)
    requires ValidDraft(draft) && |recordIds| == |draft.proposedRecords|
    requires forall i, j :: 0 <= i < j < |recordIds| ==> recordIds[i] != recordIds[j]
    ensures DecisionSound(Started(id, source, draft, recordIds, at))
  {
    hide Meaningful, Text.Strip;
    var versions := FirstVersions(draft.proposedRecords, recordIds, at);
    forall i | 0 <= i < |versions| ensures Continues(versions[..i], versions[i]) {
      forall v | v in versions[..i] ensures v.recordId != versions[i].recordId {
        var k :| 0 <= k < i && versions[k] == v;
      }
    }
    forall v | v in versions ensures Supported(v.evidenceIds, EvidenceIds(draft.evidence)) {
      var k :| 0 <= k < |versions| && versions[k] == v;
      assert draft.proposedRecords[k] in draft.proposedRecords;
    }
  }

  // --- correcting ---

  function Corrected(r: Reckoning, current: RecordVersion, meaning: string, evidenceId: string, at: int): Reckoning {
    var evidence := Evidence(evidenceId, "direct user correction", meaning);
    var version := RecordVersion(current.recordId, current.version + 1, Proposed, current.recordType, meaning,
                                 [evidenceId], at, Some(current.version));
    r.(version := r.version + 1, draft := r.draft.(evidence := r.draft.evidence + [evidence]),
       recordVersions := r.recordVersions + [version])
  }

  lemma EvidenceGrows(evidence: seq<Evidence>, e: Evidence)
    ensures EvidenceIds(evidence + [e]) == EvidenceIds(evidence) + {e.id}
  {
    forall id ensures id in EvidenceIds(evidence + [e]) <==> id in EvidenceIds(evidence) + {e.id} {
      if id in EvidenceIds(evidence) {
        var x :| x in evidence && x.id == id;
        assert x in evidence + [e];
      }
      if id == e.id { assert e in evidence + [e]; }
    }
  }

  lemma SupportedByMore(versions: seq<RecordVersion>, evidence: set<string>, more: set<string>)
    requires RecordsSupported(versions, evidence) && evidence <= more
    ensures RecordsSupported(versions, more)
  {
  }

  lemma SupportedAlone(v: RecordVersion, evidence: set<string>)
    requires Supported(v.evidenceIds, evidence)
    ensures RecordsSupported([v], evidence)
  {
  }

  lemma SupportedAppend(a: seq<RecordVersion>, b: seq<RecordVersion>, evidence: set<string>)
    requires RecordsSupported(a, evidence) && RecordsSupported(b, evidence)
    ensures RecordsSupported(a + b, evidence)
  {
    hide Supported;
  }

  lemma CorrectedSound(r: Reckoning, recordId: string, meaning: string, evidenceId: string, at: int)
    requires DecisionSound(r) && r.status == Proposed && Latest(r.recordVersions, recordId).Some?
    ensures var next := Corrected(r, Latest(r.recordVersions, recordId).value, meaning, evidenceId, at);
            DecisionSound(next) && Follows(r, next) && next.status == Proposed
  {
    hide EvidenceIds, HistorySound, RecordsSupported, CurrentRecords;
    var current := Latest(r.recordVersions, recordId).value;
    var next := Corrected(r, current, meaning, evidenceId, at);
    var v := next.recordVersions[|r.recordVersions|];
    var before, after := EvidenceIds(r.draft.evidence), EvidenceIds(next.draft.evidence);
    EvidenceGrows(r.draft.evidence, Evidence(evidenceId, "direct user correction", meaning));
    HistoryAppend(r.recordVersions, v);
    hide Latest, Continues;
    SupportedByMore(r.recordVersions, before, after);
    SupportedAlone(v, after);
    SupportedAppend(r.recordVersions, [v], after);
  }

  // --- confirming ---

  function ConfirmedVersions(current: seq<RecordVersion>, at: int): (r: seq<RecordVersion>)
    ensures |r| == |current|
    ensures forall i :: 0 <= i < |r| ==>
              r[i] == current[i].(version := current[i].version + 1, status := Confirmed, createdAt := at,
                                  supersedes := Some(current[i].version))
  {
    if current == [] then []
    else
      [current[0].(version := current[0].version + 1, status := Status.Confirmed, createdAt := at,
                   supersedes := Some(current[0].version))]
      + ConfirmedVersions(current[1..], at)
  }

  function ConfirmedReckoning(r: Reckoning, at: int): Reckoning {
    r.(version := r.version + 1, status := Status.Confirmed,
       recordVersions := r.recordVersions + ConfirmedVersions(CurrentRecords(r.recordVersions), at))
  }

  lemma {:induction false} LatestAppend(a: seq<RecordVersion>, b: seq<RecordVersion>, id: string)
    ensures Latest(a + b, id) == if Latest(b, id).Some? then Latest(b, id) else Latest(a, id)
    decreases |b|
  {
    if b == [] {
      assert a + b == a;
    } else {
      var last := |b| - 1;
      assert (a + b)[..|a + b| - 1] == a + b[..last];
      LatestAppend(a, b[..last], id);
    }
  }

  lemma DistinctLatest(b: seq<RecordVersion>, i: nat)
    requires i < |b| && forall j, k :: 0 <= j < k < |b| ==> b[j].recordId != b[k].recordId
    ensures Latest(b, b[i].recordId) == Some(b[i])
    ensures Latest(b[..i], b[i].recordId) == None
  {
    var found := Latest(b, b[i].recordId).value;
    var k :| 0 <= k < |b| && b[k] == found;
    forall v | v in b[..i] ensures v.recordId != b[i].recordId {
      var j :| 0 <= j < i && b[j] == v;
    }
  }

  /** Each confirmed version continues the history and the confirmed versions before it. */
  lemma ConfirmedContinues(versions: seq<RecordVersion>, at: int, k: nat)
    requires k < |CurrentRecords(versions)|
    ensures var added := ConfirmedVersions(CurrentRecords(versions), at);
            Continues(versions + added[..k], added[k])
  {
    hide LatestOf;
    var current := CurrentRecords(versions);
    var added := ConfirmedVersions(current, at);
    assert Latest(versions, current[k].recordId) == Some(current[k]);
    assert Latest(added[..k], added[k].recordId) == None by { DistinctLatest(added, k); }
    LatestAppend(versions, added[..k], added[k].recordId);
  }

  lemma {:induction false} ConfirmedHistory(versions: seq<RecordVersion>, at: int, k: nat)
    requires HistorySound(versions) && k <= |CurrentRecords(versions)|
    ensures HistorySound(versions + ConfirmedVersions(CurrentRecords(versions), at)[..k])
    decreases k
  {
    hide HistorySound, Continues, CurrentRecords, ConfirmedVersions;
    var added := ConfirmedVersions(CurrentRecords(versions), at);
    if k == 0 {
      assert versions + added[..0] == versions;
    } else {
      ConfirmedHistory(versions, at, k - 1);
      ConfirmedContinues(versions, at, k - 1);
      HistoryAppend(versions + added[..k - 1], added[k - 1]);
      assert versions + added[..k] == versions + added[..k - 1] + [added[k - 1]];
    }
  }

  lemma ConfirmedCurrent(versions: seq<RecordVersion>, at: int, v: RecordVersion)
    requires v in CurrentRecords(versions + ConfirmedVersions(CurrentRecords(versions), at))
    ensures v.status == Confirmed
  {
    var current := CurrentRecords(versions);
    var added := ConfirmedVersions(current, at);
    LatestAppend(versions, added, v.recordId);
    assert v.recordId in RecordIds(versions);
    var k :| 0 <= k < |current| && RecordIds(versions)[k] == v.recordId;
    assert added[k] in added && added[k].recordId == v.recordId;
  }

  lemma ConfirmedSupported(versions: seq<RecordVersion>, at: int, evidence: set<string>)
    requires RecordsSupported(versions, evidence)
    ensures RecordsSupported(ConfirmedVersions(CurrentRecords(versions), at), evidence)
  {
    hide Supported, CurrentRecords;
    var current := CurrentRecords(versions);
    forall v | v in ConfirmedVersions(current, at) ensures Supported(v.evidenceIds, evidence) {
      var k :| 0 <= k < |current| && ConfirmedVersions(current, at)[k] == v;
      assert current[k] in versions;
    }
  }

  /** Confirming confirms every current record at once. */
  lemma ConfirmedSound(r: Reckoning, at: int)
    requires DecisionSound(r) && r.status == Proposed
    ensures var next := ConfirmedReckoning(r, at);
            DecisionSound(next) && Follows(r, next) && next.status == Confirmed
  {
    hide EvidenceIds, HistorySound, CurrentRecords, RecordsSupported, ConfirmedVersions;
    var next := ConfirmedReckoning(r, at);
    var added := ConfirmedVersions(CurrentRecords(r.recordVersions), at);
    ConfirmedHistory(r.recordVersions, at, |added|);
    assert added[..|added|] == added;
    forall v | v in CurrentRecords(next.recordVersions) ensures v.status == Confirmed {
      ConfirmedCurrent(r.recordVersions, at, v);
    }
    ConfirmedSupported(r.recordVersions, at, EvidenceIds(r.draft.evidence));
    SupportedAppend(r.recordVersions, added, EvidenceIds(r.draft.evidence));
  }

  // ---------------------------------------------------------------------
  // Why
  // ---------------------------------------------------------------------

  function MaterialIds(r: Reckoning): set<string> {
    (set f, id | f in r.draft.known && id in f.evidenceIds :: id)
    + (set i, id | i in r.draft.inferences && id in i.evidenceIds :: id)
    + (set v, id | v in CurrentRecords(r.recordVersions) && id in v.evidenceIds :: id)
  }

  function Material(evidence: seq<Evidence>, ids: set<string>): (r: seq<Evidence>)
    ensures forall e :: e in r <==> e in evidence && e.id in ids
  {
    if evidence == [] then []
    else (if evidence[0].id in ids then [evidence[0]] else []) + Material(evidence[1..], ids)
  }

  function Explain(r: Reckoning): WhyView {
    WhyView(r.id, Material(r.draft.evidence, MaterialIds(r)), CurrentRecords(r.recordVersions))
  }

  /** The why-view of a sound decision shows every piece of evidence that each current record names, and
      each names at least one. */
  lemma WhyShowsSupport(r: Reckoning)
    requires DecisionSound(r)
    ensures var why := Explain(r);
            forall v :: v in why.records ==>
              v.evidenceIds != [] && forall id :: id in v.evidenceIds ==> exists e :: e in why.evidence && e.id == id
  {
    hide CurrentRecords;
    var why := Explain(r);
    forall v, id | v in why.records && id in v.evidenceIds ensures exists e :: e in why.evidence && e.id == id {
      assert v in r.recordVersions && id in MaterialIds(r);
      assert id in EvidenceIds(r.draft.evidence);
      var e :| e in r.draft.evidence && e.id == id;
      assert e in why.evidence;
    }
  }

  function IdsOf(evidence: seq<Evidence>): (r: seq<string>)
    ensures |r| == |evidence| && forall i :: 0 <= i < |r| ==> r[i] == evidence[i].id
  {
    if evidence == [] then [] else [evidence[0].id] + IdsOf(evidence[1..])
  }

  function CheckInFor(id: string, r: Reckoning, outcome: string, at: int): CheckIn {
    CheckIn(id, r.id, at, outcome, IdsOf(Explain(r).evidence))
  }

  /** A check-in belongs to the decision and everything it cites is evidence of it. */
  predicate Cites(c: CheckIn, r: Reckoning) {
    c.decisionId == r.id && forall id :: id in c.evidenceIds ==> id in EvidenceIds(r.draft.evidence)
  }

  lemma CheckInCites(id: string, r: Reckoning, outcome: string, at: int)
    ensures Cites(CheckInFor(id, r, outcome, at), r)
  {
    hide CurrentRecords, MaterialIds;
    var evidence := Explain(r).evidence;
    forall cited | cited in IdsOf(evidence) ensures cited in EvidenceIds(r.draft.evidence) {
      var i :| 0 <= i < |evidence| && IdsOf(evidence)[i] == cited;
      assert evidence[i] in evidence;
    }
  }
}
