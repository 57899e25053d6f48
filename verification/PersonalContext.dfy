/** Versioned personal context with tombstones (src/reckoning/personal_context.py:115-300, 716-975). */
module PersonalContext {
  import opened Wrappers
  import Text

  datatype Status = Proposed | Active | Archived | Forgotten

  datatype Sensitivity = Low | Private | Restricted

  datatype ContextVersion = ContextVersion(
    recordId: string, version: nat, status: Status, originalText: string, language: string, canonicalMeaning: string,
    source: string, sensitivity: Sensitivity, retrievalPermitted: bool, processingLocation: string, createdAt: int,
    freshUntil: Option<int>, retentionUntil: Option<int>, supersedes: Option<nat>)

  datatype ContextError = RevisionConflict | Deleted | UnknownRecord | InvalidValue

  /** The two tables; the versions are in the order they were stored. */
  datatype Tables = Tables(versions: seq<ContextVersion>, markers: map<string, int>)

  datatype Tx<T> = Tx(tables: Tables, result: Result<T, ContextError>)

  // ---------------------------------------------------------------------
  // Queries
  // ---------------------------------------------------------------------

  predicate Has(versions: seq<ContextVersion>, id: string) { exists v :: v in versions && v.recordId == id }

  /** The row of a record with the highest version. */
  function Highest(versions: seq<ContextVersion>, id: string): (r: Option<ContextVersion>)
    ensures r.Some? <==> Has(versions, id)
    ensures r.Some? ==> r.value in versions && r.value.recordId == id
    ensures forall v :: v in versions && v.recordId == id ==> r.Some? && v.version <= r.value.version
  {
    if versions == [] then None
    else
      var last := versions[|versions| - 1];
      assert versions == versions[..|versions| - 1] + [last];
      var rest := Highest(versions[..|versions| - 1], id);
      if last.recordId == id && (rest == None || last.version > rest.value.version) then Some(last) else rest
  }

  /** The row of a record that was stored last. */
  function Latest(versions: seq<ContextVersion>, id: string): (r: Option<ContextVersion>)
    ensures r.Some? <==> Has(versions, id)
    ensures r.Some? ==> r.value in versions && r.value.recordId == id
  {
    if versions == [] then None
    else
      var last := versions[|versions| - 1];
      assert versions == versions[..|versions| - 1] + [last];
      if last.recordId == id then Some(last) else Latest(versions[..|versions| - 1], id)
  }

  function MaxVersion(versions: seq<ContextVersion>, id: string): nat {
    var highest := Highest(versions, id);
    if highest == None then 0 else highest.value.version
  }

  function Without(versions: seq<ContextVersion>, id: string): (r: seq<ContextVersion>)
    ensures forall v :: v in r <==> v in versions && v.recordId != id
  {
    if versions == [] then []
    else
      var last := versions[|versions| - 1];
      assert versions == versions[..|versions| - 1] + [last];
      Without(versions[..|versions| - 1], id) + (if last.recordId == id then [] else [last])
  }

  // ---------------------------------------------------------------------
  // Transactions
  // ---------------------------------------------------------------------

  function SaveTx(t: Tables, v: ContextVersion, expected: nat): Tx<()> {
    if MaxVersion(t.versions, v.recordId) != expected then Tx(t, Err(RevisionConflict))
    else if v.recordId in t.markers then Tx(t, Err(Deleted))
    else if v.version != expected + 1 || v.supersedes != (if expected == 0 then None else Some(expected)) then
      Tx(t, Err(InvalidValue))
    else Tx(t.(versions := t.versions + [v]), Ok(()))
  }

  function DeleteTx(t: Tables, id: string, at: int, expected: nat): Tx<()> {
    if MaxVersion(t.versions, id) != expected then Tx(t, Err(RevisionConflict))
    else if expected == 0 then Tx(t, Err(UnknownRecord))
    else Tx(Tables(Without(t.versions, id), t.markers[id := at]), Ok(()))
  }

  // ---------------------------------------------------------------------
  // Requests
  // ---------------------------------------------------------------------

  datatype Wording = Wording(originalText: string, language: string, canonicalMeaning: string)

  datatype Request =
    | Remember(id: string, wording: Wording, source: string, sensitivity: Sensitivity, retrievalPermitted: bool,
               processingLocation: string, freshUntil: Option<int>, retentionUntil: Option<int>)
    | Propose(id: string, wording: Wording, source: string, sensitivity: Sensitivity, processingLocation: string)
    | Correct(id: string, wording: Wording, expected: Option<int>)
    | Confirm(id: string)
    | Move(id: string, status: Status)   // archive, forget, recover
    | Delete(id: string)

  /** What a request does after its reads: nothing, one save built from `base`, or one deletion. */
  datatype Pending =
    | Nothing
    | ToSave(request: Request, base: Option<ContextVersion>, version: ContextVersion)
    | ToDelete(id: string, at: int, expected: nat)

  predicate Given(w: Wording) {
    Text.Strip(w.originalText) != "" && Text.Strip(w.language) != "" && Text.Strip(w.canonicalMeaning) != ""
  }

  function Reworded(v: ContextVersion, w: Wording): ContextVersion {
    v.(originalText := Text.Strip(w.originalText), language := Text.Strip(w.language),
       canonicalMeaning := Text.Strip(w.canonicalMeaning))
  }

  function FirstVersion(r: Request, at: int): ContextVersion
    requires r.Remember? || r.Propose?
  {
    var blank := ContextVersion(r.id, 1, if r.Remember? then Active else Proposed, "", "", "", Text.Strip(r.source),
                                r.sensitivity, r.Remember? && r.retrievalPermitted, r.processingLocation, at,
                                if r.Remember? then r.freshUntil else None,
                                if r.Remember? then r.retentionUntil else None, None);
    Reworded(blank, r.wording)
  }

  function NextVersion(v: ContextVersion, at: int): ContextVersion {
    v.(version := v.version + 1, createdAt := at, supersedes := Some(v.version))
  }

  /** The reads and checks of a request. */
  function Prepare(t: Tables, r: Request, at: int): Result<Pending, ContextError> {
    if r.Remember? || r.Propose? then
      if Has(t.versions, r.id) || !Given(r.wording) || Text.Strip(r.source) == "" then Err(InvalidValue)
      else Ok(ToSave(r, None, FirstVersion(r, at)))
    else
      var current := Highest(t.versions, r.id);
      if current == None then Err(UnknownRecord)
      else
        var v := current.value;
        match r
        case Correct(_, wording, expected) =>
          if expected.Some? && v.version != expected.value then Err(RevisionConflict)
          else if !Given(wording) then Err(InvalidValue)
          else Ok(ToSave(r, current, Reworded(NextVersion(v, at), wording).(source := "direct user correction")))
        case Confirm(_) =>
          if v.status != Proposed then Err(InvalidValue)
          else Ok(ToSave(r, current, NextVersion(v, at).(status := Active, retrievalPermitted := true)))
        case Move(_, status) =>
          if v.status == status then Ok(Nothing) else Ok(ToSave(r, current, NextVersion(v, at).(status := status)))
        case _ => Ok(ToDelete(r.id, at, v.version))
  }

  function CommitPending(t: Tables, p: Pending): Tx<()> {
    match p
    case Nothing => Tx(t, Ok(()))
    case ToSave(_, base, version) => SaveTx(t, version, if base == None then 0 else base.value.version)
    case ToDelete(id, at, expected) => DeleteTx(t, id, at, expected)
  }

  // ---------------------------------------------------------------------
  // Any number of requests, interleaved between their reads and their write
  // ---------------------------------------------------------------------

  /** `saved` logs the committed saves. */
  datatype World = World(tables: Tables, pending: map<nat, Pending>, saved: seq<Pending>)

  datatype Event = Begin(w: nat, request: Request, at: int) | Commit(w: nat) | Drop(w: nat)

  function Apply(s: World, e: Event): World {
    match e
    case Begin(w, request, at) =>
      var prepared := Prepare(s.tables, request, at);
      if w in s.pending || prepared.Err? then s else s.(pending := s.pending[w := prepared.value])
    case Commit(w) =>
      if w !in s.pending then s
      else
        var p := s.pending[w];
        var tx := CommitPending(s.tables, p);
        World(tx.tables, s.pending - {w}, if tx.result.Ok? && p.ToSave? then s.saved + [p] else s.saved)
    case Drop(w) => s.(pending := s.pending - {w})
  }

  function Run(s: World, events: seq<Event>): World
    decreases |events|
  {
    if events == [] then s else Run(Apply(s, events[0]), events[1..])
  }

  function EmptyWorld(): World { World(Tables([], map[]), map[], []) }

  // --- the invariant ---

  predicate Continues(before: seq<ContextVersion>, v: ContextVersion) {
    match Latest(before, v.recordId)
    case None => v.version == 1 && v.supersedes == None
    case Some(p) => v.version == p.version + 1 && v.supersedes == Some(p.version)
  }

  ghost predicate HistorySound(versions: seq<ContextVersion>) {
    versions == []
    || (HistorySound(versions[..|versions| - 1]) && Continues(versions[..|versions| - 1], versions[|versions| - 1]))
  }

  ghost predicate TombstonesDisjoint(t: Tables) { forall id :: id in t.markers ==> !Has(t.versions, id) }

  /** A snapshot is still stored, or its record was deleted for good. */
  predicate Kept(t: Tables, v: ContextVersion) { v in t.versions || v.recordId in t.markers }

  ghost predicate PendingSound(t: Tables, p: Pending) {
    p.ToSave? ==>
      && p.version.recordId == p.request.id
      && (p.base == None <==> p.request.Remember? || p.request.Propose?)
      && (p.request.Propose? ==> !p.version.retrievalPermitted)
      && (p.base.Some? ==>
            && p.base.value.recordId == p.version.recordId && p.base.value.version > 0 && Kept(t, p.base.value)
            && p.version.version == p.base.value.version + 1
            && (!p.request.Confirm? ==> p.version.retrievalPermitted == p.base.value.retrievalPermitted))
  }

  ghost predicate WasProposed(saved: seq<Pending>, id: string) {
    exists p :: p in saved && p.ToSave? && p.request.Propose? && p.request.id == id
  }

  ghost predicate WasConfirmed(saved: seq<Pending>, id: string) {
    exists p :: p in saved && p.ToSave? && p.request.Confirm? && p.request.id == id
  }

  /** What was saved is stored or deleted, and a proposal is not for retrieval before it is confirmed. */
  ghost predicate SavedSound(t: Tables, saved: seq<Pending>) {
    && (forall p :: p in saved && p.ToSave? ==> Has(t.versions, p.request.id) || p.request.id in t.markers)
    && (forall v :: v in t.versions && WasProposed(saved, v.recordId) && !WasConfirmed(saved, v.recordId) ==>
          !v.retrievalPermitted)
  }

  ghost predicate Inv(s: World) {
    && HistorySound(s.tables.versions) && TombstonesDisjoint(s.tables)
    && (forall w :: w in s.pending ==> PendingSound(s.tables, s.pending[w]))
    && SavedSound(s.tables, s.saved)
  }

  lemma {:induction false} LatestIsHighest(versions: seq<ContextVersion>, id: string)
    requires HistorySound(versions)
    ensures Latest(versions, id) == Highest(versions, id)
    ensures Latest(versions, id).Some? ==> Latest(versions, id).value.version > 0
    decreases |versions|
  {
    if versions != [] {
      var rest := versions[..|versions| - 1];
      LatestIsHighest(rest, id);
      if versions[|versions| - 1].recordId == id { assert Continues(rest, versions[|versions| - 1]); }
    }
  }

  lemma {:induction false} LatestWithout(versions: seq<ContextVersion>, id: string, other: string)
    requires other != id
    ensures Latest(Without(versions, id), other) == Latest(versions, other)
    decreases |versions|
  {
    if versions != [] {
      var rest, last := versions[..|versions| - 1], versions[|versions| - 1];
      LatestWithout(rest, id, other);
      if last.recordId != id {
        assert (Without(rest, id) + [last])[..|Without(rest, id)|] == Without(rest, id);
      } else {
        assert Without(versions, id) == Without(rest, id);
      }
    }
  }

  lemma {:induction false} HistoryWithout(versions: seq<ContextVersion>, id: string)
    requires HistorySound(versions)
    ensures HistorySound(Without(versions, id))
    decreases |versions|
  {
    if versions != [] {
      var rest, last := versions[..|versions| - 1], versions[|versions| - 1];
      HistoryWithout(rest, id);
      if last.recordId != id {
        LatestWithout(rest, id, last.recordId);
        assert (Without(rest, id) + [last])[..|Without(rest, id)|] == Without(rest, id);
      } else {
        assert Without(versions, id) == Without(rest, id);
      }
    }
  }

  /** Nothing but deletion removes a version, and a deletion leaves a tombstone. */
  ghost predicate Grows(t: Tables, u: Tables) {
    && (forall v :: v in t.versions ==> Kept(u, v)) && (forall id :: id in t.markers ==> id in u.markers)
  }

  lemma PrepareSound(t: Tables, r: Request, at: int)
    requires HistorySound(t.versions) && Prepare(t, r, at).Ok?
    ensures PendingSound(t, Prepare(t, r, at).value)
  {
    hide Text.Strip, Given;
    LatestIsHighest(t.versions, r.id);
    hide HistorySound, Highest, Latest;
  }

  lemma SavedVersion(t: Tables, p: Pending)
    requires HistorySound(t.versions) && TombstonesDisjoint(t) && p.ToSave? && PendingSound(t, p)
    requires CommitPending(t, p).result.Ok?
    ensures var u := CommitPending(t, p).tables;
            && u == t.(versions := t.versions + [p.version]) && p.version.recordId !in t.markers
            && HistorySound(u.versions) && TombstonesDisjoint(u) && Grows(t, u)
            && (p.base == None ==> !Has(t.versions, p.version.recordId))
            && (p.base.Some? ==> p.base.value in t.versions)
  {
    LatestIsHighest(t.versions, p.version.recordId);
    hide HistorySound, Highest, Latest;
    SavedHistory(t.versions, p.version);
  }

  lemma SavedHistory(versions: seq<ContextVersion>, v: ContextVersion)
    requires HistorySound(versions) && Continues(versions, v)
    ensures HistorySound(versions + [v])
  {
    assert (versions + [v])[..|versions|] == versions;
  }

  lemma DeletedTables(t: Tables, id: string, at: int, expected: nat)
    requires HistorySound(t.versions) && TombstonesDisjoint(t)
    ensures var u := DeleteTx(t, id, at, expected).tables;
            HistorySound(u.versions) && TombstonesDisjoint(u) && Grows(t, u)
  {
    HistoryWithout(t.versions, id);
    hide HistorySound, Highest;
  }

  lemma StillPending(t: Tables, u: Tables, p: Pending)
    requires PendingSound(t, p) && Grows(t, u)
    ensures PendingSound(u, p)
  {
  }

  lemma SavedAfterSave(t: Tables, u: Tables, saved: seq<Pending>, p: Pending)
    requires SavedSound(t, saved) && TombstonesDisjoint(t) && p.ToSave? && PendingSound(t, p)
    requires u == t.(versions := t.versions + [p.version]) && p.version.recordId !in t.markers
    requires p.base == None ==> !Has(t.versions, p.version.recordId)
    requires p.base.Some? ==> p.base.value in t.versions
    ensures SavedSound(u, saved + [p])
  {
    var more, id := saved + [p], p.version.recordId;
    assert p.version in u.versions;
    forall q | q in more && q.ToSave? ensures Has(u.versions, q.request.id) || q.request.id in u.markers {
      if q in saved && Has(t.versions, q.request.id) {
        var v :| v in t.versions && v.recordId == q.request.id;
        assert v in u.versions;
      }
    }
    forall v | v in u.versions && WasProposed(more, v.recordId) && !WasConfirmed(more, v.recordId)
      ensures !v.retrievalPermitted
    {
      assert forall q :: q in saved ==> q in more;
      assert p in more;
      if v.recordId != id {
        assert v in t.versions;
        assert WasProposed(saved, v.recordId);
      } else if p.base.Some? {
        assert WasProposed(saved, id) && !p.request.Confirm?;
      } else {
        assert !WasProposed(saved, id);
        assert v == p.version;
      }
    }
  }

  lemma SavedAfterDelete(t: Tables, saved: seq<Pending>, id: string, at: int)
    requires SavedSound(t, saved)
    ensures SavedSound(Tables(Without(t.versions, id), t.markers[id := at]), saved)
  {
    var u := Tables(Without(t.versions, id), t.markers[id := at]);
    forall q | q in saved && q.ToSave? ensures Has(u.versions, q.request.id) || q.request.id in u.markers {
      if q.request.id != id && q.request.id !in t.markers {
        var v :| v in t.versions && v.recordId == q.request.id;
        assert v in u.versions;
      }
    }
  }

  lemma InvAfterCommit(s: World, w: nat)
    requires Inv(s) && w in s.pending
    ensures Inv(Apply(s, Commit(w)))
  {
    hide HistorySound, WasProposed, WasConfirmed;
    var p := s.pending[w];
    var tx := CommitPending(s.tables, p);
    var t := Apply(s, Commit(w));
    assert PendingSound(s.tables, p);
    if tx.result.Ok? && p.ToSave? {
      SavedVersion(s.tables, p);
      SavedAfterSave(s.tables, tx.tables, s.saved, p);
    } else if tx.result.Ok? && p.ToDelete? {
      DeletedTables(s.tables, p.id, p.at, p.expected);
      SavedAfterDelete(s.tables, s.saved, p.id, p.at);
    } else {
      assert tx.tables == s.tables;
    }
    hide CommitPending, SavedSound, TombstonesDisjoint, PendingSound;
    assert Grows(s.tables, t.tables);
    forall v | v in t.pending ensures PendingSound(t.tables, t.pending[v]) {
      StillPending(s.tables, t.tables, s.pending[v]);
    }
  }

  lemma InvPreserved(s: World, e: Event)
    requires Inv(s)
    ensures Inv(Apply(s, e))
  {
    hide HistorySound, SavedSound, TombstonesDisjoint, PendingSound, CommitPending, Prepare;
    match e
    case Begin(w, request, at) =>
      if Prepare(s.tables, request, at).Ok? { PrepareSound(s.tables, request, at); }
    case Commit(w) => if w in s.pending { InvAfterCommit(s, w); }
    case Drop(w) =>
  }

  lemma {:induction false} InvAlways(s: World, events: seq<Event>)
    requires Inv(s)
    ensures Inv(Run(s, events))
    decreases |events|
  {
    if events != [] {
      InvPreserved(s, events[0]);
      InvAlways(Apply(s, events[0]), events[1..]);
    }
  }

  // ---------------------------------------------------------------------
  // Tombstones
  // ---------------------------------------------------------------------

  lemma TombstoneStays(s: World, e: Event, id: string)
    requires id in s.tables.markers
    ensures id in Apply(s, e).tables.markers
  {
    hide Prepare, Highest;
  }

  /** A deleted record never has a version again, whatever was in flight when it was deleted. */
  lemma {:induction false} DeletedForGood(s: World, events: seq<Event>, id: string)
    requires Inv(s) && id in s.tables.markers
    ensures id in Run(s, events).tables.markers && !Has(Run(s, events).tables.versions, id)
    decreases |events|
  {
    if events != [] {
      TombstoneStays(s, events[0], id);
      InvPreserved(s, events[0]);
      hide Apply, Inv;
      DeletedForGood(Apply(s, events[0]), events[1..], id);
    }
  }

  // ---------------------------------------------------------------------
  // Retrieval
  // ---------------------------------------------------------------------

  datatype RetrievalQuery = RetrievalQuery(
    text: string, now: int, allowedSources: seq<string>, allowedSensitivities: seq<Sensitivity>,
    processingLocation: string)

  /** `relevant` stands for the lexical match of query and record. */
  type Relevance = (string, ContextVersion) -> bool

  predicate Retrievable(relevant: Relevance, q: RetrievalQuery, v: ContextVersion) {
    && v.status == Active && v.retrievalPermitted && v.source in q.allowedSources
    && v.sensitivity in q.allowedSensitivities && v.processingLocation == q.processingLocation
    && (v.freshUntil == None || v.freshUntil.value >= q.now) && relevant(q.text, v)
  }

  /** What a query may return: current rows that pass every filter. */
  predicate Retrieved(relevant: Relevance, t: Tables, q: RetrievalQuery, v: ContextVersion) {
    Latest(t.versions, v.recordId) == Some(v) && Retrievable(relevant, q, v)
  }

  /** In every reachable state, what is retrieved is the highest version of a record that was not deleted, and
      if the record was proposed, its confirmation was saved, whatever else happened to it. */
  lemma RetrievedIsCurrentAndConsented(events: seq<Event>, relevant: Relevance, q: RetrievalQuery, v: ContextVersion)
    requires Retrieved(relevant, Run(EmptyWorld(), events).tables, q, v)
    ensures var s := Run(EmptyWorld(), events);
            && v in s.tables.versions && v.recordId !in s.tables.markers
            && (forall u :: u in s.tables.versions && u.recordId == v.recordId ==> u.version <= v.version)
            && (WasProposed(s.saved, v.recordId) ==> WasConfirmed(s.saved, v.recordId))
  {
    InvAlways(EmptyWorld(), events);
    var s := Run(EmptyWorld(), events);
    LatestIsHighest(s.tables.versions, v.recordId);
  }

  // ---------------------------------------------------------------------
  // The repository and the service
  // ---------------------------------------------------------------------

  class JsonFilePersonalContextRepository {
    var versions: seq<ContextVersion>
    var markers: map<string, int>

    function Contents(): Tables reads this { Tables(versions, markers) }

    constructor ()
      ensures Contents() == Tables([], map[])
    {
      versions, markers := [], map[];
    }

    method Save(v: ContextVersion, expected: nat) returns (r: Result<(), ContextError>)
      modifies this
      ensures Tx(Contents(), r) == SaveTx(old(Contents()), v, expected)
    {
      var actual := MaxVersion(versions, v.recordId);
      if actual != expected { return Err(RevisionConflict); }
      if v.recordId in markers { return Err(Deleted); }
      if v.version != expected + 1 { return Err(InvalidValue); }
      if v.supersedes != (if expected == 0 then None else Some(expected)) { return Err(InvalidValue); }
      versions := versions + [v];
      r := Ok(());
    }

    method Delete(id: string, at: int, expected: nat) returns (r: Result<(), ContextError>)
      modifies this
      ensures Tx(Contents(), r) == DeleteTx(old(Contents()), id, at, expected)
    {
      var actual := MaxVersion(versions, id);
      if actual != expected { return Err(RevisionConflict); }
      if actual == 0 { return Err(UnknownRecord); }
      versions := Without(versions, id);
      markers := markers[id := at];
      r := Ok(());
    }
  }

  /** A dictionary in insertion order holds the last row of each record. */
  ghost predicate CurrentIn(versions: seq<ContextVersion>, current: map<string, ContextVersion>, keys: seq<string>) {
    && (forall id :: id in current <==> id in keys)
    && (forall a, b :: 0 <= a < b < |keys| ==> keys[a] != keys[b])
    && (forall id :: Latest(versions, id) == if id in current then Some(current[id]) else None)
  }

  /** A request served with nothing between its reads and its write. */
  function Alone(t: Tables, r: Request, at: int): Tx<()> {
    var prepared := Prepare(t, r, at);
    if prepared.Err? then Tx(t, Err(prepared.error)) else CommitPending(t, prepared.value)
  }

  /** Which is what the protocol does in two steps of a worker of its own. */
  lemma AloneIsABehaviour(s: World, w: nat, r: Request, at: int)
    requires w !in s.pending
    ensures var t := Apply(Apply(s, Begin(w, r, at)), Commit(w));
            t.tables == Alone(s.tables, r, at).tables && t.pending == s.pending
  {
    hide Prepare, CommitPending;
  }

  // ---------------------------------------------------------------------
  // What a request leaves behind
  // ---------------------------------------------------------------------

  /** The three texts of a wording, without the white space around them. */
  ghost predicate Worded(v: ContextVersion, w: Wording) {
    && Text.Trims(v.originalText, w.originalText) && Text.Trims(v.language, w.language)
    && Text.Trims(v.canonicalMeaning, w.canonicalMeaning)
  }

  predicate SomeBlank(w: Wording) {
    Text.Blank(w.originalText) || Text.Blank(w.language) || Text.Blank(w.canonicalMeaning)
  }

  /** The first version of a remembered or proposed record. */
  ghost predicate CreatedAs(v: ContextVersion, r: Request, at: int)
    requires r.Remember? || r.Propose?
  {
    && v.recordId == r.id && v.version == 1 && v.supersedes == None && v.createdAt == at
    && Worded(v, r.wording) && Text.Trims(v.source, r.source)
    && v.sensitivity == r.sensitivity && v.processingLocation == r.processingLocation
    && (r.Remember? ==>
          v.status == Active && v.retrievalPermitted == r.retrievalPermitted && v.freshUntil == r.freshUntil
          && v.retentionUntil == r.retentionUntil)
    && (r.Propose? ==>
          v.status == Proposed && !v.retrievalPermitted && v.freshUntil == None && v.retentionUntil == None)
  }

  /** The version after `before`, made at `at`; the rest is for the request to say. */
  predicate Succeeds(v: ContextVersion, before: ContextVersion, at: int) {
    && v.recordId == before.recordId && v.version == before.version + 1 && v.supersedes == Some(before.version)
    && v.createdAt == at
  }

  predicate SameTexts(v: ContextVersion, before: ContextVersion) {
    && v.originalText == before.originalText && v.language == before.language
    && v.canonicalMeaning == before.canonicalMeaning && v.source == before.source
  }

  predicate SameHandling(v: ContextVersion, before: ContextVersion) {
    && v.sensitivity == before.sensitivity && v.processingLocation == before.processingLocation
    && v.freshUntil == before.freshUntil && v.retentionUntil == before.retentionUntil
  }

  /** One row was added, and it is the last one of its record. */
  predicate OneAdded(t: Tables, u: Tables, id: string) {
    && |u.versions| == |t.versions| + 1 && t.versions <= u.versions && u.markers == t.markers
    && Latest(u.versions, id) == Some(u.versions[|t.versions|])
  }

  lemma AppendedIsLatest(t: Tables, v: ContextVersion)
    ensures OneAdded(t, t.(versions := t.versions + [v]), v.recordId)
  {
    assert (t.versions + [v])[..|t.versions|] == t.versions;
  }

  /** There is a version, and versions count from one. */
  predicate Numbered(current: Option<ContextVersion>) { current.Some? && current.value.version > 0 }

  /** `remember` and `propose`: refused exactly for an id in use or deleted, or a blank text; otherwise what was
      given is stored. */
  lemma CreationIsAnswered(t: Tables, r: Request, at: int)
    requires r.Remember? || r.Propose?
    ensures var tx := Alone(t, r, at);
            && (tx.result.Ok? <==> (forall v :: v in t.versions ==> v.recordId != r.id) && r.id !in t.markers
                                   && !SomeBlank(r.wording) && !Text.Blank(r.source))
            && (tx.result.Err? ==> tx.tables == t)
            && (tx.result.Ok? ==>
                  OneAdded(t, tx.tables, r.id) && CreatedAs(Latest(tx.tables.versions, r.id).value, r, at))
  {
    hide Text.Strip, Text.Trims, Text.Blank, Highest, Latest, Given, SomeBlank, OneAdded, FirstVersion, Worded;
    StripsTrim(r.wording);
    Text.StripTrims(r.source);
    FirstIs(r, at);
    hide CreatedAs;
    AppendedIsLatest(t, FirstVersion(r, at));
  }

  lemma FirstIs(r: Request, at: int)
    requires r.Remember? || r.Propose?
    ensures CreatedAs(FirstVersion(r, at), r, at)
  {
    hide Text.Strip, Text.Trims;
    StripsTrim(r.wording);
    Text.StripTrims(r.source);
  }

  lemma StripsTrim(w: Wording)
    ensures Text.Trims(Text.Strip(w.originalText), w.originalText) && Text.Trims(Text.Strip(w.language), w.language)
    ensures Text.Trims(Text.Strip(w.canonicalMeaning), w.canonicalMeaning)
    ensures Given(w) <==> !SomeBlank(w)
  {
    Text.StripTrims(w.originalText);
    Text.StripTrims(w.language);
    Text.StripTrims(w.canonicalMeaning);
    hide Text.Strip, Text.Trims, Text.Blank;
  }

  /** `correct`: the new texts, and everything else as it was. */
  lemma CorrectionIsAnswered(t: Tables, id: string, wording: Wording, expected: Option<int>, at: int)
    ensures var tx := Alone(t, Correct(id, wording, expected), at);
            var current := Highest(t.versions, id);
            && (tx.result.Ok? <==> Numbered(current) && (expected.Some? ==> expected.value == current.value.version)
                                   && !SomeBlank(wording) && id !in t.markers)
            && (tx.result.Err? ==> tx.tables == t)
            && (tx.result.Ok? ==>
                 && OneAdded(t, tx.tables, id)
                 && var v, before := Latest(tx.tables.versions, id).value, current.value;
                    && Succeeds(v, before, at) && Worded(v, wording) && v.source == "direct user correction"
                    && SameHandling(v, before) && v.status == before.status
                    && v.retrievalPermitted == before.retrievalPermitted)
  {
    StripsTrim(wording);
    hide Text.Strip, Text.Trims, Text.Blank, Highest, Latest, SomeBlank, Given;
    var current := Highest(t.versions, id);
    if current.Some? {
      AppendedIsLatest(t, Reworded(NextVersion(current.value, at), wording).(source := "direct user correction"));
    }
    hide OneAdded;
  }

  /** `confirm`: active and permitted, and everything else as it was. */
  lemma ConfirmationIsAnswered(t: Tables, id: string, at: int)
    ensures var tx := Alone(t, Confirm(id), at);
            var current := Highest(t.versions, id);
            && (tx.result.Ok? <==> Numbered(current) && current.value.status == Proposed && id !in t.markers)
            && (tx.result.Err? ==> tx.tables == t)
            && (tx.result.Ok? ==>
                 && OneAdded(t, tx.tables, id)
                 && var v, before := Latest(tx.tables.versions, id).value, current.value;
                    && Succeeds(v, before, at) && SameTexts(v, before) && SameHandling(v, before)
                    && v.status == Active && v.retrievalPermitted)
  {
    hide Highest, Latest;
    var current := Highest(t.versions, id);
    if current.Some? {
      AppendedIsLatest(t, NextVersion(current.value, at).(status := Active, retrievalPermitted := true));
    }
    hide OneAdded;
  }

  /** `archive`, `forget` and `recover`: the status asked for, and everything else as it was. */
  lemma TransitionIsAnswered(t: Tables, id: string, status: Status, at: int)
    ensures var tx := Alone(t, Move(id, status), at);
            var current := Highest(t.versions, id);
            && (tx.result.Ok? <==>
                  current.Some? && (current.value.status == status || (Numbered(current) && id !in t.markers)))
            && (tx.result.Err? || current.value.status == status ==> tx.tables == t)
            && (tx.result.Ok? && current.value.status != status ==>
                 && OneAdded(t, tx.tables, id)
                 && var v, before := Latest(tx.tables.versions, id).value, current.value;
                    && Succeeds(v, before, at) && SameTexts(v, before) && SameHandling(v, before)
                    && v.status == status && v.retrievalPermitted == before.retrievalPermitted)
  {
    hide Highest, Latest;
    var current := Highest(t.versions, id);
    if current.Some? { AppendedIsLatest(t, NextVersion(current.value, at).(status := status)); }
    hide OneAdded;
  }

  /** `delete`: no version of the record is left, a marker is, and every other record stays as it is. */
  lemma DeletionIsAnswered(t: Tables, id: string, at: int)
    requires HistorySound(t.versions)
    ensures var tx := Alone(t, Delete(id), at);
            && (tx.result.Ok? <==> exists v :: v in t.versions && v.recordId == id)
            && (tx.result.Err? ==> tx.tables == t && tx.result.error == UnknownRecord)
            && (tx.result.Ok? ==>
                 && (forall v :: v in tx.tables.versions <==> v in t.versions && v.recordId != id)
                 && (forall other :: other != id ==> Latest(tx.tables.versions, other) == Latest(t.versions, other))
                 && tx.tables.markers == t.markers[id := at])
  {
    hide HistorySound, Without, Latest;
    if Latest(t.versions, id).Some? {
      hide Alone;
      DeletionAlone(t, id, at);
      forall other | other != id ensures Latest(Without(t.versions, id), other) == Latest(t.versions, other) {
        LatestWithout(t.versions, id, other);
      }
    }
  }

  class PersonalContextService {
    const repository: JsonFilePersonalContextRepository
    const relevant: Relevance

    constructor (repository: JsonFilePersonalContextRepository, relevant: Relevance)
      ensures this.repository == repository && this.relevant == relevant
    {
      this.repository, this.relevant := repository, relevant;
    }

    /** `remember` and `propose` */
    method Create(request: Request, at: int) returns (r: Result<(), ContextError>)
      requires request.Remember? || request.Propose?
      modifies repository
      ensures Tx(repository.Contents(), r) == Alone(old(repository.Contents()), request, at)
      ensures r.Ok? ==> OneAdded(old(repository.Contents()), repository.Contents(), request.id)
                        && CreatedAs(Latest(repository.versions, request.id).value, request, at)
    {
      hide Text.Strip, Text.Blank, Highest, Latest, OneAdded, CreatedAs, FirstVersion, Given, SomeBlank;
      CreationIsAnswered(repository.Contents(), request, at);
      if Has(repository.versions, request.id) { return Err(InvalidValue); }
      if !Given(request.wording) || Text.Strip(request.source) == "" { return Err(InvalidValue); }
      r := repository.Save(FirstVersion(request, at), 0);
    }

    method Correct(id: string, wording: Wording, expected: Option<int>, at: int) returns (r: Result<(), ContextError>)
      modifies repository
      ensures Tx(repository.Contents(), r)
           == Alone(old(repository.Contents()), Request.Correct(id, wording, expected), at)
      ensures r.Ok? ==>
                && OneAdded(old(repository.Contents()), repository.Contents(), id)
                && Highest(old(repository.versions), id).Some?
                && var v, before := Latest(repository.versions, id).value, Highest(old(repository.versions), id).value;
                   && Succeeds(v, before, at) && Worded(v, wording) && v.source == "direct user correction"
                   && SameHandling(v, before) && v.status == before.status
                   && v.retrievalPermitted == before.retrievalPermitted
    {
      hide Text.Strip, Text.Blank, Highest, Latest, OneAdded, Worded, SameHandling, SomeBlank, Given;
      CorrectionIsAnswered(repository.Contents(), id, wording, expected, at);
      var current := Highest(repository.versions, id);
      if current == None { return Err(UnknownRecord); }
      if expected.Some? && current.value.version != expected.value { return Err(RevisionConflict); }
      if !Given(wording) { return Err(InvalidValue); }
      var next := Reworded(NextVersion(current.value, at), wording).(source := "direct user correction");
      r := repository.Save(next, current.value.version);
    }

    method Confirm(id: string, at: int) returns (r: Result<(), ContextError>)
      modifies repository
      ensures Tx(repository.Contents(), r) == Alone(old(repository.Contents()), Request.Confirm(id), at)
      ensures r.Ok? ==>
                && OneAdded(old(repository.Contents()), repository.Contents(), id)
                && Highest(old(repository.versions), id).Some?
                && var v, before := Latest(repository.versions, id).value, Highest(old(repository.versions), id).value;
                   && Succeeds(v, before, at) && SameTexts(v, before) && SameHandling(v, before)
                   && v.status == Active && v.retrievalPermitted
    {
      ConfirmationIsAnswered(repository.Contents(), id, at);
      hide Highest, Latest, OneAdded, SameTexts, SameHandling;
      var current := Highest(repository.versions, id);
      if current == None { return Err(UnknownRecord); }
      if current.value.status != Proposed { return Err(InvalidValue); }
      var next := NextVersion(current.value, at).(status := Active, retrievalPermitted := true);
      r := repository.Save(next, current.value.version);
    }

    /** `_transition`, behind `archive`, `forget` and `recover` */
    method Transition(id: string, status: Status, at: int) returns (r: Result<(), ContextError>)
      modifies repository
      ensures Tx(repository.Contents(), r) == Alone(old(repository.Contents()), Move(id, status), at)
      ensures r.Ok? ==>
                && Highest(old(repository.versions), id).Some?
                && var before := Highest(old(repository.versions), id).value;
                   if before.status == status then repository.Contents() == old(repository.Contents())
                   else
                     && OneAdded(old(repository.Contents()), repository.Contents(), id)
                     && var v := Latest(repository.versions, id).value;
                        && Succeeds(v, before, at) && SameTexts(v, before) && SameHandling(v, before)
                        && v.status == status && v.retrievalPermitted == before.retrievalPermitted
    {
      TransitionIsAnswered(repository.Contents(), id, status, at);
      hide Highest, Latest, OneAdded, SameTexts, SameHandling;
      var current := Highest(repository.versions, id);
      if current == None { return Err(UnknownRecord); }
      if current.value.status == status { return Ok(()); }
      var next := NextVersion(current.value, at).(status := status);
      r := repository.Save(next, current.value.version);
    }

    method Delete(id: string, at: int) returns (r: Result<(), ContextError>)
      modifies repository
      ensures Tx(repository.Contents(), r) == Alone(old(repository.Contents()), Request.Delete(id), at)
    {
      hide Highest;
      var current := Highest(repository.versions, id);
      if current == None { return Err(UnknownRecord); }
      r := repository.Delete(id, at, current.value.version);
    }

    /** `_current_versions`: the last stored row of each record. */
    method CurrentVersions() returns (r: seq<ContextVersion>)
      ensures forall v :: v in r <==> Latest(repository.versions, v.recordId) == Some(v)
      ensures forall i, j :: 0 <= i < j < |r| ==> r[i].recordId != r[j].recordId
    {
      var current: map<string, ContextVersion>, keys: seq<string> := map[], [];
      for i := 0 to |repository.versions|
        invariant CurrentIn(repository.versions[..i], current, keys)
      {
        assert repository.versions[..i + 1][..i] == repository.versions[..i];
        var item := repository.versions[i];
        if item.recordId !in current { keys := keys + [item.recordId]; }
        current := current[item.recordId := item];
      }
      assert repository.versions[..|repository.versions|] == repository.versions;
      r := ValuesOf(repository.versions, current, keys);
    }

    /** `tuple(current.values())` */
    method ValuesOf(versions: seq<ContextVersion>, current: map<string, ContextVersion>, keys: seq<string>)
      returns (r: seq<ContextVersion>)
      requires CurrentIn(versions, current, keys)
      ensures forall v :: v in r <==> Latest(versions, v.recordId) == Some(v)
      ensures forall i, j :: 0 <= i < j < |r| ==> r[i].recordId != r[j].recordId
    {
      hide Latest;
      r := [];
      for i := 0 to |keys|
        invariant |r| == i
        invariant forall k :: 0 <= k < i ==> r[k] == current[keys[k]] && r[k].recordId == keys[k]
      {
        assert keys[i] in current && Latest(versions, keys[i]) == Some(current[keys[i]]);
        r := r + [current[keys[i]]];
      }
      forall v ensures v in r <==> Latest(versions, v.recordId) == Some(v) {
        if Latest(versions, v.recordId) == Some(v) {
          var k :| 0 <= k < |keys| && keys[k] == v.recordId;
          assert r[k] == v;
        }
      }
    }

    method Retrieve(q: RetrievalQuery) returns (r: seq<ContextVersion>)
      ensures forall v :: v in r <==> Retrieved(relevant, repository.Contents(), q, v)
      ensures forall v :: v in r <==>
                && Latest(repository.versions, v.recordId) == Some(v)
                && v.status == Active && v.retrievalPermitted && v.source in q.allowedSources
                && v.sensitivity in q.allowedSensitivities && v.processingLocation == q.processingLocation
                && (v.freshUntil.Some? ==> q.now <= v.freshUntil.value) && relevant(q.text, v)
      ensures forall i, j :: 0 <= i < j < |r| ==> r[i].recordId != r[j].recordId
    {
      hide Latest;
      var current := CurrentVersions();
      r := [];
      for i := 0 to |current|
        invariant forall v :: v in r <==> v in current[..i] && Retrievable(relevant, q, v)
        invariant forall a, b :: 0 <= a < b < |r| ==> r[a].recordId != r[b].recordId
      {
        assert current[..i + 1] == current[..i] + [current[i]];
        forall a | 0 <= a < |r| ensures r[a].recordId != current[i].recordId {
          assert r[a] in r && r[a] in current[..i];
          var k :| 0 <= k < i && current[k] == r[a];
        }
        if Retrievable(relevant, q, current[i]) { r := r + [current[i]]; }
      }
      assert current[..|current|] == current;
    }

    /** Every record past its retention is deleted, and nothing else is touched. */
    method EnforceRetention(now: int) returns (r: Result<(), ContextError>, ghost expired: set<string>)
      requires HistorySound(repository.versions)
      modifies repository
      ensures r.Ok? && HistorySound(repository.versions)
      ensures forall id :: id in expired <==> Expired(old(repository.versions), id, now)
      ensures Purged(old(repository.Contents()), expired, now, repository.Contents())
      ensures forall id :: !Expired(repository.versions, id, now)
    {
      hide Latest, Highest, Purged, HistorySound;
      var current := CurrentVersions();
      var ids := set v | v in current && v.retentionUntil.Some? && v.retentionUntil.value <= now :: v.recordId;
      expired := ids;
      ghost var before := repository.Contents();
      assert forall id :: id in ids <==> Expired(before.versions, id, now);
      PurgedNothing(before, now);
      assert expired - ids == {};
      while ids != {}
        invariant ids <= expired && HistorySound(repository.versions)
        invariant Purged(before, expired - ids, now, repository.Contents())
        decreases |ids|
      {
        var id :| id in ids;
        assert Expired(before.versions, id, now);
        PurgeOne(before, expired - ids, now, repository.Contents(), id);
        var deleted := Delete(id, now);
        assert expired - ids + {id} == expired - (ids - {id});
        ids := ids - {id};
      }
      assert expired - ids == expired;
      PurgedAll(before, expired, now, repository.Contents());
      r := Ok(());
    }
  }

  ghost predicate Expired(versions: seq<ContextVersion>, id: string, now: int) {
    var current := Latest(versions, id);
    current.Some? && current.value.retentionUntil.Some? && current.value.retentionUntil.value <= now
  }

  /** The records of `gone` are deleted at `now`, and no other row or marker has changed. */
  ghost predicate Purged(before: Tables, gone: set<string>, now: int, t: Tables) {
    && (forall v :: v in t.versions <==> v in before.versions && v.recordId !in gone)
    && (forall id :: id in gone ==> id in t.markers && t.markers[id] == now)
    && (forall id :: id !in gone ==>
          (id in t.markers <==> id in before.markers) && (id in t.markers ==> t.markers[id] == before.markers[id]))
    && (forall id :: id !in gone ==> Latest(t.versions, id) == Latest(before.versions, id))
  }

  lemma PurgedNothing(t: Tables, now: int)
    ensures Purged(t, {}, now, t)
  {
  }

  lemma DeletionPrepared(t: Tables, id: string, now: int)
    requires Highest(t.versions, id).Some?
    ensures Prepare(t, Delete(id), now) == Ok(ToDelete(id, now, Highest(t.versions, id).value.version))
  {
    hide Highest;
  }

  lemma DeletionCommits(t: Tables, id: string, now: int, n: nat)
    requires MaxVersion(t.versions, id) == n != 0
    ensures CommitPending(t, ToDelete(id, now, n))
         == Tx(Tables(Without(t.versions, id), t.markers[id := now]), Ok(()))
  {
    hide MaxVersion, Without;
  }

  lemma DeletionAlone(t: Tables, id: string, now: int)
    requires HistorySound(t.versions) && Latest(t.versions, id).Some?
    ensures Alone(t, Delete(id), now) == Tx(Tables(Without(t.versions, id), t.markers[id := now]), Ok(()))
  {
    LatestIsHighest(t.versions, id);
    hide Highest, Latest, HistorySound, Without, MaxVersion, Prepare, CommitPending;
    DeletionPrepared(t, id, now);
    DeletionCommits(t, id, now, Latest(t.versions, id).value.version);
  }

  lemma PurgeRows(before: Tables, gone: set<string>, now: int, t: Tables, id: string, rest: seq<ContextVersion>)
    requires Purged(before, gone, now, t) && id !in gone
    requires forall v :: v in rest <==> v in t.versions && v.recordId != id
    requires forall other :: other != id ==> Latest(rest, other) == Latest(t.versions, other)
    ensures Purged(before, gone + {id}, now, Tables(rest, t.markers[id := now]))
  {
    hide Latest;
    var u := Tables(rest, t.markers[id := now]);
    forall v ensures v in u.versions <==> v in before.versions && v.recordId !in gone + {id} {}
    forall other | other !in gone + {id} ensures Latest(u.versions, other) == Latest(before.versions, other) {}
  }

  lemma PurgeOne(before: Tables, gone: set<string>, now: int, t: Tables, id: string)
    requires Purged(before, gone, now, t) && HistorySound(t.versions)
    requires id !in gone && Latest(before.versions, id).Some?
    ensures var tx := Alone(t, Delete(id), now);
            && tx.result.Ok? && Purged(before, gone + {id}, now, tx.tables) && HistorySound(tx.tables.versions)
  {
    assert Latest(t.versions, id) == Latest(before.versions, id);
    hide Alone, HistorySound, Latest, Without, Purged;
    DeletionAlone(t, id, now);
    HistoryWithout(t.versions, id);
    forall other | other != id ensures Latest(Without(t.versions, id), other) == Latest(t.versions, other) {
      LatestWithout(t.versions, id, other);
    }
    PurgeRows(before, gone, now, t, id, Without(t.versions, id));
  }

  lemma PurgedAll(before: Tables, gone: set<string>, now: int, t: Tables)
    requires Purged(before, gone, now, t)
    requires forall id :: id in gone <==> Expired(before.versions, id, now)
    ensures forall id :: !Expired(t.versions, id, now)
  {
    forall id ensures !Expired(t.versions, id, now) {
      if id !in gone { assert Latest(t.versions, id) == Latest(before.versions, id); }
    }
  }
}
