/** Routine contracts: proposing, revising and confirming them from any number of clients
    (src/reckoning/automation_store.py:56-124, 627-696; src/reckoning/automation.py:532-619). */
module RoutineContracts {
  import opened Wrappers
  import opened Text
  import opened Automation
  import opened Counting

  /** The proposals by identifier. */
  type Contracts = map<string, RoutineProposal>

  datatype Call = Call(contracts: Contracts, result: Result<RoutineProposal, AutomationError>)

  /** `COALESCE(MAX(version), 0)` over one routine. */
  ghost predicate IsMaxVersion(s: Contracts, routineId: string, m: nat) {
    && (forall id :: id in s && s[id].routineId == routineId ==> s[id].version <= m)
    && (m > 0 ==> exists id :: id in s && s[id].routineId == routineId && s[id].version == m)
  }

  ghost function MaxVersion(s: Contracts, routineId: string): (m: nat)
    ensures IsMaxVersion(s, routineId, m)
    decreases |s|
  {
    if s == map[] then 0
    else
      var id :| id in s;
      var rest := s - {id};
      assert id !in rest && forall i :: i in rest ==> i in s;
      assert s.Keys == rest.Keys + {id};
      var m := MaxVersion(rest, routineId);
      assert m > 0 ==> exists i :: i in rest && rest[i].routineId == routineId && rest[i].version == m;
      if s[id].routineId == routineId && s[id].version > m then s[id].version else m
  }

  /** The free-text fields a new proposal is stored with. */
  function Stripped(t: RoutineTerms): RoutineTerms {
    t.(sourceRequest := Strip(t.sourceRequest), trigger := Strip(t.trigger), delivery := Strip(t.delivery),
       modelPolicy := Strip(t.modelPolicy), delegationPolicy := Strip(t.delegationPolicy),
       failureBehavior := Strip(t.failureBehavior))
  }

  function InsertCall(s: Contracts, p: RoutineProposal): Call {
    if !ValidContract(p) then Call(s, Err(InvalidValue))
    else if p.id in s then Call(s, Err(IntegrityError))
    else Call(s[p.id := p], Ok(p))
  }

  ghost function ProposeCall(s: Contracts, id: string, routineId: string, terms: RoutineTerms): Call {
    InsertCall(s, RoutineProposal(id, routineId, MaxVersion(s, routineId) + 1, Stripped(terms), Proposed, None))
  }

  ghost function ReviseCall(s: Contracts, currentId: string, id: string, terms: RoutineTerms): Call {
    if currentId !in s then Call(s, Err(UnknownProposal))
    else if s[currentId].status != Confirmed then Call(s, Err(InvalidValue))
    else
      var routineId := s[currentId].routineId;
      InsertCall(s, RoutineProposal(id, routineId, MaxVersion(s, routineId) + 1, terms, Proposed, Some(currentId)))
  }

  function WithStatus(s: Contracts, id: string, status: ProposalStatus): Contracts
    requires id in s
  {
    s[id := s[id].(status := status)]
  }

  function AfterConfirming(s: Contracts, id: string, i: string): ProposalStatus
    requires id in s && i in s
  {
    if i == id then Confirmed
    else if s[i].routineId == s[id].routineId && s[i].status == Confirmed then Superseded
    else s[i].status
  }

  /** Confirming one contract supersedes every other confirmed contract of its routine. */
  function Confirmation(s: Contracts, id: string): Contracts
    requires id in s
  {
    map i | i in s :: s[i].(status := AfterConfirming(s, id, i))
  }

  function ConfirmCall(s: Contracts, id: string): Call {
    if id !in s then Call(s, Err(UnknownProposal))
    else if !ValidContract(s[id]) then Call(s, Err(InvalidValue))
    else if s[id].status != Proposed then Call(s, Err(InvalidValue))
    else Call(Confirmation(s, id), Ok(s[id].(status := Confirmed)))
  }

  // ---------------------------------------------------------------------
  // Any sequence of calls
  // ---------------------------------------------------------------------

  datatype Request =
    | Propose(id: string, routineId: string, terms: RoutineTerms)
    | Revise(currentId: string, id: string, terms: RoutineTerms)
    | Confirm(id: string)

  ghost function Serve(s: Contracts, r: Request): Contracts {
    match r
    case Propose(id, routineId, terms) => ProposeCall(s, id, routineId, terms).contracts
    case Revise(currentId, id, terms) => ReviseCall(s, currentId, id, terms).contracts
    case Confirm(id) => ConfirmCall(s, id).contracts
  }

  ghost function ServeAll(s: Contracts, requests: seq<Request>): Contracts
    decreases |requests|
  {
    if requests == [] then s else ServeAll(Serve(s, requests[0]), requests[1..])
  }

  ghost predicate HasVersion(s: Contracts, routineId: string, version: nat) {
    exists id :: id in s && s[id].routineId == routineId && s[id].version == version
  }

  ghost predicate VersionsSound(s: Contracts) {
    && (forall a, b :: a in s && b in s && s[a].routineId == s[b].routineId && s[a].version == s[b].version ==> a == b)
    && (forall id :: id in s ==> s[id].version >= 1)
    && (forall id, v :: id in s && 1 <= v < s[id].version ==> HasVersion(s, s[id].routineId, v))
  }

  ghost predicate AtMostOneConfirmed(s: Contracts) {
    forall a, b ::
      (a in s && b in s && s[a].routineId == s[b].routineId && s[a].status == Confirmed && s[b].status == Confirmed)
      ==> a == b
  }

  /** A supersession link leads to an earlier contract of the same routine that was confirmed once. */
  ghost predicate LinkSound(s: Contracts, p: RoutineProposal) {
    p.supersedesProposalId.Some? ==>
      var q := p.supersedesProposalId.value;
      q in s && s[q].routineId == p.routineId && s[q].version < p.version && s[q].status != Proposed
  }

  ghost predicate LinksSound(s: Contracts) { forall id :: id in s ==> LinkSound(s, s[id]) }

  ghost predicate WellFormed(s: Contracts) { forall id :: id in s ==> s[id].id == id && ValidContract(s[id]) }

  ghost predicate Sound(s: Contracts) {
    WellFormed(s) && LinksSound(s) && VersionsSound(s) && AtMostOneConfirmed(s)
  }

  lemma InsertVersions(s: Contracts, p: RoutineProposal)
    requires VersionsSound(s) && p.version == MaxVersion(s, p.routineId) + 1 && p.id !in s
    ensures VersionsSound(s[p.id := p])
  {
    var t := s[p.id := p];
    forall id, v | id in t && 1 <= v < t[id].version ensures HasVersion(t, t[id].routineId, v) {
      if id == p.id {
        var top :| top in s && s[top].routineId == p.routineId && s[top].version == p.version - 1;
        assert v < s[top].version ==> HasVersion(s, s[top].routineId, v);
        assert v == s[top].version ==> HasVersion(s, p.routineId, v);
      } else {
        assert HasVersion(s, s[id].routineId, v);
      }
      var q :| q in s && s[q].routineId == t[id].routineId && s[q].version == v;
      assert t[q] == s[q];
    }
  }

  lemma InsertSound(s: Contracts, p: RoutineProposal)
    requires Sound(s) && p.version == MaxVersion(s, p.routineId) + 1 && p.status == Proposed && LinkSound(s, p)
    ensures Sound(InsertCall(s, p).contracts)
  {
    hide ValidTerms, MaxVersion, HasVersion;
    if ValidContract(p) && p.id !in s {
      var t := s[p.id := p];
      InsertVersions(s, p);
      hide VersionsSound;
      forall id | id in t ensures LinkSound(t, t[id]) {
        if id != p.id { assert LinkSound(s, s[id]); }
      }
    }
  }

  lemma ConfirmVersions(s: Contracts, id: string)
    requires VersionsSound(s) && id in s
    ensures VersionsSound(Confirmation(s, id))
  {
    var t := Confirmation(s, id);
    assert forall i :: i in s ==> t[i].routineId == s[i].routineId && t[i].version == s[i].version;
    forall i, v | i in t && 1 <= v < t[i].version ensures HasVersion(t, t[i].routineId, v) {
      assert HasVersion(s, s[i].routineId, v);
      var q :| q in s && s[q].routineId == s[i].routineId && s[q].version == v;
      assert t[q].version == s[q].version;
    }
  }

  lemma ConfirmLinks(s: Contracts, id: string)
    requires LinksSound(s) && id in s
    ensures LinksSound(Confirmation(s, id))
  {
    var t := Confirmation(s, id);
    forall i | i in t ensures LinkSound(t, t[i]) {
      assert LinkSound(s, s[i]);
    }
  }

  lemma ConfirmSound(s: Contracts, id: string)
    requires Sound(s) && id in s
    ensures Sound(Confirmation(s, id))
  {
    hide VersionsSound, LinksSound, WellFormed, AtMostOneConfirmed, Confirmation;
    ConfirmVersions(s, id);
    ConfirmLinks(s, id);
    ConfirmWellFormed(s, id);
    ConfirmLeavesOne(s, id);
  }

  lemma ConfirmWellFormed(s: Contracts, id: string)
    requires WellFormed(s) && id in s
    ensures WellFormed(Confirmation(s, id))
  {
    hide ValidTerms;
    forall i | i in s ensures ValidContract(Confirmation(s, id)[i]) { assert ValidContract(s[i]); }
  }

  lemma ConfirmLeavesOne(s: Contracts, id: string)
    requires AtMostOneConfirmed(s) && id in s
    ensures AtMostOneConfirmed(Confirmation(s, id))
  {
    hide ValidTerms;
  }

  lemma ServeSound(s: Contracts, r: Request)
    requires Sound(s)
    ensures Sound(Serve(s, r))
  {
    hide Sound, ValidTerms, InsertCall, Confirmation, Stripped;
    match r
    case Propose(id, routineId, terms) =>
      InsertSound(s, RoutineProposal(id, routineId, MaxVersion(s, routineId) + 1, Stripped(terms), Proposed, None));
    case Revise(currentId, id, terms) =>
      if currentId in s && s[currentId].status == Confirmed {
        var routineId := s[currentId].routineId;
        InsertSound(s, RoutineProposal(id, routineId, MaxVersion(s, routineId) + 1, terms, Proposed, Some(currentId)));
      }
    case Confirm(id) => if id in s { ConfirmSound(s, id); }
  }

  lemma {:induction false} AlwaysSound(s: Contracts, requests: seq<Request>)
    requires Sound(s)
    ensures Sound(ServeAll(s, requests))
    decreases |requests|
  {
    if requests != [] {
      ServeSound(s, requests[0]);
      AlwaysSound(Serve(s, requests[0]), requests[1..]);
    }
  }

  // ---------------------------------------------------------------------
  // What that means
  // ---------------------------------------------------------------------

  function Members(s: Contracts, routineId: string): set<string> { set id | id in s && s[id].routineId == routineId }

  function Versions(s: Contracts, routineId: string): set<nat> {
    set id | id in Members(s, routineId) :: s[id].version
  }

  lemma {:induction false} SizeOfVersions(s: Contracts, ids: set<string>)
    requires VersionsSound(s) && ids <= s.Keys
    requires forall a, b :: a in ids && b in ids ==> s[a].routineId == s[b].routineId
    ensures |set id | id in ids :: s[id].version| == |ids|
    decreases |ids|
  {
    if ids != {} {
      var a :| a in ids;
      var rest := ids - {a};
      assert forall b :: b in rest ==> s[b].version != s[a].version;
      hide VersionsSound;
      SizeOfVersions(s, rest);
      assert (set id | id in ids :: s[id].version) == (set id | id in rest :: s[id].version) + {s[a].version};
      assert s[a].version !in (set id | id in rest :: s[id].version);
    }
  }

  /** Whatever the clients do, the versions of a routine are exactly 1..n, one contract each. */
  lemma VersionsAreOneToN(requests: seq<Request>, routineId: string)
    ensures var s := ServeAll(map[], requests);
            Versions(s, routineId) == UpTo(|Members(s, routineId)|)
  {
    hide ServeAll, WellFormed, LinksSound, AtMostOneConfirmed;
    AlwaysSound(map[], requests);
    var s := ServeAll(map[], requests);
    assert VersionsSound(s);
    var m := MaxVersion(s, routineId);
    assert Versions(s, routineId) == UpTo(m) by {
      forall v | 1 <= v <= m ensures v in Versions(s, routineId) {
        var id :| id in s && s[id].routineId == routineId && s[id].version == m;
        assert v < m ==> HasVersion(s, s[id].routineId, v);
        var q :| q in s && s[q].routineId == routineId && s[q].version == v;
        assert q in Members(s, routineId);
      }
    }
    SizeOfVersions(s, Members(s, routineId));
  }

  /** At most one contract of a routine is confirmed, and once one is, one always is. */
  lemma OneConfirmedContract(requests: seq<Request>, more: seq<Request>, a: string)
    requires a in ServeAll(map[], requests) && ServeAll(map[], requests)[a].status == Confirmed
    ensures var s := ServeAll(map[], requests);
            && (forall b :: b in s && s[b].routineId == s[a].routineId && s[b].status == Confirmed ==> a == b)
            && HasConfirmed(ServeAll(s, more), s[a].routineId)
  {
    AlwaysSound(map[], requests);
    hide ServeAll, WellFormed, LinksSound, VersionsSound;
    StaysConfirmed(ServeAll(map[], requests), more, ServeAll(map[], requests)[a].routineId);
  }

  ghost predicate HasConfirmed(s: Contracts, routineId: string) {
    exists id :: id in s && s[id].routineId == routineId && s[id].status == Confirmed
  }

  lemma {:induction false} StaysConfirmed(s: Contracts, requests: seq<Request>, routineId: string)
    requires HasConfirmed(s, routineId)
    ensures HasConfirmed(ServeAll(s, requests), routineId)
    decreases |requests|
  {
    if requests != [] {
      var t := Serve(s, requests[0]);
      var a :| a in s && s[a].routineId == routineId && s[a].status == Confirmed;
      if requests[0].Confirm? && requests[0].id in t && t[a].status != Confirmed {
        assert t[requests[0].id].routineId == routineId && t[requests[0].id].status == Confirmed;
      } else {
        assert t[a].routineId == routineId && t[a].status == Confirmed;
      }
      StaysConfirmed(t, requests[1..], routineId);
    }
  }

  function Rank(status: ProposalStatus): nat {
    match status case Proposed => 0 case Confirmed => 1 case Superseded => 2
  }

  /** Everything but the status, which only moves forward. */
  predicate Moved(p: RoutineProposal, q: RoutineProposal) {
    && q.id == p.id && q.routineId == p.routineId && q.version == p.version && q.terms == p.terms
    && q.supersedesProposalId == p.supersedesProposalId && Rank(p.status) <= Rank(q.status)
  }

  lemma ServeKeeps(s: Contracts, r: Request, id: string)
    requires Sound(s) && id in s
    ensures id in Serve(s, r) && Moved(s[id], Serve(s, r)[id])
  {
    hide ValidTerms, Sound, Stripped;
    if r.Confirm? && r.id in s && s[r.id].status == Proposed {
      assert Confirmation(s, r.id)[id].terms == s[id].terms;
    }
  }

  /** A contract is never rewritten: only its status moves, and only forward, so superseded is terminal. */
  lemma {:induction false} ContractsAreImmutable(s: Contracts, requests: seq<Request>, id: string)
    requires Sound(s) && id in s
    ensures id in ServeAll(s, requests) && Moved(s[id], ServeAll(s, requests)[id])
    decreases |requests|
  {
    if requests != [] {
      ServeKeeps(s, requests[0], id);
      ServeSound(s, requests[0]);
      hide Serve, Sound;
      ContractsAreImmutable(Serve(s, requests[0]), requests[1..], id);
    }
  }

  /** The contracts reached by following supersession links. */
  function Chain(s: Contracts, id: string): (r: seq<string>)
    requires id in s
    decreases s[id].version
  {
    var link := s[id].supersedesProposalId;
    if link.Some? && link.value in s && s[link.value].version < s[id].version then [id] + Chain(s, link.value)
    else [id]
  }

  /** Every chain is finite, ends at a contract that supersedes nothing, and is no longer than the version. */
  lemma {:induction false} ChainsEnd(s: Contracts, id: string)
    requires Sound(s) && id in s
    ensures var chain := Chain(s, id);
            && |chain| <= s[id].version
            && chain[|chain| - 1] in s && s[chain[|chain| - 1]].supersedesProposalId == None
            && forall i :: 0 <= i < |chain| - 1 ==>
                 chain[i] in s && s[chain[i]].supersedesProposalId == Some(chain[i + 1])
    decreases s[id].version
  {
    assert LinkSound(s, s[id]) && s[id].version >= 1;
    hide WellFormed, LinksSound, VersionsSound, AtMostOneConfirmed;
    var link := s[id].supersedesProposalId;
    if link.Some? {
      ChainsEnd(s, link.value);
      var rest := Chain(s, link.value);
      assert Chain(s, id) == [id] + rest && rest[0] == link.value;
    }
  }

  // ---------------------------------------------------------------------
  // The tables
  // ---------------------------------------------------------------------

  /** How far a confirmation has come when the contracts in `left` still have to be looked at. */
  ghost predicate Superseding(now: Contracts, before: Contracts, id: string, left: set<string>)
    requires id in before
  {
    && now.Keys == before.Keys && now[id] == before[id]
    && (forall i :: i in before ==> now[i] == before[i].(status := now[i].status))
    && (forall i :: i in left ==> i in before && before[i].routineId == before[id].routineId)
    && (forall i :: i in before && i != id && i !in left ==> now[i].status == AfterConfirming(before, id, i))
    && (forall i :: i in left ==> now[i].status == before[i].status || now[i].status == AfterConfirming(before, id, i))
  }

  lemma SupersedeOne(now: Contracts, before: Contracts, id: string, left: set<string>, other: string)
    requires id in before && other in left && Superseding(now, before, id, left)
    ensures other in now
    ensures var next := if other != id && now[other].status == Confirmed
                        then WithStatus(now, other, Superseded) else now;
            Superseding(next, before, id, left - {other})
  {
    hide ValidTerms;
  }

  lemma SupersedeFirst(before: Contracts, id: string)
    requires id in before && before[id].status == Proposed && LinkSound(before, before[id])
    ensures var members := Members(before, before[id].routineId);
            && Superseding(before, before, id, members)
            && var link := before[id].supersedesProposalId;
               link.Some? && before[link.value].status == Confirmed ==>
                 && Superseding(WithStatus(before, link.value, Superseded), before, id, members)
                 && Members(WithStatus(before, link.value, Superseded), before[id].routineId) == members
  {
  }

  lemma SupersededAll(now: Contracts, before: Contracts, id: string)
    requires id in before && Superseding(now, before, id, {})
    ensures WithStatus(now, id, Confirmed) == Confirmation(before, id)
    ensures Confirmation(before, id)[id] == before[id].(status := Confirmed)
  {
  }

  /** One row of `routine_proposals`: the payload holds the contract, the other columns repeat parts of it. */
  datatype ProposalRecord = ProposalRecord(
    routineId: string, version: nat, status: ProposalStatus, supersedesProposalId: Option<string>,
    payload: RoutineProposal)

  function RecordOf(p: RoutineProposal): ProposalRecord {
    ProposalRecord(p.routineId, p.version, p.status, p.supersedesProposalId, p)
  }

  class SQLiteContractRepository {
    var records: map<string, ProposalRecord>

    /** Columns and payload agree, and the contracts are sound. */
    ghost predicate Valid() reads this { ColumnsAgree() && Sound(Table()) }

    ghost predicate ColumnsAgree() reads this {
      forall id :: id in records ==> records[id] == RecordOf(records[id].payload)
    }

    function Table(): Contracts reads this { map id | id in records :: records[id].payload }

    constructor ()
      ensures Valid() && Table() == map[]
    {
      records := map[];
    }

    method NextVersion(routineId: string) returns (version: nat)
      requires Valid()
      ensures version == MaxVersion(Table(), routineId) + 1
    {
      var m := 0;
      var todo := records.Keys;
      while todo != {}
        invariant todo <= records.Keys
        invariant forall id :: id in records && id !in todo && records[id].routineId == routineId ==>
                    records[id].version <= m
        invariant m > 0 ==> exists id :: id in records && records[id].routineId == routineId && records[id].version == m
        decreases |todo|
      {
        var id :| id in todo;
        todo := todo - {id};
        if records[id].routineId == routineId && records[id].version > m { m := records[id].version; }
      }
      assert IsMaxVersion(Table(), routineId, m) by {
        if m > 0 {
          var id :| id in records && records[id].routineId == routineId && records[id].version == m;
          assert Table()[id].version == m;
        }
      }
      version := m + 1;
    }

    method InsertProposal(p: RoutineProposal) returns (r: Result<RoutineProposal, AutomationError>)
      requires Valid() && Sound(InsertCall(Table(), p).contracts)
      modifies this
      ensures Valid() && r == InsertCall(old(Table()), p).result
      ensures Table() == InsertCall(old(Table()), p).contracts
    {
      hide Sound, ValidTerms;
      if !ValidContract(p) { return Err(InvalidValue); }
      if p.id in records { return Err(IntegrityError); }
      ghost var before := Table();
      records := records[p.id := RecordOf(p)];
      assert Table() == before[p.id := p];
      r := Ok(p);
    }

    method CreateProposal(id: string, routineId: string, terms: RoutineTerms)
      returns (r: Result<RoutineProposal, AutomationError>)
      requires Valid()
      modifies this
      ensures Valid() && r == ProposeCall(old(Table()), id, routineId, terms).result
      ensures Table() == ProposeCall(old(Table()), id, routineId, terms).contracts
    {
      hide Sound, ValidTerms, Stripped, InsertCall, MaxVersion;
      ServeSound(Table(), Propose(id, routineId, terms));
      var version := NextVersion(routineId);
      var stripped := Stripped(terms);
      r := InsertProposal(RoutineProposal(id, routineId, version, stripped, Proposed, None));
    }

    method ReviseProposal(currentId: string, id: string, terms: RoutineTerms)
      returns (r: Result<RoutineProposal, AutomationError>)
      requires Valid()
      modifies this
      ensures Valid() && r == ReviseCall(old(Table()), currentId, id, terms).result
      ensures Table() == ReviseCall(old(Table()), currentId, id, terms).contracts
    {
      hide Sound, ValidTerms, InsertCall, MaxVersion;
      if currentId !in records { return Err(UnknownProposal); }
      var current := records[currentId].payload;
      if current.status != Confirmed { return Err(InvalidValue); }
      ServeSound(Table(), Revise(currentId, id, terms));
      var version := NextVersion(current.routineId);
      r := InsertProposal(RoutineProposal(id, current.routineId, version, terms, Proposed, Some(currentId)));
    }

    method SetProposalStatus(id: string, status: ProposalStatus)
      requires ColumnsAgree() && id in records
      modifies this
      ensures ColumnsAgree()
      ensures id in old(Table()) && Table() == WithStatus(old(Table()), id, status)
    {
      ghost var before := Table();
      records := records[id := RecordOf(records[id].payload.(status := status))];
      assert Table() == WithStatus(before, id, status);
    }

    /** The loop over the routine's contracts. */
    method SupersedeOthers(id: string, routineId: string, ghost before: Contracts)
      requires ColumnsAgree() && id in before && before[id].routineId == routineId
      requires Superseding(Table(), before, id, Members(Table(), routineId))
      modifies this
      ensures ColumnsAgree() && Superseding(Table(), before, id, {})
      ensures id in records && Table()[id] == before[id]
    {
      var others := set i | i in records && records[i].routineId == routineId;
      assert others == Members(Table(), routineId);
      while others != {}
        invariant ColumnsAgree() && Superseding(Table(), before, id, others)
        decreases |others|
      {
        var other :| other in others;
        SupersedeOne(Table(), before, id, others, other);
        hide Superseding, Members, Sound, WithStatus;
        others := others - {other};
        if other != id && records[other].payload.status == Confirmed { SetProposalStatus(other, Superseded); }
      }
    }

    method ConfirmProposal(id: string) returns (r: Result<RoutineProposal, AutomationError>)
      requires Valid()
      modifies this
      ensures Valid() && r == ConfirmCall(old(Table()), id).result
      ensures Table() == ConfirmCall(old(Table()), id).contracts
    {
      if id !in records { return Err(UnknownProposal); }
      var proposal := records[id].payload;
      ghost var before := Table();
      assert ValidContract(before[id]) && LinkSound(before, before[id]);
      if proposal.status != Proposed { return Err(InvalidValue); }
      ConfirmSound(before, id);
      SupersedeFirst(before, id);
      hide Sound, ValidTerms, Superseding, Members, Confirmation, LinkSound, WithStatus;
      if proposal.supersedesProposalId.Some? {
        var previous := proposal.supersedesProposalId.value;
        if previous in records && records[previous].payload.status == Confirmed {
          SetProposalStatus(previous, Superseded);
        }
      }
      SupersedeOthers(id, proposal.routineId, before);
      SupersededAll(Table(), before, id);
      SetProposalStatus(id, Confirmed);
      assert Table()[id] == before[id].(status := Confirmed);
      r := Ok(records[id].payload);
    }
  }
}
