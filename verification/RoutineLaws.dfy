/** What the calls on routine runs and contracts come to, said of the tables and the arguments
    (src/reckoning/automation.py:284-374, 532-619; src/reckoning/automation_store.py:56-124). */
module RoutineLaws {
  import opened Wrappers
  import opened Automation
  import AutomationRepository
  import RoutineContracts
  import RoutineRunProtocol
  import Text

  // ---------------------------------------------------------------------
  // Claims
  // ---------------------------------------------------------------------

  /** A run can be claimed exactly when it is not finalized and nobody else holds it; a refused claim changes
      nothing, and one that goes through makes the claimant the holder, at the next revision. */
  lemma ClaimTells(s: AutomationRepository.RunTables, id: string, owner: string)
    requires AutomationRepository.Has(s, id)
    ensures var call := AutomationRepository.ClaimCall(s, id, owner);
            var claim := s.claims[id];
            && (call.result.Ok? <==> claim.state == Unclaimed || (claim.state == Active && claim.owner == Some(owner)))
            && (call.result.Err? ==> call.result.error == ClaimConflict && call.tables == s)
            && (call.result.Ok? ==>
                 && call.tables == s.(claims := s.claims[id := RunClaim(Some(owner), Active, claim.revision + 1)])
                 && call.result.value == claim.revision + 1)
  {
  }

  /** Once a claim went through, every claim of another owner is refused until the claim is given back, taken over
      or finalized: no list of events without a release or a recovery changes who holds it. */
  lemma {:induction false} ClaimIsExclusive(c: RoutineRunProtocol.Contract, s: RoutineRunProtocol.System,
                                            events: seq<RoutineRunProtocol.Event>, owner: string)
    requires s.row.claim.state != Unclaimed && s.row.claim.owner == Some(owner)
    requires forall e :: e in events ==> !e.Release? && !e.Recover?
    ensures var t := RoutineRunProtocol.Run(c, s, events);
            && t.row.claim.owner == Some(owner) && t.row.claim.state != Unclaimed
            && forall w :: w in t.workers && w !in s.workers ==> t.workers[w].owner == owner
    decreases |events|
  {
    if events != [] {
      assert events[0] in events;
      ClaimStays(c, s, events[0], owner);
      var t := RoutineRunProtocol.Apply(c, s, events[0]);
      hide RoutineRunProtocol.Apply;
      ClaimIsExclusive(c, t, events[1..], owner);
      OwnersStay(c, t, events[1..]);
    }
  }

  lemma ClaimStays(c: RoutineRunProtocol.Contract, s: RoutineRunProtocol.System, e: RoutineRunProtocol.Event,
                   owner: string)
    requires s.row.claim.state != Unclaimed && s.row.claim.owner == Some(owner) && !e.Release? && !e.Recover?
    ensures var t := RoutineRunProtocol.Apply(c, s, e);
            && t.row.claim.owner == Some(owner) && t.row.claim.state != Unclaimed
            && s.workers.Keys <= t.workers.Keys
            && forall w :: w in t.workers && w !in s.workers ==> t.workers[w].owner == owner
  {
    hide RoutineRunProtocol.AfterDecision, RoutineRunProtocol.AfterExecution, TotalCost, AggregateStatus;
  }

  lemma OwnerStays(c: RoutineRunProtocol.Contract, s: RoutineRunProtocol.System, e: RoutineRunProtocol.Event)
    ensures var t := RoutineRunProtocol.Apply(c, s, e);
            forall w :: w in s.workers ==> w in t.workers && t.workers[w].owner == s.workers[w].owner
  {
    hide RoutineRunProtocol.AfterDecision, RoutineRunProtocol.AfterExecution, TotalCost, AggregateStatus;
  }

  lemma {:induction false} OwnersStay(c: RoutineRunProtocol.Contract, s: RoutineRunProtocol.System,
                                      events: seq<RoutineRunProtocol.Event>)
    ensures var t := RoutineRunProtocol.Run(c, s, events);
            forall w :: w in s.workers ==> w in t.workers && t.workers[w].owner == s.workers[w].owner
    decreases |events|
  {
    if events != [] {
      OwnerStays(c, s, events[0]);
      hide RoutineRunProtocol.Apply;
      OwnersStay(c, RoutineRunProtocol.Apply(c, s, events[0]), events[1..]);
    }
  }

  /** A release frees the claim exactly for its holder, and changes nothing for anyone else. */
  lemma ReleaseTells(s: AutomationRepository.RunTables, id: string, owner: string)
    requires AutomationRepository.Has(s, id)
    ensures var t := AutomationRepository.ReleaseCall(s, id, owner);
            var claim := s.claims[id];
            if claim.state == Active && claim.owner == Some(owner)
            then t == s.(claims := s.claims[id := RunClaim(Some(owner), Unclaimed, claim.revision + 1)]) else t == s
  {
  }

  /** Of two recoveries that expect one revision only the first goes through. */
  lemma OneRecoveryWins(s: AutomationRepository.RunTables, id: string, revision: int, first: string, second: string)
    requires AutomationRepository.Has(s, id)
    ensures var call := AutomationRepository.RecoverCall(s, id, revision, first);
            && (call.result.Ok? <==> s.claims[id].state != Finalized && s.claims[id].revision == revision)
            && (call.result.Err? ==> call.tables == s && call.result.error == ClaimConflict)
            && (call.result.Ok? ==>
                 && call.tables.claims[id] == RunClaim(Some(first), Active, revision + 1)
                 && call.tables.runs == s.runs && call.tables.receipts == s.receipts
                 && AutomationRepository.RecoverCall(call.tables, id, revision, second)
                    == AutomationRepository.Call(call.tables, Err(ClaimConflict)))
  {
  }

  /** A save under a token goes through exactly for the recorded owner at the recorded revision, stores the run
      given and no other, and uses the token up. */
  lemma SaveUsesItsToken(s: AutomationRepository.RunTables, run: RoutineRun, again: RoutineRun, owner: string,
                         revision: int)
    requires AutomationRepository.Has(s, run.id) && again.id == run.id
    ensures var call := AutomationRepository.ProgressCall(s, run, owner, revision);
            && (call.result.Ok? <==> s.claims[run.id].owner == Some(owner) && s.claims[run.id].revision == revision)
            && (call.result.Err? ==> call.tables == s && call.result.error == ClaimConflict)
            && (call.result.Ok? ==>
                 && call.tables.runs == s.runs[run.id := run] && call.tables.receipts == s.receipts
                 && call.tables.claims
                    == s.claims[run.id := RunClaim(Some(owner), s.claims[run.id].state, revision + 1)]
                 && AutomationRepository.ProgressCall(call.tables, again, owner, revision).result
                    == Err(ClaimConflict))
  {
  }

  /** A finalization stores run and receipt together under the token; afterwards nobody can claim, save under the
      old token, or take over. */
  lemma FinalizationEndsTheRun(s: AutomationRepository.RunTables, run: RoutineRun, receipt: RoutineReceipt,
                               owner: string, revision: int, other: string, later: int)
    requires AutomationRepository.Has(s, run.id) && receipt.runId == run.id
    ensures var call := AutomationRepository.FinalizeCall(s, run, receipt, owner, revision);
            var t := call.tables;
            && (call.result.Ok? <==> s.claims[run.id].owner == Some(owner) && s.claims[run.id].revision == revision)
            && (call.result.Err? ==> t == s)
            && (call.result.Ok? ==>
                 && t.runs == s.runs[run.id := run] && t.receipts == s.receipts[run.id := receipt]
                 && t.claims[run.id].state == Finalized
                 && AutomationRepository.ClaimCall(t, run.id, other).result == Err(ClaimConflict)
                 && AutomationRepository.RecoverCall(t, run.id, later, other).result == Err(ClaimConflict)
                 && AutomationRepository.ProgressCall(t, run, owner, revision).result == Err(ClaimConflict))
  {
  }

  // ---------------------------------------------------------------------
  // Contracts
  // ---------------------------------------------------------------------

  predicate Names(values: seq<string>) { forall i :: 0 <= i < |values| ==> !Text.Blank(values[i]) }

  /** Nothing that has to be said is left blank, and no limit is negative. */
  predicate Complete(routineId: string, t: RoutineTerms) {
    && !Text.Blank(routineId) && !Text.Blank(t.sourceRequest) && !Text.Blank(t.trigger) && !Text.Blank(t.delivery)
    && !Text.Blank(t.modelPolicy) && !Text.Blank(t.delegationPolicy) && !Text.Blank(t.failureBehavior)
    && Names(t.sourceScope) && Names(t.contextScope) && Names(t.tools) && Names(t.permissions)
    && t.costCeiling >= 0 && t.retryLimit >= 0
  }

  lemma CompleteIsValid(routineId: string, t: RoutineTerms)
    ensures ValidTerms(routineId, t) <==> Complete(routineId, t)
  {
    NamesAreNamed(t.sourceScope);
    NamesAreNamed(t.contextScope);
    NamesAreNamed(t.tools);
    NamesAreNamed(t.permissions);
    hide Text.Blank, Names, AllNamed;
  }

  lemma NamesAreNamed(values: seq<string>)
    ensures AllNamed(values) <==> Names(values)
  {
    hide Text.Blank;
    if AllNamed(values) { assert forall i :: 0 <= i < |values| ==> values[i] in values; }
  }

  /** The free texts without the white space around them, and everything else as it was given. */
  ghost predicate Proposes(kept: RoutineTerms, t: RoutineTerms) {
    && Text.Trims(kept.sourceRequest, t.sourceRequest) && Text.Trims(kept.trigger, t.trigger)
    && Text.Trims(kept.delivery, t.delivery) && Text.Trims(kept.modelPolicy, t.modelPolicy)
    && Text.Trims(kept.delegationPolicy, t.delegationPolicy) && Text.Trims(kept.failureBehavior, t.failureBehavior)
    && kept.createdAt == t.createdAt && kept.sourceScope == t.sourceScope && kept.contextScope == t.contextScope
    && kept.tools == t.tools && kept.permissions == t.permissions && kept.costCeiling == t.costCeiling
    && kept.retryLimit == t.retryLimit
  }

  lemma StrippedProposes(t: RoutineTerms)
    ensures Proposes(RoutineContracts.Stripped(t), t)
  {
    hide Text.Strip, Text.Trims;
    Text.StripTrims(t.sourceRequest);
    Text.StripTrims(t.trigger);
    Text.StripTrims(t.delivery);
    Text.StripTrims(t.modelPolicy);
    Text.StripTrims(t.delegationPolicy);
    Text.StripTrims(t.failureBehavior);
  }

  lemma StrippedIsComplete(routineId: string, t: RoutineTerms)
    ensures Complete(routineId, RoutineContracts.Stripped(t)) <==> Complete(routineId, t)
  {
    hide Text.Blank, Text.Strip, Names;
    StripStaysBlank(t.sourceRequest);
    StripStaysBlank(t.trigger);
    StripStaysBlank(t.delivery);
    StripStaysBlank(t.modelPolicy);
    StripStaysBlank(t.delegationPolicy);
    StripStaysBlank(t.failureBehavior);
  }

  lemma StripStaysBlank(text: string)
    ensures Text.Blank(Text.Strip(text)) <==> Text.Blank(text)
  {
    hide Text.Strip, Text.IsSpace;
    Text.StripTrims(text);
    var kept := Text.Strip(text);
    if kept != "" { assert kept[0] in kept; }
  }

  /** A proposal is stored exactly when it is complete and its identifier is new: as the next version of its
      routine, proposed, superseding nothing. */
  lemma ProposalTells(s: RoutineContracts.Contracts, id: string, routineId: string, terms: RoutineTerms)
    ensures var call := RoutineContracts.ProposeCall(s, id, routineId, terms);
            && (call.result.Ok? <==> Complete(routineId, terms) && id !in s)
            && (call.result.Err? ==> call.contracts == s)
            && (call.result.Ok? ==>
                 var p := call.result.value;
                 && call.contracts == s[id := p]
                 && p.id == id && p.routineId == routineId && p.status == Proposed && p.supersedesProposalId == None
                 && p.version >= 1 && RoutineContracts.IsMaxVersion(s, routineId, p.version - 1)
                 && Proposes(p.terms, terms))
  {
    hide Text.Strip, RoutineContracts.Stripped, Complete, ValidTerms, Proposes;
    CompleteIsValid(routineId, RoutineContracts.Stripped(terms));
    StrippedIsComplete(routineId, terms);
    StrippedProposes(terms);
  }

  /** A revision is stored exactly when the contract it revises is confirmed, it is complete and its identifier is
      new: as the next version, proposed, with the terms given and a link to the contract it revises. */
  lemma RevisionTells(s: RoutineContracts.Contracts, currentId: string, id: string, terms: RoutineTerms)
    ensures var call := RoutineContracts.ReviseCall(s, currentId, id, terms);
            && (call.result.Ok? <==> currentId in s && s[currentId].status == Confirmed
                                     && Complete(s[currentId].routineId, terms) && id !in s)
            && (call.result.Err? ==> call.contracts == s)
            && (call.result.Ok? ==>
                 var p := call.result.value;
                 && call.contracts == s[id := p] && p.id == id && p.routineId == s[currentId].routineId
                 && p.status == Proposed && p.supersedesProposalId == Some(currentId) && p.terms == terms
                 && p.version >= 1 && RoutineContracts.IsMaxVersion(s, p.routineId, p.version - 1))
  {
    hide Complete, ValidTerms;
    if currentId in s { CompleteIsValid(s[currentId].routineId, terms); }
  }

  /** A confirmation goes through exactly for a complete proposal; afterwards that contract is confirmed, every
      other confirmed one of its routine is superseded, and nothing else has changed. */
  lemma ConfirmationTells(s: RoutineContracts.Contracts, id: string)
    ensures var call := RoutineContracts.ConfirmCall(s, id);
            && (call.result.Ok? <==> id in s && s[id].status == Proposed && Complete(s[id].routineId, s[id].terms))
            && (call.result.Err? ==> call.contracts == s)
            && (call.result.Ok? ==>
                 && call.contracts.Keys == s.Keys && call.contracts[id] == s[id].(status := Confirmed)
                 && call.result.value == call.contracts[id]
                 && forall other :: other in s && other != id ==>
                      call.contracts[other]
                      == if s[other].routineId == s[id].routineId && s[other].status == Confirmed
                         then s[other].(status := Superseded) else s[other])
  {
    hide Complete, ValidTerms;
    if id in s { CompleteIsValid(s[id].routineId, s[id].terms); }
  }
}
