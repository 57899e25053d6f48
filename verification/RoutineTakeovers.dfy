/** What a claim that is taken anew may do, and what a worker that lost its claim still can
    (src/reckoning/automation.py:694-807).  The stop at a failed step and the fence against a stale
    worker both end where a claim is taken again; this module says exactly how far. */
module RoutineTakeovers {
  import opened Wrappers
  import opened Automation
  import opened RoutineRunProtocol
  import opened RoutineRunTheorems

  lemma RunTwo(c: Contract, s: System, e: Event, f: Event)
    ensures Run(c, s, [e, f]) == Apply(c, Apply(c, s, e), f)
  {
    RunAppend(c, s, [e], f);
    assert [e] + [f] == [e, f] && [e][1..] == [];
  }

  lemma {:induction false} RunConcat(c: Contract, s: System, before: seq<Event>, after: seq<Event>)
    ensures Run(c, s, before + after) == Run(c, Run(c, s, before), after)
    decreases |before|
  {
    if before == [] {
      assert before + after == after;
    } else {
      assert (before + after)[0] == before[0] && (before + after)[1..] == before[1..] + after;
      RunConcat(c, Apply(c, s, before[0]), before[1..], after);
    }
  }

  // ---------------------------------------------------------------------
  // A fresh claim
  // ---------------------------------------------------------------------

  /** Steps, attempts and budget are left. */
  predicate CanCharge(c: Contract, run: RoutineRun) {
    && run.currentStep < |run.steps|
    && run.currentStepAttempts < MaxAttempts(c)
    && TotalCost(run.results) <= c.costCeiling
  }

  function ClaimAndRead(w: nat, owner: string): seq<Event> { [Claim(w, owner), Read(w)] }

  function DecideAndCharge(w: nat, quote: Quote): seq<Event> { [Decide(w, quote), Charge(w)] }

  /** The first calls of a `resume_run`, up to the save of its first attempt. */
  function Opening(w: nat, owner: string, quote: Quote): seq<Event> {
    ClaimAndRead(w, owner) + DecideAndCharge(w, quote)
  }

  function RecordAndFinalize(w: nat, completedAt: int): seq<Event> { [Record(w), Finalize(w, completedAt)] }

  lemma AfterClaimAndRead(c: Contract, s: System, w: nat, owner: string) returns (t: System)
    requires w !in s.workers && ClaimRow(s.row, owner).Ok?
    ensures t == Run(c, s, ClaimAndRead(w, owner))
    ensures w in t.workers && t.workers.Keys == s.workers.Keys + {w} && t.executed == s.executed
    ensures t.workers[w] == Worker(owner, t.row.claim.revision, s.row.run, Deciding(None))
    ensures t.row.claim == RunClaim(Some(owner), Active, s.row.claim.revision + 1) && t.row.run == s.row.run
  {
    RunTwo(c, s, Claim(w, owner), Read(w));
    t := Run(c, s, ClaimAndRead(w, owner));
  }

  /** Four calls into a `resume_run`: it has charged an attempt, or stands where the decision put it. */
  lemma AfterOpening(c: Contract, s: System, w: nat, owner: string, quote: Quote) returns (t: System, pc: Pc)
    requires w !in s.workers && ClaimRow(s.row, owner).Ok?
    ensures t == Run(c, s, Opening(w, owner, quote)) && pc == AfterDecision(c, s.row.run, None, quote)
    ensures t.executed == s.executed && t.row.claim.owner == Some(owner) && t.row.claim.state == Active
    ensures w in t.workers && t.workers.Keys == s.workers.Keys + {w}
    ensures t.workers[w].owner == owner && t.workers[w].revision == t.row.claim.revision
    ensures t.workers[w].run == t.row.run
    ensures t.row.claim.revision == s.row.claim.revision + (if pc.Charging? then 2 else 1)
    ensures pc.Charging? ==> t.row.run == Charged(s.row.run) && t.workers[w].pc == Executing(pc.quote)
    ensures !pc.Charging? ==> t.row.run == s.row.run && t.workers[w].pc == pc
  {
    RunConcat(c, s, ClaimAndRead(w, owner), DecideAndCharge(w, quote));
    var s1 := AfterClaimAndRead(c, s, w, owner);
    RunTwo(c, s1, Decide(w, quote), Charge(w));
    pc := AfterDecision(c, s.row.run, None, quote);
    var s2 := Apply(c, s1, Decide(w, quote));
    assert s2 == Goto(s1, w, pc);
    t := Apply(c, s2, Charge(w));
  }

  /** A claim that finds steps, attempts and budget left executes the next attempt, whatever the last
      stored result says. */
  lemma AFreshClaimExecutes(c: Contract, s: System, w: nat, owner: string, quote: nat, outcome: Outcome)
    requires w !in s.workers && ClaimRow(s.row, owner).Ok?
    requires CanCharge(c, s.row.run) && TotalCost(s.row.run.results) + quote <= c.costCeiling
    ensures var t := Run(c, s, Opening(w, owner, Quoted(quote)) + [Execute(w, outcome)]);
            && t.row.run == Charged(s.row.run)
            && t.executed == s.executed + [(s.row.run.currentStep, s.row.run.currentStepAttempts + 1)]
  {
    RunAppend(c, s, Opening(w, owner, Quoted(quote)), Execute(w, outcome));
    var t, pc := AfterOpening(c, s, w, owner, Quoted(quote));
    assert pc == Charging(quote);
  }

  /** How a `resume_run` ends that charges nothing. */
  ghost predicate EndsUncharged(s: System, quote: Quote, t: System) {
    var run := s.row.run;
    && t.executed == s.executed
    && (|| (run.currentStep >= |run.steps| && t.row.claim.state == Finalized && t.row.run == Terminal(run))
        || (quote.Refused? && t.row.claim.state == Unclaimed && t.row.run == run)
        || (exists r: StepResult :: Stops(r) && r.costUnits == 0
             && t.row.claim.state == Finalized && t.row.run == Terminal(Recorded(run, r))))
  }

  lemma WithoutACharge(c: Contract, run: RoutineRun, quote: Quote)
    requires !CanCharge(c, run)
    ensures var pc := AfterDecision(c, run, None, quote);
            || (pc.Finalizing? && run.currentStep >= |run.steps|)
            || (pc.Releasing? && quote.Refused?)
            || (pc.Recording? && Stops(pc.result) && pc.result.costUnits == 0)
  {
  }

  /** How the call ends from there, left alone. */
  lemma LeftAlone(c: Contract, s: System, w: nat, completedAt: int) returns (t: System)
    requires w in s.workers && Fenced(s.row, s.workers[w].owner, s.workers[w].revision)
    requires s.row.claim.state == Active && s.workers[w].run == s.row.run
    requires s.workers[w].pc.Recording? ==> Stops(s.workers[w].pc.result)
    ensures t == Run(c, s, RecordAndFinalize(w, completedAt) + [Release(w)]) && t.executed == s.executed
    ensures s.workers[w].pc.Finalizing? ==> t.row.claim.state == Finalized && t.row.run == Terminal(s.row.run)
    ensures s.workers[w].pc.Releasing? ==> t.row.claim.state == Unclaimed && t.row.run == s.row.run
    ensures s.workers[w].pc.Recording? ==>
              t.row.claim.state == Finalized && t.row.run == Terminal(Recorded(s.row.run, s.workers[w].pc.result))
  {
    hide AggregateStatus, AfterDecision, AfterExecution;
    RunAppend(c, s, RecordAndFinalize(w, completedAt), Release(w));
    RunTwo(c, s, Record(w), Finalize(w, completedAt));
    var s1 := Apply(c, s, Record(w));
    if s.workers[w].pc.Recording? {
      assert s1.workers[w].run == s1.row.run == Recorded(s.row.run, s.workers[w].pc.result);
      assert Fenced(s1.row, s1.workers[w].owner, s1.workers[w].revision) && s1.workers[w].pc == Finalizing;
    }
    t := Apply(c, Apply(c, s1, Finalize(w, completedAt)), Release(w));
  }

  /** Without them a claim executes nothing, whatever it is quoted: it finalizes a run with no step left,
      gives the claim back on a quote it refuses, or finalizes one more result, Failed or Blocked and free. */
  lemma AFreshClaimOnlyEnds(c: Contract, s: System, w: nat, owner: string, quote: Quote, completedAt: int)
    requires w !in s.workers && ClaimRow(s.row, owner).Ok? && !CanCharge(c, s.row.run)
    ensures EndsUncharged(s, quote,
              Run(c, s, Opening(w, owner, quote) + (RecordAndFinalize(w, completedAt) + [Release(w)])))
  {
    hide Run, Apply, TotalCost, AggregateStatus, AfterDecision, ClaimRow;
    RunConcat(c, s, Opening(w, owner, quote), RecordAndFinalize(w, completedAt) + [Release(w)]);
    WithoutACharge(c, s.row.run, quote);
    var s1, pc := AfterOpening(c, s, w, owner, quote);
    var t := LeftAlone(c, s1, w, completedAt);
  }

  ghost predicate SomeQuoteCharges(c: Contract, s: System, w: nat, owner: string) {
    exists quote: Quote :: Run(c, s, Opening(w, owner, quote)).row.run == Charged(s.row.run)
  }

  /** So a fresh claim can charge an attempt exactly when steps, attempts and budget are left. */
  lemma AFreshClaimChargesExactly(c: Contract, s: System, w: nat, owner: string)
    requires w !in s.workers && ClaimRow(s.row, owner).Ok?
    ensures SomeQuoteCharges(c, s, w, owner) <==> CanCharge(c, s.row.run)
  {
    if CanCharge(c, s.row.run) {
      var t, pc := AfterOpening(c, s, w, owner, Quoted(0));
      assert t.row.run == Charged(s.row.run);
    }
    if SomeQuoteCharges(c, s, w, owner) {
      var quote: Quote :| Run(c, s, Opening(w, owner, quote)).row.run == Charged(s.row.run);
      var t, pc := AfterOpening(c, s, w, owner, quote);
    }
  }

  /** The same of a takeover, from every state not finalized, whoever holds the claim. */
  lemma ANewClaimRunsOn(c: Contract, s: System, w: nat, owner: string)
    requires s.row.claim.state != Finalized && w !in s.workers
    ensures var t := Apply(c, s, Recover(s.row.claim.revision, owner));
            && ClaimRow(t.row, owner).Ok? && w !in t.workers && t.executed == s.executed
            && (SomeQuoteCharges(c, t, w, owner) <==> CanCharge(c, s.row.run))
  {
    AFreshClaimChargesExactly(c, Apply(c, s, Recover(s.row.claim.revision, owner)), w, owner);
  }

  // ---------------------------------------------------------------------
  // Past a failed step
  // ---------------------------------------------------------------------

  /** The process dies right after a step result was saved, and someone else takes the run over. */
  function DiesAndIsTakenOver(w: nat, revision: int, owner: string): seq<Event> {
    [Record(w), Crash(w)] + [Recover(revision, owner)]
  }

  lemma AfterTakeover(c: Contract, s: System, w: nat, owner: string) returns (t: System)
    requires Inv(c, s) && w in s.workers && s.workers[w].pc.Recording? && Live(s.row, s.workers[w])
    ensures t == Run(c, s, DiesAndIsTakenOver(w, s.row.claim.revision + 1, owner))
    ensures t.row.run == Recorded(s.row.run, s.workers[w].pc.result) && t.executed == s.executed
    ensures t.workers.Keys == s.workers.Keys && ClaimRow(t.row, owner).Ok?
  {
    hide RunShape, ReceiptSound, ExecutedSound, InFlightDistinct, TokensDistinct, TotalCost;
    assert WorkerSound(c, s.row, s.executed, s.overran, s.workers[w]);
    RunAppend(c, s, [Record(w), Crash(w)], Recover(s.row.claim.revision + 1, owner));
    RunTwo(c, s, Record(w), Crash(w));
    t := Run(c, s, DiesAndIsTakenOver(w, s.row.claim.revision + 1, owner));
  }

  /** After a failed or blocked result is saved, a crash and a new claim are enough to execute the next
      step, exactly when there is one and the total is within the ceiling; its attempts start anew. */
  lemma AFailedStepIsRunPast(c: Contract, s: System, w: nat, v: nat, owner: string)
    requires Inv(c, s) && w in s.workers && s.workers[w].pc.Recording? && Stops(s.workers[w].pc.result)
    requires Live(s.row, s.workers[w]) && v !in s.workers
    ensures var t := Run(c, s, DiesAndIsTakenOver(w, s.row.claim.revision + 1, owner));
            && t.row.run.results == s.row.run.results + [s.workers[w].pc.result]
            && (SomeQuoteCharges(c, t, v, owner) <==>
                 s.row.run.currentStep + 1 < |s.row.run.steps|
                 && TotalCost(s.row.run.results) + s.workers[w].pc.result.costUnits <= c.costCeiling)
  {
    var t := AfterTakeover(c, s, w, owner);
    TotalCostAppend(s.row.run.results, s.workers[w].pc.result);
    AFreshClaimChargesExactly(c, t, v, owner);
  }

  const FAILED: StepResult := StepResult(Failed, "", 0, 0)

  function FailingAttempt(w: nat): seq<Event> {
    Opening(w, "first", Quoted(0)) + [Execute(w, Returned(FAILED))]
  }

  function InterruptedAttempt(w: nat): seq<Event> {
    Opening(w, "second", Quoted(0)) + [Execute(w, Interrupted)]
  }

  lemma FirstStepFails(c: Contract, s: System, w: nat) returns (t: System)
    requires Initial(s) && |s.row.run.steps| >= 1
    ensures t == Run(c, s, FailingAttempt(w)) && Inv(c, t)
    ensures t.workers.Keys == {w} && Live(t.row, t.workers[w]) && t.row.claim.revision == 3
    ensures t.workers[w].pc == Recording(FAILED) && t.row.run == Charged(s.row.run)
  {
    RunAppend(c, s, Opening(w, "first", Quoted(0)), Execute(w, Returned(FAILED)));
    InvInitially(c, s);
    InvAlways(c, s, FailingAttempt(w));
    hide Inv;
    var s1, pc := AfterOpening(c, s, w, "first", Quoted(0));
    assert pc == Charging(0) && s1.row.claim.revision == 3;
    t := Apply(c, s1, Execute(w, Returned(FAILED)));
  }

  /** The first step fails, and the process dies before it finalizes. */
  function FailsAndDies(): seq<Event> { FailingAttempt(0) + DiesAndIsTakenOver(0, 4, "second") }

  lemma AfterTheFailure(c: Contract, s: System) returns (t: System)
    requires Initial(s) && |s.row.run.steps| >= 2
    ensures t == Run(c, s, FailsAndDies()) && t.workers.Keys == {0} && ClaimRow(t.row, "second").Ok?
    ensures t.row.run == Recorded(Charged(s.row.run), FAILED) && CanCharge(c, t.row.run)
  {
    hide Inv, Apply, ClaimRow, AggregateStatus;
    RunConcat(c, s, FailingAttempt(0), DiesAndIsTakenOver(0, 4, "second"));
    hide Run;
    var s1 := FirstStepFails(c, s, 0);
    t := AfterTakeover(c, s1, 0, "second");
    assert TotalCost(t.row.run.results) == 0 by { TotalCostAppend([], FAILED); }
  }

  function FailsAndRunsOn(): seq<Event> { FailsAndDies() + InterruptedAttempt(1) }

  /** The input on which a step runs after a failed one: the next claim executes the second step. */
  lemma AStepRunsAfterAFailure(c: Contract, s: System)
    requires Initial(s) && |s.row.run.steps| >= 2
    ensures var t := Run(c, s, FailsAndRunsOn());
            t.row.run.results == [FAILED] && FAILED.status == Failed && (1, 1) in t.executed
  {
    hide Inv, Apply, ClaimRow, AggregateStatus;
    RunConcat(c, s, FailsAndDies(), InterruptedAttempt(1));
    hide Run;
    var s1 := AfterTheFailure(c, s);
    AFreshClaimExecutes(c, s1, 1, "second", 0, Interrupted);
  }

  // ---------------------------------------------------------------------
  // Two workers of one name
  // ---------------------------------------------------------------------

  function TwoUnderOneName(name: string): seq<Event> { [Claim(0, name), Fail(0)] + [Claim(1, name)] }

  /** Two `resume_run` calls under one worker name: the first runs into an exception while the second has
      claimed the run again, and the claim it gives back is the second's. */
  lemma ANamesakeLosesTheClaim(c: Contract, s: System, name: string) returns (t: System, u: System)
    requires Initial(s)
    ensures t == Run(c, s, TwoUnderOneName(name)) && u == Run(c, s, TwoUnderOneName(name) + [Release(0)])
    ensures 0 in t.workers && 1 in t.workers && !Live(t.row, t.workers[0]) && Live(t.row, t.workers[1])
    ensures 1 in u.workers && u.row.claim.state == Unclaimed && !Live(u.row, u.workers[1])
  {
    RunAppend(c, s, TwoUnderOneName(name), Release(0));
    RunAppend(c, s, [Claim(0, name), Fail(0)], Claim(1, name));
    RunTwo(c, s, Claim(0, name), Fail(0));
    t := Run(c, s, TwoUnderOneName(name));
    u := Apply(c, t, Release(0));
  }
}
