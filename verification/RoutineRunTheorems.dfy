/** What holds of a routine run after every list of events. */
module RoutineRunTheorems {
  import opened Wrappers
  import opened Automation
  import opened RoutineRunProtocol
  import opened Counting

  // ---------------------------------------------------------------------
  // Growth of the stored run
  // ---------------------------------------------------------------------

  /** The four things a step may do to the stored run. */
  predicate RunGrowth(run: RoutineRun, next: RoutineRun) {
    || next == run
    || next == Charged(run)
    || (|next.results| == |run.results| + 1 && next == Recorded(run, next.results[|run.results|]))
    || next == Terminal(run)
  }

  /** Any change of the row takes a higher revision and is one attempt, one result or the finalization. */
  lemma StepGrowth(c: Contract, s: System, e: Event)
    requires Inv(c, s)
    ensures var t := Apply(c, s, e);
            && (t.row == s.row || t.row.claim.revision > s.row.claim.revision)
            && RunGrowth(s.row.run, t.row.run)
            && (t.row.run == Terminal(s.row.run) && t.row.run != s.row.run ==> t.row.claim.state == Finalized)
  {
    hide RunShape, ReceiptSound, ExecutedSound, InFlightDistinct, TokensDistinct, CeilingKept, TotalCost;
    hide PcShape, TicketSound, QuoteSound, AfterDecision, AfterExecution, AggregateStatus;
    if !e.Claim? && !e.Recover? && e.w in s.workers {
      assert WorkerSound(c, s.row, s.executed, s.overran, s.workers[e.w]);
    }
  }

  /** Stored results are append-only and the counters never go back, over any run. */
  lemma {:induction false} ResultsAppendOnly(c: Contract, s: System, events: seq<Event>)
    requires Inv(c, s)
    ensures var t := Run(c, s, events);
            && s.row.run.results <= t.row.run.results
            && s.row.run.attempts <= t.row.run.attempts
            && TicketAtMost(TicketOf(s.row.run), TicketOf(t.row.run))
            && s.row.claim.revision <= t.row.claim.revision
            && t.row.run.steps == s.row.run.steps
            && t.row.run.idempotencyKey == s.row.run.idempotencyKey
    decreases |events|
  {
    if events != [] {
      StepGrowth(c, s, events[0]);
      InvPreserved(c, s, events[0]);
      ResultsAppendOnly(c, Apply(c, s, events[0]), events[1..]);
    }
  }

  // ---------------------------------------------------------------------
  // Fencing
  // ---------------------------------------------------------------------

  /** A live token belongs to the recorded owner, has the stored run in hand, and is the only one. */
  lemma LiveTokenHoldsStoredRun(c: Contract, s: System, events: seq<Event>, w: nat)
    requires Initial(s)
    requires var t := Run(c, s, events); w in t.workers && Live(t.row, t.workers[w])
    ensures var t := Run(c, s, events);
            && t.row.claim.owner == Some(t.workers[w].owner) && t.row.claim.state == Active
            && (!t.workers[w].pc.Claimed? && !t.workers[w].pc.Releasing? ==> t.workers[w].run == t.row.run)
            && forall v :: v in t.workers && v != w ==> !Live(t.row, t.workers[v])
  {
    InvInitially(c, s);
    InvAlways(c, s, events);
    var t := Run(c, s, events);
    assert WorkerSound(c, t.row, t.executed, t.overran, t.workers[w]);
  }

  lemma RevisionsBehind(c: Contract, s: System)
    requires Inv(c, s)
    ensures forall w :: w in s.workers ==> s.workers[w].revision <= s.row.claim.revision
  {
    forall w | w in s.workers ensures s.workers[w].revision <= s.row.claim.revision {
      assert WorkerSound(c, s.row, s.executed, s.overran, s.workers[w]);
    }
  }

  /** What one step of a worker may touch: itself, and the stored run only under its token. */
  lemma WorkerStepFrame(c: Contract, s: System, e: Event)
    requires !e.Claim? && !e.Recover? && e.w in s.workers
    ensures var t, me := Apply(c, s, e), s.workers[e.w];
            && e.w in t.workers && t.workers == s.workers[e.w := t.workers[e.w]]
            && t.workers[e.w].owner == me.owner && t.row.claim.revision >= s.row.claim.revision
            && (t.workers[e.w].revision != me.revision ==>
                  !me.pc.Stopped? && Fenced(s.row, me.owner, me.revision))
            && (t.row.run != s.row.run ==>
                  && !me.pc.Stopped? && Fenced(s.row, me.owner, me.revision)
                  && (me.pc.Finalizing? ==> t.row.run == Terminal(me.run)) && !me.pc.Releasing?)
            && (me.pc.Stopped? ==> t.workers[e.w].pc.Stopped?)
            && (me.pc.Finalizing? || me.pc.Releasing? ==>
                  var pc := t.workers[e.w].pc; pc.Finalizing? || pc.Releasing? || pc.Stopped?)
  {
    hide AfterDecision, AfterExecution, AggregateStatus, TotalCost;
  }

  lemma StaleStep(c: Contract, s: System, e: Event, w: nat)
    requires Inv(c, s) && w in s.workers && !Live(s.row, s.workers[w])
    ensures var t := Apply(c, s, e);
            w in t.workers && t.workers[w].owner == s.workers[w].owner && !Live(t.row, t.workers[w])
  {
    TokenOf(c, s, w);
    hide Inv;
    if !e.Claim? && !e.Recover? && e.w in s.workers {
      WorkerStepFrame(c, s, e);
      hide Apply;
    } else {
      assert Apply(c, s, e).workers[w] == s.workers[w];
    }
  }

  /** A worker whose token is stale stays stale for ever. */
  lemma {:induction false} StaleForEver(c: Contract, s: System, events: seq<Event>, w: nat)
    requires Inv(c, s) && w in s.workers && !Live(s.row, s.workers[w])
    ensures var t := Run(c, s, events);
            w in t.workers && t.workers[w].owner == s.workers[w].owner && !Live(t.row, t.workers[w])
    decreases |events|
  {
    if events != [] {
      StaleStep(c, s, events[0], w);
      InvPreserved(c, s, events[0]);
      StaleForEver(c, Apply(c, s, events[0]), events[1..], w);
    }
  }

  /** A stale worker changes the stored row in one case only: it gives back a claim, the claim is held, and
      the recorded owner bears its name; `release_run` does not ask for the revision. */
  lemma StaleWorkerChangesExactly(c: Contract, s: System, e: Event, w: nat)
    requires Inv(c, s) && w in s.workers && !Live(s.row, s.workers[w])
    requires !e.Claim? && !e.Recover? && e.w == w
    ensures var t := Apply(c, s, e);
            && t.row.run == s.row.run && t.row.receipt == s.row.receipt
            && (t.row != s.row <==>
                 && e.Release? && s.workers[w].pc.Releasing?
                 && s.row.claim.state == Active && s.row.claim.owner == Some(s.workers[w].owner))
  {
    hide RunShape, ReceiptSound, ExecutedSound, InFlightDistinct, TokensDistinct, TotalCost, CeilingKept;
    hide AfterDecision, AfterExecution, AggregateStatus;
    assert WorkerSound(c, s.row, s.executed, s.overran, s.workers[w]);
  }

  /** After a takeover the displaced worker changes neither run nor receipt, however the run goes on; and
      it changes the claim exactly when it gives back one that a worker of the same name holds. */
  lemma DisplacedWorkerIsPowerless(c: Contract, s: System, events: seq<Event>, w: nat, e: Event)
    requires Inv(c, s) && w in s.workers && !Live(s.row, s.workers[w])
    requires !e.Claim? && !e.Recover? && e.w == w
    ensures var t := Run(c, s, events);
            var u := Apply(c, t, e);
            && w in t.workers && u.row.run == t.row.run && u.row.receipt == t.row.receipt
            && (u.row != t.row <==>
                 && e.Release? && t.workers[w].pc.Releasing?
                 && t.row.claim.state == Active && t.row.claim.owner == Some(s.workers[w].owner))
  {
    StaleForEver(c, s, events, w);
    InvAlways(c, s, events);
    StaleWorkerChangesExactly(c, Run(c, s, events), e, w);
  }

  /** Recovery displaces every worker there is. */
  lemma RecoveryDisplaces(c: Contract, s: System, revision: int, newOwner: string, w: nat)
    requires Inv(c, s) && w in s.workers && RecoverRow(s.row, revision, newOwner).Ok?
    ensures var t := Apply(c, s, Recover(revision, newOwner)); w in t.workers && !Live(t.row, t.workers[w])
  {
    assert WorkerSound(c, s.row, s.executed, s.overran, s.workers[w]);
  }

  // ---------------------------------------------------------------------
  // Write-ahead attempts
  // ---------------------------------------------------------------------

  /** The attempt ordinals of the executor calls made for one step. */
  function CallsFor(executed: seq<Ticket>, step: nat): seq<nat> {
    if executed == [] then []
    else
      var rest := CallsFor(executed[..|executed| - 1], step);
      var t := executed[|executed| - 1];
      if t.0 == step then rest + [t.1] else rest
  }

  lemma CallsForMember(executed: seq<Ticket>, step: nat, k: nat)
    ensures k in CallsFor(executed, step) <==> (step, k) in executed
  {
  }

  lemma CallsForDistinct(executed: seq<Ticket>, step: nat)
    requires Distinct(executed)
    ensures Distinct(CallsFor(executed, step))
  {
    if executed != [] {
      var init, t := executed[..|executed| - 1], executed[|executed| - 1];
      CallsForDistinct(init, step);
      CallsForMember(init, step, t.1);
      assert t !in init;
    }
  }

  /** The calls made for steps below `n`. */
  function CallsBelow(executed: seq<Ticket>, n: nat): nat {
    if n == 0 then 0 else CallsBelow(executed, n - 1) + |CallsFor(executed, n - 1)|
  }

  lemma {:induction false} CallsBelowDropLast(executed: seq<Ticket>, n: nat)
    requires executed != []
    ensures var t := executed[|executed| - 1];
            CallsBelow(executed, n) == CallsBelow(executed[..|executed| - 1], n) + (if t.0 < n then 1 else 0)
  {
    if n > 0 { CallsBelowDropLast(executed, n - 1); }
  }

  lemma {:induction false} CallsBelowIsAll(executed: seq<Ticket>, n: nat)
    requires forall t :: t in executed ==> t.0 < n
    ensures CallsBelow(executed, n) == |executed|
  {
    if executed == [] {
      CallsBelowEmpty(n);
    } else {
      CallsBelowDropLast(executed, n);
      CallsBelowIsAll(executed[..|executed| - 1], n);
    }
  }

  lemma CallsBelowEmpty(n: nat)
    ensures CallsBelow([], n) == 0
  {
  }

  lemma {:induction false} CallsBelowBound(executed: seq<Ticket>, n: nat, max: nat)
    requires forall i: nat :: i < n ==> |CallsFor(executed, i)| <= max
    ensures CallsBelow(executed, n) <= n * max
  {
    if n > 0 {
      CallsBelowBound(executed, n - 1, max);
      assert n * max == (n - 1) * max + max;
    }
  }

  /** Over a run's whole life, across crashes, resumes and takeovers, no step is executed more than
      `retry_limit + 1` times, and every call was counted in the store before it was made. */
  lemma StepExecutionsBounded(c: Contract, s: System, events: seq<Event>, step: nat)
    requires Initial(s)
    ensures var t := Run(c, s, events);
            && |CallsFor(t.executed, step)| <= c.retryLimit + 1
            && forall call :: call in t.executed ==> TicketAtMost(call, TicketOf(t.row.run))
  {
    InvInitially(c, s);
    InvAlways(c, s, events);
    var calls := CallsFor(Run(c, s, events).executed, step);
    CallsForDistinct(Run(c, s, events).executed, step);
    forall k | k in calls ensures 1 <= k <= MaxAttempts(c) {
      CallsForMember(Run(c, s, events).executed, step, k);
    }
    Pigeonhole(calls, MaxAttempts(c));
  }

  /** The whole run makes at most `len(steps) * (retry_limit + 1)` calls and stores as many attempts at most. */
  lemma RunExecutionsBounded(c: Contract, s: System, events: seq<Event>)
    requires Initial(s)
    ensures var t := Run(c, s, events);
            && |t.executed| <= |s.row.run.steps| * (c.retryLimit + 1)
            && t.row.run.attempts <= |s.row.run.steps| * (c.retryLimit + 1)
            && |t.row.run.results| == t.row.run.currentStep <= |s.row.run.steps|
  {
    InvInitially(c, s);
    InvAlways(c, s, events);
    ResultsAppendOnly(c, s, events);
    var t := Run(c, s, events);
    var n := |s.row.run.steps|;
    forall i: nat | i < n ensures |CallsFor(t.executed, i)| <= MaxAttempts(c) {
      StepExecutionsBounded(c, s, events, i);
    }
    CallsBelowIsAll(t.executed, n);
    CallsBelowBound(t.executed, n, MaxAttempts(c));
    AttemptsBelow(t.row.run.currentStep, t.row.run.currentStepAttempts, n, MaxAttempts(c));
  }

  lemma AttemptsBelow(step: nat, k: nat, n: nat, max: nat)
    requires step <= n && k <= max && (step == n ==> k == 0)
    ensures step * max + k <= n * max
  {
    if step < n { ProductGrows(step + 1, n, max); ProductStep(step, max); }
  }

  lemma ProductStep(n: nat, max: nat)
    ensures (n + 1) * max == n * max + max
  {
  }

  lemma {:induction false} ProductGrows(step: nat, n: nat, max: nat)
    requires step <= n
    ensures step * max <= n * max
    decreases n
  {
    if step < n { ProductStep(n - 1, max); ProductGrows(step, n - 1, max); }
  }

  // ---------------------------------------------------------------------
  // Cost ceiling
  // ---------------------------------------------------------------------

  lemma {:induction false} CostFrozenOnceOver(c: Contract, results: seq<StepResult>, j: nat, k: nat)
    requires CeilingKept(c, results) && j <= k <= |results| && TotalCost(results[..j]) > c.costCeiling
    ensures TotalCost(results[..k]) == TotalCost(results[..j])
    decreases k - j
  {
    if j < k {
      CostFrozenOnceOver(c, results, j, k - 1);
      assert results[..k] == results[..k - 1] + [results[k - 1]];
      TotalCostAppend(results[..k - 1], results[k - 1]);
    }
  }

  ghost predicate Crosses(c: Contract, results: seq<StepResult>, k: nat)
    requires k < |results|
  {
    TotalCost(results[..k]) <= c.costCeiling < TotalCost(results[..k + 1])
  }

  /** In every stored run at most one result takes the total over the ceiling, and all later ones are free. */
  lemma CeilingCrossedAtMostOnce(c: Contract, s: System, events: seq<Event>, j: nat, k: nat)
    requires Initial(s)
    requires j <= k < |Run(c, s, events).row.run.results|
    requires Crosses(c, Run(c, s, events).row.run.results, j)
    ensures var results := Run(c, s, events).row.run.results;
            && (Crosses(c, results, k) ==> j == k)
            && (j < k ==> results[k].costUnits == 0)
  {
    InvInitially(c, s);
    InvAlways(c, s, events);
    if j < k {
      CostFrozenOnceOver(c, Run(c, s, events).row.run.results, j + 1, k);
    }
  }

  /** If no executor reports more than it quoted, the recorded total never passes the ceiling. */
  lemma CeilingRespectedByHonestQuotes(c: Contract, s: System, events: seq<Event>)
    requires Initial(s) && !Run(c, s, events).overran
    ensures TotalCost(Run(c, s, events).row.run.results) <= c.costCeiling
  {
    InvInitially(c, s);
    InvAlways(c, s, events);
  }

  // ---------------------------------------------------------------------
  // Finalization
  // ---------------------------------------------------------------------

  /** A receipt exists exactly when the run is finalized, and repeats the stored run. */
  lemma ReceiptExactlyWhenFinalized(c: Contract, s: System, events: seq<Event>)
    requires Initial(s)
    ensures var row := Run(c, s, events).row;
            && (row.receipt.Some? <==> row.claim.state == Finalized)
            && (row.receipt.Some? ==>
                 && row.receipt.value.results == row.run.results
                 && row.receipt.value.attempts == row.run.attempts
                 && row.run.status == Finished(row.receipt.value.status)
                 && row.receipt.value.status == AggregateStatus(row.run.results, |row.run.steps|))
  {
    InvInitially(c, s);
    InvAlways(c, s, events);
  }

  lemma FinalizedStep(c: Contract, s: System, e: Event)
    requires Inv(c, s) && s.row.claim.state == Finalized
    ensures Apply(c, s, e).row == s.row
  {
    hide RunShape, ReceiptSound, ExecutedSound, InFlightDistinct, TokensDistinct, CeilingKept, TotalCost;
    hide PcShape, TicketSound, QuoteSound, AfterDecision, AfterExecution, AggregateStatus;
    if !e.Claim? && !e.Recover? && e.w in s.workers {
      assert WorkerSound(c, s.row, s.executed, s.overran, s.workers[e.w]);
    }
  }

  /** Finalized is absorbing: no event changes run, claim or receipt again.  The progress save itself
      does not look at the claim state; nobody holds the revision that finalization left. */
  lemma {:induction false} FinalizedIsAbsorbing(c: Contract, s: System, events: seq<Event>)
    requires Inv(c, s) && s.row.claim.state == Finalized
    ensures Run(c, s, events).row == s.row
    decreases |events|
  {
    if events != [] {
      FinalizedStep(c, s, events[0]);
      InvPreserved(c, s, events[0]);
      FinalizedIsAbsorbing(c, Apply(c, s, events[0]), events[1..]);
    }
  }

  // ---------------------------------------------------------------------
  // Stopping at a failed step
  // ---------------------------------------------------------------------

  /** Whoever can still save is past the loop. */
  ghost predicate LoopOver(s: System) {
    forall w :: w in s.workers && Live(s.row, s.workers[w]) ==>
      s.workers[w].pc.Finalizing? || s.workers[w].pc.Releasing?
  }

  lemma LoopOverStep(c: Contract, s: System, e: Event)
    requires Inv(c, s) && LoopOver(s) && !e.Claim?
    ensures var t := Apply(c, s, e);
            LoopOver(t) && t.row.run.results == s.row.run.results && t.row.run.attempts == s.row.run.attempts
  {
    RevisionsBehind(c, s);
    if !e.Recover? && e.w in s.workers {
      TokenOf(c, s, e.w);
      WorkerStepFrame(c, s, e);
      hide Inv, Apply;
      var t := Apply(c, s, e);
      forall v | v in t.workers && v != e.w && Live(t.row, t.workers[v]) ensures Live(s.row, s.workers[v]) {
        assert t.workers[v] == s.workers[v];
      }
    } else {
      hide Inv;
      assert Apply(c, s, e).workers == s.workers;
    }
  }

  lemma {:induction false} LoopStaysOver(c: Contract, s: System, events: seq<Event>)
    requires Inv(c, s) && LoopOver(s) && forall e :: e in events ==> !e.Claim?
    ensures var t := Run(c, s, events);
            t.row.run.results == s.row.run.results && t.row.run.attempts == s.row.run.attempts
    decreases |events|
  {
    if events != [] {
      assert events[0] in events;
      LoopOverStep(c, s, events[0]);
      InvPreserved(c, s, events[0]);
      LoopStaysOver(c, Apply(c, s, events[0]), events[1..]);
    }
  }

  /** Once a failed or blocked result is stored, nothing more is charged or recorded until someone
      claims the run again. */
  lemma NothingRunsAfterAFailedStep(c: Contract, s: System, w: nat, events: seq<Event>)
    requires Inv(c, s) && w in s.workers && s.workers[w].pc.Recording? && Stops(s.workers[w].pc.result)
    requires Live(s.row, s.workers[w])
    requires forall e :: e in events ==> !e.Claim?
    ensures var t := Apply(c, s, Record(w));
            var u := Run(c, t, events);
            && t.row.run.results == s.row.run.results + [s.workers[w].pc.result]
            && u.row.run.results == t.row.run.results && u.row.run.attempts == t.row.run.attempts
  {
    var t := Apply(c, s, Record(w));
    assert WorkerSound(c, s.row, s.executed, s.overran, s.workers[w]);
    InvPreserved(c, s, Record(w));
    RevisionsBehind(c, s);
    assert LoopOver(t);
    LoopStaysOver(c, t, events);
  }
}
