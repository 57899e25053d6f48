/** One stored routine run shared by any number of `resume_run` calls that may
    interleave, lose their claim, be taken over, or die between any two saves
    (src/reckoning/automation.py:694-807).  A behaviour is a list of events;
    the theorems hold after every list. */
module RoutineRunProtocol {
  import opened Wrappers
  import opened Automation

  /** The limits of the confirmed contract; `_validate_contract` keeps both non-negative. */
  datatype Contract = Contract(retryLimit: nat, costCeiling: nat)

  datatype Quote = NoExecutor | Refused | Quoted(cost: nat)

  datatype Outcome = Returned(result: StepResult) | Raised(detail: string) | Interrupted

  /** Where a `resume_run` call stands. */
  datatype Pc =
    | Claimed                             // token held, run not read yet
    | Deciding(last: Option<StepResult>)  // at the head of the attempt loop
    | Charging(quote: nat)                // preflight passed, attempt not saved yet
    | Executing(quote: nat)               // attempt saved, executor not called yet
    | Recording(result: StepResult)       // step result known, not saved yet
    | Finalizing
    | Releasing                           // an exception is propagating
    | Stopped

  datatype Worker = Worker(owner: string, revision: nat, run: RoutineRun, pc: Pc)

  /** A call of an executor: the step index and the ordinal of its charged attempt. */
  type Ticket = (nat, nat)

  /** `executed` logs every executor call; `overran` that some result cost more than its quote. */
  datatype System = System(row: RunRow, workers: map<nat, Worker>, executed: seq<Ticket>, overran: bool)

  datatype Event =
    | Claim(w: nat, owner: string)
    | Recover(expectedRevision: int, newOwner: string)
    | Read(w: nat)
    | Decide(w: nat, quote: Quote)
    | Charge(w: nat)
    | Execute(w: nat, outcome: Outcome)
    | Record(w: nat)
    | Finalize(w: nat, completedAt: int)
    | Fail(w: nat)     // any exception, wherever the call stands
    | Release(w: nat)
    | Crash(w: nat)    // the process dies

  function MaxAttempts(c: Contract): nat { c.retryLimit + 1 }

  function TicketOf(run: RoutineRun): Ticket { (run.currentStep, run.currentStepAttempts) }

  /** The head of the loops: retries left, then preflight, then the attempt. */
  function AfterDecision(c: Contract, run: RoutineRun, last: Option<StepResult>, quote: Quote): Pc {
    if run.currentStep >= |run.steps| then Finalizing
    else if run.currentStepAttempts >= MaxAttempts(c) then
      Recording(if last.Some? then last.value else StepResult(Failed, "Retry limit exhausted.", 0, 0))
    else match quote
      case NoExecutor => Recording(StepResult(Failed, "No model executor is configured.", 0, 0))
      case Refused => Releasing
      case Quoted(cost) =>
        if TotalCost(run.results) + cost > c.costCeiling then
          Recording(StepResult(Blocked, "Routine cost ceiling would be exceeded.", 0, 0))
        else Charging(cost)
  }

  function AfterExecution(c: Contract, run: RoutineRun, quote: nat, outcome: Outcome): Pc {
    match outcome
    case Interrupted => Releasing
    case Raised(detail) => Deciding(Some(StepResult(Failed, detail, 0, 0)))
    case Returned(r) =>
      if r.costUnits > quote || TotalCost(run.results) + r.costUnits > c.costCeiling then
        Recording(StepResult(Blocked, "Routine executor exceeded its preflight cost quote.", r.costUnits,
                             r.modelCalls))
      else Recording(r)
  }

  function SetWorker(s: System, w: nat, worker: Worker): System { s.(workers := s.workers[w := worker]) }

  function Goto(s: System, w: nat, pc: Pc): System
    requires w in s.workers
  {
    SetWorker(s, w, s.workers[w].(pc := pc))
  }

  /** A progress save: on success the worker keeps the new revision and the saved run. */
  function Save(s: System, w: nat, run: RoutineRun, next: Pc): System
    requires w in s.workers
  {
    var me := s.workers[w];
    match ProgressRow(s.row, run, me.owner, me.revision)
    case Err(_) => Goto(s, w, Releasing)
    case Ok(row) => SetWorker(s.(row := row), w, me.(run := run, revision := row.claim.revision, pc := next))
  }

  function DecideStep(c: Contract, s: System, w: nat, quote: Quote): System
    requires w in s.workers
  {
    var me := s.workers[w];
    if me.pc.Deciding? then Goto(s, w, AfterDecision(c, me.run, me.pc.last, quote)) else s
  }

  function ChargeStep(s: System, w: nat): System
    requires w in s.workers
  {
    var me := s.workers[w];
    if me.pc.Charging? then Save(s, w, Charged(me.run), Executing(me.pc.quote)) else s
  }

  function ExecuteStep(c: Contract, s: System, w: nat, outcome: Outcome): System
    requires w in s.workers
  {
    var me := s.workers[w];
    if !me.pc.Executing? then s
    else Goto(s, w, AfterExecution(c, me.run, me.pc.quote, outcome)).(
      executed := s.executed + [TicketOf(me.run)],
      overran := s.overran || (outcome.Returned? && outcome.result.costUnits > me.pc.quote))
  }

  function RecordStep(s: System, w: nat): System
    requires w in s.workers
  {
    var me := s.workers[w];
    if !me.pc.Recording? then s
    else Save(s, w, Recorded(me.run, me.pc.result), if Stops(me.pc.result) then Finalizing else Deciding(None))
  }

  function FinalizeStep(s: System, w: nat, completedAt: int): System
    requires w in s.workers
  {
    var me := s.workers[w];
    if !me.pc.Finalizing? then s
    else match FinalizeRow(s.row, Terminal(me.run), ReceiptOf(me.run, completedAt), me.owner, me.revision)
      case Err(_) => Goto(s, w, Releasing)
      case Ok(row) => Goto(s.(row := row), w, Stopped)
  }

  function ApplyWorker(c: Contract, s: System, e: Event): System
    requires !e.Claim? && !e.Recover? && e.w in s.workers
  {
    var me := s.workers[e.w];
    match e
    case Read(w) => if me.pc.Claimed? then SetWorker(s, w, me.(run := s.row.run, pc := Deciding(None))) else s
    case Decide(w, quote) => DecideStep(c, s, w, quote)
    case Charge(w) => ChargeStep(s, w)
    case Execute(w, outcome) => ExecuteStep(c, s, w, outcome)
    case Record(w) => RecordStep(s, w)
    case Finalize(w, completedAt) => FinalizeStep(s, w, completedAt)
    case Fail(w) => if me.pc.Stopped? then s else Goto(s, w, Releasing)
    case Release(w) => if me.pc.Releasing? then Goto(s.(row := ReleaseRow(s.row, me.owner)), w, Stopped) else s
    case Crash(w) => Goto(s, w, Stopped)
  }

  function Apply(c: Contract, s: System, e: Event): System {
    match e
    case Claim(w, owner) =>
      (match ClaimRow(s.row, owner)
       case Ok(row) =>
         if w in s.workers then s
         else SetWorker(s.(row := row), w, Worker(owner, row.claim.revision, row.run, Claimed))
       case Err(_) => s)
    case Recover(revision, newOwner) =>
      (match RecoverRow(s.row, revision, newOwner)
       case Ok(row) => s.(row := row)
       case Err(_) => s)
    case _ => if e.w in s.workers then ApplyWorker(c, s, e) else s
  }

  function Run(c: Contract, s: System, events: seq<Event>): System
    decreases |events|
  {
    if events == [] then s else Run(c, Apply(c, s, events[0]), events[1..])
  }

  lemma {:induction false} RunAppend(c: Contract, s: System, events: seq<Event>, e: Event)
    ensures Run(c, s, events + [e]) == Apply(c, Run(c, s, events), e)
    decreases |events|
  {
    if events == [] {
      assert [e][1..] == [];
    } else {
      assert (events + [e])[1..] == events[1..] + [e];
      RunAppend(c, Apply(c, s, events[0]), events[1..], e);
    }
  }

  /** `start_run` stores the run fresh, without a claim or a receipt. */
  predicate Initial(s: System) {
    && s.workers == map[] && s.executed == [] && !s.overran
    && s.row.receipt == None && s.row.claim == RunClaim(None, Unclaimed, 1)
    && s.row.run.currentStep == s.row.run.attempts == s.row.run.currentStepAttempts == 0
    && s.row.run.results == [] && s.row.run.status == Running
  }

  // ---------------------------------------------------------------------
  // The invariant
  // ---------------------------------------------------------------------

  predicate TicketLess(a: Ticket, b: Ticket) { a.0 < b.0 || (a.0 == b.0 && a.1 < b.1) }

  predicate TicketAtMost(a: Ticket, b: Ticket) { a == b || TicketLess(a, b) }

  /** A worker that can still save. */
  predicate Live(row: RunRow, me: Worker) { !me.pc.Stopped? && me.revision == row.claim.revision }

  /** Nothing recorded after the ceiling was passed costs anything. */
  ghost predicate CeilingKept(c: Contract, results: seq<StepResult>) {
    forall k :: 0 <= k < |results| && TotalCost(results[..k]) > c.costCeiling ==> results[k].costUnits == 0
  }

  ghost predicate RunShape(c: Contract, run: RoutineRun) {
    && |run.results| == run.currentStep <= |run.steps|
    && run.currentStepAttempts <= MaxAttempts(c)
    && (run.currentStep == |run.steps| ==> run.currentStepAttempts == 0)
    && run.attempts <= run.currentStep * MaxAttempts(c) + run.currentStepAttempts
    && CeilingKept(c, run.results)
  }

  ghost predicate PcShape(c: Contract, me: Worker) {
    match me.pc
    case Deciding(last) => last.Some? ==> last.value.costUnits == 0
    case Charging(quote) =>
      && me.run.currentStep < |me.run.steps| && me.run.currentStepAttempts < MaxAttempts(c)
      && TotalCost(me.run.results) + quote <= c.costCeiling
    case Executing(quote) =>
      && me.run.currentStep < |me.run.steps| && 1 <= me.run.currentStepAttempts <= MaxAttempts(c)
      && TotalCost(me.run.results) + quote <= c.costCeiling
    case Recording(r) =>
      && me.run.currentStep < |me.run.steps|
      && (TotalCost(me.run.results) > c.costCeiling ==> r.costUnits == 0)
    case _ => true
  }

  /** A live token is held by the recorded owner, who has the stored run in hand. */
  ghost predicate TokenSound(row: RunRow, me: Worker) {
    && me.revision <= row.claim.revision
    && (Live(row, me) ==>
         && row.claim.owner == Some(me.owner) && row.claim.state == Active
         && (!me.pc.Claimed? && !me.pc.Releasing? ==> me.run == row.run))
  }

  /** A charged attempt waits for its executor call at most once. */
  ghost predicate TicketSound(row: RunRow, executed: seq<Ticket>, me: Worker) {
    me.pc.Executing? ==>
      && me.run.steps == row.run.steps
      && TicketAtMost(TicketOf(me.run), TicketOf(row.run))
      && TicketOf(me.run) !in executed
  }

  /** A live worker about to record respects the ceiling as long as no quote was overrun. */
  ghost predicate QuoteSound(c: Contract, row: RunRow, overran: bool, me: Worker) {
    me.pc.Recording? && Live(row, me) && !overran ==>
      TotalCost(me.run.results) + me.pc.result.costUnits <= c.costCeiling
  }

  ghost predicate WorkerSound(c: Contract, row: RunRow, executed: seq<Ticket>, overran: bool, me: Worker) {
    PcShape(c, me) && TokenSound(row, me) && TicketSound(row, executed, me) && QuoteSound(c, row, overran, me)
  }

  ghost predicate ReceiptSound(row: RunRow) {
    && (row.claim.state == Finalized <==> row.receipt.Some?)
    && (row.run.status == Running <==> row.receipt == None)
    && (row.receipt.Some? ==> row.receipt.value == ReceiptOf(row.run, row.receipt.value.completedAt)
                              && row.run.status == Finished(row.receipt.value.status))
    && (row.claim.state == Active ==> row.claim.owner.Some?)
  }

  ghost predicate ExecutedSound(c: Contract, run: RoutineRun, executed: seq<Ticket>) {
    && (forall t :: t in executed ==>
         t.0 < |run.steps| && 1 <= t.1 <= MaxAttempts(c) && TicketAtMost(t, TicketOf(run)))
    && (forall i, j :: 0 <= i < j < |executed| ==> executed[i] != executed[j])
  }

  ghost predicate InFlightDistinct(workers: map<nat, Worker>) {
    forall v, w :: v in workers && w in workers && v != w && workers[v].pc.Executing? && workers[w].pc.Executing?
      ==> TicketOf(workers[v].run) != TicketOf(workers[w].run)
  }

  /** No revision is in two hands. */
  ghost predicate TokensDistinct(workers: map<nat, Worker>) {
    forall v, w :: v in workers && w in workers && v != w && !workers[v].pc.Stopped? && !workers[w].pc.Stopped?
      ==> workers[v].revision != workers[w].revision
  }

  ghost predicate WorkersSound(c: Contract, s: System) {
    forall w :: w in s.workers ==> WorkerSound(c, s.row, s.executed, s.overran, s.workers[w])
  }

  ghost predicate Inv(c: Contract, s: System) {
    && RunShape(c, s.row.run) && ReceiptSound(s.row)
    && ExecutedSound(c, s.row.run, s.executed)
    && WorkersSound(c, s) && InFlightDistinct(s.workers) && TokensDistinct(s.workers)
    && (!s.overran ==> TotalCost(s.row.run.results) <= c.costCeiling)
  }

  lemma InvInitially(c: Contract, s: System)
    requires Initial(s)
    ensures Inv(c, s)
  {
  }

  // ---------------------------------------------------------------------
  // One step
  // ---------------------------------------------------------------------

  /** What a row update may do to the stored run. */
  predicate RowGrows(row: RunRow, next: RunRow) {
    && next.claim.revision > row.claim.revision
    && next.run.steps == row.run.steps
    && TicketAtMost(TicketOf(row.run), TicketOf(next.run))
  }

  /** A worker that did not make the update loses its token and keeps everything else. */
  lemma BystanderSound(c: Contract, row: RunRow, next: RunRow, executed: seq<Ticket>, overran: bool, me: Worker)
    requires WorkerSound(c, row, executed, overran, me) && RowGrows(row, next)
    ensures WorkerSound(c, next, executed, overran, me) && !Live(next, me)
  {
  }

  lemma ExecutedGrows(c: Contract, run: RoutineRun, next: RoutineRun, executed: seq<Ticket>)
    requires ExecutedSound(c, run, executed) && next.steps == run.steps
    requires TicketAtMost(TicketOf(run), TicketOf(next))
    ensures ExecutedSound(c, next, executed)
  {
  }

  /** Replacing one worker and growing the row keeps the system sound. */
  lemma UpdateSound(c: Contract, s: System, row: RunRow, w: nat, me: Worker)
    requires Inv(c, s) && RowGrows(s.row, row) && RunShape(c, row.run) && ReceiptSound(row)
    requires WorkerSound(c, row, s.executed, s.overran, me)
    requires me.pc.Executing? ==> TicketLess(TicketOf(s.row.run), TicketOf(me.run))
    requires me.pc.Stopped? || me.revision == row.claim.revision
    requires !s.overran ==> TotalCost(row.run.results) <= c.costCeiling
    ensures Inv(c, SetWorker(s.(row := row), w, me))
  {
    hide RunShape, ReceiptSound, CeilingKept, TotalCost, PcShape;
    var t := SetWorker(s.(row := row), w, me);
    ExecutedGrows(c, s.row.run, row.run, s.executed);
    forall v | v in t.workers ensures WorkerSound(c, t.row, t.executed, t.overran, t.workers[v]) {
      if v != w { BystanderSound(c, s.row, row, s.executed, s.overran, s.workers[v]); }
    }
    forall v | v in s.workers && s.workers[v].pc.Executing?
      ensures TicketAtMost(TicketOf(s.workers[v].run), TicketOf(s.row.run))
    {
      assert WorkerSound(c, s.row, s.executed, s.overran, s.workers[v]);
    }
  }

  /** Replacing one worker alone, by one with no ticket in flight. */
  /** What the invariant says of one token. */
  lemma TokenOf(c: Contract, s: System, w: nat)
    requires Inv(c, s) && w in s.workers
    ensures TokenSound(s.row, s.workers[w])
  {
    assert WorkerSound(c, s.row, s.executed, s.overran, s.workers[w]);
  }

  lemma GotoSound(c: Contract, s: System, w: nat, me: Worker)
    requires Inv(c, s) && !me.pc.Executing? && w in s.workers
    requires me.pc.Stopped? || (!s.workers[w].pc.Stopped? && me.revision == s.workers[w].revision)
    requires WorkerSound(c, s.row, s.executed, s.overran, me)
    ensures Inv(c, SetWorker(s, w, me))
  {
  }

  lemma ChargedShape(c: Contract, run: RoutineRun)
    requires RunShape(c, run) && run.currentStep < |run.steps| && run.currentStepAttempts < MaxAttempts(c)
    ensures RunShape(c, Charged(run))
  {
  }

  lemma RecordedShape(c: Contract, run: RoutineRun, r: StepResult)
    requires RunShape(c, run) && run.currentStep < |run.steps|
    requires TotalCost(run.results) > c.costCeiling ==> r.costUnits == 0
    ensures RunShape(c, Recorded(run, r))
  {
    var n, m := run.currentStep, MaxAttempts(c);
    assert (n + 1) * m == n * m + m;
    var results := run.results + [r];
    forall k | 0 <= k < |results| && TotalCost(results[..k]) > c.costCeiling ensures results[k].costUnits == 0 {
      assert results[..k] == run.results[..k];
      assert k == |run.results| ==> results[..k] == run.results;
    }
  }

  lemma InvAfterCharge(c: Contract, s: System, w: nat)
    requires Inv(c, s) && w in s.workers
    ensures Inv(c, ChargeStep(s, w))
  {
    var me := s.workers[w];
    assert WorkerSound(c, s.row, s.executed, s.overran, me);
    if me.pc.Charging? {
      if Fenced(s.row, me.owner, me.revision) {
        ChargedShape(c, s.row.run);
        var run := Charged(me.run);
        var row := ProgressRow(s.row, run, me.owner, me.revision).value;
        UpdateSound(c, s, row, w, me.(run := run, revision := row.claim.revision, pc := Executing(me.pc.quote)));
      } else {
        GotoSound(c, s, w, me.(pc := Releasing));
      }
    }
  }

  lemma RecordedRow(c: Contract, row: RunRow, me: Worker) returns (next: RunRow)
    requires RunShape(c, row.run) && ReceiptSound(row) && TokenSound(row, me) && PcShape(c, me)
    requires me.pc.Recording? && Fenced(row, me.owner, me.revision)
    ensures ProgressRow(row, Recorded(me.run, me.pc.result), me.owner, me.revision) == Ok(next)
    ensures me.run == row.run && next.run == Recorded(row.run, me.pc.result)
    ensures RowGrows(row, next) && ReceiptSound(next)
    ensures Fenced(next, me.owner, next.claim.revision) && next.claim.state == Active
  {
    next := ProgressRow(row, Recorded(me.run, me.pc.result), me.owner, me.revision).value;
  }

  lemma InvAfterRecord(c: Contract, s: System, w: nat)
    requires Inv(c, s) && w in s.workers
    ensures Inv(c, RecordStep(s, w))
  {
    var me := s.workers[w];
    assert WorkerSound(c, s.row, s.executed, s.overran, me);
    if me.pc.Recording? {
      if Fenced(s.row, me.owner, me.revision) {
        RecordedShape(c, s.row.run, me.pc.result);
        var row := RecordedRow(c, s.row, me);
        assert !s.overran ==> TotalCost(row.run.results) <= c.costCeiling by {
          TotalCostAppend(me.run.results, me.pc.result);
        }
        hide CeilingKept, TotalCost;
        var next := if Stops(me.pc.result) then Finalizing else Deciding(None);
        var me' := me.(run := row.run, revision := row.claim.revision, pc := next);
        UpdateSound(c, s, row, w, me');
        assert RecordStep(s, w) == SetWorker(s.(row := row), w, me');
      } else {
        GotoSound(c, s, w, me.(pc := Releasing));
      }
    }
  }

  lemma InvAfterFinalize(c: Contract, s: System, w: nat, completedAt: int)
    requires Inv(c, s) && w in s.workers
    ensures Inv(c, FinalizeStep(s, w, completedAt))
  {
    var me := s.workers[w];
    assert WorkerSound(c, s.row, s.executed, s.overran, me);
    if me.pc.Finalizing? {
      if Fenced(s.row, me.owner, me.revision) {
        var run := Terminal(me.run);
        assert RunShape(c, run);
        var row := FinalizeRow(s.row, run, ReceiptOf(me.run, completedAt), me.owner, me.revision).value;
        UpdateSound(c, s, row, w, me.(pc := Stopped));
      } else {
        GotoSound(c, s, w, me.(pc := Releasing));
      }
    }
  }

  lemma InvAfterExecute(c: Contract, s: System, w: nat, outcome: Outcome)
    requires Inv(c, s) && w in s.workers
    ensures Inv(c, ExecuteStep(c, s, w, outcome))
  {
    var me := s.workers[w];
    var t := ExecuteStep(c, s, w, outcome);
    assert WorkerSound(c, s.row, s.executed, s.overran, me);
    if me.pc.Executing? {
      ExecutedShape(c, s.row, me, s.executed, s.overran, outcome);
      forall v | v in t.workers ensures WorkerSound(c, t.row, t.executed, t.overran, t.workers[v]) {
        if v != w { assert WorkerSound(c, s.row, s.executed, s.overran, s.workers[v]); }
      }
    }
  }

  lemma ExecutedShape(c: Contract, row: RunRow, me: Worker, executed: seq<Ticket>, overran: bool, outcome: Outcome)
    requires WorkerSound(c, row, executed, overran, me) && me.pc.Executing?
    ensures var next := me.(pc := AfterExecution(c, me.run, me.pc.quote, outcome));
            var over := overran || (outcome.Returned? && outcome.result.costUnits > me.pc.quote);
            WorkerSound(c, row, executed + [TicketOf(me.run)], over, next)
  {
  }

  lemma InvAfterClaim(c: Contract, s: System, w: nat, owner: string)
    requires Inv(c, s) && w !in s.workers && ClaimRow(s.row, owner).Ok?
    ensures Inv(c, Apply(c, s, Claim(w, owner)))
  {
    hide CeilingKept, TotalCost;
    var row := ClaimRow(s.row, owner).value;
    UpdateSound(c, s, row, w, Worker(owner, row.claim.revision, row.run, Claimed));
  }

  lemma InvAfterRelease(c: Contract, s: System, w: nat)
    requires Inv(c, s) && w in s.workers && s.workers[w].pc.Releasing?
    ensures Inv(c, ApplyWorker(c, s, Release(w)))
  {
    hide CeilingKept, TotalCost;
    var me := s.workers[w];
    assert WorkerSound(c, s.row, s.executed, s.overran, me);
    var row := ReleaseRow(s.row, me.owner);
    if row == s.row {
      GotoSound(c, s, w, me.(pc := Stopped));
      assert ApplyWorker(c, s, Release(w)) == SetWorker(s, w, me.(pc := Stopped));
    } else {
      UpdateSound(c, s, row, w, me.(pc := Stopped));
    }
  }

  lemma InvAfterRecover(c: Contract, s: System, revision: int, newOwner: string)
    requires Inv(c, s)
    ensures Inv(c, Apply(c, s, Recover(revision, newOwner)))
  {
    hide CeilingKept, TotalCost;
    var t := Apply(c, s, Recover(revision, newOwner));
    if t != s {
      forall v | v in s.workers ensures WorkerSound(c, t.row, s.executed, s.overran, s.workers[v]) {
        BystanderSound(c, s.row, t.row, s.executed, s.overran, s.workers[v]);
      }
    }
  }

  lemma InvAfterLocal(c: Contract, s: System, e: Event)
    requires Inv(c, s) && (e.Read? || e.Decide? || e.Fail? || e.Crash?) && e.w in s.workers
    ensures Inv(c, ApplyWorker(c, s, e))
  {
    hide RunShape, ReceiptSound, ExecutedSound, InFlightDistinct, TokensDistinct, CeilingKept, TotalCost;
    var me := s.workers[e.w];
    assert WorkerSound(c, s.row, s.executed, s.overran, me);
    match e
    case Read(w) =>
      if me.pc.Claimed? { GotoSound(c, s, w, me.(run := s.row.run, pc := Deciding(None))); }
    case Decide(w, quote) =>
      if me.pc.Deciding? { GotoSound(c, s, w, me.(pc := AfterDecision(c, me.run, me.pc.last, quote))); }
    case Fail(w) => if !me.pc.Stopped? { GotoSound(c, s, w, me.(pc := Releasing)); }
    case Crash(w) => GotoSound(c, s, w, me.(pc := Stopped));
  }

  lemma InvPreserved(c: Contract, s: System, e: Event)
    requires Inv(c, s)
    ensures Inv(c, Apply(c, s, e))
  {
    hide Inv, ClaimRow, ReleaseRow, ProgressRow, AfterDecision, AfterExecution, SetWorker, Goto, Save;
    if e.Claim? {
      if e.w !in s.workers && ClaimRow(s.row, e.owner).Ok? { InvAfterClaim(c, s, e.w, e.owner); }
    } else if e.Recover? {
      InvAfterRecover(c, s, e.expectedRevision, e.newOwner);
    } else if e.w in s.workers {
      match e
      case Release(w) => if s.workers[w].pc.Releasing? { InvAfterRelease(c, s, w); }
      case Charge(w) => InvAfterCharge(c, s, w);
      case Record(w) => InvAfterRecord(c, s, w);
      case Finalize(w, at) => InvAfterFinalize(c, s, w, at);
      case Execute(w, outcome) => InvAfterExecute(c, s, w, outcome);
      case _ => InvAfterLocal(c, s, e);
    }
  }

  lemma {:induction false} InvAlways(c: Contract, s: System, events: seq<Event>)
    requires Inv(c, s)
    ensures Inv(c, Run(c, s, events))
    decreases |events|
  {
    if events != [] {
      InvPreserved(c, s, events[0]);
      InvAlways(c, Apply(c, s, events[0]), events[1..]);
    }
  }
}
