/** `RoutineService.start_run` and `resume_run` (src/reckoning/automation.py:659-807). */
module RoutineService {
  import opened Wrappers
  import opened Text
  import opened Automation
  import opened AutomationRepository
  import opened RoutineRunProtocol

  /** What an executor's `quote_cost` amounts to. */
  datatype RawQuote = NoQuoteMethod | NotAnInteger | Amount(value: int)

  /** `_quote_step_cost`: a model step must be quoted, and a quote is never negative. */
  function QuoteStepCost(raw: RawQuote, step: RoutineStep): Quote {
    match raw
    case NoQuoteMethod => if step.kind == Model then Refused else Quoted(0)
    case NotAnInteger => Refused
    case Amount(value) => if value < 0 then Refused else Quoted(value)
  }

  datatype ExecutorCall = ExecutorCall(step: RoutineStep, key: string)

  /** The executors handed to `resume_run`: whatever they quote and answer, call by call. */
  class StepExecutors {
    const modelConfigured: bool
    const quotes: nat -> RawQuote
    const outcomes: nat -> Outcome
    var asked: seq<RoutineStep>
    var calls: seq<ExecutorCall>

    method QuoteCost(step: RoutineStep) returns (raw: RawQuote)
      modifies this`asked
      ensures asked == old(asked) + [step] && raw == quotes(|old(asked)|)
    {
      raw := quotes(|asked|);
      asked := asked + [step];
    }

    method Execute(step: RoutineStep, key: string) returns (outcome: Outcome)
      modifies this`calls
      ensures calls == old(calls) + [ExecutorCall(step, key)] && outcome == outcomes(|old(calls)|)
    {
      outcome := outcomes(|calls|);
      calls := calls + [ExecutorCall(step, key)];
    }
  }

  // ---------------------------------------------------------------------
  // What the executors said
  // ---------------------------------------------------------------------

  /** A quote that raises: no integer, a negative one, or none at all for a model step. */
  predicate Refuses(raw: RawQuote, step: RoutineStep) {
    || raw == NotAnInteger
    || (raw.Amount? && raw.value < 0)
    || (raw == NoQuoteMethod && step.kind == Model)
  }

  /** What any other quote offers. */
  function Offer(raw: RawQuote): int { if raw.Amount? then raw.value else 0 }

  predicate QuotedAs(raw: RawQuote, step: RoutineStep, quote: Quote) {
    match quote
    case NoExecutor => false
    case Refused => Refuses(raw, step)
    case Quoted(cost) => !Refuses(raw, step) && cost == Offer(raw)
  }

  lemma QuotesAreRead(raw: RawQuote, step: RoutineStep)
    ensures QuotedAs(raw, step, QuoteStepCost(raw, step))
  {
  }

  predicate NoExecutorFor(x: StepExecutors, step: RoutineStep) { step.kind == Model && !x.modelConfigured }

  /** The attempts of one step, from quote `a0` and call `b0` on: one quote and one call each, every quote within
      the ceiling, and every answer but the last an exception.  A last quote may have led to no call. */
  ghost predicate Attempts(x: StepExecutors, c: Contract, step: RoutineStep, left: nat, total: int,
                           a0: nat, b0: nat, a1: nat, b1: nat)
  {
    && a0 <= a1 && b0 <= b1 <= b0 + left && b1 - b0 <= a1 - a0 <= b1 - b0 + 1
    && (forall k :: a0 <= k < a0 + (b1 - b0) ==>
          !Refuses(x.quotes(k), step) && total + Offer(x.quotes(k)) <= c.costCeiling)
    && (forall k :: b0 <= k < b1 - 1 ==> x.outcomes(k).Raised?)
    && (a1 - a0 == b1 - b0 + 1 ==> b1 - b0 < left && (b1 > b0 ==> x.outcomes(b1 - 1).Raised?))
  }

  lemma NoAttempts(x: StepExecutors, c: Contract, step: RoutineStep, left: nat, total: int, a0: nat, b0: nat)
    ensures Attempts(x, c, step, left, total, a0, b0, a0, b0)
  {
  }

  /** One more quote, and one more call if it is neither refused nor over the ceiling. */
  lemma OneMoreAttempt(x: StepExecutors, c: Contract, step: RoutineStep, left: nat, total: int,
                       a0: nat, b0: nat, a1: nat, b1: nat)
    requires Attempts(x, c, step, left, total, a0, b0, a1, b1) && a1 - a0 == b1 - b0 < left
    requires b1 > b0 ==> x.outcomes(b1 - 1).Raised?
    ensures Attempts(x, c, step, left, total, a0, b0, a1 + 1, b1)
    ensures !Refuses(x.quotes(a1), step) && total + Offer(x.quotes(a1)) <= c.costCeiling ==>
              Attempts(x, c, step, left, total, a0, b0, a1 + 1, b1 + 1)
  {
  }

  /** So far every attempt raised, and `last` is what the last one left. */
  ghost predicate OnlyRaised(x: StepExecutors, c: Contract, step: RoutineStep, left: nat, total: int,
                             a0: nat, b0: nat, a1: nat, b1: nat, last: Option<StepResult>)
  {
    && Attempts(x, c, step, left, total, a0, b0, a1, b1)
    && b0 <= b1 && (last == None <==> b1 == b0)
    && (b1 > b0 ==>
          && !NoExecutorFor(x, step) && x.outcomes(b1 - 1).Raised?
          && last == Some(StepResult(Failed, x.outcomes(b1 - 1).detail, 0, 0)))
  }

  /** An answer as it is recorded: in its place a blocked one, exactly when it costs more than its quote or takes
      the total over the ceiling. */
  predicate RecordedFor(c: Contract, total: int, raw: RawQuote, answer: StepResult, result: StepResult) {
    if answer.costUnits > Offer(raw) || total + answer.costUnits > c.costCeiling then
      result == StepResult(Blocked, "Routine executor exceeded its preflight cost quote.", answer.costUnits,
                           answer.modelCalls)
    else result == answer
  }

  /** The result of one step, by cases of what its executor quoted and answered. */
  ghost predicate Explains(x: StepExecutors, c: Contract, step: RoutineStep, left: nat, total: int,
                           a0: nat, b0: nat, a1: nat, b1: nat, result: StepResult)
  {
    var unmet := a1 - a0 == b1 - b0 + 1;   // a last quote without a call
    && Attempts(x, c, step, left, total, a0, b0, a1, b1)
    && (if NoExecutorFor(x, step) then
          && a1 == a0
          && result == StepResult(Failed, if left > 0 then "No model executor is configured."
                                          else "Retry limit exhausted.", 0, 0)
        else if unmet then
          && !Refuses(x.quotes(a1 - 1), step) && total + Offer(x.quotes(a1 - 1)) > c.costCeiling
          && result == StepResult(Blocked, "Routine cost ceiling would be exceeded.", 0, 0)
        else if b1 == b0 then left == 0 && result == StepResult(Failed, "Retry limit exhausted.", 0, 0)
        else
          match x.outcomes(b1 - 1)
          case Interrupted => false
          case Raised(detail) => b1 - b0 == left && result == StepResult(Failed, detail, 0, 0)
          case Returned(answer) => RecordedFor(c, total, x.quotes(a1 - 1), answer, result))
  }

  /** An exception that ends the call: a refused quote, or an executor that was interrupted. */
  ghost predicate EndsCall(x: StepExecutors, c: Contract, step: RoutineStep, left: nat, total: int,
                           a0: nat, b0: nat, a1: nat, b1: nat, error: AutomationError)
  {
    && Attempts(x, c, step, left, total, a0, b0, a1, b1) && !NoExecutorFor(x, step)
    && (if a1 - a0 == b1 - b0 + 1 then error == QuoteRefused && Refuses(x.quotes(a1 - 1), step)
        else error == ExecutorInterrupted && b1 > b0 && x.outcomes(b1 - 1).Interrupted?)
  }

  lemma OutOfAttempts(x: StepExecutors, c: Contract, step: RoutineStep, left: nat, total: int,
                      a0: nat, b0: nat, a1: nat, b1: nat, last: Option<StepResult>)
    requires OnlyRaised(x, c, step, left, total, a0, b0, a1, b1, last) && a1 - a0 == b1 - b0 == left
    ensures Explains(x, c, step, left, total, a0, b0, a1, b1,
                     if last.Some? then last.value else StepResult(Failed, "Retry limit exhausted.", 0, 0))
  {
    hide Attempts;
  }

  /** A point between two steps: quotes asked for and calls made so far. */
  type Mark = (nat, nat)

  function AttemptsLeft(c: Contract, used: nat): nat {
    if used < MaxAttempts(c) then MaxAttempts(c) - used else 0
  }

  /** The `j`th result after those of `before`, explained by the quotes and answers between its two marks. */
  ghost predicate ExplainedAt(x: StepExecutors, c: Contract, before: RoutineRun, results: seq<StepResult>,
                              marks: seq<Mark>, j: nat)
    requires |before.results| + j < |results| && j + 1 < |marks|
  {
    && before.currentStep + j < |before.steps|
    && Explains(x, c, before.steps[before.currentStep + j],
                AttemptsLeft(c, if j == 0 then before.currentStepAttempts else 0),
                TotalCost(results[..|before.results| + j]), marks[j].0, marks[j].1, marks[j + 1].0, marks[j + 1].1,
                results[|before.results| + j])
  }

  ghost predicate AllExplained(x: StepExecutors, c: Contract, before: RoutineRun, results: seq<StepResult>,
                               marks: seq<Mark>)
  {
    && |before.results| <= |results| && |marks| == |results| - |before.results| + 1
    && forall j :: 0 <= j < |marks| - 1 ==> ExplainedAt(x, c, before, results, marks, j)
  }

  /** The answers in the `Execute` events of a behaviour, in order. */
  function OutcomesOf(events: seq<Event>): seq<Outcome> {
    if events == [] then []
    else
      var last := events[|events| - 1];
      OutcomesOf(events[..|events| - 1]) + (if last.Execute? then [last.outcome] else [])
  }

  /** The quotes in its `Decide` events, where there is one. */
  function QuotesOf(events: seq<Event>): seq<Quote> {
    if events == [] then []
    else
      var last := events[|events| - 1];
      QuotesOf(events[..|events| - 1]) + (if last.Decide? && last.quote != NoExecutor then [last.quote] else [])
  }

  /** Nothing left to attempt, or nobody to attempt it. */
  predicate NeedsNoQuote(x: StepExecutors, c: Contract, run: RoutineRun) {
    || run.currentStep >= |run.steps| || run.currentStepAttempts >= MaxAttempts(c)
    || NoExecutorFor(x, run.steps[run.currentStep])
  }

  /** The events say what the executors said: the answers are theirs, in order, the quotes are theirs, in order,
      and no decision is made without a quote where one is due. */
  ghost predicate AsTold(x: StepExecutors, c: Contract, start: System, events: seq<Event>, asked: nat, called: nat)
    reads x
  {
    && asked + |QuotesOf(events)| == |x.asked| && called + |OutcomesOf(events)| == |x.calls|
    && (forall k :: 0 <= k < |OutcomesOf(events)| ==> OutcomesOf(events)[k] == x.outcomes(called + k))
    && (forall k :: 0 <= k < |QuotesOf(events)| ==>
          QuotedAs(x.quotes(asked + k), x.asked[asked + k], QuotesOf(events)[k]))
    && (forall i :: 0 <= i < |events| && events[i].Decide? && events[i].quote == NoExecutor ==>
          NeedsNoQuote(x, c, Run(c, start, events[..i]).row.run))
  }

  function StepKey(run: RoutineRun, step: RoutineStep): string { run.idempotencyKey + ":" + step.id }

  /** The calls behind a list of tickets. */
  function CallsOf(run: RoutineRun, executed: seq<Ticket>): seq<ExecutorCall>
    requires forall t :: t in executed ==> t.0 < |run.steps|
  {
    if executed == [] then []
    else
      var last := executed[|executed| - 1];
      CallsOf(run, executed[..|executed| - 1])
      + [ExecutorCall(run.steps[last.0], run.idempotencyKey + ":" + run.steps[last.0].id)]
  }

  lemma CallsOfAppend(run: RoutineRun, executed: seq<Ticket>, t: Ticket)
    requires t.0 < |run.steps| && forall u :: u in executed ==> u.0 < |run.steps|
    ensures CallsOf(run, executed + [t])
            == CallsOf(run, executed) + [ExecutorCall(run.steps[t.0], StepKey(run, run.steps[t.0]))]
  {
    assert (executed + [t])[..|executed|] == executed;
  }

  function WithRow(s: RunTables, id: string, row: RunRow): RunTables {
    RunTables(s.runs[id := row.run], s.claims[id := row.claim],
              if row.receipt.Some? then s.receipts[id := row.receipt.value] else s.receipts)
  }

  /** The effect of the two saves on the tables, in terms of the one row they touch. */
  lemma ProgressWithRow(s: RunTables, id: string, row: RunRow, run: RoutineRun, owner: string, revision: nat)
    requires Has(s, id) && id !in s.receipts && row.receipt == None && run.id == id && Fenced(row, owner, revision)
    ensures ProgressCall(WithRow(s, id, row), run, owner, revision)
            == Call(WithRow(s, id, row.(run := run, claim := row.claim.(revision := revision + 1))), Ok(revision + 1))
  {
    var t := WithRow(s, id, row);
    assert RowOf(t, id) == row;
    assert t.runs[id := run] == s.runs[id := run];
    assert t.claims[id := row.claim.(revision := revision + 1)] == s.claims[id := row.claim.(revision := revision + 1)];
  }

  lemma FinalizeWithRow(s: RunTables, id: string, row: RunRow, run: RoutineRun, receipt: RoutineReceipt,
                        owner: string, revision: nat)
    requires Has(s, id) && id !in s.receipts && row.receipt == None && run.id == id && receipt.runId == id
    requires Fenced(row, owner, revision)
    ensures FinalizeRow(row, run, receipt, owner, revision).Ok?
    ensures var next := FinalizeRow(row, run, receipt, owner, revision).value;
            FinalizeCall(WithRow(s, id, row), run, receipt, owner, revision).tables == WithRow(s, id, next)
  {
    var t := WithRow(s, id, row);
    var next := FinalizeRow(row, run, receipt, owner, revision).value;
    assert RowOf(t, id) == row;
    assert t.runs[id := run] == s.runs[id := run];
    assert t.claims[id := next.claim] == s.claims[id := next.claim];
  }

  /** The run as one `resume_run` call finds it. */
  function Entered(row: RunRow): System { System(row, map[], [], false) }

  function ContractOf(proposals: map<string, RoutineProposal>, run: RoutineRun): Contract {
    if run.proposalId in proposals && ValidContract(proposals[run.proposalId]) then
      Contract(proposals[run.proposalId].terms.retryLimit, proposals[run.proposalId].terms.costCeiling)
    else Contract(0, 0)
  }

  predicate Agrees(proposal: RoutineProposal, c: Contract) {
    proposal.terms.retryLimit == c.retryLimit && proposal.terms.costCeiling == c.costCeiling
  }

  /** The results one uninterrupted call adds: all but the last let the loop go on, and it ends
      at the last step or at a result that stops it. */
  ghost predicate RanToTheEnd(before: RoutineRun, after: RoutineRun) {
    && before.results <= after.results
    && (forall i :: |before.results| <= i < |after.results| - 1 ==> !Stops(after.results[i]))
    && (after.currentStep >= |after.steps|
        || (|after.results| > |before.results| && Stops(after.results[|after.results| - 1])))
  }

  // ---------------------------------------------------------------------
  // One call followed through the protocol
  // ---------------------------------------------------------------------

  ghost predicate SameRun(before: RoutineRun, run: RoutineRun) {
    && run.id == before.id && run.proposalId == before.proposalId && run.steps == before.steps
    && run.idempotencyKey == before.idempotencyKey
  }

  /** The call is the only worker, its token is live, and it stands at `pc` with `run` in hand. */
  ghost predicate At(before: RoutineRun, s: System, me: Worker) {
    && s.workers == map[0 := me] && s.row.run == me.run && SameRun(before, me.run)
    && Fenced(s.row, me.owner, me.revision) && s.row.claim.state == Active && s.row.receipt == None
    && forall t :: t in s.executed ==> t.0 < |before.steps|
  }

  lemma EnterAt(c: Contract, before: RunRow, owner: string, revision: nat)
    requires before.receipt == None && ClaimRow(before, owner).Ok?
    requires revision == before.claim.revision + 1
    ensures var s := Run(c, Entered(before), [Claim(0, owner), Read(0)]);
            At(before.run, s, Worker(owner, revision, before.run, Deciding(None))) && s.executed == []
            && s.row == before.(claim := RunClaim(Some(owner), Active, revision))
  {
    var s1 := Apply(c, Entered(before), Claim(0, owner));
    var s2 := Apply(c, s1, Read(0));
    assert [Claim(0, owner), Read(0)][1..] == [Read(0)] && [Read(0)][1..] == [];
    assert Run(c, s1, [Read(0)]) == Run(c, s2, []);
  }

  lemma DecideAt(c: Contract, before: RoutineRun, s: System, me: Worker, quote: Quote)
    requires At(before, s, me) && me.pc.Deciding?
    ensures var t := Apply(c, s, Decide(0, quote));
            At(before, t, me.(pc := AfterDecision(c, me.run, me.pc.last, quote)))
            && t.row == s.row && t.executed == s.executed
  {
  }

  lemma ChargeAt(c: Contract, before: RoutineRun, s: System, me: Worker)
    requires At(before, s, me) && me.pc.Charging?
    ensures var t := Apply(c, s, Charge(0));
            At(before, t, Worker(me.owner, me.revision + 1, Charged(me.run), Executing(me.pc.quote)))
            && t.executed == s.executed
            && t.row == s.row.(run := Charged(me.run), claim := s.row.claim.(revision := me.revision + 1))
  {
  }

  lemma ExecuteAt(c: Contract, before: RoutineRun, s: System, me: Worker, outcome: Outcome)
    requires At(before, s, me) && me.pc.Executing? && me.run.currentStep < |before.steps|
    ensures var t := Apply(c, s, Execute(0, outcome));
            At(before, t, me.(pc := AfterExecution(c, me.run, me.pc.quote, outcome)))
            && t.row == s.row && t.executed == s.executed + [TicketOf(me.run)]
            && CallsOf(before, t.executed) == CallsOf(before, s.executed)
               + [ExecutorCall(before.steps[me.run.currentStep],
                               StepKey(before, before.steps[me.run.currentStep]))]
  {
    CallsOfAppend(before, s.executed, TicketOf(me.run));
  }

  lemma RecordAt(c: Contract, before: RoutineRun, s: System, me: Worker)
    requires At(before, s, me) && me.pc.Recording?
    ensures var t := Apply(c, s, Record(0));
            var run := Recorded(me.run, me.pc.result);
            At(before, t, Worker(me.owner, me.revision + 1, run,
                                 if Stops(me.pc.result) then Finalizing else Deciding(None)))
            && t.executed == s.executed
            && t.row == s.row.(run := run, claim := s.row.claim.(revision := me.revision + 1))
  {
  }

  ghost predicate AllStopped(s: System) { forall w :: w in s.workers ==> s.workers[w].pc.Stopped? }

  lemma FinalizeAt(c: Contract, before: RoutineRun, s: System, me: Worker, completedAt: int)
    requires At(before, s, me) && me.pc.Finalizing?
    ensures var t := Apply(c, s, Finalize(0, completedAt));
            AllStopped(t) && t.executed == s.executed
            && FinalizeRow(s.row, Terminal(me.run), ReceiptOf(me.run, completedAt), me.owner, me.revision) == Ok(t.row)
  {
  }

  lemma ReleaseAt(c: Contract, before: RoutineRun, s: System, me: Worker)
    requires At(before, s, me) && !me.pc.Stopped?
    ensures var t := Apply(c, Apply(c, s, Fail(0)), Release(0));
            AllStopped(t) && t.executed == s.executed && t.row == ReleaseRow(s.row, me.owner)
  {
  }

  // ---------------------------------------------------------------------
  // Where a call came from
  // ---------------------------------------------------------------------

  /** The tables, the executors and the contract as a call found them. */
  datatype Origin = Origin(
    tables: RunTables, runId: string, contract: Contract, asked: seq<RoutineStep>, calls: seq<ExecutorCall>)
  {
    predicate Known() { Has(tables, runId) && tables.runs[runId].id == runId }

    function Before(): RoutineRun
      requires Known()
    {
      tables.runs[runId]
    }

    function Start(): System
      requires Known()
    {
      Entered(RowOf(tables, runId))
    }

    function After(events: seq<Event>): System
      requires Known()
    {
      Run(contract, Start(), events)
    }
  }

  lemma OutcomesAppend(events: seq<Event>, e: Event)
    ensures OutcomesOf(events + [e]) == OutcomesOf(events) + (if e.Execute? then [e.outcome] else [])
    ensures QuotesOf(events + [e])
         == QuotesOf(events) + (if e.Decide? && e.quote != NoExecutor then [e.quote] else [])
  {
    assert (events + [e])[..|events|] == events;
  }

  /** One more event, which says what the executors said. */
  lemma ToldAppend(x: StepExecutors, c: Contract, start: System, events: seq<Event>, e: Event, asked: nat, called: nat,
                   told: seq<RoutineStep>, calls: seq<ExecutorCall>)
    requires asked + |QuotesOf(events)| == |told| && called + |OutcomesOf(events)| == |calls|
    requires told <= x.asked && calls <= x.calls
    requires forall k :: 0 <= k < |OutcomesOf(events)| ==> OutcomesOf(events)[k] == x.outcomes(called + k)
    requires forall k :: 0 <= k < |QuotesOf(events)| ==>
               QuotedAs(x.quotes(asked + k), told[asked + k], QuotesOf(events)[k])
    requires forall i :: 0 <= i < |events| && events[i].Decide? && events[i].quote == NoExecutor ==>
               NeedsNoQuote(x, c, Run(c, start, events[..i]).row.run)
    requires |x.calls| == |calls| + (if e.Execute? then 1 else 0)
    requires e.Execute? ==> e.outcome == x.outcomes(|calls|)
    requires |x.asked| == |told| + (if e.Decide? && e.quote != NoExecutor then 1 else 0)
    requires e.Decide? && e.quote != NoExecutor ==> QuotedAs(x.quotes(|told|), x.asked[|told|], e.quote)
    requires e.Decide? && e.quote == NoExecutor ==> NeedsNoQuote(x, c, Run(c, start, events).row.run)
    ensures AsTold(x, c, start, events + [e], asked, called)
  {
    hide Run, QuotedAs, NeedsNoQuote;
    OutcomesAppend(events, e);
    hide QuotesOf, OutcomesOf;
    var longer := events + [e];
    forall i | 0 <= i < |longer| && longer[i].Decide? && longer[i].quote == NoExecutor
      ensures NeedsNoQuote(x, c, Run(c, start, longer[..i]).row.run)
    {
      assert longer[..i] == events[..i];
      if i == |events| { assert events[..i] == events; }
    }
  }

  /** Between two marks only the step between them is asked for. */
  ghost predicate AskedInOrder(asked: seq<RoutineStep>, before: RoutineRun, marks: seq<Mark>) {
    forall j, k {:trigger marks[j], asked[k]} ::
      0 <= j < |marks| - 1 && marks[j].0 <= k < marks[j + 1].0 && k < |asked| ==>
        before.currentStep + j < |before.steps| && asked[k] == before.steps[before.currentStep + j]
  }

  /** A finished call: the receipt repeats the stored run, which ran to its last step or to a result that stops
      it, and whose new results are what the executors' quotes and answers amount to. */
  ghost predicate Completed(executors: StepExecutors, o: Origin, events: seq<Event>, marks: seq<Mark>,
                            receipt: RoutineReceipt, completedAt: int)
    requires o.Known()
    reads executors
  {
    var end := o.After(events);
    && end.row.receipt == Some(receipt) && end.row.claim.state == Finalized
    && receipt.results == end.row.run.results && receipt.completedAt == completedAt
    && receipt.runId == o.runId && receipt.proposalId == o.Before().proposalId
    && receipt.attempts == end.row.run.attempts
    && receipt.status == AggregateStatus(receipt.results, |o.Before().steps|)
    && RanToTheEnd(o.Before(), end.row.run)
    && AllExplained(executors, o.contract, o.Before(), receipt.results, marks)
    && AskedInOrder(executors.asked, o.Before(), marks)
    && marks[0] == (|o.asked|, |o.calls|) && marks[|marks| - 1] == (|executors.asked|, |executors.calls|)
  }

  /** A call that an exception ended in the middle of a step: the results before it are explained, and so is
      the exception. */
  ghost predicate BrokenOff(executors: StepExecutors, o: Origin, run: RoutineRun, marks: seq<Mark>,
                            error: AutomationError)
    requires o.Known()
    reads executors
  {
    var before, results := o.Before(), run.results;
    && AllExplained(executors, o.contract, before, results, marks)
    && AskedInOrder(executors.asked, before, marks + [(|executors.asked|, |executors.calls|)])
    && marks[0] == (|o.asked|, |o.calls|)
    && var mark, j := marks[|marks| - 1], |results| - |before.results|;
       && before.currentStep + j < |before.steps|
       && EndsCall(executors, o.contract, before.steps[before.currentStep + j],
                   AttemptsLeft(o.contract, if j == 0 then before.currentStepAttempts else 0), TotalCost(results),
                   mark.0, mark.1, |executors.asked|, |executors.calls|, error)
  }

  /** The results so far are explained, between marks that end where the executors stand now. */
  ghost predicate Marked(executors: StepExecutors, o: Origin, run: RoutineRun, marks: seq<Mark>)
    reads executors
  {
    && o.Known() && run.steps == o.Before().steps
    && |marks| == |run.results| - |o.Before().results| + 1 && marks != []
    && run.currentStep - o.Before().currentStep == |marks| - 1
    && run.currentStepAttempts == (if |marks| == 1 then o.Before().currentStepAttempts else 0)
    && AllExplained(executors, o.contract, o.Before(), run.results, marks)
    && AskedInOrder(executors.asked, o.Before(), marks)
    && (forall j :: 0 <= j < |marks| ==> marks[j].0 <= |executors.asked|)
    && marks[0] == (|o.asked|, |o.calls|) && marks[|marks| - 1] == (|executors.asked|, |executors.calls|)
  }

  lemma NothingMarked(executors: StepExecutors, o: Origin)
    requires o.Known() && executors.asked == o.asked && executors.calls == o.calls
    ensures Marked(executors, o, o.Before(), [(|executors.asked|, |executors.calls|)])
  {
    NothingToExplain(executors, o.contract, o.Before(), (|executors.asked|, |executors.calls|));
    hide AllExplained, AskedInOrder;
  }

  lemma BreaksOff(executors: StepExecutors, o: Origin, run: RoutineRun, marks: seq<Mark>, error: AutomationError)
    requires o.Known() && AllExplained(executors, o.contract, o.Before(), run.results, marks)
    requires AskedInOrder(executors.asked, o.Before(), marks + [(|executors.asked|, |executors.calls|)])
    requires marks[0] == (|o.asked|, |o.calls|) && o.Before().currentStep + |marks| - 1 < |o.Before().steps|
    requires EndsCall(executors, o.contract, o.Before().steps[o.Before().currentStep + |marks| - 1],
                      AttemptsLeft(o.contract, if |marks| == 1 then o.Before().currentStepAttempts else 0),
                      TotalCost(run.results), marks[|marks| - 1].0, marks[|marks| - 1].1, |executors.asked|,
                      |executors.calls|, error)
    ensures BrokenOff(executors, o, run, marks, error)
  {
    assert |marks| - 1 == |run.results| - |o.Before().results|;
    hide EndsCall, AllExplained, AskedInOrder, TotalCost, AttemptsLeft;
  }

  lemma BreakingError(executors: StepExecutors, o: Origin, run: RoutineRun, marks: seq<Mark>, error: AutomationError)
    requires o.Known() && BrokenOff(executors, o, run, marks, error)
    ensures error == QuoteRefused || error == ExecutorInterrupted
  {
    hide AllExplained, AskedInOrder, Attempts, TotalCost, AttemptsLeft;
  }

  lemma ClaimGivenBack(s: RunTables, id: string, owner: string)
    requires Has(s, id) && ClaimedBy(s.claims[id], owner).Ok?
    ensures ReleaseCall(ClaimCall(s, id, owner).tables, id, owner)
         == WithClaim(s, id, RunClaim(Some(owner), Unclaimed, s.claims[id].revision + 2))
  {
    var claim := RunClaim(Some(owner), Active, s.claims[id].revision + 1);
    assert s.claims[id := claim][id := ReleasedBy(claim, owner)] == s.claims[id := ReleasedBy(claim, owner)];
  }

  lemma Completes(executors: StepExecutors, o: Origin, events: seq<Event>, marks: seq<Mark>, run: RoutineRun,
                  completedAt: int)
    requires o.Known() && SameRun(o.Before(), run)
    requires o.After(events).row.receipt == Some(ReceiptOf(run, completedAt))
    requires o.After(events).row.claim.state == Finalized && o.After(events).row.run == Terminal(run)
    requires RanToTheEnd(o.Before(), run)
    requires Marked(executors, o, run, marks)
    ensures Completed(executors, o, events, marks, ReceiptOf(run, completedAt), completedAt)
  {
    hide AllExplained, AskedInOrder, AggregateStatus, Run, Stops;
  }

  /** The contract is confirmed and made for this trigger. */
  predicate Startable(proposals: map<string, RoutineProposal>, proposalId: string, triggeredBy: string) {
    && proposalId in proposals && proposals[proposalId].status == Confirmed
    && proposals[proposalId].terms.trigger == triggeredBy
  }

  predicate KeyUsed(s: RunTables, key: string) { exists id :: id in s.runs && s.runs[id].idempotencyKey == key }

  /** There are steps, every one of them is an action the contract names, and a model may be used if one is. */
  predicate Covered(terms: RoutineTerms, steps: seq<RoutineStep>, casefold: string -> string) {
    && steps != [] && (forall step :: step in steps ==> step.action in terms.tools)
    && ((exists step :: step in steps && step.kind == Model) ==> Contains(casefold(terms.modelPolicy), "model"))
  }

  function StartError(proposals: map<string, RoutineProposal>, proposalId: string, steps: seq<RoutineStep>,
                      triggeredBy: string, casefold: string -> string): AutomationError
  {
    if proposalId !in proposals then UnknownProposal
    else if !Startable(proposals, proposalId, triggeredBy) then NotPermitted
    else if steps == [] then InvalidValue
    else if !Covered(proposals[proposalId].terms, steps, casefold) then NotPermitted
    else KeyReuse
  }

  class RoutineService {
    const repository: InMemoryAutomationRepository
    const casefold: string -> string

    constructor (repository: InMemoryAutomationRepository, casefold: string -> string)
      ensures this.repository == repository && this.casefold == casefold
    {
      this.repository := repository;
      this.casefold := casefold;
    }

    /** A run is stored only under a confirmed contract whose trigger, tools and model policy cover it. */
    method StartRun(runId: string, proposalId: string, scheduledFor: int, key: string, steps: seq<RoutineStep>,
                    triggeredBy: string)
      returns (r: Result<RoutineRun, AutomationError>, ghost found: Option<RoutineRun>)
      requires repository.Valid()
      modifies repository`runs, repository`claims
      ensures repository.Valid()
      ensures r.Ok? ==>
        && Found(old(repository.Tables()), key, found)
        && proposalId in repository.proposals && repository.proposals[proposalId].status == Confirmed
        && triggeredBy == repository.proposals[proposalId].terms.trigger
      ensures repository.Tables() != old(repository.Tables()) ==>
        && r.Ok? && found == None && runId !in old(repository.runs)
        && r.value == RoutineRun(runId, proposalId, scheduledFor, key, steps, Running, 0, 0, 0, [])
        && repository.Tables() == StartCall(old(repository.Tables()), r.value, None).tables
        && steps != []
        && (forall step :: step in steps ==> step.action in repository.proposals[proposalId].terms.tools)
        && ((exists step :: step in steps && step.kind == Model) ==>
             Contains(casefold(repository.proposals[proposalId].terms.modelPolicy), "model"))
      ensures r.Ok? && repository.Tables() == old(repository.Tables()) ==> found == Some(r.value)
      ensures r.Err? ==> r.error == StartError(repository.proposals, proposalId, steps, triggeredBy, casefold)
      ensures r.Ok? <==> Startable(repository.proposals, proposalId, triggeredBy)
                         && (KeyUsed(old(repository.Tables()), key)
                             || (runId !in old(repository.runs)
                                 && Covered(repository.proposals[proposalId].terms, steps, casefold)))
    {
      found := None;
      if proposalId !in repository.proposals { return Err(UnknownProposal), found; }
      var proposal := repository.proposals[proposalId];
      if proposal.status != Confirmed { return Err(NotPermitted), found; }
      if triggeredBy != proposal.terms.trigger { return Err(NotPermitted), found; }
      var existing := repository.FindRunByKey(key);
      if existing.Some? { found := existing; return Ok(existing.value), found; }
      if steps == [] { return Err(InvalidValue), found; }
      if exists step :: step in steps && step.action !in proposal.terms.tools { return Err(NotPermitted), found; }
      if (exists step :: step in steps && step.kind == Model)
         && !Contains(casefold(proposal.terms.modelPolicy), "model") {
        return Err(NotPermitted), found;
      }
      var run := RoutineRun(runId, proposalId, scheduledFor, key, steps, Running, 0, 0, 0, []);
      r, found := repository.StartRun(run);
      if r.Ok? { assert runId in repository.Tables().runs; }
    }

    /** One uninterrupted call.  Its effect on the store and on the executors is a behaviour of the protocol, so
        every theorem about behaviours applies to it; the quotes and answers in that behaviour are those of the
        executors; and each result it adds is explained by them. */
    method ResumeRun(runId: string, executors: StepExecutors, completedAt: int, owner: string)
      returns (r: Result<RoutineReceipt, AutomationError>, ghost events: seq<Event>, ghost marks: seq<Mark>)
      requires repository.Valid()
      modifies repository`runs, repository`claims, repository`receipts, executors
      ensures repository.Valid()
      ensures runId in old(repository.receipts) ==>
        r == Ok(old(repository.receipts)[runId]) && repository.Tables() == old(repository.Tables())
        && executors.calls == old(executors.calls) && executors.asked == old(executors.asked)
      ensures runId !in old(repository.receipts) && runId !in old(repository.runs) ==>
        r == Err(UnknownRun) && repository.Tables() == old(repository.Tables())
        && executors.calls == old(executors.calls) && executors.asked == old(executors.asked)
      ensures runId !in old(repository.receipts) && runId in old(repository.runs) ==>
        var o := OriginOf(old(repository.Tables()), runId, old(executors.asked), old(executors.calls));
        var end := o.After(events);
        && Behaved(executors, o, events) && AllStopped(end)
        && (r.Ok? ==> Completed(executors, o, events, marks, r.value, completedAt))
        && (r.Err? ==> end.row == o.Start().row || end.row.claim.state == Unclaimed)
        && (r.Err? && (r.error == QuoteRefused || r.error == ExecutorInterrupted) ==>
              BrokenOff(executors, o, end.row.run, marks, r.error))
      ensures runId !in old(repository.receipts) && runId in old(repository.runs) ==>
        var claim := old(repository.claims)[runId];
        var held := claim.state == Finalized || (claim.state == Active && claim.owner != Some(owner));
        var known := old(repository.runs)[runId].proposalId in repository.proposals;
        && (r == Err(ClaimConflict) <==> held)
        && (r == Err(UnknownProposal) <==> !held && !known)
        && (r.Err? ==> r.error in {ClaimConflict, UnknownProposal, QuoteRefused, ExecutorInterrupted})
        && (held || !known ==> executors.calls == old(executors.calls) && executors.asked == old(executors.asked))
        && (held ==> repository.Tables() == old(repository.Tables()))
        && (!held && !known ==>
              repository.Tables() == WithClaim(old(repository.Tables()), runId,
                                               RunClaim(Some(owner), Unclaimed, claim.revision + 2)))
    {
      hide AfterDecision, AfterExecution, TotalCost, AggregateStatus, ReceiptOf, Terminal, Inv, BrokenOff, Completed;
      hide AsTold, Tracked, AllStopped, Behaved;
      events, marks := [], [];
      if runId in repository.receipts { return Ok(repository.receipts[runId]), events, marks; }
      ghost var tables := repository.Tables();
      var claimed := repository.ClaimRun(runId, owner);
      if claimed.Err? {
        if runId in repository.runs { NothingHappened(executors, tables, runId); }
        return Err(claimed.error), events, marks;
      }
      ghost var o := OriginOf(tables, runId, executors.asked, executors.calls);
      var revision := claimed.value;
      var run := repository.runs[runId];
      events := Enter(executors, o, owner, revision);
      if run.proposalId !in repository.proposals {
        events := Abandon(runId, owner, executors, o, events, Worker(owner, revision, run, Deciding(None)));
        ClaimGivenBack(tables, runId, owner);
        return Err(UnknownProposal), events, marks;
      }
      var proposal := repository.proposals[run.proposalId];
      r, events, marks := RunSteps(executors, proposal, owner, revision, run, completedAt, runId, o, events);
    }

    function OriginOf(tables: RunTables, runId: string, asked: seq<RoutineStep>, calls: seq<ExecutorCall>): Origin
      requires runId in tables.runs
      reads repository
    {
      Origin(tables, runId, ContractOf(repository.proposals, tables.runs[runId]), asked, calls)
    }

    /** Store and executors have been changed as the events say, and nothing else has; and the events say what the
        executors said. */
    ghost predicate Behaved(executors: StepExecutors, o: Origin, events: seq<Event>)
      reads repository, executors
    {
      && repository.Valid() && o.Known()
      && (forall t :: t in o.After(events).executed ==> t.0 < |o.Before().steps|)
      && repository.Tables() == WithRow(o.tables, o.runId, o.After(events).row)
      && executors.calls == o.calls + CallsOf(o.Before(), o.After(events).executed)
      && o.asked <= executors.asked
      && AsTold(executors, o.contract, o.Start(), events, |o.asked|, |o.calls|)
    }

    /** The call, and with it store and executors, stands at a point of the protocol. */
    ghost predicate Tracked(executors: StepExecutors, o: Origin, events: seq<Event>, me: Worker)
      reads repository, executors
    {
      && o.Known() && o.runId !in o.tables.receipts
      && At(o.Before(), o.After(events), me) && Behaved(executors, o, events)
    }

    lemma NothingHappened(executors: StepExecutors, tables: RunTables, runId: string)
      requires repository.Valid() && repository.Tables() == tables && runId in tables.runs
      ensures var o := OriginOf(tables, runId, executors.asked, executors.calls);
              && o.Known() && Behaved(executors, o, []) && AllStopped(o.After([]))
              && o.After([]).row == o.Start().row
    {
      assert tables == WithRow(tables, runId, RowOf(tables, runId));
    }

    /** The claim and the first read, seen as events. */
    ghost method Enter(executors: StepExecutors, o: Origin, owner: string, revision: nat) returns (events: seq<Event>)
      requires o.Known() && o.runId !in o.tables.receipts && ClaimRow(RowOf(o.tables, o.runId), owner).Ok?
      requires revision == o.tables.claims[o.runId].revision + 1 && repository.Valid()
      requires repository.Tables() == WithClaim(o.tables, o.runId, RunClaim(Some(owner), Active, revision))
      requires executors.calls == o.calls && executors.asked == o.asked
      ensures Tracked(executors, o, events, Worker(owner, revision, o.Before(), Deciding(None)))
    {
      events := [Claim(0, owner), Read(0)];
      EnterAt(o.contract, RowOf(o.tables, o.runId), owner, revision);
      assert events == [] + [Claim(0, owner)] + [Read(0)];
      OutcomesAppend([], Claim(0, owner));
      OutcomesAppend([] + [Claim(0, owner)], Read(0));
      hide Run, OutcomesOf, QuotesOf;
      assert o.tables.runs[o.runId := o.Before()] == o.tables.runs;
      assert repository.Tables() == WithRow(o.tables, o.runId, o.After(events).row);
    }

    /** The steps, and the finalization. */
    method RunSteps(executors: StepExecutors, proposal: RoutineProposal, owner: string, revision0: nat,
                    run0: RoutineRun, completedAt: int, runId: string, ghost o: Origin, ghost events0: seq<Event>)
      returns (r: Result<RoutineReceipt, AutomationError>, ghost events: seq<Event>, ghost marks: seq<Mark>)
      requires Tracked(executors, o, events0, Worker(owner, revision0, run0, Deciding(None)))
      requires runId == o.runId && run0 == o.Before() && executors.asked == o.asked && executors.calls == o.calls
      requires Agrees(proposal, o.contract)
      modifies repository`runs, repository`claims, repository`receipts, executors
      ensures repository.Valid() && Behaved(executors, o, events) && AllStopped(o.After(events))
      ensures r.Ok? ==> Completed(executors, o, events, marks, r.value, completedAt)
      ensures r.Err? ==> o.After(events).row.claim.state == Unclaimed
                         && BrokenOff(executors, o, o.After(events).row.run, marks, r.error)
                         && (r.error == QuoteRefused || r.error == ExecutorInterrupted)
    {
      NothingMarked(executors, o);
      hide Tracked, Behaved, AllStopped, Run, TotalCost, Marked, Completed, BrokenOff, RanToTheEnd;
      var failed, run, revision;
      failed, run, revision, events, marks :=
        RunLoop(executors, proposal, owner, revision0, run0, o, events0, [(|executors.asked|, |executors.calls|)]);
      if failed.Some? {
        BreakingError(executors, o, run, marks, failed.value);
        events := Abandon(runId, owner, executors, o, events, Worker(owner, revision, run, Releasing));
        return Err(failed.value), events, marks;
      }
      r, events := Finish(executors, owner, revision, run, completedAt, o, events);
      Completes(executors, o, events, marks, run, completedAt);
    }

    /** The loop over the steps. */
    method RunLoop(executors: StepExecutors, proposal: RoutineProposal, owner: string, revision0: nat,
                   run0: RoutineRun, ghost o: Origin, ghost events0: seq<Event>, ghost marks0: seq<Mark>)
      returns (failed: Option<AutomationError>, run: RoutineRun, revision: nat, ghost events: seq<Event>,
               ghost marks: seq<Mark>)
      requires Tracked(executors, o, events0, Worker(owner, revision0, run0, Deciding(None)))
      requires Marked(executors, o, run0, marks0) && Agrees(proposal, o.contract)
      modifies repository`runs, repository`claims, executors
      ensures failed == None ==>
                && Tracked(executors, o, events, Worker(owner, revision, run, Finalizing))
                && Marked(executors, o, run, marks) && RanToTheEnd(run0, run)
      ensures failed.Some? ==>
                && Tracked(executors, o, events, Worker(owner, revision, run, Releasing))
                && BrokenOff(executors, o, run, marks, failed.value)
    {
      hide Tracked, Run, TotalCost, Marked, BrokenOff, RanToTheEnd;
      run, revision, events, marks := run0, revision0, events0, marks0;
      failed := None;
      var totalCost := SumCosts(run.results);
      var index := run.currentStep;
      var stopped := false;
      while index < |run.steps| && !stopped
        invariant Tracked(executors, o, events, Worker(owner, revision, run,
                                                       if stopped then Finalizing else Deciding(None)))
        invariant Marked(executors, o, run, marks)
        invariant totalCost == TotalCost(run.results) && index == run.currentStep && run.steps == run0.steps
        invariant run0.results <= run.results
        invariant forall i :: |run0.results| <= i < |run.results| - 1 ==> !Stops(run.results[i])
        invariant |run.results| > |run0.results| ==> Stops(run.results[|run.results| - 1]) == stopped
        invariant stopped ==> |run.results| > |run0.results|
        decreases |run.steps| - index
      {
        var attempt;
        attempt, run, revision, events, marks :=
          RunStep(executors, proposal, owner, revision, run, totalCost, o, events, marks);
        if attempt.Err? {
          failed := Some(attempt.error);
          return;
        }
        var stepResult := attempt.value;
        totalCost := totalCost + stepResult.costUnits;
        stopped := stepResult.status == Blocked || stepResult.status == Failed;
        index := index + 1;
      }
      if !stopped {
        events := Decided(executors, o, events, Worker(owner, revision, run, Deciding(None)), NoExecutor);
      }
      RanOn(run0, run, stopped);
    }

    /** One turn of that loop: the attempts of a step and the save of its result. */
    method RunStep(executors: StepExecutors, proposal: RoutineProposal, owner: string, revision0: nat,
                   run0: RoutineRun, totalCost: int, ghost o: Origin, ghost events0: seq<Event>,
                   ghost marks0: seq<Mark>)
      returns (r: Result<StepResult, AutomationError>, run: RoutineRun, revision: nat, ghost events: seq<Event>,
               ghost marks: seq<Mark>)
      requires Tracked(executors, o, events0, Worker(owner, revision0, run0, Deciding(None)))
      requires Marked(executors, o, run0, marks0)
      requires run0.currentStep < |run0.steps| && totalCost == TotalCost(run0.results) && Agrees(proposal, o.contract)
      modifies repository`runs, repository`claims, executors
      ensures r.Ok? ==>
                && Tracked(executors, o, events, Worker(owner, revision, run,
                                                        if Stops(r.value) then Finalizing else Deciding(None)))
                && Marked(executors, o, run, marks) && run.results == run0.results + [r.value]
                && run.currentStep == run0.currentStep + 1 && run.steps == run0.steps
                && TotalCost(run.results) == totalCost + r.value.costUnits
      ensures r.Err? ==>
                && Tracked(executors, o, events, Worker(owner, revision, run, Releasing))
                && BrokenOff(executors, o, run, marks, r.error)
    {
      hide Tracked, Run, TotalCost, Explains, EndsCall, AllExplained, AskedInOrder, BrokenOff, AttemptsLeft;
      marks := marks0;
      ghost var asked := executors.asked;
      r, run, revision, events := AttemptStep(executors, proposal, owner, revision0, run0, totalCost, o, events0);
      ghost var next := (|executors.asked|, |executors.calls|);
      AskedOneMore(asked, executors.asked, o.Before(), marks, next);
      if r.Err? {
        BreaksOff(executors, o, run, marks, r.error);
        return;
      }
      ExplainedOneMore(executors, o.contract, o.Before(), run.results, marks, r.value, next);
      TotalCostAppend(run.results, r.value);
      revision, run, events := SaveResult(executors, owner, revision, run, r.value, o, events);
      marks := marks + [next];
    }

    /** The attempt loop of one step.  An error stands for the exception that `resume_run` releases on. */
    method AttemptStep(executors: StepExecutors, proposal: RoutineProposal, owner: string, revision0: nat,
                       run0: RoutineRun, totalCost: int, ghost o: Origin, ghost events0: seq<Event>)
      returns (r: Result<StepResult, AutomationError>, run: RoutineRun, revision: nat, ghost events: seq<Event>)
      requires Tracked(executors, o, events0, Worker(owner, revision0, run0, Deciding(None)))
      requires run0.currentStep < |run0.steps| && totalCost == TotalCost(run0.results)
      requires Agrees(proposal, o.contract)
      modifies repository`runs, repository`claims, executors
      ensures Tracked(executors, o, events,
                      Worker(owner, revision, run, if r.Ok? then Recording(r.value) else Releasing))
      ensures run == run0.(attempts := run.attempts, currentStepAttempts := run.currentStepAttempts)
      ensures old(executors.asked) <= executors.asked
      ensures forall k :: |old(executors.asked)| <= k < |executors.asked| ==>
                executors.asked[k] == run0.steps[run0.currentStep]
      ensures var step, left := run0.steps[run0.currentStep], AttemptsLeft(o.contract, run0.currentStepAttempts);
              var a0, b0 := |old(executors.asked)|, |old(executors.calls)|;
              var a1, b1 := |executors.asked|, |executors.calls|;
              if r.Ok? then Explains(executors, o.contract, step, left, totalCost, a0, b0, a1, b1, r.value)
              else EndsCall(executors, o.contract, step, left, totalCost, a0, b0, a1, b1, r.error)
    {
      hide Tracked, Attempts, Explains, EndsCall, TotalCost;
      run, revision, events := run0, revision0, events0;
      var step := run.steps[run.currentStep];
      var maxAttempts := proposal.terms.retryLimit + 1;
      var stepResult: Option<StepResult> := None;
      ghost var a0, b0 := |executors.asked|, |executors.calls|;
      ghost var left := AttemptsLeft(o.contract, run0.currentStepAttempts);
      NoAttempts(executors, o.contract, step, left, totalCost, a0, b0);
      while run.currentStepAttempts < maxAttempts
        invariant Tracked(executors, o, events, Worker(owner, revision, run, Deciding(stepResult)))
        invariant run == run0.(attempts := run.attempts, currentStepAttempts := run.currentStepAttempts)
        invariant old(executors.asked) <= executors.asked
        invariant forall k :: a0 <= k < |executors.asked| ==> executors.asked[k] == step
        invariant |executors.asked| - a0 == |executors.calls| - b0
        invariant |executors.calls| - b0 == run.currentStepAttempts - run0.currentStepAttempts
        invariant |executors.calls| - b0 <= left
        invariant OnlyRaised(executors, o.contract, step, left, totalCost, a0, b0, |executors.asked|,
                             |executors.calls|, stepResult)
        decreases maxAttempts - run.currentStepAttempts
      {
        var end;
        end, stepResult, run, revision, events :=
          TryOnce(executors, proposal, step, owner, revision, run, totalCost, stepResult, left, a0, b0, o, events);
        if end.Some? { return end.value, run, revision, events; }
      }
      events := Decided(executors, o, events, Worker(owner, revision, run, Deciding(stepResult)), NoExecutor);
      r := Ok(if stepResult.Some? then stepResult.value else StepResult(Failed, "Retry limit exhausted.", 0, 0));
      OutOfAttempts(executors, o.contract, step, left, totalCost, a0, b0, |executors.asked|, |executors.calls|,
                    stepResult);
    }

    /** One attempt: quote, write-ahead save, call. */
    method TryOnce(executors: StepExecutors, proposal: RoutineProposal, step: RoutineStep, owner: string,
                   revision0: nat, run0: RoutineRun, totalCost: int, last0: Option<StepResult>, ghost left: nat,
                   ghost a0: nat, ghost b0: nat, ghost o: Origin, ghost events0: seq<Event>)
      returns (end: Option<Result<StepResult, AutomationError>>, last: Option<StepResult>, run: RoutineRun,
               revision: nat, ghost events: seq<Event>)
      requires Tracked(executors, o, events0, Worker(owner, revision0, run0, Deciding(last0)))
      requires run0.currentStep < |run0.steps| && step == run0.steps[run0.currentStep]
      requires totalCost == TotalCost(run0.results) && run0.currentStepAttempts < MaxAttempts(o.contract)
      requires Agrees(proposal, o.contract)
      requires |executors.asked| - a0 == |executors.calls| - b0 < left
      requires OnlyRaised(executors, o.contract, step, left, totalCost, a0, b0, |executors.asked|, |executors.calls|,
                          last0)
      modifies repository`runs, repository`claims, executors
      ensures var pc := if end == None then Deciding(last)
                        else if end.value.Ok? then Recording(end.value.value) else Releasing;
              Tracked(executors, o, events, Worker(owner, revision, run, pc))
      ensures run == run0.(attempts := run.attempts, currentStepAttempts := run.currentStepAttempts)
      ensures old(executors.asked) <= executors.asked
      ensures forall k :: |old(executors.asked)| <= k < |executors.asked| ==> executors.asked[k] == step
      ensures var a1, b1 := |executors.asked|, |executors.calls|;
              match end
              case None => a1 - |old(executors.asked)| == b1 - |old(executors.calls)| == 1
                           && run.currentStepAttempts == run0.currentStepAttempts + 1
                           && OnlyRaised(executors, o.contract, step, left, totalCost, a0, b0, a1, b1, last)
              case Some(Ok(result)) => Explains(executors, o.contract, step, left, totalCost, a0, b0, a1, b1, result)
              case Some(Err(error)) => EndsCall(executors, o.contract, step, left, totalCost, a0, b0, a1, b1, error)
    {
      hide Tracked, Attempts, TotalCost;
      end, last, run, revision, events := None, last0, run0, revision0, events0;
      if step.kind == Model && !executors.modelConfigured {
        events := Decided(executors, o, events, Worker(owner, revision, run, Deciding(last)), NoExecutor);
        return Some(Ok(StepResult(Failed, "No model executor is configured.", 0, 0))), last, run, revision, events;
      }
      OneMoreAttempt(executors, o.contract, step, left, totalCost, a0, b0, |executors.asked|, |executors.calls|);
      var quote;
      quote, events := AskForQuote(executors, step, owner, revision, run, last, o, events);
      if quote == Refused { return Some(Err(QuoteRefused)), last, run, revision, events; }
      if totalCost + quote.cost > proposal.terms.costCeiling {
        return Some(Ok(StepResult(Blocked, "Routine cost ceiling would be exceeded.", 0, 0))), last, run, revision,
               events;
      }
      var outcome;
      outcome, run, revision, events := ChargeAndCall(executors, step, owner, revision, run, quote.cost, o, events);
      match outcome
      case Interrupted => end := Some(Err(ExecutorInterrupted));
      case Raised(detail) => last := Some(StepResult(Failed, detail, 0, 0));
      case Returned(result) =>
        if result.costUnits > quote.cost || totalCost + result.costUnits > proposal.terms.costCeiling {
          end := Some(Ok(StepResult(Blocked, "Routine executor exceeded its preflight cost quote.", result.costUnits,
                                    result.modelCalls)));
        } else {
          end := Some(Ok(result));
        }
    }

    /** The attempt is saved before the executor is called. */
    method ChargeAndCall(executors: StepExecutors, step: RoutineStep, owner: string, revision0: nat, run0: RoutineRun,
                         quote: nat, ghost o: Origin, ghost events0: seq<Event>)
      returns (outcome: Outcome, run: RoutineRun, revision: nat, ghost events: seq<Event>)
      requires Tracked(executors, o, events0, Worker(owner, revision0, run0, Charging(quote)))
      requires run0.currentStep < |run0.steps| && step == run0.steps[run0.currentStep]
      modifies repository`runs, repository`claims, executors`calls
      ensures run == run0.(attempts := run0.attempts + 1, currentStepAttempts := run0.currentStepAttempts + 1)
      ensures outcome == executors.outcomes(|old(executors.calls)|)
      ensures executors.calls == old(executors.calls) + [ExecutorCall(step, StepKey(run, step))]
      ensures Tracked(executors, o, events,
                      Worker(owner, revision, run, AfterExecution(o.contract, run, quote, outcome)))
    {
      hide Tracked, AfterExecution, StepKey;
      revision, run, events := SaveAttempt(executors, owner, revision0, run0, quote, o, events0);
      outcome, events := CallExecutor(executors, step, owner, revision, run, quote, o, events);
    }

    /** `_quote_step_cost` on the executor of the step. */
    method AskForQuote(executors: StepExecutors, step: RoutineStep, owner: string, revision: nat, run: RoutineRun,
                       ghost last: Option<StepResult>, ghost o: Origin, ghost events0: seq<Event>)
      returns (quote: Quote, ghost events: seq<Event>)
      requires Tracked(executors, o, events0, Worker(owner, revision, run, Deciding(last)))
      requires run.currentStep < |run.steps| && step == run.steps[run.currentStep]
      modifies executors`asked
      ensures executors.asked == old(executors.asked) + [step]
      ensures QuotedAs(executors.quotes(|old(executors.asked)|), step, quote)
      ensures Tracked(executors, o, events, Worker(owner, revision, run, AfterDecision(o.contract, run, last, quote)))
    {
      hide Run, Apply, CallsOf, AfterDecision;
      ghost var before := executors.asked;
      ghost var me := Worker(owner, revision, run, Deciding(last));
      var raw := executors.QuoteCost(step);
      quote := QuoteStepCost(raw, step);
      QuotesAreRead(raw, step);
      DecideAt(o.contract, o.Before(), o.After(events0), me, quote);
      ToldAppend(executors, o.contract, o.Start(), events0, Decide(0, quote), |o.asked|, |o.calls|, before,
                 executors.calls);
      events := Step(o.contract, o.Start(), events0, Decide(0, quote));
    }

    /** A decision that asks for no quote. */
    ghost method Decided(executors: StepExecutors, o: Origin, events0: seq<Event>, me: Worker, quote: Quote)
      returns (events: seq<Event>)
      requires Tracked(executors, o, events0, me) && me.pc.Deciding? && quote == NoExecutor
      requires NeedsNoQuote(executors, o.contract, me.run)
      ensures Tracked(executors, o, events, me.(pc := AfterDecision(o.contract, me.run, me.pc.last, quote)))
    {
      hide Run, Apply, CallsOf, AfterDecision;
      DecideAt(o.contract, o.Before(), o.After(events0), me, quote);
      ToldAppend(executors, o.contract, o.Start(), events0, Decide(0, quote), |o.asked|, |o.calls|, executors.asked,
                 executors.calls);
      events := Step(o.contract, o.Start(), events0, Decide(0, quote));
    }

    /** An event that is neither a decision nor a call. */
    lemma QuietEvent(executors: StepExecutors, o: Origin, events: seq<Event>, e: Event)
      requires o.Known() && AsTold(executors, o.contract, o.Start(), events, |o.asked|, |o.calls|)
      requires !e.Decide? && !e.Execute?
      ensures AsTold(executors, o.contract, o.Start(), events + [e], |o.asked|, |o.calls|)
    {
      hide Run;
      ToldAppend(executors, o.contract, o.Start(), events, e, |o.asked|, |o.calls|, executors.asked, executors.calls);
    }

    /** The write-ahead save of one attempt. */
    method SaveAttempt(executors: StepExecutors, owner: string, revision0: nat, run0: RoutineRun, quote: nat,
                       ghost o: Origin, ghost events0: seq<Event>)
      returns (revision: nat, run: RoutineRun, ghost events: seq<Event>)
      requires Tracked(executors, o, events0, Worker(owner, revision0, run0, Charging(quote)))
      modifies repository`runs, repository`claims
      ensures Tracked(executors, o, events, Worker(owner, revision, run, Executing(quote)))
      ensures run == run0.(attempts := run0.attempts + 1, currentStepAttempts := run0.currentStepAttempts + 1)
    {
      hide Run, Apply, CallsOf, AsTold;
      run := run0.(attempts := run0.attempts + 1, currentStepAttempts := run0.currentStepAttempts + 1);
      ChargeAt(o.contract, o.Before(), o.After(events0), Worker(owner, revision0, run0, Charging(quote)));
      ProgressWithRow(o.tables, o.runId, o.After(events0).row, run, owner, revision0);
      var saved := repository.SaveRunProgress(run, owner, revision0);
      revision := saved.value;
      QuietEvent(executors, o, events0, Charge(0));
      events := Step(o.contract, o.Start(), events0, Charge(0));
    }

    method CallExecutor(executors: StepExecutors, step: RoutineStep, owner: string, revision: nat, run: RoutineRun,
                        quote: nat, ghost o: Origin, ghost events0: seq<Event>)
      returns (outcome: Outcome, ghost events: seq<Event>)
      requires Tracked(executors, o, events0, Worker(owner, revision, run, Executing(quote)))
      requires run.currentStep < |run.steps| && step == run.steps[run.currentStep]
      modifies executors`calls
      ensures outcome == executors.outcomes(|old(executors.calls)|)
      ensures executors.calls == old(executors.calls) + [ExecutorCall(step, StepKey(run, step))]
      ensures Tracked(executors, o, events,
                      Worker(owner, revision, run, AfterExecution(o.contract, run, quote, outcome)))
    {
      hide Run, Apply, CallsOf, AfterExecution;
      ghost var before := executors.calls;
      outcome := executors.Execute(step, StepKey(run, step));
      ExecuteAt(o.contract, o.Before(), o.After(events0), Worker(owner, revision, run, Executing(quote)), outcome);
      ToldAppend(executors, o.contract, o.Start(), events0, Execute(0, outcome), |o.asked|, |o.calls|, executors.asked,
                 before);
      hide AsTold;
      events := Step(o.contract, o.Start(), events0, Execute(0, outcome));
    }

    /** The save of a step's result. */
    method SaveResult(executors: StepExecutors, owner: string, revision0: nat, run0: RoutineRun, result: StepResult,
                      ghost o: Origin, ghost events0: seq<Event>)
      returns (revision: nat, run: RoutineRun, ghost events: seq<Event>)
      requires Tracked(executors, o, events0, Worker(owner, revision0, run0, Recording(result)))
      modifies repository`runs, repository`claims
      ensures Tracked(executors, o, events,
                      Worker(owner, revision, run, if Stops(result) then Finalizing else Deciding(None)))
      ensures run == run0.(currentStep := run0.currentStep + 1, currentStepAttempts := 0,
                           results := run0.results + [result])
    {
      hide Run, Apply, CallsOf, AsTold;
      run := run0.(currentStep := run0.currentStep + 1, currentStepAttempts := 0, results := run0.results + [result]);
      RecordAt(o.contract, o.Before(), o.After(events0), Worker(owner, revision0, run0, Recording(result)));
      ProgressWithRow(o.tables, o.runId, o.After(events0).row, run, owner, revision0);
      var saved := repository.SaveRunProgress(run, owner, revision0);
      revision := saved.value;
      QuietEvent(executors, o, events0, Record(0));
      events := Step(o.contract, o.Start(), events0, Record(0));
    }

    /** The terminal save together with the receipt. */
    method Finish(executors: StepExecutors, owner: string, revision: nat, run: RoutineRun, completedAt: int,
                  ghost o: Origin, ghost events0: seq<Event>)
      returns (r: Result<RoutineReceipt, AutomationError>, ghost events: seq<Event>)
      requires Tracked(executors, o, events0, Worker(owner, revision, run, Finalizing))
      modifies repository`runs, repository`claims, repository`receipts
      ensures repository.Valid() && Behaved(executors, o, events) && AllStopped(o.After(events))
      ensures r == Ok(ReceiptOf(run, completedAt)) && o.After(events).row.receipt == Some(r.value)
      ensures o.After(events).row.claim.state == Finalized && o.After(events).row.run == Terminal(run)
      ensures SameRun(o.Before(), run)
    {
      hide Run, Apply, CallsOf, AsTold;
      var status := AggregateStatus(run.results, |run.steps|);
      var terminal := run.(status := Finished(status));
      var receipt := RoutineReceipt(run.id, run.proposalId, status, completedAt, run.attempts, run.results);
      FinalizeAt(o.contract, o.Before(), o.After(events0), Worker(owner, revision, run, Finalizing), completedAt);
      FinalizeWithRow(o.tables, o.runId, o.After(events0).row, terminal, receipt, owner, revision);
      var finalized := repository.FinalizeRun(terminal, receipt, owner, revision);
      QuietEvent(executors, o, events0, Finalize(0, completedAt));
      events := Step(o.contract, o.Start(), events0, Finalize(0, completedAt));
      r := Ok(receipt);
    }

    /** The `except BaseException` clause. */
    method Abandon(runId: string, owner: string, executors: StepExecutors, ghost o: Origin, ghost events0: seq<Event>,
                   ghost me: Worker)
      returns (ghost events: seq<Event>)
      requires Tracked(executors, o, events0, me) && me.owner == owner && !me.pc.Stopped? && runId == o.runId
      modifies repository`claims
      ensures Behaved(executors, o, events) && AllStopped(o.After(events))
      ensures repository.Valid() && o.After(events).row.claim.state == Unclaimed && o.After(events).row.run == me.run
      ensures repository.Tables() == ReleaseCall(old(repository.Tables()), runId, owner)
    {
      hide Run, Apply, CallsOf, AsTold;
      ReleaseAt(o.contract, o.Before(), o.After(events0), me);
      repository.ReleaseRun(runId, owner);
      QuietEvent(executors, o, events0, Fail(0));
      QuietEvent(executors, o, events0 + [Fail(0)], Release(0));
      events := Step(o.contract, o.Start(), events0, Fail(0));
      events := Step(o.contract, o.Start(), events, Release(0));
    }
  }

  lemma RanOn(before: RoutineRun, run: RoutineRun, stopped: bool)
    requires before.results <= run.results
    requires forall i :: |before.results| <= i < |run.results| - 1 ==> !Stops(run.results[i])
    requires |run.results| > |before.results| ==> Stops(run.results[|run.results| - 1]) == stopped
    requires stopped ==> |run.results| > |before.results|
    requires run.currentStep >= |run.steps| || stopped
    ensures RanToTheEnd(before, run)
  {
  }

  lemma AskedOneMore(asked: seq<RoutineStep>, longer: seq<RoutineStep>, before: RoutineRun, marks: seq<Mark>,
                     next: Mark)
    requires marks != [] && asked <= longer && AskedInOrder(asked, before, marks)
    requires (forall j :: 0 <= j < |marks| ==> marks[j].0 <= |asked|) && marks[|marks| - 1].0 == |asked|
    requires before.currentStep + |marks| - 1 < |before.steps|
    requires forall k :: |asked| <= k < |longer| ==> longer[k] == before.steps[before.currentStep + |marks| - 1]
    ensures AskedInOrder(longer, before, marks + [next])
  {
  }

  lemma NothingToExplain(x: StepExecutors, c: Contract, before: RoutineRun, mark: Mark)
    ensures AllExplained(x, c, before, before.results, [mark]) && forall asked :: AskedInOrder(asked, before, [mark])
  {
  }

  lemma StillExplained(x: StepExecutors, c: Contract, before: RoutineRun, results: seq<StepResult>,
                       marks: seq<Mark>, result: StepResult, next: Mark, j: nat)
    requires |before.results| + j < |results| && j + 1 < |marks| && ExplainedAt(x, c, before, results, marks, j)
    ensures ExplainedAt(x, c, before, results + [result], marks + [next], j)
  {
    hide Explains, TotalCost, AttemptsLeft;
    assert (results + [result])[..|before.results| + j] == results[..|before.results| + j];
  }

  lemma ExplainedOneMore(x: StepExecutors, c: Contract, before: RoutineRun, results: seq<StepResult>,
                         marks: seq<Mark>, result: StepResult, next: Mark)
    requires AllExplained(x, c, before, results, marks)
    requires before.currentStep + |marks| - 1 < |before.steps|
    requires Explains(x, c, before.steps[before.currentStep + |marks| - 1],
                      AttemptsLeft(c, if |marks| == 1 then before.currentStepAttempts else 0), TotalCost(results),
                      marks[|marks| - 1].0, marks[|marks| - 1].1, next.0, next.1, result)
    ensures AllExplained(x, c, before, results + [result], marks + [next])
  {
    hide Explains, TotalCost, AttemptsLeft;
    assert ExplainedAt(x, c, before, results + [result], marks + [next], |marks| - 1) by {
      assert (results + [result])[..|results|] == results;
    }
    hide ExplainedAt;
    forall j | 0 <= j < |marks| - 1 ensures ExplainedAt(x, c, before, results + [result], marks + [next], j) {
      StillExplained(x, c, before, results, marks, result, next, j);
    }
  }

  /** One more event of a behaviour. */
  ghost method Step(c: Contract, start: System, events: seq<Event>, e: Event)
    returns (longer: seq<Event>)
    ensures longer == events + [e] && Run(c, start, longer) == Apply(c, Run(c, start, events), e)
  {
    RunAppend(c, start, events, e);
    longer := events + [e];
  }

  method SumCosts(results: seq<StepResult>) returns (total: int)
    ensures total == TotalCost(results)
  {
    total := 0;
    for i := 0 to |results|
      invariant total == TotalCost(results[..i])
    {
      assert results[..i + 1] == results[..i] + [results[i]];
      TotalCostAppend(results[..i], results[i]);
      total := total + results[i].costUnits;
    }
    assert results[..|results|] == results;
  }
}
