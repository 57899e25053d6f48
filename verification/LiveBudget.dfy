/** The budget of a live evaluation run: reserve before the call, reconcile after it
    (src/reckoning/conversation_evaluation.py:242-564).  Amounts are exact rationals. */
module LiveBudget {
  import opened Wrappers
  import Text

  type Amount = r: real | r >= 0.0

  datatype PriceBasis = PriceBasis(
    currency: string, version: string, inputPer1M: Amount, outputPer1M: Amount, supportsPricing: bool)

  const PRICE_BASIS_VERSION := "2026-09-20"

  const PRICE_BASIS: map<string, PriceBasis> := map[
    "deepseek" := PriceBasis("USD", PRICE_BASIS_VERSION, 0.50, 2.00, true),
    "openai" := PriceBasis("USD", PRICE_BASIS_VERSION, 2.50, 10.00, true),
    "anthropic" := PriceBasis("USD", PRICE_BASIS_VERSION, 0.80, 4.00, true),
    "google-gemini" := PriceBasis("USD", PRICE_BASIS_VERSION, 0.10, 0.40, true),
    "orcarouter" := PriceBasis("USD", PRICE_BASIS_VERSION, 0.0, 0.0, false),
    "custom" := PriceBasis("USD", PRICE_BASIS_VERSION, 0.0, 0.0, false),
    "ollama" := PriceBasis("USD", PRICE_BASIS_VERSION, 0.0, 0.0, true),
    "lmstudio" := PriceBasis("USD", PRICE_BASIS_VERSION, 0.0, 0.0, true),
    "vllm" := PriceBasis("USD", PRICE_BASIS_VERSION, 0.0, 0.0, true),
    "llamacpp" := PriceBasis("USD", PRICE_BASIS_VERSION, 0.0, 0.0, true)
  ]

  datatype CompletionStatus = Started | ResponseReceived | TransportFailed | InvalidProviderCost

  datatype CostStatus = Measured | Estimated | Unavailable

  datatype AttemptReceipt = AttemptReceipt(
    callNumber: nat, reserved: Amount, completion: CompletionStatus, latencyMs: Option<int>, costStatus: CostStatus,
    estimated: Option<Amount>, actual: Option<Amount>, overrun: bool, failureKind: string)

  /** What `_provider_reported_metrics` makes of a response: an error, or counts and a cost. */
  datatype Metrics =
    | Malformed
    | Reported(input: Option<nat>, output: Option<nat>, total: Option<nat>, actual: Option<Amount>,
               currency: Option<string>)

  datatype BudgetError = InvalidValue | Exhausted | UnknownCall

  /** Fixed when the budget is opened. */
  datatype Limits = Limits(
    maxCalls: nat, maxCost: Option<real>, basis: Option<PriceBasis>, reservedInput: nat, reservedOutput: nat)

  datatype State = State(
    callsUsed: nat, totalCost: Amount, exhausted: bool, receipts: seq<AttemptReceipt>, outstanding: map<nat, Amount>)

  // ---------------------------------------------------------------------
  // The rules
  // ---------------------------------------------------------------------

  predicate Priced(basis: Option<PriceBasis>) { basis.Some? && basis.value.supportsPricing }

  /** The basis of a provider, whose name is stripped and folded to one case first. */
  function BasisOf(provider: string, casefold: string -> string): Option<PriceBasis> {
    var name := casefold(Text.Strip(provider));
    if name in PRICE_BASIS then Some(PRICE_BASIS[name]) else None
  }

  /** Space around the name does not matter: what counts is the folded name within. */
  lemma BasisFoundExactly(provider: string, name: string, casefold: string -> string)
    requires Text.Trims(name, provider)
    ensures BasisOf(provider, casefold).Some? <==> casefold(name) in PRICE_BASIS
    ensures casefold(name) in PRICE_BASIS ==> BasisOf(provider, casefold).value == PRICE_BASIS[casefold(name)]
  {
    hide Text.Trims;
    Text.TrimsOnlyThat(name, provider);
  }

  function NotNegative(n: int): nat { if n < 0 then 0 else n }

  /** A run needs a positive call limit, and a price basis if it is to bound cost. */
  predicate Opens(maxCalls: Option<int>, maxCost: Option<real>, basis: Option<PriceBasis>) {
    maxCalls.Some? && maxCalls.value > 0 && (maxCost.Some? ==> Priced(basis))
  }

  function Price(basis: PriceBasis, input: nat, output: nat): Amount {
    (input as real * basis.inputPer1M + output as real * basis.outputPer1M) / 1000000.0
  }

  /** A million input tokens cost the input rate, a million output tokens the output rate, and prices add up. */
  lemma PricesAreLinear(basis: PriceBasis, i: nat, j: nat, o: nat, p: nat)
    ensures Price(basis, 1000000, 0) == basis.inputPer1M && Price(basis, 0, 1000000) == basis.outputPer1M
    ensures Price(basis, 0, 0) == 0.0
    ensures Price(basis, i + j, o + p) == Price(basis, i, o) + Price(basis, j, p)
  {
    Distributes(i as real, j as real, basis.inputPer1M);
    Distributes(o as real, p as real, basis.outputPer1M);
  }

  lemma Distributes(a: real, b: real, rate: real)
    ensures (a + b) * rate == a * rate + b * rate
  {
  }

  function ReservedCost(c: Limits): Amount {
    if Priced(c.basis) then Price(c.basis.value, c.reservedInput, c.reservedOutput) else 0.0
  }

  function Estimate(c: Limits, m: Metrics): Option<Amount>
    requires m.Reported?
  {
    if Priced(c.basis) && m.input.Some? && m.output.Some? && m.total.Some? then
      Some(Price(c.basis.value, m.input.value, m.output.value))
    else None
  }

  /** `sum(self._outstanding.values())`, over the call numbers handed out so far. */
  function OutstandingCost(outstanding: map<nat, Amount>, callsUsed: nat): Amount {
    if callsUsed == 0 then 0.0
    else OutstandingCost(outstanding, callsUsed - 1)
         + (if callsUsed in outstanding then outstanding[callsUsed] else 0.0)
  }

  function NewReceipt(callNumber: nat, reserved: Amount): AttemptReceipt {
    AttemptReceipt(callNumber, reserved, Started, None, Unavailable, None, None, false, "")
  }

  function AfterCheck(c: Limits, s: State): (State, Result<nat, BudgetError>) {
    if s.exhausted then (s, Err(Exhausted))
    else if s.callsUsed >= c.maxCalls then (s.(exhausted := true), Err(Exhausted))
    else
      var reserved := ReservedCost(c);
      if c.maxCost.Some? && c.basis.Some?
         && s.totalCost + OutstandingCost(s.outstanding, s.callsUsed) + reserved > c.maxCost.value then
        (s.(exhausted := true), Err(Exhausted))
      else
        var n := s.callsUsed + 1;
        (State(n, s.totalCost, n >= c.maxCalls, s.receipts + [NewReceipt(n, reserved)], s.outstanding[n := reserved]),
         Ok(n))
  }

  /** Takes the call off the outstanding ones, adds what it cost and replaces its receipt. */
  function Settle(s: State, n: nat, spent: Amount, exhausts: bool, receipt: AttemptReceipt): State
    requires 1 <= n <= |s.receipts|
  {
    State(s.callsUsed, s.totalCost + spent, s.exhausted || exhausts, s.receipts[n - 1 := receipt], s.outstanding - {n})
  }

  function InvalidCost(r: AttemptReceipt, latencyMs: int, reason: string): AttemptReceipt {
    r.(completion := InvalidProviderCost, latencyMs := Some(latencyMs), failureKind := reason)
  }

  /** A reported cost must come with the currency of the price basis. */
  predicate CostUsable(c: Limits, m: Metrics)
    requires m.Reported?
  {
    m.actual.Some? ==> m.currency.Some? && (c.basis.Some? ==> m.currency.value == c.basis.value.currency)
  }

  function Spent(c: Limits, m: Metrics, reserved: Amount): Amount
    requires m.Reported?
  {
    if m.actual.Some? then m.actual.value
    else if Estimate(c, m).Some? then Estimate(c, m).value
    else reserved
  }

  predicate Overruns(c: Limits, m: Metrics, reserved: Amount)
    requires m.Reported?
  {
    if m.actual.Some? then Priced(c.basis) && m.actual.value > reserved
    else Estimate(c, m).Some? && Estimate(c, m).value > reserved
  }

  function Answered(c: Limits, m: Metrics, r: AttemptReceipt, latencyMs: int): AttemptReceipt
    requires m.Reported?
  {
    r.(completion := ResponseReceived, latencyMs := Some(latencyMs),
       costStatus := if m.actual.Some? then Measured else if Estimate(c, m).Some? then Estimated else Unavailable,
       estimated := Estimate(c, m), actual := m.actual, overrun := Overruns(c, m, r.reserved))
  }

  function AfterResponse(c: Limits, s: State, n: nat, latencyMs: int, m: Metrics): (State, Result<(), BudgetError>)
    requires Indexed(s)
  {
    if n !in s.outstanding then (s, Err(UnknownCall))
    else
      var r := s.receipts[n - 1];
      var reserved := s.outstanding[n];
      if m.Malformed? then
        (Settle(s, n, reserved, true, InvalidCost(r, latencyMs, "invalid-amount")), Err(InvalidValue))
      else if !CostUsable(c, m) then
        var reason := if m.currency == None then "missing-currency" else "currency-mismatch";
        (Settle(s, n, reserved, true, InvalidCost(r, latencyMs, reason)), Err(InvalidValue))
      else
        var spent := Spent(c, m, reserved);
        var exhausts := Overruns(c, m, reserved) || (c.maxCost.Some? && s.totalCost + spent > c.maxCost.value);
        (Settle(s, n, spent, exhausts, Answered(c, m, r, latencyMs)), Ok(()))
  }

  /** A response whose cost can be accounted for: it could be read, and an actual cost has the currency of the
      price basis. */
  predicate Acceptable(c: Limits, m: Metrics) {
    && m.Reported?
    && (m.actual.Some? ==>
          m.currency.Some? && (c.basis == None || m.currency == Some(c.basis.value.currency)))
  }

  lemma AcceptableIsUsable(c: Limits, m: Metrics)
    ensures Acceptable(c, m) <==> m.Reported? && CostUsable(c, m)
  {
  }

  /** What a call cost: the actual cost if it was reported, else the price of the reported tokens if a price basis
      and all three counts are there, else what was reserved. */
  ghost predicate Costs(c: Limits, m: Metrics, reserved: Amount, cost: Amount)
    requires m.Reported?
  {
    if m.actual.Some? then cost == m.actual.value
    else if c.basis.Some? && c.basis.value.supportsPricing && m.input.Some? && m.output.Some? && m.total.Some? then
      1000000.0 * cost == m.input.value as real * c.basis.value.inputPer1M
                          + m.output.value as real * c.basis.value.outputPer1M
    else cost == reserved
  }

  /** An answer ends its reservation.  One that can be accounted for is charged at its cost, kept in its receipt
      with its source, and exhausts the budget when the total passes the limit or the call cost more than was
      reserved for it where that is known; any other one is charged at the reservation and exhausts it. */
  lemma ResponseTells(c: Limits, s: State, n: nat, latencyMs: int, m: Metrics)
    requires Indexed(s) && n in s.outstanding && s.receipts[n - 1].reserved == s.outstanding[n]
    ensures var (t, r) := AfterResponse(c, s, n, latencyMs, m);
            var receipt := t.receipts[n - 1];
            && t.outstanding == s.outstanding - {n} && |t.receipts| == |s.receipts|
            && (forall k :: 0 <= k < |s.receipts| && k != n - 1 ==> t.receipts[k] == s.receipts[k])
            && (r.Ok? <==> Acceptable(c, m)) && receipt.latencyMs == Some(latencyMs)
            && (!Acceptable(c, m) ==>
                 && t.totalCost == s.totalCost + s.outstanding[n] && t.exhausted
                 && receipt == s.receipts[n - 1].(completion := InvalidProviderCost, latencyMs := Some(latencyMs),
                                                  failureKind := receipt.failureKind)
                 && (receipt.failureKind == "invalid-amount" <==> m.Malformed?)
                 && (receipt.failureKind == "missing-currency" <==> m.Reported? && m.currency == None)
                 && (receipt.failureKind == "currency-mismatch" <==> m.Reported? && m.currency.Some?))
            && (Acceptable(c, m) ==>
                 && Costs(c, m, s.outstanding[n], t.totalCost - s.totalCost)
                 && receipt.completion == ResponseReceived && receipt.actual == m.actual
                 && receipt.callNumber == s.receipts[n - 1].callNumber && receipt.reserved == s.outstanding[n]
                 && receipt.failureKind == s.receipts[n - 1].failureKind
                 && (receipt.estimated.Some? ==>
                       Costs(c, m.(actual := None), s.outstanding[n], receipt.estimated.value))
                 && (receipt.estimated.Some? <==> c.basis.Some? && c.basis.value.supportsPricing && m.input.Some?
                                                  && m.output.Some? && m.total.Some?)
                 && (receipt.costStatus == Measured <==> m.actual.Some?)
                 && (m.actual == None ==> (receipt.costStatus == Estimated <==> receipt.estimated.Some?))
                 && (receipt.overrun <==> c.basis.Some? && c.basis.value.supportsPricing
                                          && t.totalCost - s.totalCost > s.outstanding[n])
                 && (t.exhausted <==> s.exhausted || receipt.overrun
                                      || (c.maxCost.Some? && t.totalCost > c.maxCost.value)))
  {
  }

  /** A failed transport is charged at the reservation, and exhausts the budget once that reaches the limit. */
  lemma FailureTells(c: Limits, s: State, n: nat, latencyMs: int, kind: string)
    requires Indexed(s) && n in s.outstanding
    ensures var (t, r) := AfterFailure(c, s, n, latencyMs, kind);
            && r == Ok(()) && t.outstanding == s.outstanding - {n}
            && t.totalCost == s.totalCost + s.outstanding[n] && |t.receipts| == |s.receipts|
            && (forall k :: 0 <= k < |s.receipts| && k != n - 1 ==> t.receipts[k] == s.receipts[k])
            && t.receipts[n - 1] == s.receipts[n - 1].(completion := TransportFailed, latencyMs := Some(latencyMs),
                                                       failureKind := kind)
            && (t.exhausted <==> s.exhausted || (c.maxCost.Some? && t.totalCost >= c.maxCost.value))
  {
  }

  /** The receipt of a call that has started and of which nothing more is known. */
  predicate NothingHeard(r: AttemptReceipt) {
    && r.completion == Started && r.latencyMs == None && r.costStatus == Unavailable && r.estimated == None
    && r.actual == None && !r.overrun && r.failureKind == ""
  }

  /** A call is admitted exactly while the budget is not exhausted, calls are left, and, under a cost limit with
      a price basis, what is spent and reserved leaves room for one more reservation. */
  lemma AdmittedExactly(c: Limits, s: State)
    requires c.maxCost.Some? ==> Priced(c.basis)
    ensures var (t, r) := AfterCheck(c, s);
            && (r.Ok? <==> !s.exhausted && s.callsUsed < c.maxCalls
                           && (c.maxCost.Some? ==>
                                 s.totalCost + OutstandingCost(s.outstanding, s.callsUsed)
                                 + Price(c.basis.value, c.reservedInput, c.reservedOutput) <= c.maxCost.value))
            && (r.Err? ==> t == s.(exhausted := true))
            && (r.Ok? ==>
                 && r.value == t.callsUsed == s.callsUsed + 1 && t.totalCost == s.totalCost
                 && (t.exhausted <==> t.callsUsed == c.maxCalls)
                 && |t.receipts| == |s.receipts| + 1 && t.receipts[..|s.receipts|] == s.receipts
                 && NothingHeard(t.receipts[|s.receipts|])
                 && t.receipts[|s.receipts|].callNumber == t.callsUsed
                 && (Priced(c.basis) ==>
                       t.receipts[|s.receipts|].reserved == Price(c.basis.value, c.reservedInput, c.reservedOutput))
                 && (!Priced(c.basis) ==> t.receipts[|s.receipts|].reserved == 0.0)
                 && t.outstanding == s.outstanding[t.callsUsed := t.receipts[|s.receipts|].reserved])
  {
    hide OutstandingCost, Price;
  }

  function AfterFailure(c: Limits, s: State, n: nat, latencyMs: int, kind: string)
    : (State, Result<(), BudgetError>)
    requires Indexed(s)
  {
    if n !in s.outstanding then (s, Err(UnknownCall))
    else
      var reserved := s.outstanding[n];
      var exhausts := c.maxCost.Some? && s.totalCost + reserved >= c.maxCost.value;
      var r := s.receipts[n - 1].(completion := TransportFailed, latencyMs := Some(latencyMs), failureKind := kind);
      (Settle(s, n, reserved, exhausts, r), Ok(()))
  }

  // ---------------------------------------------------------------------
  // The invariant
  // ---------------------------------------------------------------------

  /** Every outstanding call has a receipt to settle. */
  predicate Indexed(s: State) { forall n :: n in s.outstanding ==> 1 <= n <= |s.receipts| }

  /** What a settled call was charged. */
  function Charge(r: AttemptReceipt): Amount {
    match r.completion
    case Started => 0.0
    case ResponseReceived =>
      if r.costStatus == Measured && r.actual.Some? then r.actual.value
      else if r.costStatus == Estimated && r.estimated.Some? then r.estimated.value
      else r.reserved
    case _ => r.reserved
  }

  function Excess(r: AttemptReceipt): Amount {
    if r.overrun && Charge(r) > r.reserved then Charge(r) - r.reserved else 0.0
  }

  function Charges(receipts: seq<AttemptReceipt>): Amount {
    if receipts == [] then 0.0 else Charges(receipts[..|receipts| - 1]) + Charge(receipts[|receipts| - 1])
  }

  function Excesses(receipts: seq<AttemptReceipt>): Amount {
    if receipts == [] then 0.0 else Excesses(receipts[..|receipts| - 1]) + Excess(receipts[|receipts| - 1])
  }

  /** The part of the reservations that is still waiting for its call. */
  function Waiting(receipts: seq<AttemptReceipt>): Amount {
    if receipts == [] then 0.0
    else
      var last := receipts[|receipts| - 1];
      Waiting(receipts[..|receipts| - 1]) + (if last.completion == Started then last.reserved else 0.0)
  }

  function Ceiling(c: Limits): Amount { if c.maxCost.Some? && c.maxCost.value >= 0.0 then c.maxCost.value else 0.0 }

  predicate Spoiled(r: AttemptReceipt) { r.overrun || r.completion == InvalidProviderCost }

  ghost predicate ReceiptSound(c: Limits, s: State, n: nat)
    requires 1 <= n <= |s.receipts|
  {
    var r := s.receipts[n - 1];
    && r.callNumber == n && r.reserved == ReservedCost(c)
    && (r.completion == Started <==> n in s.outstanding)
    && (n in s.outstanding ==> s.outstanding[n] == r.reserved)
    && (r.completion == Started ==> !r.overrun)
    && (Spoiled(r) ==> s.exhausted)
  }

  ghost predicate Inv(c: Limits, s: State) {
    && Indexed(s)
    && |s.receipts| == s.callsUsed <= c.maxCalls
    && (forall n :: 1 <= n <= |s.receipts| ==> ReceiptSound(c, s, n))
    && s.totalCost == Charges(s.receipts)
    && (c.maxCost.Some? ==> s.totalCost + Waiting(s.receipts) <= Ceiling(c) + Excesses(s.receipts))
  }

  function Empty(): State { State(0, 0.0, false, [], map[]) }

  // --- replacing one receipt ---

  lemma {:induction false} SumsReplaced(receipts: seq<AttemptReceipt>, i: nat, r: AttemptReceipt)
    requires i < |receipts|
    ensures var next := receipts[i := r];
            && Charges(next) == Charges(receipts) - Charge(receipts[i]) + Charge(r)
            && Excesses(next) == Excesses(receipts) - Excess(receipts[i]) + Excess(r)
            && Waiting(next) == Waiting(receipts)
                                - (if receipts[i].completion == Started then receipts[i].reserved else 0.0)
                                + (if r.completion == Started then r.reserved else 0.0)
    decreases |receipts|
  {
    hide Charge, Excess;
    var last := |receipts| - 1;
    if i < last {
      assert receipts[i := r][..last] == receipts[..last][i := r];
      SumsReplaced(receipts[..last], i, r);
    } else {
      assert receipts[i := r][..last] == receipts[..last];
    }
  }

  lemma SumsAppended(receipts: seq<AttemptReceipt>, r: AttemptReceipt)
    ensures Charges(receipts + [r]) == Charges(receipts) + Charge(r)
    ensures Excesses(receipts + [r]) == Excesses(receipts) + Excess(r)
    ensures Waiting(receipts + [r]) == Waiting(receipts) + (if r.completion == Started then r.reserved else 0.0)
  {
    hide Charge, Excess;
    assert (receipts + [r])[..|receipts|] == receipts;
  }

  /** The outstanding reservations are those of the receipts still started. */
  lemma {:induction false} OutstandingIsWaiting(c: Limits, s: State, k: nat)
    requires Indexed(s) && k <= |s.receipts|
    requires forall n :: 1 <= n <= |s.receipts| ==> ReceiptSound(c, s, n)
    ensures OutstandingCost(s.outstanding, k) == Waiting(s.receipts[..k])
  {
    if k > 0 {
      OutstandingIsWaiting(c, s, k - 1);
      assert s.receipts[..k][..k - 1] == s.receipts[..k - 1];
      assert ReceiptSound(c, s, k);
    }
  }

  /** A settled call: `r` no longer started, charged `spent`, and over the reservation only as an overrun. */
  lemma InvAfterSettle(c: Limits, s: State, n: nat, spent: Amount, exhausts: bool, r: AttemptReceipt)
    requires Inv(c, s) && n in s.outstanding
    requires r.completion != Started && r.callNumber == n && r.reserved == s.receipts[n - 1].reserved
    requires Charge(r) == spent && (Spoiled(r) ==> exhausts)
    requires c.maxCost.Some? && spent > r.reserved ==> r.overrun
    ensures Inv(c, Settle(s, n, spent, exhausts, r))
  {
    hide Charges, Excesses, Waiting, ReservedCost, Ceiling;
    var t := Settle(s, n, spent, exhausts, r);
    assert ReceiptSound(c, s, n);
    SumsReplaced(s.receipts, n - 1, r);
    forall k | 1 <= k <= |t.receipts| ensures ReceiptSound(c, t, k) {
      assert ReceiptSound(c, s, k);
    }
  }

  lemma InvAfterCheck(c: Limits, s: State)
    requires Inv(c, s) && (c.maxCost.Some? ==> Priced(c.basis))
    ensures Inv(c, AfterCheck(c, s).0)
  {
    hide ReservedCost;
    var t := AfterCheck(c, s).0;
    if AfterCheck(c, s).1.Ok? {
      var r := NewReceipt(s.callsUsed + 1, ReservedCost(c));
      SumsAppended(s.receipts, r);
      OutstandingIsWaiting(c, s, s.callsUsed);
      assert s.receipts[..s.callsUsed] == s.receipts;
      hide Charges, Excesses, Waiting, OutstandingCost;
      forall k | 1 <= k <= |t.receipts| ensures ReceiptSound(c, t, k) {
        if k <= |s.receipts| { assert ReceiptSound(c, s, k); }
      }
    } else {
      forall k | 1 <= k <= |t.receipts| ensures ReceiptSound(c, t, k) { assert ReceiptSound(c, s, k); }
    }
  }

  lemma InvAfterResponse(c: Limits, s: State, n: nat, latencyMs: int, m: Metrics)
    requires Inv(c, s) && (c.maxCost.Some? ==> Priced(c.basis))
    ensures Inv(c, AfterResponse(c, s, n, latencyMs, m).0)
  {
    hide ReservedCost, Price, Charges, Excesses, Waiting;
    if n in s.outstanding {
      assert ReceiptSound(c, s, n);
      hide ReceiptSound;
      var r, reserved := s.receipts[n - 1], s.outstanding[n];
      if m.Malformed? {
        InvAfterSettle(c, s, n, reserved, true, InvalidCost(r, latencyMs, "invalid-amount"));
      } else if !CostUsable(c, m) {
        var reason := if m.currency == None then "missing-currency" else "currency-mismatch";
        InvAfterSettle(c, s, n, reserved, true, InvalidCost(r, latencyMs, reason));
      } else {
        var spent := Spent(c, m, reserved);
        var exhausts := Overruns(c, m, reserved) || (c.maxCost.Some? && s.totalCost + spent > c.maxCost.value);
        InvAfterSettle(c, s, n, spent, exhausts, Answered(c, m, r, latencyMs));
      }
    }
  }

  lemma InvAfterFailure(c: Limits, s: State, n: nat, latencyMs: int, kind: string)
    requires Inv(c, s)
    ensures Inv(c, AfterFailure(c, s, n, latencyMs, kind).0)
  {
    hide ReservedCost, Charges, Excesses, Waiting;
    if n in s.outstanding {
      assert ReceiptSound(c, s, n);
      hide ReceiptSound;
      var reserved := s.outstanding[n];
      var exhausts := c.maxCost.Some? && s.totalCost + reserved >= c.maxCost.value;
      var r := s.receipts[n - 1].(completion := TransportFailed, latencyMs := Some(latencyMs), failureKind := kind);
      InvAfterSettle(c, s, n, reserved, exhausts, r);
    }
  }

  // ---------------------------------------------------------------------
  // Any interleaving of calls
  // ---------------------------------------------------------------------

  datatype Event =
    | Check
    | Response(n: nat, latencyMs: int, metrics: Metrics)
    | Failure(n: nat, latencyMs: int, kind: string)

  function Apply(c: Limits, s: State, e: Event): State
    requires Indexed(s)
  {
    match e
    case Check => AfterCheck(c, s).0
    case Response(n, latencyMs, m) => AfterResponse(c, s, n, latencyMs, m).0
    case Failure(n, latencyMs, kind) => AfterFailure(c, s, n, latencyMs, kind).0
  }

  lemma ApplyIndexed(c: Limits, s: State, e: Event)
    requires Indexed(s)
    ensures |s.receipts| == s.callsUsed ==>
              Indexed(Apply(c, s, e)) && |Apply(c, s, e).receipts| == Apply(c, s, e).callsUsed
  {
    hide ReservedCost, OutstandingCost, Answered, CostUsable, Overruns, Spent;
  }

  function Run(c: Limits, s: State, events: seq<Event>): (t: State)
    requires Indexed(s) && |s.receipts| == s.callsUsed
    ensures Indexed(t) && |t.receipts| == t.callsUsed
    decreases |events|
  {
    if events == [] then s
    else
      ApplyIndexed(c, s, events[0]);
      Run(c, Apply(c, s, events[0]), events[1..])
  }

  lemma InvPreserved(c: Limits, s: State, e: Event)
    requires Inv(c, s) && (c.maxCost.Some? ==> Priced(c.basis))
    ensures Inv(c, Apply(c, s, e))
  {
    hide Inv;
    match e
    case Check => InvAfterCheck(c, s);
    case Response(n, latencyMs, m) => InvAfterResponse(c, s, n, latencyMs, m);
    case Failure(n, latencyMs, kind) => InvAfterFailure(c, s, n, latencyMs, kind);
  }

  lemma {:induction false} InvAlways(c: Limits, s: State, events: seq<Event>)
    requires Inv(c, s) && (c.maxCost.Some? ==> Priced(c.basis))
    ensures Inv(c, Run(c, s, events))
    decreases |events|
  {
    if events != [] {
      InvPreserved(c, s, events[0]);
      InvAlways(c, Apply(c, s, events[0]), events[1..]);
    }
  }

  /** Whatever the order of admissions, answers, failures and invalid answers: the total is the charge of the
      settled receipts, the reservations still out are those of the started ones, and the two together pass
      the ceiling by no more than the overruns did. */
  lemma BudgetConserved(c: Limits, events: seq<Event>)
    requires c.maxCost.Some? ==> Priced(c.basis)
    ensures var s := Run(c, Empty(), events);
            && s.totalCost == Charges(s.receipts)
            && OutstandingCost(s.outstanding, s.callsUsed) == Waiting(s.receipts)
            && (forall n :: n in s.outstanding <==> 1 <= n <= |s.receipts| && s.receipts[n - 1].completion == Started)
            && s.callsUsed <= c.maxCalls
            && (c.maxCost.Some? ==>
                  s.totalCost + OutstandingCost(s.outstanding, s.callsUsed) <= Ceiling(c) + Excesses(s.receipts))
  {
    InvAlways(c, Empty(), events);
    var s := Run(c, Empty(), events);
    OutstandingIsWaiting(c, s, s.callsUsed);
    assert s.receipts[..s.callsUsed] == s.receipts;
    forall n | 1 <= n <= |s.receipts| ensures n in s.outstanding <==> s.receipts[n - 1].completion == Started {
      assert ReceiptSound(c, s, n);
    }
  }

  lemma {:induction false} NoExcess(receipts: seq<AttemptReceipt>)
    requires forall r :: r in receipts ==> !r.overrun
    ensures Excesses(receipts) == 0.0
    decreases |receipts|
  {
    if receipts != [] { NoExcess(receipts[..|receipts| - 1]); }
  }

  /** As long as no call cost more than was reserved for it, the ceiling holds with all reservations counted. */
  lemma CeilingHoldsWithoutOverrun(c: Limits, events: seq<Event>)
    requires c.maxCost.Some? && Priced(c.basis)
    requires forall r :: r in Run(c, Empty(), events).receipts ==> !r.overrun
    ensures var s := Run(c, Empty(), events);
            s.totalCost + OutstandingCost(s.outstanding, s.callsUsed) <= Ceiling(c)
  {
    BudgetConserved(c, events);
    NoExcess(Run(c, Empty(), events).receipts);
  }

  ghost predicate Extends(s: State, t: State) {
    && |s.receipts| <= |t.receipts|
    && (s.exhausted ==> t.exhausted && |t.receipts| == |s.receipts|)
    && forall i :: 0 <= i < |s.receipts| && s.receipts[i].completion != Started ==> t.receipts[i] == s.receipts[i]
  }

  lemma ApplyExtends(c: Limits, s: State, e: Event)
    requires Inv(c, s)
    ensures Extends(s, Apply(c, s, e))
  {
    hide ReservedCost, OutstandingCost, Answered, CostUsable, Overruns, Spent, Charges, Excesses, Waiting, Price;
    match e
    case Check =>
    case Response(n, _, _) => if n in s.outstanding { assert ReceiptSound(c, s, n); }
    case Failure(n, _, _) => if n in s.outstanding { assert ReceiptSound(c, s, n); }
  }

  /** Receipts are only added, a settled one never changes, and an exhausted budget admits nothing more. */
  lemma {:induction false} SettledOnceForAll(c: Limits, s: State, events: seq<Event>)
    requires Inv(c, s) && (c.maxCost.Some? ==> Priced(c.basis))
    ensures Extends(s, Run(c, s, events))
    decreases |events|
  {
    if events != [] {
      ApplyExtends(c, s, events[0]);
      InvPreserved(c, s, events[0]);
      hide Inv, Apply;
      SettledOnceForAll(c, Apply(c, s, events[0]), events[1..]);
    }
  }

  /** After an overrun or an invalid cost, no call is ever admitted again. */
  lemma SpoiledBudgetAdmitsNothing(c: Limits, events: seq<Event>, later: seq<Event>)
    requires c.maxCost.Some? ==> Priced(c.basis)
    requires exists r :: r in Run(c, Empty(), events).receipts && Spoiled(r)
    ensures var s := Run(c, Empty(), events);
            var t := Run(c, s, later);
            && t.callsUsed == s.callsUsed && AfterCheck(c, t) == (t, Err(Exhausted))
  {
    InvAlways(c, Empty(), events);
    var s := Run(c, Empty(), events);
    var r :| r in s.receipts && Spoiled(r);
    var i :| 0 <= i < |s.receipts| && s.receipts[i] == r;
    assert ReceiptSound(c, s, i + 1);
    SettledOnceForAll(c, s, later);
  }

  // ---------------------------------------------------------------------
  // The objects
  // ---------------------------------------------------------------------

  class LiveBudget {
    const limits: Limits
    var callsUsed: nat
    var totalCost: Amount
    var exhausted: bool
    var receipts: seq<AttemptReceipt>
    var outstanding: map<nat, Amount>

    ghost function Contents(): State reads this { State(callsUsed, totalCost, exhausted, receipts, outstanding) }

    /** What the constructor and every method keep. */
    ghost predicate Valid() reads this { Inv(limits, Contents()) && (limits.maxCost.Some? ==> Priced(limits.basis)) }

    constructor Within(limits: Limits)
      requires limits.maxCost.Some? ==> Priced(limits.basis)
      ensures Valid() && Contents() == Empty() && this.limits == limits
    {
      this.limits := limits;
      callsUsed, totalCost, exhausted, receipts, outstanding := 0, 0.0, false, [], map[];
    }

    /** The constructor of the source, with its two errors; negative token reservations count as none. */
    static method Open(provider: string, casefold: string -> string, maxCalls: Option<int>, maxCost: Option<real>,
                       reservedInput: int, reservedOutput: int)
      returns (r: Result<LiveBudget, BudgetError>)
      ensures r.Ok? <==> Opens(maxCalls, maxCost, BasisOf(provider, casefold))
      ensures r.Ok? ==>
                && fresh(r.value) && r.value.Valid() && r.value.Contents() == Empty()
                && r.value.limits.maxCalls == maxCalls.value && r.value.limits.maxCost == maxCost
                && r.value.limits.basis == BasisOf(provider, casefold)
                && r.value.limits.reservedInput == (if reservedInput >= 0 then reservedInput else 0)
                && r.value.limits.reservedOutput == (if reservedOutput >= 0 then reservedOutput else 0)
    {
      if maxCalls == None || maxCalls.value <= 0 { return Err(InvalidValue); }
      var name := casefold(Text.Strip(provider));
      var basis := if name in PRICE_BASIS then Some(PRICE_BASIS[name]) else None;
      if maxCost.Some? && (basis == None || !basis.value.supportsPricing) { return Err(InvalidValue); }
      var budget := new LiveBudget.Within(Limits(maxCalls.value, maxCost, basis, NotNegative(reservedInput),
                                                 NotNegative(reservedOutput)));
      r := Ok(budget);
    }

    method CheckCall() returns (r: Result<nat, BudgetError>)
      requires Valid()
      modifies this
      ensures Valid() && (Contents(), r) == AfterCheck(limits, old(Contents()))
    {
      InvAfterCheck(limits, Contents());
      hide Inv;
      if exhausted { return Err(Exhausted); }
      if callsUsed >= limits.maxCalls {
        exhausted := true;
        return Err(Exhausted);
      }
      var reserved := ReservedCost(limits);
      if limits.maxCost.Some? && limits.basis.Some? {
        var committed := totalCost + OutstandingCost(outstanding, callsUsed) + reserved;
        if committed > limits.maxCost.value {
          exhausted := true;
          return Err(Exhausted);
        }
      }
      callsUsed := callsUsed + 1;
      outstanding := outstanding[callsUsed := reserved];
      receipts := receipts + [NewReceipt(callsUsed, reserved)];
      if callsUsed >= limits.maxCalls { exhausted := true; }
      r := Ok(callsUsed);
    }

    method ReplaceReceipt(n: nat, r: AttemptReceipt)
      requires 1 <= n <= |receipts|
      modifies this`receipts
      ensures receipts == old(receipts)[n - 1 := r]
    {
      receipts := receipts[n - 1 := r];
    }

    method FinishInvalidCost(n: nat, reserved: Amount, latencyMs: int, reason: string)
      requires 1 <= n <= |receipts|
      modifies this`totalCost, this`exhausted, this`receipts
      ensures totalCost == old(totalCost) + reserved && exhausted
      ensures receipts == old(receipts)[n - 1 := InvalidCost(old(receipts)[n - 1], latencyMs, reason)]
    {
      totalCost := totalCost + reserved;
      exhausted := true;
      ReplaceReceipt(n, InvalidCost(receipts[n - 1], latencyMs, reason));
    }

    method RecordResponse(n: nat, latencyMs: int, m: Metrics) returns (r: Result<(), BudgetError>)
      requires Valid()
      modifies this
      ensures Valid() && (Contents(), r) == AfterResponse(limits, old(Contents()), n, latencyMs, m)
    {
      InvAfterResponse(limits, Contents(), n, latencyMs, m);
      assert Indexed(Contents());
      assert n in outstanding ==> receipts[n - 1].reserved == outstanding[n] by {
        assert n in outstanding ==> ReceiptSound(limits, Contents(), n);
      }
      hide Inv, Indexed, ReceiptSound, Price, ReservedCost;
      if n !in outstanding { return Err(UnknownCall); }
      var reserved := outstanding[n];
      outstanding := outstanding - {n};
      if m.Malformed? {
        FinishInvalidCost(n, reserved, latencyMs, "invalid-amount");
        return Err(InvalidValue);
      }
      var estimate := Estimate(limits, m);
      var status, spent, overrun := Unavailable, reserved, false;
      if m.actual.Some? {
        if m.currency == None {
          FinishInvalidCost(n, reserved, latencyMs, "missing-currency");
          return Err(InvalidValue);
        }
        if limits.basis.Some? && m.currency.value != limits.basis.value.currency {
          FinishInvalidCost(n, reserved, latencyMs, "currency-mismatch");
          return Err(InvalidValue);
        }
        status, spent, overrun := Measured, m.actual.value, Priced(limits.basis) && m.actual.value > reserved;
      } else if estimate.Some? {
        status, spent, overrun := Estimated, estimate.value, estimate.value > reserved;
      }
      totalCost := totalCost + spent;
      if overrun || (limits.maxCost.Some? && totalCost > limits.maxCost.value) { exhausted := true; }
      ReplaceReceipt(n, receipts[n - 1].(completion := ResponseReceived, latencyMs := Some(latencyMs),
                                         costStatus := status, estimated := estimate, actual := m.actual,
                                         overrun := overrun));
      r := Ok(());
    }

    method RecordTransportFailure(n: nat, latencyMs: int, kind: string) returns (r: Result<(), BudgetError>)
      requires Valid()
      modifies this
      ensures Valid() && (Contents(), r) == AfterFailure(limits, old(Contents()), n, latencyMs, kind)
    {
      InvAfterFailure(limits, Contents(), n, latencyMs, kind);
      assert Indexed(Contents());
      hide Inv;
      if n !in outstanding { return Err(UnknownCall); }
      var reserved := outstanding[n];
      outstanding := outstanding - {n};
      totalCost := totalCost + reserved;
      if limits.maxCost.Some? && totalCost >= limits.maxCost.value { exhausted := true; }
      ReplaceReceipt(n, receipts[n - 1].(completion := TransportFailed, latencyMs := Some(latencyMs),
                                         failureKind := kind));
      r := Ok(());
    }
  }

  /** What the base transport does with a request. */
  datatype Transfer = Delivered(metrics: Metrics) | Broken(kind: string)

  datatype TransportError = Budget(error: BudgetError) | Transport(kind: string)

  /** The event tells what the transport did with the call. */
  predicate Hears(e: Event, n: nat, transfer: Transfer, latencyMs: int) {
    match transfer
    case Delivered(metrics) => e == Response(n, latencyMs, metrics)
    case Broken(kind) => e == Failure(n, latencyMs, kind)
  }

  class BudgetTransport {
    const budget: LiveBudget

    constructor (budget: LiveBudget)
      ensures this.budget == budget
    {
      this.budget := budget;
    }

    /** One outbound attempt with nothing in between: admitted and reconciled, or refused.  Either way no
        reservation of its own is left out, and the budget does what `trace` does. */
    method Call(transfer: Transfer, latencyMs: int)
      returns (r: Result<(), TransportError>, ghost trace: seq<Event>)
      requires budget.Valid()
      modifies budget
      ensures budget.Valid() && budget.Contents() == Run(budget.limits, old(budget.Contents()), trace)
      ensures budget.outstanding == old(budget.outstanding)
      ensures budget.callsUsed == old(budget.callsUsed) + (if |trace| == 2 then 1 else 0)
      ensures r.Ok? ==> |trace| == 2 && transfer.Delivered?
      ensures |trace| == 1 <==> r == Err(Budget(Exhausted))
      ensures trace == [Check]
              || (|trace| == 2 && trace[0] == Check && Hears(trace[1], budget.callsUsed, transfer, latencyMs))
      ensures |trace| == 2 && transfer.Broken? ==> r == Err(Transport(transfer.kind))
      ensures |trace| == 2 && transfer.Delivered? ==>
                r == Ok(()) || (r == Err(Budget(InvalidValue)) && !Acceptable(budget.limits, transfer.metrics))
    {
      hide ReservedCost, OutstandingCost, Answered, CostUsable, Overruns, Spent, Charges, Excesses, Waiting;
      ghost var s0 := budget.Contents();
      assert budget.callsUsed + 1 !in budget.outstanding;
      var admitted := budget.CheckCall();
      trace := [Check];
      ghost var s1 := budget.Contents();
      assert Run(budget.limits, s0, trace) == s1;
      if admitted.Err? { return Err(Budget(admitted.error)), trace; }
      var n := admitted.value;
      match transfer
      case Broken(kind) =>
        var _ := budget.RecordTransportFailure(n, latencyMs, kind);
        trace := [Check, Failure(n, latencyMs, kind)];
        RunTwo(budget.limits, s0, trace);
        r := Err(Transport(kind));
      case Delivered(metrics) =>
        assert Acceptable(budget.limits, metrics) <==> metrics.Reported? && CostUsable(budget.limits, metrics) by {
          AcceptableIsUsable(budget.limits, metrics);
        }
        hide Acceptable;
        var recorded := budget.RecordResponse(n, latencyMs, metrics);
        trace := [Check, Response(n, latencyMs, metrics)];
        RunTwo(budget.limits, s0, trace);
        r := if recorded.Err? then Err(Budget(recorded.error)) else Ok(());
    }
  }

  lemma RunTwo(c: Limits, s: State, events: seq<Event>)
    requires Inv(c, s) && (c.maxCost.Some? ==> Priced(c.basis)) && |events| == 2
    ensures Indexed(Apply(c, s, events[0]))
    ensures Run(c, s, events) == Apply(c, Apply(c, s, events[0]), events[1])
  {
    InvPreserved(c, s, events[0]);
    hide Apply;
    var t := Apply(c, s, events[0]);
    assert Indexed(t) && |t.receipts| == t.callsUsed;
    hide ReceiptSound, Inv;
    assert events[1..] == [events[1]];
    RunOne(c, t, events[1]);
  }

  lemma RunOne(c: Limits, s: State, e: Event)
    requires Indexed(s) && |s.receipts| == s.callsUsed
    ensures Run(c, s, [e]) == Apply(c, s, e)
  {
    hide Apply;
    ApplyIndexed(c, s, e);
    assert [e][1..] == [];
  }
}
