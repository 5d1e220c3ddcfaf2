/** The execution contracts of operations.py and the deterministic parts of shadow_lifecycle.py:
    authorization, the shadow adapter and the shadow accounting. */
module Execution {
  import opened Prelude

  datatype Side = BUY | SELL | HOLD | UNKNOWN_SIDE
  datatype OrderType = MARKET | LIMIT | NO_ORDER | UNKNOWN_ORDER
  datatype ExecutionMode = SHADOW_MODE | SIMULATION | LIVE | UNKNOWN_MODE

  datatype TypedDecision = TypedDecision(
    decisionId: string, capabilityId: string, observationId: string, decidedAt: string, action: Side,
    quantity: real, orderType: OrderType, limitPrice: Option<real>, rationale: string)

  datatype Quality = VALID | NOT_VALID(status: string)

  /** A market observation. `wellFormed` stands for validate_observation finding no error. */
  datatype Observation = Observation(
    observationId: string, instrument: string, quality: Quality, close: real,
    sourceEventAt: int, intervalSeconds: int, contentHash: string, wellFormed: bool)

  datatype Assumptions = Assumptions(
    assumptionId: string, feeBps: real, halfSpreadBps: real, slippageBps: real, latencyMs: int,
    latencyPenaltyBps: real, fillRatio: real, quantityStep: real, priceStep: real,
    minimumNotional: real, availableCapacity: real)

  datatype ExecutionRequest = ExecutionRequest(
    requestId: string, idempotencyKey: string, capabilityId: string, decisionId: string, observationId: string,
    mode: ExecutionMode, instrument: string, side: Side, orderType: OrderType, quantity: real,
    limitPrice: Option<real>, createdAt: string, capitalEffectNone: bool)

  datatype Fault =
    | HoldOrUnknownAction | NonPositiveQuantity | LineageFieldMissing | InvalidRequest | InvalidAssumptions
    | InvalidObservation | ObservationMismatch | NotActionable | IdempotencyConflict
    | Denied(reasons: seq<Reason>) | UnsafeRequestId | ReceiptConflict | ReceiptMissing | CorruptJournal

  predicate ValidRequest(q: ExecutionRequest) {
    && !Blank(q.requestId) && !Blank(q.idempotencyKey) && !Blank(q.capabilityId) && !Blank(q.decisionId)
    && !Blank(q.observationId) && !Blank(q.instrument) && !Blank(q.createdAt)
    && !q.mode.UNKNOWN_MODE? && !q.side.UNKNOWN_SIDE? && !q.orderType.UNKNOWN_ORDER?
    && q.quantity >= 0.0
    && (q.orderType.LIMIT? ==> q.limitPrice.Some? && q.limitPrice.value > 0.0)
    && (q.capitalEffectNone || q.mode.LIVE?)
  }

  predicate ValidAssumptions(a: Assumptions) {
    && a.feeBps >= 0.0 && a.halfSpreadBps >= 0.0 && a.slippageBps >= 0.0 && a.latencyPenaltyBps >= 0.0
    && a.minimumNotional >= 0.0 && a.availableCapacity >= 0.0
    && a.quantityStep > 0.0 && a.priceStep > 0.0
    && 0.0 <= a.fillRatio <= 1.0 && a.latencyMs >= 0
  }

  // ------------------------------------------------------------------ authorization

  datatype CapabilityState =
    | DISCOVERED | HYPOTHESIS | PREREGISTERED | BACKTEST_SUPPORTED | PROSPECTIVE_SUPPORTED | REPLAY_QUALIFIED
    | SHADOW_QUALIFIED | EXECUTION_PLANE_QUALIFIED | CAPITAL_ELIGIBLE | LIVE_CAPABILITY | UNKNOWN_STATE

  datatype Capability = Capability(id: string, state: CapabilityState)

  /** Limits that a governor document does not state are absent. */
  datatype Governor = Governor(
    tradingDisabled: bool, maxSingleTrade: Option<real>, maxExposure: Option<real>, maxDailyLoss: Option<real>)

  datatype Reason =
    | CapabilityMismatch | NotPreregistered | LiveDisabled | GovernorUnexpected
    | SingleTradeNotZero | ExposureNotZero | DailyLossNotZero | CapitalEffectForbidden

  datatype Authorization = Authorization(requestId: string, authorizedAt: string, allowed: bool, reasons: seq<Reason>)

  predicate Preregistered(s: CapabilityState) {
    !s.DISCOVERED? && !s.HYPOTHESIS? && !s.UNKNOWN_STATE?
  }

  /** Zero exposure: what the governor must say for anything to be authorized. */
  predicate ZeroExposure(g: Governor) {
    g.tradingDisabled && g.maxSingleTrade == Some(0.0) && g.maxExposure == Some(0.0) && g.maxDailyLoss == Some(0.0)
  }

  /** authorize_execution: reasons are collected one by one; what is authorized is exactly a valid
      pre-live request of a preregistered capability under a zero-exposure governor. */
  method AuthorizeExecution(q: ExecutionRequest, c: Capability, g: Governor, at: string)
    returns (r: Result<Authorization, Fault>)
    ensures r == Authorize(q, c, g, at)
  {
    if !ValidRequest(q) { return Err(InvalidRequest); }
    var reasons: seq<Reason> := [];
    if q.capabilityId != c.id { reasons := reasons + [CapabilityMismatch]; }
    if !Preregistered(c.state) { reasons := reasons + [NotPreregistered]; }
    if q.mode.LIVE? { reasons := reasons + [LiveDisabled]; }
    if !g.tradingDisabled { reasons := reasons + [GovernorUnexpected]; }
    if g.maxSingleTrade != Some(0.0) { reasons := reasons + [SingleTradeNotZero]; }
    if g.maxExposure != Some(0.0) { reasons := reasons + [ExposureNotZero]; }
    if g.maxDailyLoss != Some(0.0) { reasons := reasons + [DailyLossNotZero]; }
    if !q.capitalEffectNone { reasons := reasons + [CapitalEffectForbidden]; }
    r := Ok(Authorization(q.requestId, at, reasons == [] && (q.mode.SHADOW_MODE? || q.mode.SIMULATION?), reasons));
  }

  function Noted(reasons: seq<Reason>, broken: bool, reason: Reason): seq<Reason> {
    if broken then reasons + [reason] else reasons
  }

  function Reasons(q: ExecutionRequest, c: Capability, g: Governor): seq<Reason> {
    var ofCapability := Noted(Noted([], q.capabilityId != c.id, CapabilityMismatch),
                              !Preregistered(c.state), NotPreregistered);
    var ofMode := Noted(Noted(ofCapability, q.mode.LIVE?, LiveDisabled), !g.tradingDisabled, GovernorUnexpected);
    var ofLimits := Noted(Noted(Noted(ofMode, g.maxSingleTrade != Some(0.0), SingleTradeNotZero),
                                g.maxExposure != Some(0.0), ExposureNotZero),
                          g.maxDailyLoss != Some(0.0), DailyLossNotZero);
    Noted(ofLimits, !q.capitalEffectNone, CapitalEffectForbidden)
  }

  function Authorize(q: ExecutionRequest, c: Capability, g: Governor, at: string): Result<Authorization, Fault> {
    if !ValidRequest(q) then Err(InvalidRequest)
    else
      var reasons := Reasons(q, c, g);
      Ok(Authorization(q.requestId, at, reasons == [] && (q.mode.SHADOW_MODE? || q.mode.SIMULATION?), reasons))
  }

  lemma AuthorizedExactly(q: ExecutionRequest, c: Capability, g: Governor, at: string)
    ensures Authorize(q, c, g, at).Ok? && Authorize(q, c, g, at).value.allowed <==>
      ValidRequest(q) && !q.mode.LIVE? && q.capitalEffectNone && q.capabilityId == c.id
      && Preregistered(c.state) && ZeroExposure(g)
    ensures Authorize(q, c, g, at).Ok? && !Authorize(q, c, g, at).value.allowed ==>
      Authorize(q, c, g, at).value.reasons != []
  {
  }

  // ------------------------------------------------------------------ the shadow adapter

  datatype Fill = Fill(side: Side, quantity: real, price: real, notional: real, fee: real, filledAt: string)

  datatype Status = FILLED | PARTIALLY_FILLED | REJECTED(reason: string) | OTHER_STATUS(text: string)

  datatype ExecutionResult = ExecutionResult(requestId: string, processedAt: string, status: Status, fills: seq<Fill>)

  /** to_integral_value(rounding=ROUND_DOWN): toward zero. */
  function Truncated(x: real): int {
    if x >= 0.0 then x.Floor else -((-x).Floor)
  }

  function RoundedDown(x: real, step: real): real
    requires step > 0.0
  {
    Truncated(x / step) as real * step
  }

  function Penalty(a: Assumptions): real { a.halfSpreadBps + a.slippageBps + a.latencyPenaltyBps }

  function Direction(side: Side): real { if side.BUY? then 1.0 else -1.0 }

  function ModeledPrice(side: Side, reference: real, a: Assumptions): real {
    reference * (1.0 + Direction(side) * Penalty(a) / 10000.0)
  }

  function Rejected(q: ExecutionRequest, at: string, reason: string): ExecutionResult {
    ExecutionResult(q.requestId, at, REJECTED(reason), [])
  }

  predicate LimitMissed(q: ExecutionRequest, price: real) {
    q.orderType.LIMIT? && q.limitPrice.Some?
    && ((q.side.BUY? && price > q.limitPrice.value) || (q.side.SELL? && price < q.limitPrice.value))
  }

  /** DeterministicShadowAdapter.execute. */
  function Execute(q: ExecutionRequest, o: Observation, a: Assumptions, at: string): Result<ExecutionResult, Fault> {
    if !ValidRequest(q) then Err(InvalidRequest)
    else if !ValidAssumptions(a) then Err(InvalidAssumptions)
    else if !o.wellFormed then Err(InvalidObservation)
    else if !o.quality.VALID? then Ok(Rejected(q, at, "market_data_not_valid"))
    else
      var quantity := RoundedDown(Room(q, a), a.quantityStep);
      var price := RoundedDown(ModeledPrice(q.side, o.close, a), a.priceStep);
      if LimitMissed(q, price) then Ok(Rejected(q, at, "limit_not_marketable"))
      else if quantity <= 0.0 then Ok(Rejected(q, at, "quantity_below_precision_or_capacity"))
      else if quantity * price < a.minimumNotional then Ok(Rejected(q, at, "minimum_notional_not_met"))
      else
        var notional := quantity * price;
        Ok(ExecutionResult(q.requestId, at, if quantity == q.quantity then FILLED else PARTIALLY_FILLED,
                           [Fill(q.side, quantity, price, notional, notional * a.feeBps / 10000.0, at)]))
  }

  function Steps(k: int, step: real): real { k as real * step }

  lemma QuotientTimes(x: real, step: real)
    requires step > 0.0
    ensures (x / step) * step == x
  {
  }

  function Times(a: real, b: real): real { a * b }

  lemma TimesOfDifference(a: real, b: real, c: real)
    ensures Times(a - b, c) == Times(a, c) - Times(b, c)
  {
  }

  lemma TimesPositive(a: real, b: real)
    requires a >= 0.0 && b > 0.0
    ensures Times(a, b) >= 0.0 && (a > 0.0 ==> Times(a, b) > 0.0)
  {
  }

  lemma FloorGap(x: real, y: real, h: real, step: real, rounded: real)
    requires step > 0.0 && 0.0 <= y - h < 1.0 && y * step == x && rounded == h * step
    ensures rounded <= x < rounded + step
  {
    var a, b := Times(y, step), Times(h, step);
    TimesOfDifference(y, h, step);
    TimesPositive(y - h, step);
    TimesOfDifference(1.0, y - h, step);
    TimesPositive(1.0 - (y - h), step);
    assert Times(1.0, step) == step;
    assert a < b + step;
    assert a == x && b == rounded;
  }

  /** Rounding down keeps a whole number of steps and loses less than one. */
  lemma RoundedDownIsNear(x: real, step: real) returns (k: int)
    requires step > 0.0 && x >= 0.0
    ensures k >= 0 && RoundedDown(x, step) == Steps(k, step)
    ensures RoundedDown(x, step) <= x < RoundedDown(x, step) + step
  {
    var y := x / step;
    QuotientTimes(x, step);
    assert y >= 0.0;
    k := Truncated(y);
    FloorGap(x, y, k as real, step, RoundedDown(x, step));
  }

  ghost predicate WholeSteps(x: real, step: real) {
    exists k: int :: k >= 0 && x == Steps(k, step)
  }

  lemma LessThanAll(x: real, ratio: real)
    requires x > 0.0 && 0.0 <= ratio < 1.0
    ensures x * ratio < x
  {
    assert x * (1.0 - ratio) > 0.0;
  }

  lemma ProductNonNegative(x: real, y: real)
    requires x >= 0.0 && y >= 0.0
    ensures x * y >= 0.0
  {
  }

  function Room(q: ExecutionRequest, a: Assumptions): real { MinReal(q.quantity * a.fillRatio, a.availableCapacity) }

  lemma RoomIsKept(q: ExecutionRequest, a: Assumptions)
    requires ValidAssumptions(a) && q.quantity > 0.0
    ensures
      var quantity := RoundedDown(Room(q, a), a.quantityStep);
      && quantity <= Room(q, a) < quantity + a.quantityStep && WholeSteps(quantity, a.quantityStep)
      && quantity <= q.quantity && (quantity == q.quantity ==> a.fillRatio == 1.0)
  {
    ProductNonNegative(q.quantity, a.fillRatio);
    var k := RoundedDownIsNear(Room(q, a), a.quantityStep);
    var filled := q.quantity * a.fillRatio;
    assert filled <= q.quantity && (a.fillRatio < 1.0 ==> filled < q.quantity) by {
      if a.fillRatio < 1.0 {
        LessThanAll(q.quantity, a.fillRatio);
      }
    }
    assert Room(q, a) <= filled;
  }

  ghost predicate GoodFill(f: Fill, q: ExecutionRequest, a: Assumptions, at: string) {
    && f.side == q.side && f.filledAt == at
    && 0.0 < f.quantity <= Room(q, a) < f.quantity + a.quantityStep && WholeSteps(f.quantity, a.quantityStep)
    && f.quantity <= q.quantity
    && !LimitMissed(q, f.price)
    && f.notional >= a.minimumNotional && f.fee >= 0.0
  }

  /** What a fill of the adapter guarantees: a whole number of steps within request, ratio and
      capacity, falling short by less than a step; never worse than the limit; at least the minimum
      notional; and a complete fill only of a fully filled ratio. */
  lemma FillsWithinBounds(q: ExecutionRequest, o: Observation, a: Assumptions, at: string)
    requires Execute(q, o, a, at).Ok? && !Execute(q, o, a, at).value.status.REJECTED?
    requires q.quantity > 0.0
    ensures
      var r := Execute(q, o, a, at).value;
      && |r.fills| == 1 && GoodFill(r.fills[0], q, a, at)
      && (r.status.FILLED? <==> r.fills[0].quantity == q.quantity) && (r.status.FILLED? ==> a.fillRatio == 1.0)
  {
    RoomIsKept(q, a);
    var f := Execute(q, o, a, at).value.fills[0];
    ProductNonNegative(f.notional, a.feeBps);
  }

  /** The configured penalty works against the order, up to the rounding of one price step: a buy pays
      at least the reference less a step, a sell receives no more than the reference. */
  lemma PenaltyIsAdverse(side: Side, reference: real, a: Assumptions)
    requires ValidAssumptions(a) && reference > 0.0 && (side.BUY? || side.SELL?) && Penalty(a) <= 10000.0
    ensures
      var price := RoundedDown(ModeledPrice(side, reference, a), a.priceStep);
      && (side.BUY? ==> price > reference - a.priceStep)
      && (side.SELL? ==> price <= reference)
  {
    var share := Penalty(a) / 10000.0;
    ProductNonNegative(reference, share);
    ProductNonNegative(reference, 1.0 - share);
    assert reference * (1.0 - share) == reference - reference * share;
    assert reference * (1.0 + share) == reference + reference * share;
    assert ModeledPrice(side, reference, a) == if side.BUY? then reference * (1.0 + share) else reference * (1.0 - share);
    var k := RoundedDownIsNear(ModeledPrice(side, reference, a), a.priceStep);
  }

  // ------------------------------------------------------------------ shadow accounting

  datatype AccountingEvent =
    | Intent(at: string) | ModeledFill(fill: Fill) | ModeledFee(amount: real, at: string)
    | PositionProjection(quantity: real, averageEntry: real, unrealized: real, at: string)

  datatype Accounting = Accounting(
    requestId: string, events: seq<AccountingEvent>, signedQuantity: real, averageEntry: real, mark: real,
    unrealized: real, fee: real, matched: bool)

  function SignedQuantity(fills: seq<Fill>): real {
    if fills == [] then 0.0
    else var f := fills[|fills| - 1]; SignedQuantity(fills[..|fills| - 1]) + Direction(f.side) * f.quantity
  }

  function TotalCost(fills: seq<Fill>): real {
    if fills == [] then 0.0
    else var f := fills[|fills| - 1]; TotalCost(fills[..|fills| - 1]) + Direction(f.side) * f.quantity * f.price
  }

  function TotalFee(fills: seq<Fill>): real {
    if fills == [] then 0.0 else TotalFee(fills[..|fills| - 1]) + fills[|fills| - 1].fee
  }

  function TotalQuantity(fills: seq<Fill>): real {
    if fills == [] then 0.0 else TotalQuantity(fills[..|fills| - 1]) + fills[|fills| - 1].quantity
  }

  function FillEvents(fills: seq<Fill>): seq<AccountingEvent> {
    if fills == [] then []
    else
      var f := fills[|fills| - 1];
      FillEvents(fills[..|fills| - 1]) + [ModeledFill(f), ModeledFee(f.fee, f.filledAt)]
  }

  function EventQuantity(events: seq<AccountingEvent>): real {
    if events == [] then 0.0
    else
      var e := events[|events| - 1];
      EventQuantity(events[..|events| - 1]) + (if e.ModeledFill? then e.fill.quantity else 0.0)
  }

  function EventFee(events: seq<AccountingEvent>): real {
    if events == [] then 0.0
    else
      var e := events[|events| - 1];
      EventFee(events[..|events| - 1]) + (if e.ModeledFee? then e.amount else 0.0)
  }

  function Magnitude(x: real): real { if x < 0.0 then -x else x }

  function AverageEntry(fills: seq<Fill>): real {
    if SignedQuantity(fills) == 0.0 then 0.0 else Magnitude(TotalCost(fills) / SignedQuantity(fills))
  }

  function Unrealized(fills: seq<Fill>, mark: real): real {
    var signed := SignedQuantity(fills);
    if signed == 0.0 then -TotalFee(fills) else signed * (mark - AverageEntry(fills)) - TotalFee(fills)
  }

  function BuildAccounting(q: ExecutionRequest, r: ExecutionResult, mark: real, at: string): Accounting {
    var fills := r.fills;
    var position := PositionProjection(SignedQuantity(fills), AverageEntry(fills), Unrealized(fills, mark), at);
    Accounting(q.requestId, [Intent(q.createdAt)] + FillEvents(fills) + [position],
               SignedQuantity(fills), AverageEntry(fills), mark, Unrealized(fills, mark), TotalFee(fills), true)
  }

  /** The loop of build_accounting: position and events are accumulated fill by fill. */
  method AccumulateFills(fills: seq<Fill>, createdAt: string)
    returns (events: seq<AccountingEvent>, signed: real, cost: real, fee: real)
    ensures events == [Intent(createdAt)] + FillEvents(fills)
    ensures signed == SignedQuantity(fills) && cost == TotalCost(fills) && fee == TotalFee(fills)
  {
    events, signed, cost, fee := [Intent(createdAt)], 0.0, 0.0, 0.0;
    var i := 0;
    while i < |fills|
      invariant 0 <= i <= |fills|
      invariant events == [Intent(createdAt)] + FillEvents(fills[..i])
      invariant signed == SignedQuantity(fills[..i]) && cost == TotalCost(fills[..i]) && fee == TotalFee(fills[..i])
    {
      assert fills[..i + 1][..i] == fills[..i];
      var f := fills[i];
      var direction := Direction(f.side);
      signed := signed + direction * f.quantity;
      cost := cost + direction * f.quantity * f.price;
      fee := fee + f.fee;
      events := events + [ModeledFill(f), ModeledFee(f.fee, f.filledAt)];
      i := i + 1;
    }
    assert fills[..i] == fills;
  }

  /** build_accounting: the events are summed again and compared with the fills. The comparison always matches. */
  method ComputeAccounting(q: ExecutionRequest, r: ExecutionResult, mark: real, at: string) returns (a: Accounting)
    ensures a == BuildAccounting(q, r, mark, at)
  {
    var fills := r.fills;
    var events, signed, cost, fee := AccumulateFills(fills, q.createdAt);
    var average := if signed != 0.0 then Magnitude(cost / signed) else 0.0;
    var unrealized := if signed != 0.0 then signed * (mark - average) - fee else -fee;
    events := events + [PositionProjection(signed, average, unrealized, at)];
    EventsMatchFills(q, r, mark, at);
    assert average == AverageEntry(fills) && unrealized == Unrealized(fills, mark);
    assert events == BuildAccounting(q, r, mark, at).events;
    var matched := EventQuantity(events) == TotalQuantity(fills) && EventFee(events) == TotalFee(fills);
    a := Accounting(q.requestId, events, signed, average, mark, unrealized, fee, matched);
  }

  lemma {:induction false} EventSumsConcat(a: seq<AccountingEvent>, b: seq<AccountingEvent>)
    ensures EventQuantity(a + b) == EventQuantity(a) + EventQuantity(b)
    ensures EventFee(a + b) == EventFee(a) + EventFee(b)
  {
    if b == [] {
      assert a + b == a;
    } else {
      assert (a + b)[..|a + b| - 1] == a + b[..|b| - 1];
      EventSumsConcat(a, b[..|b| - 1]);
    }
  }

  lemma PairSums(a: AccountingEvent, b: AccountingEvent)
    ensures EventQuantity([a, b]) == (if a.ModeledFill? then a.fill.quantity else 0.0)
                                     + (if b.ModeledFill? then b.fill.quantity else 0.0)
    ensures EventFee([a, b]) == (if a.ModeledFee? then a.amount else 0.0) + (if b.ModeledFee? then b.amount else 0.0)
  {
    assert [a, b][..1] == [a];
    assert [a][..0] == [];
    assert EventQuantity([a]) == (if a.ModeledFill? then a.fill.quantity else 0.0);
    assert EventFee([a]) == (if a.ModeledFee? then a.amount else 0.0);
  }

  lemma {:induction false} FillEventSums(fills: seq<Fill>)
    ensures EventQuantity(FillEvents(fills)) == TotalQuantity(fills) && EventFee(FillEvents(fills)) == TotalFee(fills)
  {
    if fills != [] {
      var n := |fills| - 1;
      FillEventSums(fills[..n]);
      var pair := [ModeledFill(fills[n]), ModeledFee(fills[n].fee, fills[n].filledAt)];
      EventSumsConcat(FillEvents(fills[..n]), pair);
      PairSums(pair[0], pair[1]);
    }
  }

  /** Reconciliation compares the events with the fills they were made from: it cannot diverge. */
  lemma EventsMatchFills(q: ExecutionRequest, r: ExecutionResult, mark: real, at: string)
    ensures
      var a := BuildAccounting(q, r, mark, at);
      EventQuantity(a.events) == TotalQuantity(r.fills) && EventFee(a.events) == TotalFee(r.fills)
  {
    FillEventSums(r.fills);
    var first, last := [Intent(q.createdAt)], [BuildAccounting(q, r, mark, at).events[|FillEvents(r.fills)| + 1]];
    EventSumsConcat(first, FillEvents(r.fills));
    EventSumsConcat(first + FillEvents(r.fills), last);
    assert first[..0] == [] && last[..0] == [];
  }

  lemma CancelDirection(d: real, x: real, p: real)
    requires d != 0.0 && x != 0.0 && p >= 0.0 && (d == 1.0 || d == -1.0)
    ensures (d * x * p) / (d * x) == p
  {
    assert d * x != 0.0;
    assert d * x * p == p * (d * x);
  }

  /** One fill at a price p: the position is the signed fill, entered at p, and what it would lose or
      gain at the mark, less the fee. */
  lemma SingleFillAccounting(q: ExecutionRequest, r: ExecutionResult, mark: real, at: string)
    requires |r.fills| == 1 && r.fills[0].quantity > 0.0 && r.fills[0].price >= 0.0
    ensures
      var a, f := BuildAccounting(q, r, mark, at), r.fills[0];
      && a.signedQuantity == Direction(f.side) * f.quantity && a.averageEntry == f.price && a.fee == f.fee
      && a.unrealized == Direction(f.side) * f.quantity * (mark - f.price) - f.fee
  {
    var f := r.fills[0];
    assert r.fills[..|r.fills| - 1] == [];
    assert SignedQuantity(r.fills[..|r.fills| - 1]) == 0.0;
    assert TotalCost(r.fills[..|r.fills| - 1]) == 0.0 && TotalFee(r.fills[..|r.fills| - 1]) == 0.0;
    CancelDirection(Direction(f.side), f.quantity, f.price);
  }
}
