/** The life of a live position: agents/position_manager/lifecycle.py and dca.py. */
module LivePosition {
  import opened Common
  import opened Decimals
  import opened RiskSizing

  datatype Status = Open | PartiallyClosed | Closed

  datatype State = State(
    direction: Direction,
    status: Status,
    entry: real,
    stop: real,
    current: real,
    quantity: real,
    leverage: int,
    margin: real,
    originalMargin: real,
    originalRisk: real,
    realized: real,
    dcaCount: int,
    liquidation: real)

  /** What the eligibility check needs to know about the account. */
  datatype Stats = Stats(
    dailyLoss: real, dailyLimit: real, weeklyLoss: real, weeklyLimit: real, inCooldown: bool)

  datatype Eligibility =
    | Eligible | WrongDirection | CountLimit | Premature | RiskLimit | DailyLossWarning | InCooldown
    | WeeklyLossWarning | Drawdown

  function Gross(direction: Direction, entry: real, close: real, quantity: real): real {
    if direction.Long? then (close - entry) * quantity else (entry - close) * quantity
  }

  function Net(direction: Direction, entry: real, close: real, quantity: real, rate: real): real {
    Gross(direction, entry, close, quantity) - Fee(quantity, close, rate)
  }

  function LiquidationPrice(direction: Direction, entry: real, leverage: int): real
    requires leverage != 0
  {
    if direction.Long? then entry * (1.0 - 1.0 / leverage as real + 0.004)
    else entry * (1.0 + 1.0 / leverage as real - 0.004)
  }

  /** What a quantity entered at `entry` loses at the stop. */
  function StopRisk(direction: Direction, entry: real, stop: real, quantity: real): real {
    if direction.Long? then (entry - stop) * quantity else (stop - entry) * quantity
  }

  function PositionRisk(p: State): real {
    StopRisk(p.direction, p.entry, p.stop, p.quantity)
  }

  function UnrealizedPnl(p: State): real {
    if p.status.Closed? then 0.0 else Gross(p.direction, p.entry, p.current, p.quantity)
  }

  function DrawdownPct(p: State): real {
    if p.originalMargin <= 0.0 || 0.0 <= UnrealizedPnl(p) then 0.0
    else Abs(UnrealizedPnl(p)) / p.originalMargin
  }

  /** Four conditions, then four prohibitions, in the order of the code. */
  function CheckDca(p: State, direction: Direction, entry: real, risk: real, atr: real, stats: Stats): Eligibility {
    if p.direction != direction then WrongDirection
    else if MAX_DCA_COUNT <= p.dcaCount then CountLimit
    else if Abs(entry - p.entry) < atr then Premature
    else if 2.0 * p.originalRisk < PositionRisk(p) + risk then RiskLimit
    else if 0.0 < stats.dailyLimit && 0.5 <= stats.dailyLoss / stats.dailyLimit then DailyLossWarning
    else if stats.inCooldown then InCooldown
    else if 0.0 < stats.weeklyLimit && 0.75 <= stats.weeklyLoss / stats.weeklyLimit then WeeklyLossWarning
    else if 0.05 <= DrawdownPct(p) then Drawdown
    else Eligible
  }

  /** A position as it is opened; the price it was last seen at is its entry. */
  function Opened(direction: Direction, entry: real, stop: real, quantity: real, leverage: int, margin: real,
                  maxLoss: real): State
    requires leverage != 0
  {
    State(direction, Open, entry, stop, entry, quantity, leverage, margin, margin, maxLoss, 0.0, 0,
          LiquidationPrice(direction, entry, leverage))
  }

  /** The average entry before it is rounded. */
  function ExactAverage(q0: real, e0: real, q1: real, e1: real): real
    requires q0 + q1 != 0.0
  {
    (q0 * e0 + q1 * e1) / (q0 + q1)
  }

  function RoundedAverage(q0: real, e0: real, q1: real, e1: real): real
    requires q0 + q1 != 0.0
  {
    Quantize(ExactAverage(q0, e0, q1, e1), 0.01)
  }

  function ApplyDca(p: State, entry: real, quantity: real, margin: real): State
    requires p.quantity + quantity != 0.0 && p.leverage != 0
  {
    var average := RoundedAverage(p.quantity, p.entry, quantity, entry);
    p.(entry := average,
       quantity := p.quantity + quantity,
       margin := p.margin + margin,
       liquidation := LiquidationPrice(p.direction, average, p.leverage),
       dcaCount := p.dcaCount + 1)
  }

  /** Closed quantities are whole thousandths, rounded down. */
  function ClosedQuantity(quantity: real, ratio: real): real {
    FloorToStep(quantity * ratio, 0.001)
  }

  function MarginShare(margin: real, ratio: real): real {
    Quantize(margin * ratio, 0.0001)
  }

  /** `None` stands for the errors raised for a closed position, a ratio outside (0, 1) or a quantity of zero. */
  function PartialClose(p: State, price: real, ratio: real, rate: real): Option<State> {
    var quantity := ClosedQuantity(p.quantity, ratio);
    if p.status.Closed? || !(0.0 < ratio < 1.0) || quantity <= 0.0 then None
    else
      Some(p.(quantity := p.quantity - quantity,
              margin := p.margin - MarginShare(p.margin, ratio),
              realized := p.realized + Quantize(Net(p.direction, p.entry, price, quantity, rate), 0.01),
              status := PartiallyClosed,
              current := price))
  }

  /** What closing a quantity reports; the profit figures to the cent, the fee to a hundredth of that. */
  datatype Closing = Closing(quantity: real, gross: real, fee: real, net: real)

  function ClosingOf(p: State, quantity: real, price: real, rate: real): Closing {
    Closing(quantity,
            Quantize(Gross(p.direction, p.entry, price, quantity), 0.01),
            Quantize(Fee(quantity, price, rate), 0.0001),
            Quantize(Net(p.direction, p.entry, price, quantity, rate), 0.01))
  }

  function ClosePosition(p: State, price: real, rate: real): State {
    p.(status := Closed,
       current := price,
       realized := p.realized + Quantize(Net(p.direction, p.entry, price, p.quantity, rate), 0.01))
  }

  // ---------- Runs ----------

  datatype Event =
    | PartialEvent(price: real, ratio: real)
    | DcaEvent(entry: real, quantity: real, margin: real, risk: real, atr: real, stats: Stats)

  /** A DCA is applied only when the check finds it eligible; a refused call changes nothing. */
  function Step(p: State, rate: real, e: Event): State {
    match e
    case PartialEvent(price, ratio) =>
      var b := PartialClose(p, price, ratio, rate);
      if b.None? then p else b.value
    case DcaEvent(entry, quantity, margin, risk, atr, stats) =>
      if CheckDca(p, p.direction, entry, risk, atr, stats).Eligible? && p.quantity + quantity != 0.0 && p.leverage != 0
      then ApplyDca(p, entry, quantity, margin)
      else p
  }

  function Run(p: State, rate: real, events: seq<Event>): State
    decreases |events|
  {
    if |events| == 0 then p else Run(Step(p, rate, events[0]), rate, events[1..])
  }

  /** The risk figure given to the check is the loss of the added quantity at the position's stop. */
  predicate TrueRisk(direction: Direction, stop: real, e: Event) {
    e.DcaEvent? ==> 0.0 < e.quantity && e.risk == StopRisk(direction, e.entry, stop, e.quantity)
  }

  /** Twice the original risk, and half a cent a coin for the rounded average entry. */
  predicate Bounded(p: State) {
    && 0.0 < p.quantity
    && 0 <= p.dcaCount <= MAX_DCA_COUNT
    && 0.0 <= p.originalRisk
    && PositionRisk(p) <= 2.0 * p.originalRisk + 0.005 * p.quantity
  }

  // ---------- Risk under each event ----------

  /** The loss at the stop for one coin. */
  function UnitRisk(p: State): real {
    if p.direction.Long? then p.entry - p.stop else p.stop - p.entry
  }

  lemma RiskIsUnitRisk(p: State)
    ensures PositionRisk(p) == Mul(UnitRisk(p), p.quantity)
  {
  }

  /** Selling part of a position scales its risk down, or up towards zero. */
  lemma ScaledBound(unit: real, limit: real, quantity: real, left: real)
    requires 0.0 < left <= quantity && 0.0 <= limit && Mul(unit, quantity) <= limit + Mul(0.005, quantity)
    ensures Mul(unit, left) <= limit + Mul(0.005, left)
  {
    var excess := unit - 0.005;
    MulAdd(excess, 0.005, quantity);
    MulAdd(excess, 0.005, left);
    if excess <= 0.0 {
      MulLe(excess, 0.0, left);
      assert Mul(0.0, left) == 0.0;
    } else {
      MulLe(left, quantity, excess);
      assert Mul(left, excess) == Mul(excess, left) && Mul(quantity, excess) == Mul(excess, quantity);
    }
    hide Mul;
  }

  lemma ClosedQuantityBounds(quantity: real, ratio: real)
    requires 0.0 < quantity && 0.0 < ratio < 1.0
    ensures 0.0 <= ClosedQuantity(quantity, ratio) < quantity
  {
    MulNonNeg(quantity, ratio);
    MulLt(ratio, 1.0, quantity);
    assert Mul(ratio, quantity) == quantity * ratio;
    FloorToStepLargest(quantity * ratio, 0.001);
  }

  lemma PartialKeepsBound(p: State, price: real, ratio: real, rate: real)
    requires Bounded(p)
    ensures var q := PartialClose(p, price, ratio, rate);
      q.Some? ==>
        && Bounded(q.value)
        && q.value.direction == p.direction && q.value.stop == p.stop && q.value.originalRisk == p.originalRisk
  {
    if PartialClose(p, price, ratio, rate).Some? {
      var q := PartialClose(p, price, ratio, rate).value;
      ClosedQuantityBounds(p.quantity, ratio);
      RiskIsUnitRisk(p);
      RiskIsUnitRisk(q);
      assert Mul(0.005, p.quantity) == 0.005 * p.quantity && Mul(0.005, q.quantity) == 0.005 * q.quantity;
      hide Net, Quantize, PositionRisk, ClosedQuantity, MarginShare, Mul;
      ScaledBound(UnitRisk(p), 2.0 * p.originalRisk, p.quantity, q.quantity);
    }
  }

  /** What rounding the average entry adds to the risk: the rounding of one coin, against the stop, times all coins. */
  function RoundingCost(direction: Direction, q0: real, e0: real, q1: real, e1: real): real
    requires q0 + q1 != 0.0
  {
    var shift := Mul(RoundedAverage(q0, e0, q1, e1) - ExactAverage(q0, e0, q1, e1), q0 + q1);
    if direction.Long? then shift else -shift
  }

  lemma AverageRisk(q0: real, e0: real, q1: real, e1: real, stop: real)
    requires q0 + q1 != 0.0
    ensures var average, mean := RoundedAverage(q0, e0, q1, e1), ExactAverage(q0, e0, q1, e1);
      Mul(average - stop, q0 + q1) == Mul(e0 - stop, q0) + Mul(e1 - stop, q1) + Mul(average - mean, q0 + q1)
  {
    var total := q0 + q1;
    var mean := ExactAverage(q0, e0, q1, e1);
    var average := RoundedAverage(q0, e0, q1, e1);
    MulDiv(q0 * e0 + q1 * e1, total);
    assert Mul(mean, total) == q0 * e0 + q1 * e1;
    assert Mul(stop, total) == Mul(stop, q0) + Mul(stop, q1);
    assert Mul(e0 - stop, q0) == q0 * e0 - Mul(stop, q0) && Mul(e1 - stop, q1) == q1 * e1 - Mul(stop, q1);
    hide RoundedAverage, ExactAverage;
    MulAdd(mean, stop, total);
    MulAdd(mean - stop, average - mean, total);
    assert mean - stop + (average - mean) == average - stop;
    hide Mul;
  }

  lemma StopRiskSigned(direction: Direction, entry: real, stop: real, quantity: real)
    ensures StopRisk(direction, entry, stop, quantity)
         == if direction.Long? then Mul(entry - stop, quantity) else -Mul(entry - stop, quantity)
  {
  }

  /** The risk after a DCA is that of both parts and what the rounding of the average adds, exactly. */
  lemma DcaRiskExact(p: State, entry: real, quantity: real, margin: real)
    requires p.quantity + quantity != 0.0 && p.leverage != 0
    ensures PositionRisk(ApplyDca(p, entry, quantity, margin))
         == PositionRisk(p) + StopRisk(p.direction, entry, p.stop, quantity)
            + RoundingCost(p.direction, p.quantity, p.entry, quantity, entry)
  {
    hide RoundedAverage, ExactAverage, LiquidationPrice, StopRisk, Mul;
    var average := RoundedAverage(p.quantity, p.entry, quantity, entry);
    AverageRisk(p.quantity, p.entry, quantity, entry, p.stop);
    StopRiskSigned(p.direction, average, p.stop, p.quantity + quantity);
    StopRiskSigned(p.direction, p.entry, p.stop, p.quantity);
    StopRiskSigned(p.direction, entry, p.stop, quantity);
  }

  /** Rounding costs at most half a cent a coin, and nothing when the average is a cent price. */
  lemma RoundingCostBounds(direction: Direction, q0: real, e0: real, q1: real, e1: real)
    requires 0.0 < q0 + q1
    ensures Abs(RoundingCost(direction, q0, e0, q1, e1)) <= 0.005 * (q0 + q1)
    ensures OnGrid(ExactAverage(q0, e0, q1, e1), 0.01) ==> RoundingCost(direction, q0, e0, q1, e1) == 0.0
  {
    var mean, average, total := ExactAverage(q0, e0, q1, e1), RoundedAverage(q0, e0, q1, e1), q0 + q1;
    QuantizeError(mean, 0.01);
    if OnGrid(mean, 0.01) {
      var k :| mean == Multiple(k, 0.01);
      QuantizeExact(k, 0.01);
      assert Mul(0.0, total) == 0.0;
    }
    hide Quantize, ExactAverage;
    MulLe(-0.005, average - mean, total);
    MulLe(average - mean, 0.005, total);
    assert Mul(0.005, total) == 0.005 * total && Mul(-0.005, total) == -0.005 * total;
    hide RoundedAverage, Mul;
  }

  lemma DcaRisk(p: State, entry: real, quantity: real, margin: real)
    requires 0.0 < p.quantity && 0.0 < quantity && p.leverage != 0
    ensures PositionRisk(ApplyDca(p, entry, quantity, margin))
         <= PositionRisk(p) + StopRisk(p.direction, entry, p.stop, quantity) + 0.005 * (p.quantity + quantity)
  {
    DcaRiskExact(p, entry, quantity, margin);
    RoundingCostBounds(p.direction, p.quantity, p.entry, quantity, entry);
    hide PositionRisk, StopRisk, RoundingCost, ApplyDca;
  }

  /** A DCA is approved exactly when every one of the eight conditions holds. */
  lemma EligibleMeans(p: State, direction: Direction, entry: real, risk: real, atr: real, stats: Stats)
    ensures CheckDca(p, direction, entry, risk, atr, stats).Eligible?
       <==> && direction == p.direction && p.dcaCount < MAX_DCA_COUNT && atr <= Abs(entry - p.entry)
            && PositionRisk(p) + risk <= 2.0 * p.originalRisk
            && (0.0 < stats.dailyLimit ==> 2.0 * stats.dailyLoss < stats.dailyLimit)
            && (0.0 < stats.weeklyLimit ==> 4.0 * stats.weeklyLoss < 3.0 * stats.weeklyLimit)
            && !stats.inCooldown && DrawdownPct(p) < 0.05
  {
    hide PositionRisk, DrawdownPct, Mul;
    if 0.0 < stats.dailyLimit {
      ShareBelow(stats.dailyLoss, stats.dailyLimit, 0.5);
    }
    if 0.0 < stats.weeklyLimit {
      ShareBelow(stats.weeklyLoss, stats.weeklyLimit, 0.75);
    }
  }

  lemma ShareBelow(loss: real, limit: real, share: real)
    requires 0.0 < limit
    ensures share <= loss / limit <==> share * limit <= loss
  {
    MulDiv(loss, limit);
    assert Mul(share, limit) == share * limit;
    if share <= loss / limit {
      MulLe(share, loss / limit, limit);
    } else {
      MulLt(loss / limit, share, limit);
    }
  }

  lemma DcaKeepsBound(p: State, e: Event)
    requires Bounded(p) && e.DcaEvent? && TrueRisk(p.direction, p.stop, e) && p.leverage != 0
    requires CheckDca(p, p.direction, e.entry, e.risk, e.atr, e.stats).Eligible?
    ensures Bounded(ApplyDca(p, e.entry, e.quantity, e.margin))
  {
    DcaRisk(p, e.entry, e.quantity, e.margin);
    hide PositionRisk, StopRisk, RoundedAverage, LiquidationPrice, DrawdownPct;
  }

  /** Main result: over any run of partial closes and approved enlargements the quantity stays positive, at most
      two enlargements are made, and the loss at the stop stays within twice the original risk and half a cent
      a coin. */
  lemma {:induction false} RunKeepsRiskBounded(p: State, rate: real, events: seq<Event>)
    requires Bounded(p) && forall k :: 0 <= k < |events| ==> TrueRisk(p.direction, p.stop, events[k])
    ensures Bounded(Run(p, rate, events))
    decreases |events|
  {
    if |events| > 0 {
      var e, q := events[0], Step(p, rate, events[0]);
      assert TrueRisk(p.direction, p.stop, e);
      StepKeepsBound(p, rate, e);
      hide Step, Bounded, TrueRisk;
      RunKeepsRiskBounded(q, rate, events[1..]);
    }
  }

  lemma StepKeepsBound(p: State, rate: real, e: Event)
    requires Bounded(p) && TrueRisk(p.direction, p.stop, e)
    ensures var q := Step(p, rate, e);
      Bounded(q) && q.direction == p.direction && q.stop == p.stop
  {
    hide Bounded, TrueRisk, PartialClose, CheckDca, RoundedAverage, LiquidationPrice;
    match e
    case PartialEvent(price, ratio) =>
      if PartialClose(p, price, ratio, rate).Some? {
        PartialKeepsBound(p, price, ratio, rate);
      }
    case DcaEvent(_, _, _, _, _, _) =>
      if Step(p, rate, e) != p {
        DcaKeepsBound(p, e);
      }
  }

  /** Main result on twice the risk: an approved DCA keeps the risk within twice the original exactly when what the
      rounding of the average adds still fits beside both risks.  It does whenever the average is a cent price or is
      rounded away from the loss. */
  lemma TwiceTheRiskKept(p: State, e: Event)
    requires e.DcaEvent? && TrueRisk(p.direction, p.stop, e) && 0.0 < p.quantity && p.leverage != 0
    requires CheckDca(p, p.direction, e.entry, e.risk, e.atr, e.stats).Eligible?
    ensures var cost := RoundingCost(p.direction, p.quantity, p.entry, e.quantity, e.entry);
      var kept := PositionRisk(ApplyDca(p, e.entry, e.quantity, e.margin)) <= 2.0 * p.originalRisk;
      && (kept <==> cost <= 2.0 * p.originalRisk - (PositionRisk(p) + e.risk))
      && (cost <= 0.0 ==> kept)
      && (PositionRisk(p) + e.risk == 2.0 * p.originalRisk ==> (kept <==> cost <= 0.0))
      && (OnGrid(ExactAverage(p.quantity, p.entry, e.quantity, e.entry), 0.01) ==> kept)
  {
    DcaRiskExact(p, e.entry, e.quantity, e.margin);
    RoundingCostBounds(p.direction, p.quantity, p.entry, e.quantity, e.entry);
    EligibleMeans(p, p.direction, e.entry, e.risk, e.atr, e.stats);
    hide PositionRisk, StopRisk, RoundingCost, ApplyDca, CheckDca, ExactAverage, OnGrid;
  }

  /** It does not always: one coin opened at 100 with its stop at 90, seen at 98, may take 1.25 more there, which uses
      up the risk allowed; the average 98.888... becomes 98.89. */
  lemma RoundingExceedsTwiceTheRisk()
    ensures var p := Opened(Long, 100.0, 90.0, 1.0, 1, 100.0, 10.0).(current := 98.0);
      var e := DcaEvent(98.0, 1.25, 122.5, 10.0, 2.0, Stats(0.0, 100.0, 0.0, 100.0, false));
      && TrueRisk(p.direction, p.stop, e)
      && CheckDca(p, p.direction, e.entry, e.risk, e.atr, e.stats).Eligible?
      && PositionRisk(ApplyDca(p, e.entry, e.quantity, e.margin)) == 20.0025
      && 2.0 * p.originalRisk == 20.0
  {
    var p := Opened(Long, 100.0, 90.0, 1.0, 1, 100.0, 10.0).(current := 98.0);
    assert PositionRisk(p) == 10.0;
    assert UnrealizedPnl(p) == -2.0;
    assert DrawdownPct(p) == 0.02;
    assert ExactAverage(1.0, 100.0, 1.25, 98.0) / 0.01 == 89000.0 / 9.0;
    assert RoundHalfEven(89000.0 / 9.0) == 9889;
    assert RoundedAverage(1.0, 100.0, 1.25, 98.0) == 98.89;
  }

  // ---------- What closing pays ----------

  /** Closing pays the gross profit less a fee that is never negative. */
  lemma FeeIsPaid(direction: Direction, entry: real, close: real, quantity: real, rate: real)
    requires 0.0 <= close && 0.0 <= quantity && 0.0 <= rate
    ensures Net(direction, entry, close, quantity, rate) <= Gross(direction, entry, close, quantity)
    ensures direction.IsSide() && close == entry ==> Net(direction, entry, close, quantity, rate) <= 0.0
  {
    MulNonNeg(quantity, close);
    MulNonNeg(Mul(quantity, close), rate);
    assert Fee(quantity, close, rate) == Mul(Mul(quantity, close), rate);
    hide Mul, Fee;
  }

  lemma NetSplits(direction: Direction, entry: real, close: real, quantity: real, part: real, rate: real)
    ensures Net(direction, entry, close, quantity, rate)
         == Net(direction, entry, close, part, rate) + Net(direction, entry, close, quantity - part, rate)
  {
  }

  /** Closing a position in two steps at one price pays what closing it at once pays, to within the three roundings. */
  lemma SplitClosePaysTheSame(p: State, price: real, ratio: real, rate: real)
    ensures var part := PartialClose(p, price, ratio, rate);
      part.Some? ==>
        Abs(ClosePosition(part.value, price, rate).realized - ClosePosition(p, price, rate).realized) <= 0.015
  {
    if PartialClose(p, price, ratio, rate).Some? {
      var quantity := ClosedQuantity(p.quantity, ratio);
      NetSplits(p.direction, p.entry, price, p.quantity, quantity, rate);
      QuantizeError(Net(p.direction, p.entry, price, p.quantity, rate), 0.01);
      QuantizeError(Net(p.direction, p.entry, price, quantity, rate), 0.01);
      QuantizeError(Net(p.direction, p.entry, price, p.quantity - quantity, rate), 0.01);
      hide Net, Quantize, ClosedQuantity, MarginShare;
    }
  }

  /** A partial close gives back its share of the margin, to half a ten-thousandth. */
  lemma MarginFollowsRatio(p: State, price: real, ratio: real, rate: real)
    ensures var part := PartialClose(p, price, ratio, rate);
      part.Some? ==> Abs(part.value.margin - (p.margin - Mul(p.margin, ratio))) <= 0.00005
  {
    QuantizeError(p.margin * ratio, 0.0001);
    hide Quantize, Net, ClosedQuantity;
  }

  /** A position closed at its liquidation price loses its isolated margin, less the 0.4 percent of its notional that
      maintenance keeps back. */
  lemma LiquidationLosesMargin(direction: Direction, entry: real, quantity: real, leverage: int)
    requires leverage != 0
    ensures Gross(direction, entry, LiquidationPrice(direction, entry, leverage), quantity)
         == 0.004 * Notional(quantity, entry) - MarginFor(quantity, entry, leverage)
  {
    var share := 1.0 / leverage as real;
    LiquidationMove(direction, entry, leverage);
    MarginShareOf(quantity, entry, leverage);
    assert 0.004 * Notional(quantity, entry) == Mul(0.004 * entry, quantity);
    hide LiquidationPrice, Notional, MarginFor;
    MulAdd(0.004 * entry, Mul(entry, share), quantity);
  }

  lemma MarginShareOf(quantity: real, entry: real, leverage: int)
    requires leverage != 0
    ensures MarginFor(quantity, entry, leverage) == Mul(Mul(entry, 1.0 / leverage as real), quantity)
  {
  }

  lemma LiquidationMove(direction: Direction, entry: real, leverage: int)
    requires leverage != 0
    ensures var move := LiquidationPrice(direction, entry, leverage) - entry;
      (if direction.Long? then -move else move) == Mul(entry, 1.0 / leverage as real) - 0.004 * entry
  {
    var share := 1.0 / leverage as real;
    assert entry * (1.0 - share + 0.004) == entry - Mul(entry, share) + 0.004 * entry;
    assert entry * (1.0 + share - 0.004) == entry + Mul(entry, share) - 0.004 * entry;
  }
}
