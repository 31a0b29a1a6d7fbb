/** The verdicts and the effects of a paper engine in plain figures: which limits a signal meets, what an entry, a close
    and a partial close put into the account. */
module PaperFigures {
  import opened Common
  import opened Decimals
  import opened RiskSizing
  import opened PaperModel
  import opened PaperInvariant
  import opened PaperGate
  import PaperLedger
  import PaperExposure

  // ---------- Limits by plan ----------

  /** Leverage is capped at 5, 10 or 20, and open positions at 1, 5 or 20, by plan; a plan nobody knows is a free
      one. */
  function LeverageCap(plan: Plan): int {
    match plan
    case Pro => 10
    case Elite => 20
    case _ => 5
  }

  function PositionCap(plan: Plan): int {
    match plan
    case Pro => 5
    case Elite => 20
    case _ => 1
  }

  /** The least of what the signal asks for, what the user allows and what the plan allows. */
  ghost predicate LeastLeverage(leverage: int, s: Settings, sig: Signal) {
    && leverage <= sig.leverage && leverage <= s.maxLeverage && leverage <= LeverageCap(s.plan)
    && (leverage == sig.leverage || leverage == s.maxLeverage || leverage == LeverageCap(s.plan))
  }

  // ---------- The gate ----------

  predicate Holds(a: Account, coin: string) {
    exists k :: 0 <= k < |a.positions| && a.positions[k].coin == coin
  }

  /** The way to the target and to the stop, on the sides on which they should be. */
  function Profit(sig: Signal): real
    requires sig.takeProfit.Some?
  {
    if sig.direction.Long? then sig.takeProfit.value - sig.entry else sig.entry - sig.takeProfit.value
  }

  function Loss(sig: Signal): real
    requires sig.stopLoss.Some?
  {
    if sig.direction.Long? then sig.entry - sig.stopLoss.value else sig.stopLoss.value - sig.entry
  }

  /** A loss limit is reached by what is lost already, or for the day by what the new trade may lose. */
  predicate DayFull(a: Account, s: Settings, now: int) {
    var limit := Mul(a.balance, s.dailyLossPct);
    (0.0 < limit && limit <= DailyLoss(a, now)) || limit < DailyLoss(a, now) + Mul(a.balance, s.riskPerTrade)
  }

  predicate WeekFull(a: Account, s: Settings, now: int) {
    var limit := Mul(a.balance, s.weeklyLossPct);
    0.0 < limit && limit <= WeeklyLoss(a, now)
  }

  predicate Cooling(a: Account, now: int) {
    match a.cooldownUntil
    case None => false
    case Some(end) => now < end
  }

  /** What refuses a signal at the gate: the first of these, in the order in which the engine looks. */
  function AtGate(a: Account, s: Settings, sig: Signal, now: int): Option<Code> {
    var basic :=
      Or(When(a.halted, KillSwitch), Or(When(sig.direction.Hold?, HoldSignal), When(!s.active, TradingInactive)));
    var badStop := sig.stopLoss.None? || sig.stopLoss.value <= 0.0;
    var badRatio := badStop || sig.takeProfit.None? || Loss(sig) <= 0.0 || Profit(sig) < 2.0 * Loss(sig);
    var quality :=
      Or(When(badStop, NoStopLoss), Or(When(badRatio, BadRiskReward),
         Or(When(sig.confidence < 0.6, LowConfidence), When(!InTradingHours(s, now), TimeRestriction))));
    var losses :=
      Or(When(DayFull(a, s, now), DailyLossLimit), Or(When(WeekFull(a, s, now), WeeklyLossLimit),
         When(Cooling(a, now) || 3 <= TrailingLosses(a.history), ConsecutiveLosses)));
    Or(basic, Or(quality, losses))
  }

  lemma LossLimitsMean(a: Account, s: Settings, now: int)
    ensures DailyLossOk(DailyLoss(a, now), RiskAmount(a.balance, s.dailyLossPct), RiskAmount(a.balance, s.riskPerTrade))
       <==> !DayFull(a, s, now)
    ensures WeeklyLossOk(WeeklyLoss(a, now), RiskAmount(a.balance, s.weeklyLossPct)) <==> !WeekFull(a, s, now)
  {
    DailyLossMeans(DailyLoss(a, now), RiskAmount(a.balance, s.dailyLossPct), RiskAmount(a.balance, s.riskPerTrade));
    DailyLossMeans(WeeklyLoss(a, now), RiskAmount(a.balance, s.weeklyLossPct), 0.0);
    assert RiskAmount(a.balance, s.dailyLossPct) == Mul(a.balance, s.dailyLossPct);
    assert RiskAmount(a.balance, s.riskPerTrade) == Mul(a.balance, s.riskPerTrade);
    assert RiskAmount(a.balance, s.weeklyLossPct) == Mul(a.balance, s.weeklyLossPct);
    hide RiskAmount, Mul, DailyLoss, WeeklyLoss, DailyLossOk, WeeklyLossOk;
  }

  /** The code of a gate's refusal. */
  function GateCode(g: Gate): Option<Code> {
    match g
    case Pass => None
    case Refuse(code) => Some(code)
    case RefuseAndHalt(code) => Some(code)
    case RefuseAndCool => Some(ConsecutiveLosses)
  }

  lemma GateMeans(a: Account, s: Settings, sig: Signal, now: int)
    ensures GateCode(CheckGate(a, s, sig, now)) == AtGate(a, s, sig, now)
    ensures var g := CheckGate(a, s, sig, now);
      var code, warm := AtGate(a, s, sig, now), !Cooling(a, now);
      && (g.RefuseAndHalt?
          <==> (code == Some(DailyLossLimit) || code == Some(WeeklyLossLimit)
                || (code == Some(ConsecutiveLosses) && warm && 5 <= TrailingLosses(a.history))))
      && (g.RefuseAndCool? <==> code == Some(ConsecutiveLosses) && warm && TrailingLosses(a.history) < 5)
  {
    LossLimitsMean(a, s, now);
    if sig.stopLoss.Some? && 0.0 < sig.stopLoss.value {
      RiskRewardMeans(sig);
    }
    hide DailyLossOk, WeeklyLossOk, DayFull, WeekFull, RiskRewardOk, DailyLoss, WeeklyLoss, TrailingLosses,
      InTradingHours;
  }

  // ---------- The size ----------

  /** What is neither lost nor locked. */
  function Free(a: Account): real {
    var left := a.balance - Locked(a);
    if left < 0.0 then 0.0 else left
  }

  function Lot(symbol: string): real {
    if symbol == "ETHUSDT" then 0.01 else 0.001
  }

  /** The most lots whose loss at the stop stays within the risk of the free balance. */
  ghost predicate MostLots(quantity: real, a: Account, s: Settings, sig: Signal)
    requires sig.stopLoss.Some?
  {
    var distance, risk := Abs(sig.entry - sig.stopLoss.value), Mul(Free(a), s.riskPerTrade);
    && OnGrid(quantity, Lot(sig.symbol)) && Mul(quantity, distance) <= risk
    && risk < Mul(quantity + Lot(sig.symbol), distance)
  }

  /** What a verdict approves: the most lots at the least leverage, its margin and its loss to the cent. */
  lemma ApprovedSizeMeans(a: Account, s: Settings, sig: Signal, now: int)
    requires 0.0 <= s.riskPerTrade
    ensures var v := Validate(a, s, sig, now).verdict;
      v.Approved? ==>
        && sig.stopLoss.Some?
        && LeastLeverage(v.leverage, s, sig) && v.leverage != 0
        && MostLots(v.quantity, a, s, sig) && Lot(sig.symbol) <= v.quantity
        && 5.0 <= Mul(v.quantity, sig.entry)
        && v.margin == Quantize(Mul(v.quantity, sig.entry) / v.leverage as real, 0.01)
        && v.maxLoss == Quantize(Mul(v.quantity, Abs(sig.entry - sig.stopLoss.value)), 0.01)
        && v.margin <= 0.2 * Free(a) && 1.1 * v.margin <= Free(a)
        && OpenRisk(a) + v.maxLoss <= Mul(a.balance, if s.aggressive then 0.15 else 0.1)
  {
    var v := Validate(a, s, sig, now).verdict;
    if v.Approved? {
      ApprovedSize(a, s, sig, now);
      ApprovedFigures(a, s, sig, now);
      ApprovedLimits(a, s, sig, now);
      PaperExposure.ApprovedWithinPortfolio(a, s, sig, now);
      LeastMeans(s, sig);
      assert Available(a) == Free(a);
      var distance := Abs(sig.entry - sig.stopLoss.value);
      SizedIsMost(Free(a), s.riskPerTrade, distance, sig.symbol);
      Products(v.quantity, sig.entry);
      Products(v.quantity, distance);
      Products(a.balance, if s.aggressive then 0.15 else 0.1);
      MarginMeans(v.quantity, sig.entry, v.leverage);
      hide Validate, Quantize, Locked, OpenRisk, Free, Available, SizedQuantity, MarginFor, LossAtDistance, Notional,
        RiskAmount, ResolveFinalLeverage, LeastLeverage, Mul, OnGrid;
    }
  }

  lemma LeastMeans(s: Settings, sig: Signal)
    ensures LeastLeverage(ResolveFinalLeverage(sig.leverage, s.maxLeverage, s.plan), s, sig)
  {
  }

  lemma MarginMeans(quantity: real, price: real, leverage: int)
    requires leverage != 0
    ensures MarginFor(quantity, price, leverage) == Mul(quantity, price) / leverage as real
  {
  }

  lemma ApprovedLimits(a: Account, s: Settings, sig: Signal, now: int)
    requires Validate(a, s, sig, now).verdict.Approved? && sig.stopLoss.Some?
    ensures var v := Validate(a, s, sig, now).verdict;
      && v.leverage == ResolveFinalLeverage(sig.leverage, s.maxLeverage, s.plan)
      && LotSize(sig.symbol) <= v.quantity
      && v.margin <= Available(a) * 0.2 && v.margin * 1.1 <= Available(a)
  {
    hide CheckGate, SizedQuantity, MarginFor, Notional, LossAtDistance, RiskAmount, Sum, Quantize, PreActionFor,
      ResolveFinalLeverage, Available, OpenRisk;
    assert Validate(a, s, sig, now).verdict == CheckSize(a, s, sig);
  }

  lemma SizedIsMost(available: real, risk: real, distance: real, symbol: string)
    requires 0.0 <= available && 0.0 <= risk && 0.0 < distance
    ensures var q := SizedQuantity(available, risk, distance, symbol);
      && OnGrid(q, LotSize(symbol)) && Mul(q, distance) <= Mul(available, risk)
      && Mul(available, risk) < Mul(q + LotSize(symbol), distance)
  {
    MulNonNeg(available, risk);
    var amount := RiskAmount(available, risk);
    assert amount == Mul(available, risk);
    var raw := amount / distance;
    MulDiv(amount, distance);
    if raw < 0.0 {
      MulLt(raw, 0.0, distance);
    }
    FloorToStepLargest(raw, LotSize(symbol));
    var q := SizedQuantity(available, risk, distance, symbol);
    MulLe(q, raw, distance);
    MulLt(raw, q + LotSize(symbol), distance);
    hide Mul, FloorToStep, OnGrid;
  }

  // ---------- The verdict ----------

  function Smaller(x: int, y: int): int {
    if x < y then x else y
  }

  /** The size that is decided on: lots rounded down, and its margin and its loss at the stop to the cent. */
  function Sized(a: Account, s: Settings, sig: Signal): Sizing
    requires sig.stopLoss.Some? && sig.entry != sig.stopLoss.value
    requires Smaller(sig.leverage, Smaller(s.maxLeverage, LeverageCap(s.plan))) != 0
  {
    var leverage := Smaller(sig.leverage, Smaller(s.maxLeverage, LeverageCap(s.plan)));
    var distance := Abs(sig.entry - sig.stopLoss.value);
    var quantity := FloorToStep(Mul(Free(a), s.riskPerTrade) / distance, Lot(sig.symbol));
    Sizing(quantity,
           Quantize(Mul(quantity, sig.entry) / leverage as real, 0.01),
           Quantize(Mul(quantity, distance), 0.01),
           leverage)
  }

  /** What refuses a signal that passed the gate: the first of these, in the order in which the engine looks. */
  function AtSize(a: Account, s: Settings, sig: Signal): Option<Code>
    requires sig.stopLoss.Some?
  {
    var held := FindCoin(a.positions, sig.coin);
    var full := Smaller(s.maxConcurrent, PositionCap(s.plan)) <= |a.positions|;
    var sameSide := held.Some? && a.positions[held.value].direction == sig.direction;
    var room :=
      Or(When(full && held.None?, TooManyPositions),
         When(sameSide && 2 <= a.positions[held.value].dcaCount, PositionConflict));
    if room.Some? then room
    else if sig.entry == sig.stopLoss.value
            || Smaller(sig.leverage, Smaller(s.maxLeverage, LeverageCap(s.plan))) == 0 then Some(SystemError)
    else
      var size := Sized(a, s, sig);
      var fits :=
        && Lot(sig.symbol) <= size.quantity && 5.0 <= Mul(size.quantity, sig.entry)
        && size.margin <= Free(a) * 0.2 && size.margin * 1.1 <= Free(a);
      var risk := OpenRisk(a) + size.maxLoss;
      Or(When(!fits, BadSizing), When(Mul(a.balance, if s.aggressive then 0.15 else 0.1) < risk, PortfolioRisk))
  }

  lemma SizeMeans(a: Account, s: Settings, sig: Signal)
    requires sig.stopLoss.Some?
    ensures var v := CheckSize(a, s, sig);
      match AtSize(a, s, sig)
      case Some(code) => v == Rejected(code)
      case None =>
        sig.entry != sig.stopLoss.value
        && Smaller(sig.leverage, Smaller(s.maxLeverage, LeverageCap(s.plan))) != 0
        && var size := Sized(a, s, sig);
           var held := FindCoin(a.positions, sig.coin);
           && v.Approved? && v.quantity == size.quantity && v.leverage == size.leverage
           && v.margin == size.margin && v.maxLoss == size.maxLoss
           && (v.preAction.NoAction? <==> held.None?)
           && (v.preAction.Dca? <==> held.Some? && a.positions[held.value].direction == sig.direction)
  {
    var leverage := ResolveFinalLeverage(sig.leverage, s.maxLeverage, s.plan);
    assert leverage == Smaller(sig.leverage, Smaller(s.maxLeverage, LeverageCap(s.plan)));
    assert Available(a) == Free(a);
    assert PositionLimit(s.maxConcurrent, s.plan) == Smaller(s.maxConcurrent, PositionCap(s.plan));
    if leverage != 0 && sig.entry != sig.stopLoss.value {
      SizedSame(a, s, sig);
    }
    hide ResolveFinalLeverage, Smaller, LeverageCap, Available, Free, PositionLimit, PositionCap, Locked, OpenRisk,
      Sized;
  }

  lemma Products(x: real, y: real)
    ensures RiskAmount(x, y) == Notional(x, y) == LossAtDistance(x, y) == Mul(x, y)
  {
  }

  lemma SizedSame(a: Account, s: Settings, sig: Signal)
    requires sig.stopLoss.Some? && sig.entry != sig.stopLoss.value
    requires ResolveFinalLeverage(sig.leverage, s.maxLeverage, s.plan) != 0
    ensures Smaller(sig.leverage, Smaller(s.maxLeverage, LeverageCap(s.plan))) != 0
    ensures var size, leverage := Sized(a, s, sig), ResolveFinalLeverage(sig.leverage, s.maxLeverage, s.plan);
      CalculatePositionSize(Available(a), s.riskPerTrade, sig.entry, sig.stopLoss.value, leverage, sig.symbol)
      == Some(size)
      && (ValidatePositionSize(size, Available(a), sig.entry, sig.symbol)
          <==> && Lot(sig.symbol) <= size.quantity && 5.0 <= Mul(size.quantity, sig.entry)
               && size.margin <= Free(a) * 0.2 && size.margin * 1.1 <= Free(a))
      && (PortfolioRiskOk(a.balance, OpenRisk(a), size.maxLoss, s.aggressive)
          <==> OpenRisk(a) + size.maxLoss <= Mul(a.balance, if s.aggressive then 0.15 else 0.1))
  {
    assert Available(a) == Free(a);
    hide Available, Free, Locked, OpenRisk, FloorToStep, Quantize, ResolveFinalLeverage;
    var leverage := ResolveFinalLeverage(sig.leverage, s.maxLeverage, s.plan);
    var distance := Abs(sig.entry - sig.stopLoss.value);
    Products(Free(a), s.riskPerTrade);
    var quantity := SizedQuantity(Free(a), s.riskPerTrade, distance, sig.symbol);
    Products(quantity, sig.entry);
    Products(quantity, distance);
    Products(a.balance, if s.aggressive then 0.15 else 0.1);
    MarginMeans(quantity, sig.entry, leverage);
    hide Mul, MarginFor, RiskAmount, Notional, LossAtDistance;
  }

  /** Main result on verdicts: a signal is refused with the code of the first limit it meets, at the gate or at its
      size, and approved with that size when it meets none.  A loss limit, or five losses in a row, halts the
      account; three or four start a cooldown of thirty minutes; nothing else changes. */
  lemma VerdictMeans(a: Account, s: Settings, sig: Signal, now: int)
    ensures var v, gate := Validate(a, s, sig, now), AtGate(a, s, sig, now);
      var losses, counts := TrailingLosses(a.history), gate == Some(ConsecutiveLosses) && !Cooling(a, now);
      && (gate.Some? ==> v.verdict == Rejected(gate.value))
      && (gate.None? ==> sig.stopLoss.Some? && v.verdict == CheckSize(a, s, sig) && v.account == a)
      && (gate.Some? ==>
            v.account == if gate.value.DailyLossLimit? || gate.value.WeeklyLossLimit? || (counts && 5 <= losses)
                         then a.(halted := true)
                         else if counts then a.(cooldownUntil := Some(now + 30 * 60_000_000))
                         else a)
  {
    GateMeans(a, s, sig, now);
    hide CheckGate, AtGate, CheckSize, TrailingLosses;
    StopIsThere(a, s, sig, now);
  }

  lemma StopIsThere(a: Account, s: Settings, sig: Signal, now: int)
    ensures AtGate(a, s, sig, now).None? ==> sig.stopLoss.Some?
  {
    hide DayFull, WeekFull, InTradingHours, TrailingLosses;
  }

  // ---------- Counts ----------

  /** As many records at the end of the history are losses, and the one before them is not. */
  lemma {:induction false} TrailingMeans(history: seq<Record>)
    ensures var n := TrailingLosses(history);
      && n <= |history|
      && (forall k :: |history| - n <= k < |history| ==> history[k].net < 0.0)
      && (n < |history| ==> 0.0 <= history[|history| - n - 1].net)
  {
    if |history| > 0 && history[|history| - 1].net < 0.0 {
      TrailingMeans(history[..|history| - 1]);
    }
  }

  /** In every account a run can reach at most 1, 5 or 20 positions are open, by plan, and never more than the user
      allows. */
  lemma PositionsWithinPlan(balance: real, s: Settings, events: seq<Event>)
    ensures var n := |Run(InitialAccount(balance), s, events).positions|;
      n <= PositionCap(s.plan) && (n <= s.maxConcurrent || n == 0)
  {
    RunKeepsSound(InitialAccount(balance), s, events);
  }

  // ---------- What calls put into the account ----------

  /** What a close of some quantity at a price brings: the move in favour of the position, less the fee. */
  function Brings(p: Position, price: real, quantity: real, rate: real): real {
    Moves(p, price, quantity) - Mul(Mul(quantity, price), rate)
  }

  function Moves(p: Position, price: real, quantity: real): real {
    if p.direction.Long? then Mul(price - p.entry, quantity) else Mul(p.entry - price, quantity)
  }

  /** The record of a close: its figures to the cent, the fee of both ways to a hundredth of that. */
  predicate Records(r: Record, p: Position, price: real, quantity: real, reason: Reason, rate: real, now: int) {
    && r.positionId == p.id && r.coin == p.coin && r.direction == p.direction && r.entry == p.entry
    && r.close == price && r.quantity == quantity && r.reason == reason && r.closedAt == now
    && r.net == Quantize(Brings(p, price, quantity, rate), 0.01)
    && r.gross == Quantize(Moves(p, price, quantity), 0.01)
    && r.fee == Quantize(Mul(Mul(quantity, p.entry), rate) + Mul(Mul(quantity, price), rate), 0.0001)
  }

  lemma RecordMeans(p: Position, price: real, quantity: real, fee: real, reason: Reason, rate: real, now: int)
    requires fee == Mul(Mul(quantity, p.entry), rate)
    ensures Records(MakeRecord(p, price, quantity, fee, reason, rate, now), p, price, quantity, reason, rate, now)
    ensures NetPnl(p.direction, p.entry, price, quantity, rate) == Brings(p, price, quantity, rate)
  {
    FeeMeans(quantity, price, rate);
    assert GrossPnl(p.direction, p.entry, price, quantity) == Moves(p, price, quantity);
    hide Quantize, GrossPnl, Fee, Mul, Moves;
  }

  /** Main result on closes: a full close credits the move less its fee, records it with the fee of both ways, and takes
      the position out. */
  lemma CloseMeans(a: Account, s: Settings, i: nat, price: real, reason: Reason, now: int)
    requires Sound(a, s) && i < |a.positions|
    ensures var b, p := ClosePosition(a, s, i, price, reason, now), a.positions[i];
      && b.balance == a.balance + Brings(p, price, p.quantity, s.feeRate)
      && b.positions == a.positions[..i] + a.positions[i + 1..]
      && |b.history| == |a.history| + 1 && b.history[..|a.history|] == a.history
      && Records(b.history[|a.history|], p, price, p.quantity, reason, s.feeRate, now)
      && b.halted == a.halted && b.cooldownUntil == a.cooldownUntil && b.nextId == a.nextId
  {
    var p := a.positions[i];
    ShareMeans(p, s.feeRate);
    RecordMeans(p, price, p.quantity, EntryFeeShare(p, s.feeRate), reason, s.feeRate, now);
    hide NetPnl, EntryFeeShare, MakeRecord, Records, Brings;
  }

  lemma ShareMeans(p: Position, rate: real)
    requires 0.0 < p.originalQuantity
    ensures EntryFeeShare(p, rate) == Mul(Mul(p.quantity, p.entry), rate)
  {
    var original := p.originalQuantity;
    MulDiv(p.quantity, original);
    assert Fee(original, p.entry, rate) == Mul(original, Mul(p.entry, rate));
    var part := p.quantity / original;
    assert Mul(Mul(original, Mul(p.entry, rate)), part) == Mul(Mul(part, original), Mul(p.entry, rate));
    assert Mul(p.quantity, Mul(p.entry, rate)) == Mul(Mul(p.quantity, p.entry), rate);
    assert EntryFeeShare(p, rate) == Mul(Fee(original, p.entry, rate), part);
  }

  /** Main result on partial closes: the part closed is credited and recorded, and what is left of the position has lost
      that quantity and the ratio's share of its margin. */
  lemma PartialMeans(a: Account, s: Settings, i: nat, price: real, ratio: real, now: int)
    requires i < |a.positions| && PartialClose(a, s, i, price, ratio, now).Some?
    ensures var b, p := PartialClose(a, s, i, price, ratio, now).value, a.positions[i];
      |b.positions| == |a.positions|
      && var q := b.positions[i];
         var part := p.quantity - q.quantity;
         && 0.0 < ratio < 1.0 && 0.0 < part
         && b.balance == a.balance + Brings(p, price, part, s.feeRate)
         && b.positions == a.positions[i := q]
         && q == p.(quantity := q.quantity, margin := q.margin, realized := q.realized, status := PartiallyClosed,
                    current := price)
         && q.margin == p.margin - Mul(p.margin, ratio)
         && q.realized == p.realized + Brings(p, price, part, s.feeRate)
         && |b.history| == |a.history| + 1 && b.history[..|a.history|] == a.history
         && Records(b.history[|a.history|], p, price, part, Partial, s.feeRate, now)
         && b.halted == a.halted && b.cooldownUntil == a.cooldownUntil && b.nextId == a.nextId
  {
    var p := a.positions[i];
    var part := PartialQuantity(p.quantity, ratio);
    PartialCase(a, s, i, price, ratio, now);
    PartialShape(a, s, i, price, ratio, now);
    hide PartialClose, NetPnl, MakeRecord, Records, Brings, Moves, PartialQuantity, Quantize, Reduced;
    ReducedMeans(p, part, ratio, price, s.feeRate);
    FeeMeans(part, p.entry, s.feeRate);
    hide Fee, Mul;
    RecordMeans(p, price, part, Fee(part, p.entry, s.feeRate), Partial, s.feeRate, now);
  }

  lemma FeeMeans(quantity: real, price: real, rate: real)
    ensures Fee(quantity, price, rate) == Mul(Mul(quantity, price), rate)
  {
  }

  lemma ReducedMeans(p: Position, part: real, ratio: real, price: real, rate: real)
    ensures Reduced(p, part, ratio, price, rate)
         == p.(quantity := p.quantity - part, margin := p.margin - Mul(p.margin, ratio),
               realized := p.realized + NetPnl(p.direction, p.entry, price, part, rate), status := PartiallyClosed,
               current := price)
  {
    hide NetPnl;
  }

  /** Main result on entries: an approved signal in a coin that is not held opens a position with the figures of the
      verdict and the prices of the signal; in one that is held on its side, it adds quantity, margin and loss to the
      position at the average price.  The fee is debited, nothing is recorded. */
  lemma EntryMeans(a: Account, s: Settings, sig: Signal, v: Verdict)
    requires v.Approved? && sig.takeProfit.Some? && sig.stopLoss.Some?
    requires v.preAction.Dca? <==> FindCoin(a.positions, sig.coin).Some?
    ensures var b := Enter(a, s, sig, v);
      var held := FindCoin(a.positions, sig.coin);
      && b.balance == a.balance - Mul(Mul(v.quantity, sig.entry), s.feeRate)
      && b.history == a.history && b.halted == a.halted && b.cooldownUntil == a.cooldownUntil
      && (held.None? ==>
            && b.nextId == a.nextId + 1 && |b.positions| == |a.positions| + 1
            && b.positions[..|a.positions|] == a.positions
            && var p := b.positions[|a.positions|];
               && p.id == a.nextId && p.coin == sig.coin && p.direction == sig.direction && p.status.Open?
               && p.entry == p.current == sig.entry && p.quantity == p.originalQuantity == v.quantity
               && p.takeProfit == sig.takeProfit.value && p.stopLoss == sig.stopLoss.value
               && p.leverage == v.leverage && p.margin == v.margin && p.maxLoss == v.maxLoss
               && p.realized == 0.0 && p.dcaCount == 0)
      && (held.Some? ==>
            && b.nextId == a.nextId && |b.positions| == |a.positions|
            && var p, q := a.positions[held.value], b.positions[held.value];
               && b.positions == a.positions[held.value := q]
               && q == p.(entry := q.entry, quantity := p.quantity + v.quantity, margin := p.margin + v.margin,
                          originalQuantity := p.originalQuantity + v.quantity, maxLoss := p.maxLoss + v.maxLoss,
                          dcaCount := p.dcaCount + 1)
               && (q.quantity != 0.0 ==>
                     Mul(q.entry, q.quantity) == Mul(p.entry, p.quantity) + Mul(sig.entry, v.quantity)))
  {
    FeeMeans(v.quantity, sig.entry, s.feeRate);
    var held := FindCoin(a.positions, sig.coin);
    if held.Some? && a.positions[held.value].quantity + v.quantity != 0.0 {
      AverageMeans(a.positions[held.value], sig, v);
    }
    hide Fee, AverageEntry, Mul;
  }

  lemma AverageMeans(p: Position, sig: Signal, v: Verdict)
    requires v.Approved? && p.quantity + v.quantity != 0.0
    ensures var entry := AverageEntry(p.quantity, p.entry, v.quantity, sig.entry);
      Mul(entry, p.quantity + v.quantity) == Mul(p.entry, p.quantity) + Mul(sig.entry, v.quantity)
  {
    PaperLedger.AverageCost(p.quantity, p.entry, v.quantity, sig.entry);
  }

  /** A reverse signal closes what is held on the other side at its own entry, and nothing else. */
  lemma ReverseMeans(a: Account, s: Settings, sig: Signal, now: int)
    ensures var d, held := DecisionAccount(a, s, sig, now), FindCoin(a.positions, sig.coin);
      if held.Some? && Validate(a, s, sig, now).verdict.Approved? && a.positions[held.value].direction != sig.direction
      then d == ClosePosition(a, s, held.value, sig.entry, ReverseSignal, now)
      else d == a
  {
    VerdictMeans(a, s, sig, now);
    hide Validate, ClosePosition, AtGate;
    if sig.stopLoss.Some? {
      SizeMeans(a, s, sig);
    }
    hide CheckSize, AtSize, Sized;
  }

  // ---------- Calls and runs ----------

  /** The target of a position is reached, or else its stop. */
  predicate TargetMet(p: Position, price: real) {
    if p.direction.Long? then p.takeProfit <= price else price <= p.takeProfit
  }

  predicate StopMet(p: Position, price: real) {
    if p.direction.Long? then price <= p.stopLoss else p.stopLoss <= price
  }

  /** Main result on calls: a signal is submitted; a price closes the position of its coin at its target or at its
      stop, or else is noted there; a close and a partial close go to the position with the identifier, if there is
      one; prices are noted for their coins; a halt sets the halt alone, and a resume clears it and the cooldown
      alone. */
  lemma StepMeans(a: Account, s: Settings, e: Event)
    ensures var b := Step(a, s, e);
      match e
      case Submit(sig, now) => b == SubmitSignal(a, s, sig, now).account
      case TickPrice(coin, price, now) =>
        (match FindCoin(a.positions, coin)
         case None => b == a
         case Some(i) =>
           var p := a.positions[i];
           if TargetMet(p, price) then b == ClosePosition(a, s, i, price, TpHit, now)
           else if StopMet(p, price) then b == ClosePosition(a, s, i, price, SlHit, now)
           else b == a.(positions := a.positions[i := p.(current := price)]))
      case CloseCall(id, price, now) =>
        (match FindId(a.positions, id)
         case None => b == a
         case Some(i) => b == ClosePosition(a, s, i, price, Manual, now))
      case PartialCall(id, price, ratio, now) =>
        (match FindId(a.positions, id)
         case None => b == a
         case Some(i) =>
           var c := PartialClose(a, s, i, price, ratio, now);
           if c.Some? then c == Some(b) else b == a)
      case PricesCall(prices) =>
        && b == a.(positions := b.positions) && |b.positions| == |a.positions|
        && forall k :: 0 <= k < |a.positions| ==>
             var p := a.positions[k];
             b.positions[k] == if p.coin in prices then p.(current := prices[p.coin]) else p
      case HaltCall => b == a.(halted := true)
      case ResumeCall => b == a.(halted := false, cooldownUntil := None)
  {
    hide SubmitSignal, ClosePosition, PartialClose;
  }

  /** A run takes its calls one after the other, from an account with nothing in it but its balance. */
  lemma {:induction false} RunMeans(a: Account, s: Settings, events: seq<Event>, e: Event)
    ensures Run(a, s, []) == a
    ensures Run(a, s, events + [e]) == Step(Run(a, s, events), s, e)
    decreases |events|
  {
    hide Step;
    if |events| == 0 {
      assert (events + [e])[1..] == [] && (events + [e])[0] == e;
    } else {
      assert (events + [e])[1..] == events[1..] + [e] && (events + [e])[0] == events[0];
      RunMeans(Step(a, s, events[0]), s, events[1..], e);
    }
  }
}
