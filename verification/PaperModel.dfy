/** The paper account as a value, and the effect of every engine call on it:
    agents/paper_trading/state.py, risk_engine.py, position_manager.py and engine.py.

    Time is in microseconds from a Monday 00:00 UTC.  Every call reads the clock once, as `now`. */
module PaperModel {
  import opened Common
  import opened Decimals
  import opened RiskSizing

  const MINUTE: int := 60_000_000
  const DAY: int := 1440 * MINUTE

  datatype Settings = Settings(
    plan: Plan,
    aggressive: bool,
    riskPerTrade: real,
    maxLeverage: int,
    maxConcurrent: int,
    dailyLossPct: real,
    weeklyLossPct: real,
    hoursStart: Option<int>,      // minutes after midnight
    hoursEnd: Option<int>,
    feeRate: real,
    active: bool)

  datatype Status = Open | PartiallyClosed | Closed

  datatype Position = Position(
    id: nat,
    coin: string,
    direction: Direction,
    entry: real,
    quantity: real,
    originalQuantity: real,
    leverage: int,
    takeProfit: real,
    stopLoss: real,
    margin: real,
    maxLoss: real,
    status: Status,
    realized: real,
    current: real,
    dcaCount: int)

  datatype Reason = TpHit | SlHit | Manual | Partial | ReverseSignal

  datatype Record = Record(
    positionId: nat,
    coin: string,
    direction: Direction,
    entry: real,
    close: real,
    quantity: real,
    gross: real,
    fee: real,
    net: real,
    reason: Reason,
    closedAt: int)

  /** Positions are listed in the order in which they were opened; `nextId` is the next unused identifier. */
  datatype Account = Account(
    balance: real,
    positions: seq<Position>,
    history: seq<Record>,
    halted: bool,
    cooldownUntil: Option<int>,
    nextId: nat)

  // ---------- Figures derived from the account ----------

  function Sum(ps: seq<Position>, f: Position -> real): real {
    if |ps| == 0 then 0.0 else f(ps[0]) + Sum(ps[1..], f)
  }

  function MarginOf(p: Position): real { p.margin }

  function RiskOf(p: Position): real { p.maxLoss }

  function Locked(a: Account): real {
    Sum(a.positions, MarginOf)
  }

  function Available(a: Account): real {
    Max(0.0, a.balance - Locked(a))
  }

  function OpenRisk(a: Account): real {
    Sum(a.positions, RiskOf)
  }

  /** The losses of the records closed on the days that `onDay` selects. */
  function Losses(history: seq<Record>, onDay: int -> bool): real {
    if |history| == 0 then 0.0
    else
      (if history[0].net < 0.0 && onDay(history[0].closedAt / DAY) then Abs(history[0].net) else 0.0)
      + Losses(history[1..], onDay)
  }

  function DailyLoss(a: Account, now: int): real {
    Losses(a.history, day => day == now / DAY)
  }

  /** Weeks begin on Monday. */
  function WeeklyLoss(a: Account, now: int): real {
    Losses(a.history, day => now / DAY - now / DAY % 7 <= day)
  }

  /** How many records at the end of the history are losses. */
  function TrailingLosses(history: seq<Record>): (n: nat)
    ensures n <= |history|
  {
    if |history| == 0 || 0.0 <= history[|history| - 1].net then 0
    else 1 + TrailingLosses(history[..|history| - 1])
  }

  predicate InCooldown(a: Account, now: int) {
    a.cooldownUntil.Some? && now < a.cooldownUntil.value
  }

  /** The first open position in the coin. */
  function FindCoin(ps: seq<Position>, coin: string): (i: Option<nat>)
    ensures i.Some? ==> i.value < |ps| && ps[i.value].coin == coin
    ensures i.None? ==> forall k :: 0 <= k < |ps| ==> ps[k].coin != coin
  {
    if |ps| == 0 then None
    else if ps[0].coin == coin then Some(0)
    else
      var rest := FindCoin(ps[1..], coin);
      if rest.None? then None else Some(rest.value + 1)
  }

  function FindId(ps: seq<Position>, id: nat): (i: Option<nat>)
    ensures i.Some? ==> i.value < |ps| && ps[i.value].id == id
    ensures i.None? ==> forall k :: 0 <= k < |ps| ==> ps[k].id != id
  {
    if |ps| == 0 then None
    else if ps[0].id == id then Some(0)
    else
      var rest := FindId(ps[1..], id);
      if rest.None? then None else Some(rest.value + 1)
  }

  // ---------- The risk gate ----------

  datatype Code =
    | KillSwitch | HoldSignal | TradingInactive | NoStopLoss | BadRiskReward | LowConfidence | TimeRestriction
    | DailyLossLimit | WeeklyLossLimit | ConsecutiveLosses | TooManyPositions | PositionConflict
    | SystemError | BadSizing | PortfolioRisk

  datatype Gate = Pass | Refuse(code: Code) | RefuseAndHalt(haltCode: Code) | RefuseAndCool

  datatype PreAction = NoAction | CloseExisting | Dca

  datatype Verdict =
    | Rejected(code: Code)
    | Approved(quantity: real, leverage: int, margin: real, maxLoss: real, preAction: PreAction)

  datatype Validation = Validation(verdict: Verdict, account: Account)

  predicate InTradingHours(s: Settings, now: int) {
    if s.hoursStart.None? || s.hoursEnd.None? then true
    else
      var minute := now / MINUTE % 1440;
      if s.hoursStart.value <= s.hoursEnd.value then s.hoursStart.value <= minute <= s.hoursEnd.value
      else s.hoursStart.value <= minute || minute <= s.hoursEnd.value
  }

  /** Checks 0 to 9, in the order of the code. */
  function CheckGate(a: Account, s: Settings, sig: Signal, now: int): Gate {
    if a.halted then Refuse(KillSwitch)
    else if sig.direction.Hold? then Refuse(HoldSignal)
    else if !s.active then Refuse(TradingInactive)
    else if sig.stopLoss.None? || sig.stopLoss.value <= 0.0 then Refuse(NoStopLoss)
    else if !RiskRewardOk(sig) then Refuse(BadRiskReward)
    else if sig.confidence < 0.6 then Refuse(LowConfidence)
    else if !InTradingHours(s, now) then Refuse(TimeRestriction)
    else if !DailyLossOk(DailyLoss(a, now), RiskAmount(a.balance, s.dailyLossPct),
                         RiskAmount(a.balance, s.riskPerTrade)) then
      RefuseAndHalt(DailyLossLimit)
    else if !WeeklyLossOk(WeeklyLoss(a, now), RiskAmount(a.balance, s.weeklyLossPct)) then
      RefuseAndHalt(WeeklyLossLimit)
    else if InCooldown(a, now) then Refuse(ConsecutiveLosses)
    else if CONSECUTIVE_LOSS_HALT <= TrailingLosses(a.history) then RefuseAndHalt(ConsecutiveLosses)
    else if CONSECUTIVE_LOSS_COOLDOWN <= TrailingLosses(a.history) then RefuseAndCool
    else Pass
  }

  function PreActionFor(a: Account, sig: Signal): PreAction {
    var existing := FindCoin(a.positions, sig.coin);
    if existing.None? then NoAction
    else if a.positions[existing.value].direction == sig.direction then Dca
    else CloseExisting
  }

  /** Checks 10 to 13. */
  function CheckSize(a: Account, s: Settings, sig: Signal): Verdict
    requires sig.stopLoss.Some?
  {
    var existing := FindCoin(a.positions, sig.coin);
    if PositionLimit(s.maxConcurrent, s.plan) <= |a.positions| && existing.None? then Rejected(TooManyPositions)
    else if PreActionFor(a, sig).Dca? && MAX_DCA_COUNT <= a.positions[existing.value].dcaCount then
      Rejected(PositionConflict)
    else
      var leverage := ResolveFinalLeverage(sig.leverage, s.maxLeverage, s.plan);
      var sizing :=
        CalculatePositionSize(Available(a), s.riskPerTrade, sig.entry, sig.stopLoss.value, leverage, sig.symbol);
      if sizing.None? then Rejected(SystemError)
      else if !ValidatePositionSize(sizing.value, Available(a), sig.entry, sig.symbol) then Rejected(BadSizing)
      else if !PortfolioRiskOk(a.balance, OpenRisk(a), sizing.value.maxLoss, s.aggressive) then Rejected(PortfolioRisk)
      else Approved(sizing.value.quantity, leverage, sizing.value.margin, sizing.value.maxLoss, PreActionFor(a, sig))
  }

  /** A refusal may halt the account or start a cooldown; nothing else changes. */
  function Validate(a: Account, s: Settings, sig: Signal, now: int): Validation {
    match CheckGate(a, s, sig, now)
    case Pass => Validation(CheckSize(a, s, sig), a)
    case Refuse(code) => Validation(Rejected(code), a)
    case RefuseAndHalt(code) => Validation(Rejected(code), a.(halted := true))
    case RefuseAndCool =>
      Validation(Rejected(ConsecutiveLosses), a.(cooldownUntil := Some(now + COOLDOWN_MINUTES * MINUTE)))
  }

  // ---------- Moving money ----------

  function GrossPnl(direction: Direction, entry: real, close: real, quantity: real): real {
    if direction.Long? then (close - entry) * quantity else (entry - close) * quantity
  }

  /** What closing credits to the balance; the entry fee was debited when the position was opened. */
  function NetPnl(direction: Direction, entry: real, close: real, quantity: real, rate: real): real {
    GrossPnl(direction, entry, close, quantity) - Fee(quantity, close, rate)
  }

  function MakeRecord(p: Position, close: real, quantity: real, entryFee: real, reason: Reason, rate: real,
                      now: int): Record
  {
    Record(p.id, p.coin, p.direction, p.entry, close, quantity,
           Quantize(GrossPnl(p.direction, p.entry, close, quantity), 0.01),
           Quantize(entryFee + Fee(quantity, close, rate), 0.0001),
           Quantize(NetPnl(p.direction, p.entry, close, quantity, rate), 0.01),
           reason, now)
  }

  function OpenPosition(a: Account, s: Settings, sig: Signal, v: Verdict): Account
    requires v.Approved? && sig.takeProfit.Some? && sig.stopLoss.Some?
  {
    var p := Position(a.nextId, sig.coin, sig.direction, sig.entry, v.quantity, v.quantity, v.leverage,
                      sig.takeProfit.value, sig.stopLoss.value, v.margin, v.maxLoss, Open, 0.0, sig.entry, 0);
    a.(balance := a.balance - Fee(v.quantity, sig.entry, s.feeRate),
       positions := a.positions + [p],
       nextId := a.nextId + 1)
  }

  /** The share of the entry fee that a full close attributes to its record: the fee of the original quantity,
      times the fraction of it that is closed.  The original quantity is at least one lot, never zero. */
  function EntryFeeShare(p: Position, rate: real): real {
    if p.originalQuantity == 0.0 then 0.0
    else Fee(p.originalQuantity, p.entry, rate) * (p.quantity / p.originalQuantity)
  }

  function Without(ps: seq<Position>, i: nat): seq<Position>
    requires i < |ps|
  {
    ps[..i] + ps[i + 1..]
  }

  function ClosePosition(a: Account, s: Settings, i: nat, price: real, reason: Reason, now: int): Account
    requires i < |a.positions|
  {
    var p := a.positions[i];
    var record := MakeRecord(p, price, p.quantity, EntryFeeShare(p, s.feeRate), reason, s.feeRate, now);
    a.(balance := a.balance + NetPnl(p.direction, p.entry, price, p.quantity, s.feeRate),
       positions := Without(a.positions, i),
       history := a.history + [record])
  }

  /** The power of ten in which the decimal of `thousandths / 1000`, without trailing zeros, counts. */
  function NormalQuantum(thousandths: int): (q: real)
    ensures 0.001 <= q
    decreases if thousandths < 0 then -thousandths else thousandths
  {
    if thousandths != 0 && thousandths % 10 == 0 then 10.0 * NormalQuantum(thousandths / 10) else 0.001
  }

  function Portion(quantity: real, ratio: real): real {
    quantity * ratio
  }

  /** `(quantity * ratio).quantize(quantity.normalize(), ROUND_DOWN)`; quantities are whole thousandths. */
  function PartialQuantity(quantity: real, ratio: real): real {
    FloorToStep(Portion(quantity, ratio), NormalQuantum((quantity * 1000.0).Floor))
  }

  /** The position left after closing `quantity` of it. */
  function Reduced(p: Position, quantity: real, ratio: real, price: real, rate: real): Position {
    p.(quantity := p.quantity - quantity,
       margin := p.margin - p.margin * ratio,
       realized := p.realized + NetPnl(p.direction, p.entry, price, quantity, rate),
       status := PartiallyClosed,
       current := price)
  }

  /** `None` stands for the errors raised for a ratio outside (0, 1) or a quantity that rounds to nothing. */
  function PartialClose(a: Account, s: Settings, i: nat, price: real, ratio: real, now: int): Option<Account>
    requires i < |a.positions|
  {
    var p := a.positions[i];
    var quantity := PartialQuantity(p.quantity, ratio);
    if !(0.0 < ratio < 1.0) || quantity <= 0.0 then None
    else
      var record := MakeRecord(p, price, quantity, Fee(quantity, p.entry, s.feeRate), Partial, s.feeRate, now);
      Some(a.(balance := a.balance + NetPnl(p.direction, p.entry, price, quantity, s.feeRate),
              positions := a.positions[i := Reduced(p, quantity, ratio, price, s.feeRate)],
              history := a.history + [record]))
  }

  function Enlarged(p: Position, sig: Signal, v: Verdict): Position
    requires v.Approved?
  {
    p.(entry := AverageEntry(p.quantity, p.entry, v.quantity, sig.entry),
       quantity := p.quantity + v.quantity,
       originalQuantity := p.originalQuantity + v.quantity,
       margin := p.margin + v.margin,
       maxLoss := p.maxLoss + v.maxLoss,
       dcaCount := p.dcaCount + 1)
  }

  function ApplyDca(a: Account, s: Settings, i: nat, sig: Signal, v: Verdict): Account
    requires i < |a.positions| && v.Approved?
  {
    a.(balance := a.balance - Fee(v.quantity, sig.entry, s.feeRate),
       positions := a.positions[i := Enlarged(a.positions[i], sig, v)])
  }

  // ---------- Engine calls ----------

  /** What to do with an approved signal once no position in the opposite direction is in the way. */
  function Enter(a: Account, s: Settings, sig: Signal, v: Verdict): Account
    requires v.Approved? && sig.takeProfit.Some? && sig.stopLoss.Some?
  {
    var existing := FindCoin(a.positions, sig.coin);
    if v.preAction.Dca? && existing.Some? then ApplyDca(a, s, existing.value, sig, v)
    else OpenPosition(a, s, sig, v)
  }

  lemma ApprovedSignalIsComplete(a: Account, s: Settings, sig: Signal, now: int)
    requires Validate(a, s, sig, now).verdict.Approved?
    ensures sig.takeProfit.Some? && sig.stopLoss.Some? && sig.direction.IsSide()
    ensures Validate(a, s, sig, now).account == a
  {
  }

  datatype Submission = Submission(account: Account, accepted: bool)

  /** The account once a position in the opposite direction has been closed at the signal's entry. */
  function AfterReverse(a: Account, s: Settings, sig: Signal, now: int): Account {
    var existing := FindCoin(a.positions, sig.coin);
    if existing.Some? then ClosePosition(a, s, existing.value, sig.entry, ReverseSignal, now) else a
  }

  function SubmitSignal(a: Account, s: Settings, sig: Signal, now: int): Submission {
    var first := Validate(a, s, sig, now);
    if first.verdict.Rejected? then Submission(first.account, false)
    else
      ApprovedSignalIsComplete(a, s, sig, now);
      if first.verdict.preAction.CloseExisting? then
        var reversed := AfterReverse(a, s, sig, now);
        var second := Validate(reversed, s, sig, now);
        if second.verdict.Rejected? then Submission(second.account, false)
        else Submission(Enter(reversed, s, sig, second.verdict), true)
      else Submission(Enter(a, s, sig, first.verdict), true)
  }

  function Hit(p: Position, price: real): Option<Reason> {
    if p.direction.Long? then
      if p.takeProfit <= price then Some(TpHit) else if price <= p.stopLoss then Some(SlHit) else None
    else
      if price <= p.takeProfit then Some(TpHit) else if p.stopLoss <= price then Some(SlHit) else None
  }

  /** A price for a coin.  An account never holds two positions in one coin. */
  function Tick(a: Account, s: Settings, coin: string, price: real, now: int): Account {
    var existing := FindCoin(a.positions, coin);
    if existing.None? then a
    else
      var i := existing.value;
      var hit := Hit(a.positions[i], price);
      if hit.Some? then ClosePosition(a, s, i, price, hit.value, now)
      else a.(positions := a.positions[i := a.positions[i].(current := price)])
  }

  function ManualClose(a: Account, s: Settings, id: nat, price: real, now: int): Account {
    var i := FindId(a.positions, id);
    if i.None? then a else ClosePosition(a, s, i.value, price, Manual, now)
  }

  /** A call that raises an error leaves the account as it was. */
  function ManualPartialClose(a: Account, s: Settings, id: nat, price: real, ratio: real, now: int): Account {
    var i := FindId(a.positions, id);
    if i.None? then a
    else
      var b := PartialClose(a, s, i.value, price, ratio, now);
      if b.None? then a else b.value
  }

  function UpdatePrices(a: Account, prices: map<string, real>): Account {
    a.(positions := seq(|a.positions|, i requires 0 <= i < |a.positions| =>
                          var p := a.positions[i];
                          if p.coin in prices then p.(current := prices[p.coin]) else p))
  }

  datatype Event =
    | Submit(signal: Signal, now: int)
    | TickPrice(coin: string, price: real, now: int)
    | CloseCall(id: nat, price: real, now: int)
    | PartialCall(id: nat, price: real, ratio: real, now: int)
    | PricesCall(prices: map<string, real>)
    | HaltCall
    | ResumeCall

  function Step(a: Account, s: Settings, e: Event): Account {
    match e
    case Submit(sig, now) => SubmitSignal(a, s, sig, now).account
    case TickPrice(coin, price, now) => Tick(a, s, coin, price, now)
    case CloseCall(id, price, now) => ManualClose(a, s, id, price, now)
    case PartialCall(id, price, ratio, now) => ManualPartialClose(a, s, id, price, ratio, now)
    case PricesCall(prices) => UpdatePrices(a, prices)
    case HaltCall => a.(halted := true)
    case ResumeCall => a.(halted := false, cooldownUntil := None)
  }

  /** The account after a whole run of calls. */
  function Run(a: Account, s: Settings, events: seq<Event>): Account
    decreases |events|
  {
    if |events| == 0 then a else Run(Step(a, s, events[0]), s, events[1..])
  }

  function InitialAccount(balance: real): Account {
    Account(balance, [], [], false, None, 0)
  }
}
