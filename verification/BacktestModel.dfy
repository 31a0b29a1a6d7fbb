/** The backtest as values: agents/backtest/executor.py, costs.py and the bar loop of engine.py. */
module BacktestModel {
  import opened Common
  import opened Decimals
  import opened RiskSizing
  import Funding

  type Price = p: real | 0.0 < p witness 1.0
  type Leverage = l: int | 1 <= l witness 1

  const MONEY: real := 0.00000001
  const CENT: real := 0.01

  datatype Config = Config(
    initialCapital: real,
    feeRate: real,               // the taker or the maker rate, as configured
    volumeModel: bool,
    slippageRate: real,
    volumeFactor: real,
    applyFunding: bool,
    entryOnNextOpen: bool,
    maxOpen: int)

  datatype Bar = Bar(
    timestamp: int,
    open: Price,
    high: Price,
    low: Price,
    close: Price,
    volume: real,
    fundingRate: real)

  datatype TestSignal = TestSignal(
    timestamp: int,
    symbol: string,
    long: bool,
    entry: Price,
    takeProfit: Option<real>,
    stop: real,
    leverage: Leverage)

  datatype ExitReason = TakeProfit | StopLoss | Timeout

  /** What closing a trade fills in.  `funding` is the charge made at the exit itself. */
  datatype Exit = Exit(
    time: int,
    price: real,
    reason: ExitReason,
    fee: real,
    funding: real,
    slippage: real,
    gross: real,
    net: real)

  /** `funding` is what was charged while the trade was open. */
  datatype Trade = Trade(
    signal: TestSignal,
    entryTime: int,
    entry: real,
    quantity: real,
    margin: real,
    entryFee: real,
    entrySlippage: real,
    funding: real,
    exit: Option<Exit>)

  // ---------- Costs ----------

  function CalculateFee(quantity: real, price: real, rate: real): real {
    Quantize(Fee(quantity, price, rate), MONEY)
  }

  /** Under the volume model slippage grows with the share of the bar's volume, up to one percent. */
  function SlippageRate(c: Config, quantity: real, volume: real): real {
    if !c.volumeModel || volume == 0.0 then c.slippageRate
    else Min(c.slippageRate * (1.0 + quantity / volume * c.volumeFactor), 0.01)
  }

  function SlippedPrice(c: Config, buy: bool, price: real, quantity: real, volume: real): real {
    var rate := SlippageRate(c, quantity, volume);
    price * (if buy then 1.0 + rate else 1.0 - rate)
  }

  function SlippageCost(wanted: real, filled: real, quantity: real): real {
    Abs(filled - wanted) * quantity
  }

  /** `mark_funding_bars`: any bar that starts within a funding hour. */
  predicate IsFundingBar(bar: Bar) {
    Funding.HourOf(bar.timestamp) % 24 % 8 == 0
  }

  /** Longs pay a positive rate, shorts receive it. */
  function FundingCharge(c: Config, long: bool, quantity: real, price: real, rate: real): real {
    if !c.applyFunding then 0.0
    else if long then quantity * price * rate else -(quantity * price * rate)
  }

  // ---------- Entering ----------

  function TestQuantity(risk: real, distance: real, symbol: string): real {
    var quantity := if distance == 0.0 then 0.0 else RoundToLotSize(risk / distance, symbol);
    if quantity <= 0.0 then LotSize(symbol) else quantity
  }

  function StopDistance(price: real, stop: real): real {
    if Abs(price - stop) == 0.0 then price * 0.001 else Abs(price - stop)
  }

  function EnterTrade(c: Config, signal: TestSignal, bar: Bar, risk: real): Trade {
    var base: real := if c.entryOnNextOpen then bar.open else signal.entry;
    var price := SlippedPrice(c, signal.long, base, 1.0, bar.volume);
    var quantity := TestQuantity(risk, StopDistance(price, signal.stop), signal.symbol);
    var slipped := SlippedPrice(c, signal.long, base, quantity, bar.volume);
    Trade(signal, bar.timestamp, price, quantity,
          Quantize(MarginFor(quantity, price, signal.leverage), CENT),
          CalculateFee(quantity, price, c.feeRate),
          Quantize(SlippageCost(base, slipped, quantity), MONEY),
          0.0, None)
  }

  // ---------- Leaving ----------

  /** Whether the stop or the target was reached within the bar, and at which of the two the trade leaves.  When
      both were, the one nearer to the open decides, and the target on a tie. */
  function FindExit(t: Trade, bar: Bar): Option<(real, ExitReason)> {
    var stop, target := t.signal.stop, t.signal.takeProfit;
    var stopHit := if t.signal.long then bar.low <= stop else stop <= bar.high;
    var targetHit := target.Some? && if t.signal.long then target.value <= bar.high else bar.low <= target.value;
    if stopHit && targetHit then
      if Abs(bar.open - stop) < Abs(bar.open - target.value) then Some((stop, StopLoss))
      else Some((target.value, TakeProfit))
    else if targetHit then Some((target.value, TakeProfit))
    else if stopHit then Some((stop, StopLoss))
    else None
  }

  function GrossPnl(long: bool, quantity: real, entry: real, exit: real): real {
    if long then (exit - entry) * quantity else (entry - exit) * quantity
  }

  /** The net profit of a trade: its gross profit less every cost it ever caused, the entry fee and the funding
      charged while it was open included. */
  function NetPnl(t: Trade, gross: real, exitFee: real, exitFunding: real, exitSlippage: real): real {
    gross - (t.entryFee + exitFee + Abs(t.funding + exitFunding) + t.entrySlippage + exitSlippage)
  }

  function CloseTrade(c: Config, t: Trade, bar: Bar, at: real, reason: ExitReason): Trade {
    var price := SlippedPrice(c, !t.signal.long, at, t.quantity, bar.volume);
    var fee := CalculateFee(t.quantity, price, c.feeRate);
    var funding :=
      if IsFundingBar(bar) then FundingCharge(c, t.signal.long, t.quantity, price, bar.fundingRate) else 0.0;
    var slippage := SlippageCost(at, price, t.quantity);
    var gross := GrossPnl(t.signal.long, t.quantity, t.entry, price);
    t.(exit := Some(Exit(bar.timestamp, price, reason, fee, funding, slippage,
                         Quantize(gross, CENT), Quantize(NetPnl(t, gross, fee, funding, slippage), CENT))))
  }

  function CheckExit(c: Config, t: Trade, bar: Bar): Option<Trade> {
    var found := FindExit(t, bar);
    if found.None? then None else Some(CloseTrade(c, t, bar, found.value.0, found.value.1))
  }

  function ForceExit(c: Config, t: Trade, bar: Bar): Trade {
    CloseTrade(c, t, bar, bar.close, Timeout)
  }

  // ---------- One bar ----------

  datatype Point = Point(timestamp: int, equity: real, cash: real, unrealized: real, open: nat)

  datatype Book = Book(cash: real, open: seq<Trade>, closed: seq<Trade>)

  datatype State = State(book: Book, equity: real, pending: Option<TestSignal>, curve: seq<Point>)

  function Sum(ts: seq<Trade>, f: Trade -> real): real {
    if |ts| == 0 then 0.0 else Sum(ts[..|ts| - 1], f) + f(ts[|ts| - 1])
  }

  function MarginOf(t: Trade): real {
    t.margin
  }

  function Unrealized(price: real): Trade -> real {
    (t: Trade) => GrossPnl(t.signal.long, t.quantity, t.entry, price)
  }

  /** Step 1: the signal that waited since the last bar is entered if there is room. */
  function EnterPending(c: Config, b: Book, pending: Option<TestSignal>, bar: Bar, risk: real): Book {
    if pending.Some? && |b.open| < c.maxOpen then
      var t := EnterTrade(c, pending.value, bar, risk);
      Book(b.cash - (t.margin + t.entryFee), b.open + [t], b.closed)
    else b
  }

  function Accrued(c: Config, t: Trade, bar: Bar): Trade {
    t.(funding := t.funding + FundingCharge(c, t.signal.long, t.quantity, bar.close, bar.fundingRate))
  }

  /** Step 2: funding is charged to every open trade. */
  function AccrueAll(c: Config, b: Book, bar: Bar): Book {
    if IsFundingBar(bar) then
      Book(CashAfterFunding(c, b.cash, b.open, bar), AccruedAll(c, b.open, bar), b.closed)
    else b
  }

  function CashAfterFunding(c: Config, cash: real, ts: seq<Trade>, bar: Bar): real {
    if |ts| == 0 then cash
    else
      var t := ts[|ts| - 1];
      CashAfterFunding(c, cash, ts[..|ts| - 1], bar)
      - FundingCharge(c, t.signal.long, t.quantity, bar.close, bar.fundingRate)
  }

  function AccruedAll(c: Config, ts: seq<Trade>, bar: Bar): seq<Trade> {
    seq(|ts|, i requires 0 <= i < |ts| => Accrued(c, ts[i], bar))
  }

  /** Step 3: trades that leave give back their margin and their net profit; the others stay, in order. */
  function ExitAll(c: Config, cash: real, ts: seq<Trade>, closed: seq<Trade>, bar: Bar): Book {
    if |ts| == 0 then Book(cash, [], closed)
    else
      var b := ExitAll(c, cash, ts[..|ts| - 1], closed, bar);
      var t := ts[|ts| - 1];
      var left := CheckExit(c, t, bar);
      if left.None? then Book(b.cash, b.open + [t], b.closed)
      else Book(b.cash + t.margin + left.value.exit.value.net, b.open, b.closed + [left.value])
  }

  /** The signals of an instant, in order. */
  function SignalsAt(signals: seq<TestSignal>, timestamp: int): seq<TestSignal> {
    if |signals| == 0 then []
    else SignalsAt(signals[..|signals| - 1], timestamp)
         + if signals[|signals| - 1].timestamp == timestamp then [signals[|signals| - 1]] else []
  }

  /** Step 4: the first signal of the bar waits for the next bar, if there is room. */
  function NextPending(c: Config, b: Book, at: seq<TestSignal>): Option<TestSignal> {
    if at != [] && |b.open| < c.maxOpen then Some(at[0]) else None
  }

  /** Step 5: the equity is the cash, the margins and what the open trades would gain at the close. */
  function Equity(b: Book, close: real): real {
    b.cash + Sum(b.open, MarginOf) + Sum(b.open, Unrealized(close))
  }

  function MakePoint(b: Book, bar: Bar): Point {
    Point(bar.timestamp, Quantize(Equity(b, bar.close), CENT), Quantize(b.cash, CENT),
          Quantize(Sum(b.open, Unrealized(bar.close)), CENT), |b.open|)
  }

  /** The book after the first three steps of a bar. */
  function BookAfter(c: Config, s: State, bar: Bar, risk: real): Book {
    var entered := EnterPending(c, s.book, s.pending, bar, risk);
    var charged := AccrueAll(c, entered, bar);
    ExitAll(c, charged.cash, charged.open, charged.closed, bar)
  }

  function StepBar(c: Config, s: State, at: seq<TestSignal>, bar: Bar, risk: real): State {
    var b := BookAfter(c, s, bar, risk);
    State(b, Equity(b, bar.close), NextPending(c, b, at), s.curve + [MakePoint(b, bar)])
  }

  function Initial(c: Config): State {
    State(Book(c.initialCapital, [], []), c.initialCapital, None, [])
  }

  /** The state after the given bars. */
  function RunBars(c: Config, signals: seq<TestSignal>, bars: seq<Bar>, risk: real): State {
    if |bars| == 0 then Initial(c)
    else
      var last := bars[|bars| - 1];
      StepBar(c, RunBars(c, signals, bars[..|bars| - 1], risk), SignalsAt(signals, last.timestamp), last, risk)
  }

  // ---------- The end of the run ----------

  /** Whatever is still open leaves at the close of the last bar. */
  function ForceAll(c: Config, cash: real, ts: seq<Trade>, closed: seq<Trade>, bar: Bar): Book {
    if |ts| == 0 then Book(cash, [], closed)
    else
      var b := ForceAll(c, cash, ts[..|ts| - 1], closed, bar);
      var t := ForceExit(c, ts[|ts| - 1], bar);
      Book(b.cash + t.margin + t.exit.value.net, [], b.closed + [t])
  }

  datatype Result = Result(trades: seq<Trade>, curve: seq<Point>, cash: real)

  /** The last point of the curve is corrected when trades had to be closed by force. */
  function Finish(c: Config, s: State, bar: Bar): Result
    requires |s.curve| > 0
  {
    var n := |s.curve| - 1;
    if s.book.open == [] then Result(s.book.closed, s.curve, s.book.cash)
    else
      var b := ForceAll(c, s.book.cash, s.book.open, s.book.closed, bar);
      Result(b.closed,
             s.curve[n := s.curve[n].(equity := Quantize(b.cash, CENT), cash := Quantize(b.cash, CENT))],
             b.cash)
  }

  lemma {:induction false} CurveLength(c: Config, signals: seq<TestSignal>, bars: seq<Bar>, risk: real)
    ensures |RunBars(c, signals, bars, risk).curve| == |bars|
  {
    if |bars| > 0 {
      CurveLength(c, signals, bars[..|bars| - 1], risk);
    }
  }

  /** `None` or zero stands for two percent of the capital. */
  function RiskPerTrade(c: Config, risk: Option<real>): real {
    if risk.Some? && risk.value != 0.0 then risk.value else c.initialCapital * 0.02
  }

  /** `None` stands for the error raised when there are no bars. */
  function RunBacktest(c: Config, signals: seq<TestSignal>, bars: seq<Bar>, risk: Option<real>): Option<Result> {
    if |bars| == 0 then None
    else
      CurveLength(c, signals, bars, RiskPerTrade(c, risk));
      Some(Finish(c, RunBars(c, signals, bars, RiskPerTrade(c, risk)), bars[|bars| - 1]))
  }
}
