/** The backtest as it runs: trades and points are objects that the bars update in place, and `Run` is the loop of
    agents/backtest/engine.py.  Each method is proved against the functions on values in `BacktestModel`. */
module BacktestEngine {
  import opened Common
  import opened Decimals
  import opened RiskSizing
  import opened BacktestModel
  import opened BacktestMetrics

  class TradeRecord {
    const signal: TestSignal
    const entryTime: int
    const entry: real
    const quantity: real
    const margin: real
    const entryFee: real
    var fundingFees: real
    var slippageCost: real
    var exit: Option<Exit>

    constructor (c: Config, signal: TestSignal, bar: Bar, risk: real)
      ensures View() == EnterTrade(c, signal, bar, risk) && exit.None?
    {
      var base: real := if c.entryOnNextOpen then bar.open else signal.entry;
      var price := SlippedPrice(c, signal.long, base, 1.0, bar.volume);
      var amount := TestQuantity(risk, StopDistance(price, signal.stop), signal.symbol);
      var slipped := SlippedPrice(c, signal.long, base, amount, bar.volume);
      this.signal, entryTime, entry, quantity := signal, bar.timestamp, price, amount;
      margin := Quantize(MarginFor(amount, price, signal.leverage), CENT);
      entryFee := CalculateFee(amount, price, c.feeRate);
      fundingFees, slippageCost := 0.0, Quantize(SlippageCost(base, slipped, amount), MONEY);
      exit := None;
    }

    /** The totals of a closed trade include what the exit itself cost. */
    ghost function View(): Trade
      reads this
    {
      if exit.None? then
        Trade(signal, entryTime, entry, quantity, margin, entryFee, slippageCost, fundingFees, exit)
      else
        Trade(signal, entryTime, entry, quantity, margin, entryFee, slippageCost - exit.value.slippage,
              fundingFees - exit.value.funding, exit)
    }

    method AccrueFunding(c: Config, bar: Bar) returns (fee: real)
      requires exit.None?
      modifies this`fundingFees
      ensures fee == if IsFundingBar(bar) then FundingCharge(c, signal.long, quantity, bar.close, bar.fundingRate)
                     else 0.0
      ensures View() == if IsFundingBar(bar) then Accrued(c, old(View()), bar) else old(View())
    {
      hide FundingCharge, IsFundingBar;
      if !IsFundingBar(bar) {
        return 0.0;
      }
      fee := FundingCharge(c, signal.long, quantity, bar.close, bar.fundingRate);
      fundingFees := fundingFees + fee;
    }

    method Close(c: Config, bar: Bar, at: real, reason: ExitReason)
      requires exit.None?
      modifies this
      ensures View() == CloseTrade(c, old(View()), bar, at, reason) && exit.Some?
    {
      hide SlippedPrice, CalculateFee, FundingCharge, IsFundingBar, SlippageCost, GrossPnl, Quantize;
      var price := SlippedPrice(c, !signal.long, at, quantity, bar.volume);
      var extra := SlippageCost(at, price, quantity);
      var exitFee := CalculateFee(quantity, price, c.feeRate);
      var funding := 0.0;
      if IsFundingBar(bar) {
        funding := FundingCharge(c, signal.long, quantity, price, bar.fundingRate);
      }
      var totalFunding := fundingFees + funding;
      var gross := GrossPnl(signal.long, quantity, entry, price);
      var totalCosts := entryFee + exitFee + Abs(totalFunding) + slippageCost + extra;
      exit := Some(Exit(bar.timestamp, price, reason, exitFee, funding, extra, Quantize(gross, CENT),
                        Quantize(gross - totalCosts, CENT)));
      fundingFees := totalFunding;
      slippageCost := slippageCost + extra;
    }

    /** Says whether the trade left within the bar; by force it leaves at the close. */
    method CheckExit(c: Config, bar: Bar, force: bool) returns (left: bool)
      requires exit.None?
      modifies this
      ensures force ==> left && View() == ForceExit(c, old(View()), bar)
      ensures !force ==> left == BacktestModel.CheckExit(c, old(View()), bar).Some?
      ensures !force && left ==> View() == BacktestModel.CheckExit(c, old(View()), bar).value
      ensures if left then exit.Some? else View() == old(View())
      ensures View().exit == exit && View().margin == margin
    {
      hide CloseTrade, FindExit;
      if force {
        Close(c, bar, bar.close, Timeout);
        return true;
      }
      var found := FindExit(Trade(signal, entryTime, entry, quantity, margin, entryFee, slippageCost, fundingFees,
                                  exit),
                            bar);
      if found.None? {
        return false;
      }
      Close(c, bar, found.value.0, found.value.1);
      left := true;
    }
  }

  ghost function Views(ts: seq<TradeRecord>): (vs: seq<Trade>)
    reads ts
    ensures |vs| == |ts| && forall k :: 0 <= k < |ts| ==> vs[k] == ts[k].View()
  {
    seq(|ts|, i requires 0 <= i < |ts| reads ts => ts[i].View())
  }

  /** Different trades, none of them closed. */
  ghost predicate Running(ts: seq<TradeRecord>)
    reads ts
  {
    && (forall i, j :: 0 <= i < j < |ts| ==> ts[i] != ts[j])
    && (forall k :: 0 <= k < |ts| ==> ts[k].exit.None?)
  }

  ghost predicate Settled(ts: seq<TradeRecord>)
    reads ts
  {
    forall k :: 0 <= k < |ts| ==> ts[k].exit.Some?
  }

  // ---------- The signal index ----------

  function Lookup(index: map<int, seq<TestSignal>>, timestamp: int): seq<TestSignal> {
    if timestamp in index then index[timestamp] else []
  }

  /** The index agrees with filtering the list of signals, for every instant. */
  method BuildSignalIndex(signals: seq<TestSignal>) returns (index: map<int, seq<TestSignal>>)
    ensures forall t: int :: Lookup(index, t) == SignalsAt(signals, t)
  {
    index := map[];
    for j := 0 to |signals|
      invariant forall t: int :: Lookup(index, t) == SignalsAt(signals[..j], t)
    {
      assert signals[..j + 1][..j] == signals[..j];
      var s := signals[j];
      index := index[s.timestamp := Lookup(index, s.timestamp) + [s]];
    }
    assert signals[..|signals|] == signals;
  }

  // ---------- The steps of a bar ----------

  method AccrueOpen(c: Config, cash: real, ts: seq<TradeRecord>, bar: Bar) returns (left: real)
    requires Running(ts) && IsFundingBar(bar)
    modifies ts
    ensures Running(ts) && Views(ts) == AccruedAll(c, old(Views(ts)), bar)
    ensures left == CashAfterFunding(c, cash, old(Views(ts)), bar)
  {
    hide FundingCharge;
    ghost var before := Views(ts);
    left := cash;
    for j := 0 to |ts|
      invariant Running(ts)
      invariant forall k :: 0 <= k < |ts| ==> ts[k].View() == if k < j then Accrued(c, before[k], bar) else before[k]
      invariant left == CashAfterFunding(c, cash, before[..j], bar)
    {
      assert before[..j + 1][..j] == before[..j];
      var fee := ts[j].AccrueFunding(c, bar);
      left := left - fee;
    }
    assert before[..|ts|] == before;
  }

  lemma ExitNext(c: Config, cash: real, ts: seq<Trade>, j: nat, closed: seq<Trade>, bar: Bar)
    requires j < |ts|
    ensures var b := ExitAll(c, cash, ts[..j], closed, bar);
      var gone := BacktestModel.CheckExit(c, ts[j], bar);
      ExitAll(c, cash, ts[..j + 1], closed, bar)
      == if gone.None? then Book(b.cash, b.open + [ts[j]], b.closed)
         else Book(b.cash + ts[j].margin + gone.value.exit.value.net, b.open, b.closed + [gone.value])
  {
    hide BacktestModel.CheckExit;
    assert ts[..j + 1][..j] == ts[..j];
  }

  /** One trade either leaves, giving back its margin and its net profit, or stays open. */
  method ExitOne(c: Config, cash: real, stillOpen: seq<TradeRecord>, t: TradeRecord, closed: seq<TradeRecord>, bar: Bar)
    returns (left: real, open: seq<TradeRecord>, closedNow: seq<TradeRecord>)
    requires Running(stillOpen) && Settled(closed) && t.exit.None? && t !in stillOpen
    modifies t
    ensures Running(open) && Settled(closedNow)
    ensures open == stillOpen || open == stillOpen + [t]
    ensures var was, gone := old(t.View()), BacktestModel.CheckExit(c, old(t.View()), bar);
      Book(left, Views(open), Views(closedNow))
      == if gone.None? then Book(cash, old(Views(stillOpen)) + [was], old(Views(closed)))
         else Book(cash + was.margin + gone.value.exit.value.net, old(Views(stillOpen)),
                   old(Views(closed)) + [gone.value])
  {
    hide BacktestModel.CheckExit;
    ghost var running, settled := Views(stillOpen), Views(closed);
    left, open, closedNow := cash, stillOpen, closed;
    var leaves := t.CheckExit(c, bar, false);
    assert Views(stillOpen) == running && Views(closed) == settled;
    if leaves {
      left := left + t.margin + t.exit.value.net;
      closedNow := closedNow + [t];
    } else {
      open := open + [t];
    }
  }

  /** Step 3 of a bar. */
  method ExitOpen(c: Config, cash: real, ts: seq<TradeRecord>, closed: seq<TradeRecord>, bar: Bar)
    returns (left: real, stillOpen: seq<TradeRecord>, closedNow: seq<TradeRecord>)
    requires Running(ts) && Settled(closed)
    modifies ts
    ensures Running(stillOpen) && Settled(closedNow)
    ensures forall k :: 0 <= k < |stillOpen| ==> stillOpen[k] in ts
    ensures Book(left, Views(stillOpen), Views(closedNow))
         == ExitAll(c, cash, old(Views(ts)), old(Views(closed)), bar)
  {
    hide BacktestModel.CheckExit;
    ghost var before, settled := Views(ts), Views(closed);
    left, stillOpen, closedNow := cash, [], closed;
    assert Book(left, Views(stillOpen), Views(closedNow)) == ExitAll(c, cash, before[..0], settled, bar);
    hide ExitAll, TradeRecord.View, Views;
    for j := 0 to |ts|
      invariant Running(stillOpen) && Settled(closedNow)
      invariant forall k :: 0 <= k < |stillOpen| ==> stillOpen[k] in ts
      invariant forall k, i :: 0 <= k < |stillOpen| && j <= i < |ts| ==> stillOpen[k] != ts[i]
      invariant forall k :: j <= k < |ts| ==> ts[k].View() == before[k] && ts[k].exit.None?
      invariant Book(left, Views(stillOpen), Views(closedNow)) == ExitAll(c, cash, before[..j], settled, bar)
    {
      ExitNext(c, cash, before, j, settled, bar);
      left, stillOpen, closedNow := ExitOne(c, left, stillOpen, ts[j], closedNow, bar);
    }
    assert before[..|ts|] == before;
  }

  /** What is still open leaves at the close of the last bar. */
  method ForceOpen(c: Config, cash: real, ts: seq<TradeRecord>, closed: seq<TradeRecord>, bar: Bar)
    returns (left: real, closedNow: seq<TradeRecord>)
    requires Running(ts) && Settled(closed)
    modifies ts
    ensures Settled(closedNow)
    ensures Book(left, [], Views(closedNow)) == ForceAll(c, cash, old(Views(ts)), old(Views(closed)), bar)
  {
    hide ForceExit;
    ghost var before, settled := Views(ts), Views(closed);
    left, closedNow := cash, closed;
    for j := 0 to |ts|
      invariant Settled(closedNow)
      invariant forall k :: j <= k < |ts| ==> ts[k].View() == before[k] && ts[k].exit.None?
      invariant Book(left, [], Views(closedNow)) == ForceAll(c, cash, before[..j], settled, bar)
    {
      assert before[..j + 1][..j] == before[..j];
      var gone := ts[j].CheckExit(c, bar, true);
      left := left + ts[j].margin + ts[j].exit.value.net;
      closedNow := closedNow + [ts[j]];
    }
    assert before[..|ts|] == before;
  }

  method TotalMargin(ts: seq<TradeRecord>) returns (total: real)
    ensures total == Sum(Views(ts), MarginOf)
  {
    total := 0.0;
    for j := 0 to |ts|
      invariant total == Sum(Views(ts)[..j], MarginOf)
    {
      assert Views(ts)[..j + 1][..j] == Views(ts)[..j];
      total := total + ts[j].margin;
    }
    assert Views(ts)[..|ts|] == Views(ts);
  }

  method CalcUnrealizedPnl(ts: seq<TradeRecord>, price: real) returns (total: real)
    ensures total == Sum(Views(ts), Unrealized(price))
  {
    total := 0.0;
    hide GrossPnl;
    for j := 0 to |ts|
      invariant total == Sum(Views(ts)[..j], Unrealized(price))
    {
      assert Views(ts)[..j + 1][..j] == Views(ts)[..j];
      total := total + GrossPnl(ts[j].signal.long, ts[j].quantity, ts[j].entry, price);
    }
    assert Views(ts)[..|ts|] == Views(ts);
  }

  // ---------- The run ----------

  datatype Finished = Finished(trades: seq<TradeRecord>, curve: seq<EquityPoint>, cash: real) {

    ghost function View(): Result
      reads trades, curve
    {
      Result(Views(trades), Points(curve), cash)
    }

    /** Every point carries the running peak and the way down from it. */
    ghost predicate Ranked()
      reads curve
    {
      var es := Equities(Points(curve));
      forall k :: 0 <= k < |curve| ==> curve[k].peakEquity == PeakAt(es, k) && curve[k].drawdown == DrawdownAt(es, k)
    }
  }

  /** Steps 1 to 3 of a bar: the waiting signal is entered, funding is charged, trades leave. */
  method PlayBar(c: Config, cash: real, running: seq<TradeRecord>, closed: seq<TradeRecord>,
                 pending: Option<TestSignal>, bar: Bar, risk: real, ghost s: State)
    returns (left: real, stillOpen: seq<TradeRecord>, closedNow: seq<TradeRecord>)
    requires Running(running) && Settled(closed)
    requires s.book == Book(cash, Views(running), Views(closed)) && s.pending == pending
    modifies running
    ensures Running(stillOpen) && Settled(closedNow)
    ensures forall k :: 0 <= k < |stillOpen| ==> stillOpen[k] in running || fresh(stillOpen[k])
    ensures Book(left, Views(stillOpen), Views(closedNow)) == BookAfter(c, s, bar, risk)
  {
    hide EnterTrade, ExitAll, AccruedAll, CashAfterFunding, IsFundingBar;
    var open := running;
    left := cash;
    if pending.Some? && |running| < c.maxOpen {
      var t := new TradeRecord(c, pending.value, bar, risk);
      left := left - (t.margin + t.entryFee);
      open := open + [t];
    }
    assert Book(left, Views(open), Views(closed)) == EnterPending(c, s.book, pending, bar, risk);
    if IsFundingBar(bar) {
      left := AccrueOpen(c, left, open, bar);
    }
    left, stillOpen, closedNow := ExitOpen(c, left, open, closed, bar);
  }

  /** Step 5: the equity and the point of the curve. */
  method RecordPoint(cash: real, running: seq<TradeRecord>, bar: Bar, ghost b: Book)
    returns (equity: real, point: EquityPoint)
    requires b.cash == cash && b.open == Views(running)
    ensures equity == Equity(b, bar.close)
    ensures fresh(point) && point.View() == MakePoint(b, bar)
  {
    hide Sum, Quantize;
    var unrealized := CalcUnrealizedPnl(running, bar.close);
    var margins := TotalMargin(running);
    equity := cash + margins + unrealized;
    point := new EquityPoint(Point(bar.timestamp, Quantize(equity, CENT), Quantize(cash, CENT),
                                   Quantize(unrealized, CENT), |running|));
  }

  /** One bar: steps 1 to 3, then the signal that will wait for the next bar, then the point of this bar. */
  method RunBar(c: Config, cash: real, running: seq<TradeRecord>, closed: seq<TradeRecord>,
                pending: Option<TestSignal>, waiting: seq<TestSignal>, bar: Bar, risk: real, ghost s: State)
    returns (left: real, stillOpen: seq<TradeRecord>, closedNow: seq<TradeRecord>, next: Option<TestSignal>,
             equity: real, point: EquityPoint)
    requires Running(running) && Settled(closed)
    requires s.book == Book(cash, Views(running), Views(closed)) && s.pending == pending
    modifies running
    ensures Running(stillOpen) && Settled(closedNow) && fresh(point)
    ensures forall k :: 0 <= k < |stillOpen| ==> stillOpen[k] in running || fresh(stillOpen[k])
    ensures State(Book(left, Views(stillOpen), Views(closedNow)), equity, next, s.curve + [point.View()])
         == StepBar(c, s, waiting, bar, risk)
  {
    hide BookAfter, Equity, MakePoint;
    left, stillOpen, closedNow := PlayBar(c, cash, running, closed, pending, bar, risk, s);
    ghost var b := Book(left, Views(stillOpen), Views(closedNow));
    next := if waiting != [] && |stillOpen| < c.maxOpen then Some(waiting[0]) else None;
    equity, point := RecordPoint(left, stillOpen, bar, b);
  }

  lemma RunNext(c: Config, signals: seq<TestSignal>, bars: seq<Bar>, j: nat, risk: real)
    requires j < |bars|
    ensures RunBars(c, signals, bars[..j + 1], risk)
         == StepBar(c, RunBars(c, signals, bars[..j], risk), SignalsAt(signals, bars[j].timestamp), bars[j], risk)
  {
    hide StepBar, SignalsAt;
    assert bars[..j + 1][..j] == bars[..j];
  }

  method FinishRun(c: Config, cash: real, running: seq<TradeRecord>, closed: seq<TradeRecord>,
                   curve: seq<EquityPoint>, bar: Bar, ghost s: State)
    returns (r: Finished)
    requires Running(running) && Settled(closed) && Distinct(curve) && |curve| > 0
    requires s.book == Book(cash, Views(running), Views(closed)) && s.curve == Points(curve)
    modifies running, curve
    ensures r.View() == Finish(c, s, bar) && r.Ranked()
  {
    hide ForceAll, Quantize, DrawdownAt, PeakAt;
    var left, closedNow := cash, closed;
    if running != [] {
      left, closedNow := ForceOpen(c, cash, running, closed, bar);
      curve[|curve| - 1].equity := Quantize(left, CENT);
      curve[|curve| - 1].cash := Quantize(left, CENT);
    }
    BuildEquityCurveWithDrawdown(curve);
    r := Finished(closedNow, curve, left);
  }

  /** The loop over the bars. */
  method PlayBars(c: Config, signals: seq<TestSignal>, bars: seq<Bar>, risk: real)
    returns (cash: real, running: seq<TradeRecord>, closed: seq<TradeRecord>, curve: seq<EquityPoint>)
    ensures Running(running) && Settled(closed) && Distinct(curve)
    ensures forall k :: 0 <= k < |running| ==> fresh(running[k])
    ensures forall k :: 0 <= k < |curve| ==> fresh(curve[k])
    ensures var s := RunBars(c, signals, bars, risk);
      Book(cash, Views(running), Views(closed)) == s.book && Points(curve) == s.curve
  {
    hide StepBar, SignalsAt, Lookup, TradeRecord.View, EquityPoint.View;
    var index := BuildSignalIndex(signals);
    var equity, pending := c.initialCapital, None;
    cash, running, closed, curve := c.initialCapital, [], [], [];
    assert State(Book(cash, Views(running), Views(closed)), equity, pending, Points(curve))
        == RunBars(c, signals, bars[..0], risk);
    hide RunBars;
    for j := 0 to |bars|
      invariant Running(running) && Settled(closed) && Distinct(curve)
      invariant forall k :: 0 <= k < |running| ==> fresh(running[k])
      invariant forall k :: 0 <= k < |curve| ==> fresh(curve[k])
      invariant State(Book(cash, Views(running), Views(closed)), equity, pending, Points(curve))
             == RunBars(c, signals, bars[..j], risk)
    {
      ghost var s := RunBars(c, signals, bars[..j], risk);
      RunNext(c, signals, bars, j, risk);
      var point;
      cash, running, closed, pending, equity, point :=
        RunBar(c, cash, running, closed, pending, Lookup(index, bars[j].timestamp), bars[j], risk, s);
      curve := curve + [point];
    }
    assert bars[..|bars|] == bars;
  }

  method Run(c: Config, signals: seq<TestSignal>, bars: seq<Bar>, risk: Option<real>) returns (r: Option<Finished>)
    ensures r.None? <==> |bars| == 0
    ensures r.Some? ==> r.value.View() == RunBacktest(c, signals, bars, risk).value
    ensures r.Some? ==> r.value.Ranked()
  {
    if |bars| == 0 {
      return None;
    }
    hide RunBars, Finish;
    var amount := RiskPerTrade(c, risk);
    CurveLength(c, signals, bars, amount);
    var cash, running, closed, curve := PlayBars(c, signals, bars, amount);
    var f := FinishRun(c, cash, running, closed, curve, bars[|bars| - 1], RunBars(c, signals, bars, amount));
    r := Some(f);
  }
}
