/** When the charges that a backtest takes twice make a difference. */
module BacktestCharges {
  import opened Common
  import opened Decimals
  import opened RiskSizing
  import opened BacktestModel
  import opened BacktestLedger
  import opened BacktestCausality
  import opened BacktestFills

  /** Costs that cost, slippage of at most one percent, no funding, and room for a trade. */
  predicate FeesOnly(c: Config) {
    SaneCosts(c) && c.slippageRate <= 0.01 && !c.applyFunding && 1 <= c.maxOpen
  }

  predicate Volumes(bars: seq<Bar>) {
    forall k :: 0 <= k < |bars| ==> 0.0 <= bars[k].volume
  }

  /** The fee on one unit of money is at least a hundred-thousandth at every price at which a trade may be entered:
      with a lot of a thousandth, the fee of a trade does not round to nothing. */
  predicate FeesShow(c: Config, signals: seq<TestSignal>, bars: seq<Bar>) {
    && (forall k :: 0 <= k < |bars| ==> 0.00001 <= Mul(bars[k].open, c.feeRate))
    && (forall k :: 0 <= k < |signals| ==> 0.00001 <= Mul(signals[k].entry, c.feeRate))
  }

  // ---------- The fee of one entry ----------

  function EntryBase(c: Config, signal: TestSignal, bar: Bar): Price {
    if c.entryOnNextOpen then bar.open else signal.entry
  }

  lemma EntryPriceShare(c: Config, signal: TestSignal, bar: Bar)
    requires FeesOnly(c) && 0.0 <= bar.volume
    ensures var base := EntryBase(c, signal, bar);
      0.99 * base <= SlippedPrice(c, signal.long, base, 1.0, bar.volume)
  {
    var base := EntryBase(c, signal, bar);
    var rate := SlippageRate(c, 1.0, bar.volume);
    RateIsCost(c, 1.0, bar.volume);
    hide SlippageRate;
    MulLe(rate, 0.01, base);
    MulNonNeg(rate, base);
    assert base * (1.0 + rate) == base + Mul(rate, base) && base * (1.0 - rate) == base - Mul(rate, base);
    assert Mul(0.01, base) == 0.01 * base;
    hide Mul;
  }

  lemma FeeOfAtLeast(quantity: real, price: real, base: real, rate: real)
    requires 0.001 <= quantity && 0.0 < base && 0.99 * base <= price && 0.0 <= rate
    ensures 0.00099 * Mul(base, rate) <= Fee(quantity, price, rate) && 0.0 <= Mul(base, rate)
  {
    MulNonNeg(base, rate);
    MulLe(0.99 * base, price, rate);
    assert Mul(0.99 * base, rate) == 0.99 * Mul(base, rate);
    MulLe(0.001, quantity, Mul(price, rate));
    assert Mul(quantity, Mul(price, rate)) == Fee(quantity, price, rate);
    assert Mul(0.001, Mul(price, rate)) == 0.001 * Mul(price, rate);
    hide Mul, Fee;
  }

  lemma FeeRounds(fee: real)
    ensures 0.0 <= fee ==> 0.0 <= Quantize(fee, MONEY)
    ensures 0.0000000099 <= fee ==> 0.0 < Quantize(fee, MONEY)
  {
    QuantizeError(fee, MONEY);
    assert Multiple(0, MONEY) == 0.0;
    QuantizeExact(0, MONEY);
    if 0.0 <= fee {
      QuantizeMonotone(0.0, fee, MONEY);
    }
    hide Quantize;
  }

  /** The entry fee is never negative, and it shows when the fee on the entry price does. */
  lemma EntryFeeShows(c: Config, signal: TestSignal, bar: Bar, risk: real)
    requires FeesOnly(c) && 0.0 <= bar.volume
    ensures var t := EnterTrade(c, signal, bar, risk);
      && t.funding == 0.0 && 0.0 <= t.entryFee
      && (0.00001 <= Mul(EntryBase(c, signal, bar), c.feeRate) ==> 0.0 < t.entryFee)
  {
    var base := EntryBase(c, signal, bar);
    var price := SlippedPrice(c, signal.long, base, 1.0, bar.volume);
    var distance := StopDistance(price, signal.stop);
    EntryPriceShare(c, signal, bar);
    assert 0.0 < distance;
    QuantityWithinRisk(risk, distance, signal.symbol);
    var quantity := TestQuantity(risk, distance, signal.symbol);
    hide SlippedPrice, StopDistance, TestQuantity, Quantize, MarginFor, SlippageCost, Mul, Fee;
    FeeOfAtLeast(quantity, price, base, c.feeRate);
    FeeRounds(Fee(quantity, price, c.feeRate));
  }

  // ---------- Every trade of a run ----------

  /** No funding, and an entry fee that is not negative, or is positive. */
  predicate Paid(t: Trade, shows: bool) {
    t.funding == 0.0 && 0.0 <= t.entryFee && (shows ==> 0.0 < t.entryFee)
  }

  predicate AllPaid(b: Book, shows: bool) {
    && (forall k :: 0 <= k < |b.open| ==> Paid(b.open[k], shows))
    && (forall k :: 0 <= k < |b.closed| ==> Paid(b.closed[k], shows))
  }

  lemma {:induction false} ExitPaid(c: Config, cash: real, ts: seq<Trade>, closed: seq<Trade>, bar: Bar, shows: bool)
    requires AllPaid(Book(cash, ts, closed), shows)
    ensures AllPaid(ExitAll(c, cash, ts, closed, bar), shows)
  {
    hide CheckExit, Settled, Charged;
    if |ts| > 0 {
      ExitPaid(c, cash, ts[..|ts| - 1], closed, bar, shows);
      CheckExitShape(c, ts[|ts| - 1], bar);
    }
  }

  lemma {:induction false} ForcePaid(c: Config, cash: real, ts: seq<Trade>, closed: seq<Trade>, bar: Bar, shows: bool)
    requires AllPaid(Book(cash, ts, closed), shows)
    ensures AllPaid(ForceAll(c, cash, ts, closed, bar), shows)
  {
    hide CloseTrade, Settled, Charged;
    if |ts| > 0 {
      ForcePaid(c, cash, ts[..|ts| - 1], closed, bar, shows);
      CloseKeepsCharges(c, ts[|ts| - 1], bar, bar.close, Timeout);
    }
  }

  lemma AccruePaid(c: Config, b: Book, bar: Bar, shows: bool)
    requires !c.applyFunding && AllPaid(b, shows)
    ensures AllPaid(AccrueAll(c, b, bar), shows)
  {
    hide IsFundingBar, CashAfterFunding;
  }

  lemma StepPaid(c: Config, s: State, at: seq<TestSignal>, bar: Bar, risk: real, shows: bool)
    requires FeesOnly(c) && AllPaid(s.book, shows) && 0.0 <= bar.volume
    requires shows && s.pending.Some? ==> 0.00001 <= Mul(EntryBase(c, s.pending.value, bar), c.feeRate)
    ensures AllPaid(StepBar(c, s, at, bar, risk).book, shows)
  {
    hide EnterTrade, AccrueAll, ExitAll, Equity, MakePoint, NextPending, Mul;
    if s.pending.Some? {
      EntryFeeShows(c, s.pending.value, bar, risk);
    }
    var entered := EnterPending(c, s.book, s.pending, bar, risk);
    var charged := AccrueAll(c, entered, bar);
    AccruePaid(c, entered, bar, shows);
    ExitPaid(c, charged.cash, charged.open, charged.closed, bar, shows);
  }

  lemma {:induction false} SignalsAtKnown(signals: seq<TestSignal>, timestamp: int)
    ensures forall k :: 0 <= k < |SignalsAt(signals, timestamp)| ==> SignalsAt(signals, timestamp)[k] in signals
  {
    if |signals| > 0 {
      SignalsAtKnown(signals[..|signals| - 1], timestamp);
    }
  }

  lemma PendingKnown(c: Config, signals: seq<TestSignal>, bars: seq<Bar>, risk: real)
    ensures var pending := RunBars(c, signals, bars, risk).pending;
      pending.Some? ==> pending.value in signals
  {
    hide BookAfter, SignalsAt, Equity, MakePoint;
    if |bars| > 0 {
      SignalsAtKnown(signals, bars[|bars| - 1].timestamp);
    }
  }

  lemma {:induction false} RunPaid(c: Config, signals: seq<TestSignal>, bars: seq<Bar>, risk: real, shows: bool)
    requires FeesOnly(c) && Volumes(bars) && (shows ==> FeesShow(c, signals, bars))
    ensures AllPaid(RunBars(c, signals, bars, risk).book, shows)
  {
    hide StepBar, SignalsAt, Mul;
    if |bars| > 0 {
      var rest, last := bars[..|bars| - 1], bars[|bars| - 1];
      RunPaid(c, signals, rest, risk, shows);
      PendingKnown(c, signals, rest, risk);
      StepPaid(c, RunBars(c, signals, rest, risk), SignalsAt(signals, last.timestamp), last, risk, shows);
    }
  }

  lemma ResultPaid(c: Config, signals: seq<TestSignal>, bars: seq<Bar>, risk: Option<real>, shows: bool)
    requires |bars| > 0 && FeesOnly(c) && Volumes(bars) && (shows ==> FeesShow(c, signals, bars))
    ensures var trades := RunBacktest(c, signals, bars, risk).value.trades;
      forall k :: 0 <= k < |trades| ==> Paid(trades[k], shows)
  {
    var amount, bar := RiskPerTrade(c, risk), bars[|bars| - 1];
    hide RunBars, ForceAll, RiskPerTrade, Quantize, Paid, FeesShow;
    CurveLength(c, signals, bars, amount);
    RunPaid(c, signals, bars, amount, shows);
    var b := RunBars(c, signals, bars, amount).book;
    ForcePaid(c, b.cash, b.open, b.closed, bar, shows);
  }

  lemma {:induction false} ChargesOfPaid(ts: seq<Trade>)
    requires forall k :: 0 <= k < |ts| ==> Paid(ts[k], false)
    ensures 0.0 <= Sum(ts, Charged)
    ensures Sum(ts, Charged) == 0.0 <==> forall k :: 0 <= k < |ts| ==> ts[k].entryFee == 0.0
  {
    if |ts| > 0 {
      ChargesOfPaid(ts[..|ts| - 1]);
    }
  }

  // ---------- Which runs trade ----------

  lemma {:induction false} EntriesCount(ts: seq<Trade>)
    ensures |Entries(ts)| == |ts|
  {
    if |ts| > 0 {
      EntriesCount(ts[..|ts| - 1]);
    }
  }

  /** A run trades exactly when some bar but the last carries a signal. */
  lemma {:induction false} TradesOnSignals(c: Config, signals: seq<TestSignal>, bars: seq<Bar>, risk: real)
    requires 1 <= c.maxOpen
    ensures EnteredTrades(c, signals, bars, risk) == multiset{}
       <==> forall k :: 0 <= k < |bars| - 1 ==> SignalsAt(signals, bars[k].timestamp) == []
  {
    hide EnterTrade, SignalsAt, RunBars;
    if |bars| > 0 {
      var rest := bars[..|bars| - 1];
      TradesOnSignals(c, signals, rest, risk);
      RunEntries(c, signals, rest, risk);
      if |rest| > 0 {
        var b := RunBars(c, signals, rest, risk).book;
        EntriesCount(b.open);
        PendingOfLast(c, signals, rest, risk);
        assert forall k :: 0 <= k < |rest| ==> rest[k] == bars[k];
        assert AllEntries(b) == multiset{} ==> |Entries(b.open)| == 0;
      } else {
        NoPendingAtStart(c, signals, risk);
      }
    }
  }

  lemma PendingOfLast(c: Config, signals: seq<TestSignal>, bars: seq<Bar>, risk: real)
    requires |bars| > 0
    ensures var s := RunBars(c, signals, bars, risk);
      s.pending.Some? <==> SignalsAt(signals, bars[|bars| - 1].timestamp) != [] && |s.book.open| < c.maxOpen
  {
    hide BookAfter, SignalsAt, Equity, MakePoint;
  }

  lemma NoPendingAtStart(c: Config, signals: seq<TestSignal>, risk: real)
    ensures RunBars(c, signals, [], risk).pending.None?
  {
  }

  lemma ResultTrades(c: Config, signals: seq<TestSignal>, bars: seq<Bar>, risk: Option<real>)
    requires |bars| > 0 && 1 <= c.maxOpen
    ensures RunBacktest(c, signals, bars, risk).value.trades == []
       <==> forall k :: 0 <= k < |bars| - 1 ==> SignalsAt(signals, bars[k].timestamp) == []
  {
    var amount, bar := RiskPerTrade(c, risk), bars[|bars| - 1];
    CurveLength(c, signals, bars, amount);
    var trades := RunBacktest(c, signals, bars, risk).value.trades;
    assert trades == Finish(c, RunBars(c, signals, bars, amount), bar).trades;
    hide RunBars, EnteredTrades, RiskPerTrade, Finish, Entries, SignalsAt, RunBacktest, AllEntries;
    RunEntries(c, signals, bars, amount);
    FinishEntries(c, RunBars(c, signals, bars, amount), bar);
    EntriesCount(trades);
    TradesOnSignals(c, signals, bars, amount);
  }

  // ---------- The difference ----------

  /** Without funding, cash is the capital and the net profits exactly when the fee of every entry rounds to nothing;
      otherwise it is less. */
  lemma FeesCountTwice(c: Config, signals: seq<TestSignal>, bars: seq<Bar>, risk: Option<real>)
    requires |bars| > 0 && FeesOnly(c) && Volumes(bars)
    ensures var r := RunBacktest(c, signals, bars, risk).value;
      && r.cash <= c.initialCapital + Sum(r.trades, NetOf)
      && (r.cash == c.initialCapital + Sum(r.trades, NetOf)
          <==> forall k :: 0 <= k < |r.trades| ==> r.trades[k].entryFee == 0.0)
  {
    FinalEquity(c, signals, bars, risk);
    ResultPaid(c, signals, bars, risk, false);
    ChargesOfPaid(RunBacktest(c, signals, bars, risk).value.trades);
    hide RunBacktest, Sum;
  }

  /** Main result on the double charge: with fees that show and no funding, a run's cash is the capital and the net
      profits exactly when no bar but the last carries a signal. */
  lemma AnySignalCountsTwice(c: Config, signals: seq<TestSignal>, bars: seq<Bar>, risk: Option<real>)
    requires |bars| > 0 && FeesOnly(c) && Volumes(bars) && FeesShow(c, signals, bars)
    ensures var r := RunBacktest(c, signals, bars, risk).value;
      r.cash == c.initialCapital + Sum(r.trades, NetOf)
      <==> forall k :: 0 <= k < |bars| - 1 ==> SignalsAt(signals, bars[k].timestamp) == []
  {
    FeesCountTwice(c, signals, bars, risk);
    ResultPaid(c, signals, bars, risk, true);
    ResultTrades(c, signals, bars, risk);
    var trades := RunBacktest(c, signals, bars, risk).value.trades;
    hide RunBacktest, Sum, SignalsAt;
    if trades != [] {
      assert 0.0 < trades[0].entryFee;
    }
  }

  /** With no fee rate and no funding nothing is taken twice. */
  lemma NoFeesCountOnce(c: Config, signals: seq<TestSignal>, bars: seq<Bar>, risk: Option<real>)
    requires |bars| > 0 && FeesOnly(c) && Volumes(bars) && c.feeRate == 0.0
    ensures var r := RunBacktest(c, signals, bars, risk).value;
      r.cash == c.initialCapital + Sum(r.trades, NetOf)
  {
    FeesCountTwice(c, signals, bars, risk);
    ResultUncharged(c, signals, bars, risk);
    hide RunBacktest, Sum;
  }

  ghost predicate Uncharged(m: multiset<Trade>) {
    forall t :: t in m ==> t.entryFee == 0.0
  }

  lemma {:induction false} EntriesUncharged(ts: seq<Trade>)
    requires Uncharged(Entries(ts))
    ensures forall k :: 0 <= k < |ts| ==> ts[k].entryFee == 0.0
  {
    if |ts| > 0 {
      var last := ts[|ts| - 1];
      assert AsEntered(last) in Entries(ts);
      assert AsEntered(last).entryFee == 0.0;
      EntriesUncharged(ts[..|ts| - 1]);
    }
  }

  lemma FreeEntry(c: Config, signal: TestSignal, bar: Bar, risk: real)
    requires c.feeRate == 0.0
    ensures EnterTrade(c, signal, bar, risk).entryFee == 0.0
  {
    hide SlippedPrice, StopDistance, TestQuantity, MarginFor, SlippageCost;
    assert Multiple(0, MONEY) == 0.0;
    QuantizeExact(0, MONEY);
    hide Quantize;
  }

  lemma {:induction false} EnteredUncharged(c: Config, signals: seq<TestSignal>, bars: seq<Bar>, risk: real)
    requires c.feeRate == 0.0
    ensures Uncharged(EnteredTrades(c, signals, bars, risk))
  {
    hide EnterTrade, RunBars;
    if |bars| > 0 {
      var rest := bars[..|bars| - 1];
      EnteredUncharged(c, signals, rest, risk);
      var pending := RunBars(c, signals, rest, risk).pending;
      if pending.Some? {
        FreeEntry(c, pending.value, bars[|bars| - 1], risk);
      }
    }
  }

  lemma ResultUncharged(c: Config, signals: seq<TestSignal>, bars: seq<Bar>, risk: Option<real>)
    requires |bars| > 0 && c.feeRate == 0.0
    ensures var trades := RunBacktest(c, signals, bars, risk).value.trades;
      forall k :: 0 <= k < |trades| ==> trades[k].entryFee == 0.0
  {
    var amount, bar := RiskPerTrade(c, risk), bars[|bars| - 1];
    CurveLength(c, signals, bars, amount);
    var trades := RunBacktest(c, signals, bars, risk).value.trades;
    assert trades == Finish(c, RunBars(c, signals, bars, amount), bar).trades;
    hide RunBars, EnteredTrades, RiskPerTrade, Finish, Entries, RunBacktest, AllEntries, Uncharged;
    RunEntries(c, signals, bars, amount);
    FinishEntries(c, RunBars(c, signals, bars, amount), bar);
    EnteredUncharged(c, signals, bars, amount);
    EntriesUncharged(trades);
  }

  /** One signal and two hourly bars at the default fee are enough: the cash is less than the capital and the net
      profit of the one trade. */
  lemma OneTradeCountsTwice(price: Price, volume: real)
    requires 100.0 <= price && 0.0 <= volume
    ensures var c := Config(10000.0, 0.0004, false, 0.0005, 0.1, false, true, 1);
      var signal := TestSignal(0, "BTCUSDT", true, price, None, price / 2.0, 1);
      var bars := [Bar(0, price, price, price, price, volume, 0.0001),
                   Bar(3_600_000_000, price, price, price, price, volume, 0.0001)];
      var r := RunBacktest(c, [signal], bars, None).value;
      r.cash < c.initialCapital + Sum(r.trades, NetOf)
  {
    var c := Config(10000.0, 0.0004, false, 0.0005, 0.1, false, true, 1);
    var signal := TestSignal(0, "BTCUSDT", true, price, None, price / 2.0, 1);
    var bars := [Bar(0, price, price, price, price, volume, 0.0001),
                 Bar(3_600_000_000, price, price, price, price, volume, 0.0001)];
    assert SignalsAt([signal], 0) == [signal] by {
      assert [signal][..0] == [];
    }
    MulLe(100.0, price, c.feeRate);
    assert Mul(100.0, c.feeRate) == 0.04;
    assert bars[0].timestamp == 0;
    hide RunBacktest, Sum, SignalsAt, Mul;
    FeesCountTwice(c, [signal], bars, None);
    AnySignalCountsTwice(c, [signal], bars, None);
  }
}
