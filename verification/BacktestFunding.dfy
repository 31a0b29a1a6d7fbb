/** Which funding instants a backtest charges: the marks of agents/backtest/costs.py against the instants at which
    funding falls due. */
module BacktestFunding {
  import opened Common
  import opened Decimals
  import opened BacktestModel
  import opened BacktestCausality
  import opened Funding

  const EIGHT: Interval := 8

  /** The hours of the marked bars, in order: one for each time that the open trades are charged. */
  ghost function MarkedHours(bars: seq<Bar>): seq<int> {
    if |bars| == 0 then []
    else
      var last := bars[|bars| - 1];
      MarkedHours(bars[..|bars| - 1]) + if IsFundingBar(last) then [HourOf(last.timestamp)] else []
  }

  /** How many bars start within an hour. */
  function BarsIn(bars: seq<Bar>, h: int): nat {
    if |bars| == 0 then 0
    else BarsIn(bars[..|bars| - 1], h) + if HourOf(bars[|bars| - 1].timestamp) == h then 1 else 0
  }

  /** A funding hour is charged once for every bar that starts in it, any other hour never. */
  lemma {:induction false} ChargesOfHour(bars: seq<Bar>, h: int)
    ensures multiset(MarkedHours(bars))[h] == if h % EIGHT == 0 then BarsIn(bars, h) else 0
  {
    if |bars| > 0 {
      var rest, last := bars[..|bars| - 1], bars[|bars| - 1];
      ChargesOfHour(rest, h);
      HourOfDay(HourOf(last.timestamp), EIGHT);
      hide HourOf;
    }
  }

  lemma {:induction false} NoBarsOutside(bars: seq<Bar>, lo: int, hi: int, h: int)
    requires forall k :: 0 <= k < |bars| ==> lo <= HourOf(bars[k].timestamp) <= hi
    requires h < lo || hi < h
    ensures BarsIn(bars, h) == 0
  {
    if |bars| > 0 {
      NoBarsOutside(bars[..|bars| - 1], lo, hi, h);
    }
  }

  lemma {:induction false} BarPresent(bars: seq<Bar>, k: nat)
    requires k < |bars|
    ensures 1 <= BarsIn(bars, HourOf(bars[k].timestamp))
  {
    hide HourOf;
    if k < |bars| - 1 {
      BarPresent(bars[..|bars| - 1], k);
    }
  }

  /** The hours at whose start funding falls due from the first bar to the last. */
  ghost function DueHours(bars: seq<Bar>): set<int>
    requires |bars| > 0
  {
    BoundaryHours(HourOf(bars[0].timestamp - 1), HourOf(bars[|bars| - 1].timestamp), EIGHT)
  }

  lemma HoursWithin(bars: seq<Bar>)
    requires |bars| > 0 && Increasing(bars)
    ensures forall k :: 0 <= k < |bars| ==>
              HourOf(bars[0].timestamp) <= HourOf(bars[k].timestamp) <= HourOf(bars[|bars| - 1].timestamp)
    ensures HourOf(bars[0].timestamp - 1)
         == HourOf(bars[0].timestamp) - if bars[0].timestamp % HOUR == 0 then 1 else 0
  {
    forall k | 0 <= k < |bars|
      ensures HourOf(bars[0].timestamp) <= HourOf(bars[k].timestamp) <= HourOf(bars[|bars| - 1].timestamp)
    {
      DivMono(bars[0].timestamp, bars[k].timestamp, HOUR);
      DivMono(bars[k].timestamp, bars[|bars| - 1].timestamp, HOUR);
    }
  }

  /** How often an hour is charged, and whether it is due. */
  lemma HourCounts(bars: seq<Bar>, h: int)
    requires |bars| > 0 && Increasing(bars)
    ensures var lo, hi := HourOf(bars[0].timestamp), HourOf(bars[|bars| - 1].timestamp);
      && multiset(MarkedHours(bars))[h] == (if h % EIGHT == 0 then BarsIn(bars, h) else 0)
      && (h < lo || hi < h ==> BarsIn(bars, h) == 0)
      && (h in DueHours(bars) <==> h % EIGHT == 0 && lo <= h <= hi && (h == lo ==> bars[0].timestamp % HOUR == 0))
  {
    var lo, hi := HourOf(bars[0].timestamp), HourOf(bars[|bars| - 1].timestamp);
    HoursWithin(bars);
    ChargesOfHour(bars, h);
    hide HourOf, MarkedHours, BarsIn, Increasing;
    if h < lo || hi < h {
      NoBarsOutside(bars, lo, hi, h);
    }
  }

  /** Main result on marks: a run charges each funding that falls due within it exactly once, and no other, exactly
      when every hour at whose start one falls due holds exactly one bar, and the first bar does not start within a
      funding hour that began before it.  The number of charges is then the number of fundings due. */
  lemma ChargedOnceEach(bars: seq<Bar>)
    requires |bars| > 0 && Increasing(bars)
    ensures multiset(MarkedHours(bars)) == multiset(DueHours(bars))
       <==> && (forall h :: h in DueHours(bars) ==> BarsIn(bars, h) == 1)
            && (IsFundingBar(bars[0]) ==> bars[0].timestamp % HOUR == 0)
    ensures multiset(MarkedHours(bars)) == multiset(DueHours(bars)) ==>
              |MarkedHours(bars)| == FundingEvents(bars[0].timestamp - 1, bars[|bars| - 1].timestamp, EIGHT)
  {
    var lo, due := HourOf(bars[0].timestamp), DueHours(bars);
    HourOfDay(lo, EIGHT);
    BarPresent(bars, 0);
    FundingEventsAreBoundaries(bars[0].timestamp - 1, bars[|bars| - 1].timestamp, EIGHT);
    var late := IsFundingBar(bars[0]) && bars[0].timestamp % HOUR != 0;
    assert |DueHours(bars)| == FundingEvents(bars[0].timestamp - 1, bars[|bars| - 1].timestamp, EIGHT);
    assert IsFundingBar(bars[0]) <==> lo % EIGHT == 0;
    var hi := HourOf(bars[|bars| - 1].timestamp);
    assert lo <= hi by {
      HoursWithin(bars);
    }
    hide HourOf, MarkedHours, BarsIn, FundingEvents, Increasing, DueHours, IsFundingBar;
    forall h
      ensures multiset(MarkedHours(bars))[h] == if h % EIGHT == 0 then BarsIn(bars, h) else 0
      ensures h < lo || hi < h ==> BarsIn(bars, h) == 0
      ensures h in due <==> h % EIGHT == 0 && lo <= h <= hi && (h == lo ==> bars[0].timestamp % HOUR == 0)
    {
      HourCounts(bars, h);
    }
    if (forall h :: h in due ==> BarsIn(bars, h) == 1) && !late {
      forall h
        ensures multiset(MarkedHours(bars))[h] == multiset(due)[h]
      {
      }
    }
    if multiset(MarkedHours(bars)) == multiset(due) {
      assert |multiset(MarkedHours(bars))| == |MarkedHours(bars)| && |multiset(due)| == |due|;
      assert multiset(MarkedHours(bars))[lo] == multiset(due)[lo];
      forall h | h in due
        ensures BarsIn(bars, h) == 1
      {
        assert multiset(MarkedHours(bars))[h] == multiset(due)[h] == 1;
      }
    }
  }

  // ---------- Even grids ----------

  /** Bars that start on an hour and follow each other every `step`, of which `n` fill an hour. */
  ghost predicate Grid(bars: seq<Bar>, h0: int, step: int, n: int) {
    && 0 < step && 0 < n && n * step == HOUR
    && forall k :: 0 <= k < |bars| ==> bars[k].timestamp == AtHour(h0) + k * step
  }

  lemma GridHour(h0: int, step: int, n: int, k: nat)
    requires 0 < step && 0 < n && n * step == HOUR
    ensures HourOf(AtHour(h0) + k * step) == h0 + k / n
  {
    var q, r := k / n, k % n;
    assert k == q * n + r;
    calc {
      AtHour(h0) + k * step;
      h0 * HOUR + (q * n + r) * step;
      h0 * HOUR + q * (n * step) + r * step;
      (h0 + q) * HOUR + r * step;
    }
    ScaleLe(0, r, step);
    ScaleLe(r, n - 1, step);
    DivModUnique(AtHour(h0) + k * step, HOUR, h0 + q, r * step);
  }

  /** The bars `i * n` up to `(i + 1) * n` are those of the `i`-th hour. */
  lemma {:induction false} GridCount(bars: seq<Bar>, h0: int, step: int, n: int, i: nat)
    requires Grid(bars, h0, step, n)
    ensures BarsIn(bars, h0 + i)
         == if |bars| <= i * n then 0 else if |bars| <= i * n + n then |bars| - i * n else n
  {
    if |bars| > 0 {
      var k := |bars| - 1;
      assert Grid(bars[..k], h0, step, n);
      GridCount(bars[..k], h0, step, n, i);
      GridHour(h0, step, n, k);
      QuotientIs(k, n, i);
    }
  }

  lemma QuotientIs(k: nat, n: int, i: nat)
    requires 0 < n
    ensures k / n == i <==> i * n <= k < i * n + n
  {
    assert k == k / n * n + k % n;
    if i * n <= k < i * n + n {
      DivModUnique(k, n, i, k - i * n);
    }
  }

  /** Main result on grids: on bars shorter than an hour, a funding hour the run covers is charged once for each bar of
      the hour, so exactly once if and only if the bars are hourly. */
  lemma HourlyBarsChargeOnce(bars: seq<Bar>, h0: int, step: int, n: int, i: nat)
    requires Grid(bars, h0, step, n) && i * n + n <= |bars| && (h0 + i) % EIGHT == 0
    ensures multiset(MarkedHours(bars))[h0 + i] == n
    ensures multiset(MarkedHours(bars))[h0 + i] == 1 <==> step == HOUR
  {
    ChargesOfHour(bars, h0 + i);
    GridCount(bars, h0, step, n, i);
    if n == 1 {
      assert n * step == step;
    } else if step == HOUR {
      ScaleLe(2, n, step);
      assert false;
    }
    hide MarkedHours, BarsIn;
  }

  /** Half-hour bars charge the funding of an hour twice; daily bars charge one of the three fundings after the
      first. */
  lemma OtherBarsDoNot(halves: seq<Bar>, days: seq<Bar>)
    requires |halves| == 2 && halves[0].timestamp == 0 && halves[1].timestamp == HOUR / 2
    requires |days| == 2 && days[0].timestamp == 0 && days[1].timestamp == 24 * HOUR
    ensures MarkedHours(halves) == [0, 0] && FundingEvents(-1, halves[1].timestamp, EIGHT) == 1
    ensures MarkedHours(days) == [0, 24] && FundingEvents(0, days[1].timestamp, EIGHT) == 3
  {
    assert halves[..1][..0] == [] && days[..1][..0] == [];
    assert MarkedHours(halves[..1]) == [0] && MarkedHours(days[..1]) == [0];
  }

  // ---------- What the marks cost ----------

  /** A trade that stays open over some bars. */
  function AccruedOver(c: Config, t: Trade, bars: seq<Bar>): Trade {
    if |bars| == 0 then t
    else
      var held, last := AccruedOver(c, t, bars[..|bars| - 1]), bars[|bars| - 1];
      if IsFundingBar(last) then Accrued(c, held, last) else held
  }

  /** At one price and one rate, a trade is charged one funding for each marked bar. */
  lemma {:induction false} EachMarkCosts(c: Config, t: Trade, bars: seq<Bar>, price: Price, rate: real)
    requires forall k :: 0 <= k < |bars| ==> bars[k].close == price && bars[k].fundingRate == rate
    ensures var u := AccruedOver(c, t, bars);
      u == t.(funding := t.funding
                         + Mul(|MarkedHours(bars)| as real, FundingCharge(c, t.signal.long, t.quantity, price, rate)))
  {
    hide IsFundingBar, FundingCharge;
    var charge := FundingCharge(c, t.signal.long, t.quantity, price, rate);
    if |bars| == 0 {
      assert Mul(0.0, charge) == 0.0;
    } else {
      EachMarkCosts(c, t, bars[..|bars| - 1], price, rate);
      MulAdd(|MarkedHours(bars[..|bars| - 1])| as real, 1.0, charge);
      assert Mul(1.0, charge) == charge;
      hide Mul;
    }
  }
}
