/** Running peaks and drawdowns of an equity curve: agents/backtest/metrics.py. */
module BacktestMetrics {
  import opened Common
  import opened Decimals
  import opened BacktestModel

  class EquityPoint {
    const timestamp: int
    const unrealized: real
    const openPositions: nat
    var equity: real
    var cash: real
    var peakEquity: real
    var drawdown: real

    constructor (p: Point)
      ensures View() == p && peakEquity == 0.0 && drawdown == 0.0
    {
      timestamp, unrealized, openPositions := p.timestamp, p.unrealized, p.open;
      equity, cash := p.equity, p.cash;
      peakEquity, drawdown := 0.0, 0.0;
    }

    function View(): Point
      reads this
    {
      Point(timestamp, equity, cash, unrealized, openPositions)
    }
  }

  ghost predicate Distinct(curve: seq<EquityPoint>) {
    forall i, j :: 0 <= i < j < |curve| ==> curve[i] != curve[j]
  }

  ghost function Points(curve: seq<EquityPoint>): (ps: seq<Point>)
    reads curve
    ensures |ps| == |curve| && forall k :: 0 <= k < |curve| ==> ps[k] == curve[k].View()
  {
    seq(|curve|, i requires 0 <= i < |curve| reads curve => curve[i].View())
  }

  ghost function Equities(ps: seq<Point>): (es: seq<real>)
    ensures |es| == |ps| && forall k :: 0 <= k < |ps| ==> es[k] == ps[k].equity
  {
    seq(|ps|, i requires 0 <= i < |ps| => ps[i].equity)
  }

  // ---------- What the loops compute ----------

  /** The running peak: the greatest of the values up to the `k`-th. */
  ghost function PeakAt(es: seq<real>, k: nat): real
    requires k < |es|
  {
    if k == 0 then es[0]
    else
      var earlier := PeakAt(es, k - 1);
      if earlier < es[k] then es[k] else earlier
  }

  /** The way down from one value to another, in percent of the first. */
  function Drawdown(high: real, low: real): real
    requires high != 0.0
  {
    (low - high) / high * 100.0
  }

  /** The way down from the running peak to the `k`-th value; nothing while the peak is not positive. */
  ghost function DrawdownAt(es: seq<real>, k: nat): real
    requires k < |es|
  {
    var peak := PeakAt(es, k);
    if 0.0 < peak then Drawdown(peak, es[k]) else 0.0
  }

  /** The least of zero and the drawdowns at the first `n` values. */
  ghost function MaxDrawdown(es: seq<real>, n: nat): real
    requires n <= |es|
  {
    if n == 0 then 0.0
    else
      var rest, last := MaxDrawdown(es, n - 1), DrawdownAt(es, n - 1);
      if last < rest then last else rest
  }

  method CalcMaxDrawdown(curve: seq<EquityPoint>) returns (maxDrawdown: real)
    ensures maxDrawdown == MaxDrawdown(Equities(Points(curve)), |curve|)
  {
    hide Drawdown;
    if |curve| == 0 {
      return 0.0;
    }
    ghost var es := Equities(Points(curve));
    var peak := curve[0].equity;
    maxDrawdown := 0.0;
    for j := 0 to |curve|
      invariant peak == if j == 0 then es[0] else PeakAt(es, j - 1)
      invariant maxDrawdown == MaxDrawdown(es, j) <= 0.0
    {
      var value := curve[j].equity;
      if peak < value {
        peak := value;
      }
      if 0.0 < peak {
        var drawdown := Drawdown(peak, value);
        if drawdown < maxDrawdown {
          maxDrawdown := drawdown;
        }
      }
    }
  }

  method BuildEquityCurveWithDrawdown(curve: seq<EquityPoint>)
    requires Distinct(curve)
    modifies curve
    ensures Points(curve) == old(Points(curve))
    ensures var es := Equities(Points(curve));
      forall k :: 0 <= k < |curve| ==>
        curve[k].peakEquity == PeakAt(es, k) && curve[k].drawdown == DrawdownAt(es, k)
  {
    hide Drawdown, DrawdownAt, PeakAt;
    if |curve| == 0 {
      return;
    }
    ghost var ps := Points(curve);
    ghost var es := Equities(ps);
    var peak := curve[0].equity;
    for j := 0 to |curve|
      invariant forall k :: 0 <= k < |curve| ==> curve[k].View() == ps[k]
      invariant peak == if j == 0 then es[0] else PeakAt(es, j - 1)
      invariant forall k :: 0 <= k < j ==>
        curve[k].peakEquity == PeakAt(es, k) && curve[k].drawdown == DrawdownAt(es, k)
    {
      NextDrawdown(es, j);
      assert curve[j].View() == ps[j];
      var value := curve[j].equity;
      if peak < value {
        peak := value;
      }
      curve[j].peakEquity := peak;
      curve[j].drawdown := if 0.0 < peak then Drawdown(peak, value) else 0.0;
    }
    assert Points(curve) == ps;
  }

  lemma NextDrawdown(es: seq<real>, k: nat)
    requires k < |es|
    ensures var earlier := if k == 0 then es[0] else PeakAt(es, k - 1);
      PeakAt(es, k) == if earlier < es[k] then es[k] else earlier
    ensures var peak := PeakAt(es, k);
      DrawdownAt(es, k) == if 0.0 < peak then Drawdown(peak, es[k]) else 0.0
  {
    hide Drawdown;
  }

  // ---------- What the figures mean ----------

  /** The running peak is the prefix maximum. */
  lemma {:induction false} PeakIsMaximum(es: seq<real>, k: nat)
    requires k < |es|
    ensures forall i :: 0 <= i <= k ==> es[i] <= PeakAt(es, k)
    ensures exists i :: 0 <= i <= k && es[i] == PeakAt(es, k)
  {
    if k == 0 {
      assert es[0] == PeakAt(es, 0);
    } else {
      PeakIsMaximum(es, k - 1);
      assert PeakAt(es, k) == es[k] || PeakAt(es, k) == PeakAt(es, k - 1);
    }
  }

  lemma {:induction false} DrawdownIsLeast(es: seq<real>, n: nat)
    requires n <= |es|
    ensures MaxDrawdown(es, n) <= 0.0
    ensures forall k :: 0 <= k < n ==> MaxDrawdown(es, n) <= DrawdownAt(es, k)
    ensures MaxDrawdown(es, n) == 0.0 || exists k :: 0 <= k < n && MaxDrawdown(es, n) == DrawdownAt(es, k)
  {
    hide DrawdownAt;
    if n > 0 {
      DrawdownIsLeast(es, n - 1);
    }
  }

  /** Main result on the two loops: the maximum drawdown is the least of the drawdowns stored on the points. */
  lemma MaxIsLeastStored(es: seq<real>)
    requires |es| > 0
    ensures forall k :: 0 <= k < |es| ==> MaxDrawdown(es, |es|) <= DrawdownAt(es, k)
    ensures exists k :: 0 <= k < |es| && MaxDrawdown(es, |es|) == DrawdownAt(es, k)
  {
    DrawdownIsLeast(es, |es|);
    assert DrawdownAt(es, 0) == 0.0;
  }

  /** The running peak gives the worst drawdown that ends at a point, exactly when the equity there is not negative,
      or no lower positive equity came before. */
  lemma PeakIsWorstStart(es: seq<real>, j: nat)
    requires j < |es| && 0.0 < PeakAt(es, j)
    ensures (forall i :: 0 <= i <= j && 0.0 < es[i] ==> DrawdownAt(es, j) <= Drawdown(es[i], es[j]))
       <==> (0.0 <= es[j] || forall i :: 0 <= i <= j && 0.0 < es[i] ==> es[i] == PeakAt(es, j))
  {
    PeakIsMaximum(es, j);
    hide Drawdown, PeakAt;
    forall i | 0 <= i <= j && 0.0 < es[i]
      ensures DrawdownAt(es, j) <= Drawdown(es[i], es[j]) <==> 0.0 <= es[j] || es[i] == PeakAt(es, j)
    {
      HigherStart(es[i], PeakAt(es, j), es[j]);
    }
  }

  /** From a higher start the way down to a value is longer exactly when the value is not negative. */
  lemma HigherStart(low: real, high: real, value: real)
    requires 0.0 < low <= high
    ensures Drawdown(high, value) <= Drawdown(low, value) <==> 0.0 <= value || low == high
  {
    ShareOf(high, value);
    ShareOf(low, value);
    if 0.0 <= value {
      QuotientLe(value, low, high);
    } else if low < high {
      QuotientLt(-value, low, high);
      assert (-value) / low == -(value / low) && (-value) / high == -(value / high);
    }
  }

  lemma ShareOf(high: real, value: real)
    requires 0.0 < high
    ensures Drawdown(high, value) == value / high * 100.0 - 100.0
  {
    MulDiv(value, high);
    MulAdd(value / high, 1.0, high);
    assert Mul(1.0, high) == high;
    DivEq(value - high, value / high - 1.0, high);
  }

  lemma QuotientLe(x: real, low: real, high: real)
    requires 0.0 <= x && 0.0 < low <= high
    ensures x / high <= x / low
  {
    assert x / low - x / high == x * (high - low) / (low * high);
  }

  lemma QuotientLt(x: real, low: real, high: real)
    requires 0.0 < x && 0.0 < low < high
    ensures x / high < x / low
  {
    assert x / low - x / high == x * (high - low) / (low * high);
  }

  /** Some positive equity is further above a later one than the maximum drawdown says. */
  ghost predicate WorsePair(es: seq<real>, i: nat, j: nat)
    requires i <= j < |es|
  {
    0.0 < es[i] && Drawdown(es[i], es[j]) < MaxDrawdown(es, |es|)
  }

  lemma OnlyNegativeEndsAreWorse(es: seq<real>, i: nat, j: nat)
    requires i <= j < |es| && 0.0 <= es[j]
    ensures !WorsePair(es, i, j)
  {
    if 0.0 < es[i] {
      MaxIsLeastStored(es);
      PeakIsMaximum(es, j);
      PeakIsWorstStart(es, j);
    }
    hide Drawdown, MaxDrawdown, PeakAt;
  }

  /** The lowest positive equity up to a point. */
  ghost function LowestPositive(es: seq<real>, j: nat): (r: Option<real>)
    requires j < |es|
    ensures r.Some? ==> 0.0 < r.value && exists i :: 0 <= i <= j && es[i] == r.value
    ensures forall i :: 0 <= i <= j && 0.0 < es[i] ==> r.Some? && r.value <= es[i]
  {
    var earlier := if j == 0 then None else LowestPositive(es, j - 1);
    if 0.0 < es[j] && (earlier.None? || es[j] < earlier.value) then Some(es[j]) else earlier
  }

  /** Somewhere the curve is at least this far down from its running peak. */
  ghost predicate ReachesDown(es: seq<real>, way: real) {
    exists k :: 0 <= k < |es| && 0.0 < PeakAt(es, k) && Drawdown(PeakAt(es, k), es[k]) <= way
  }

  /** A way down is within the maximum drawdown exactly when some way down from a running peak is as long. */
  lemma ReachesMaximum(es: seq<real>, way: real)
    requires |es| > 0 && way < 0.0
    ensures MaxDrawdown(es, |es|) <= way <==> ReachesDown(es, way)
  {
    MaxIsLeastStored(es);
    hide MaxDrawdown, PeakAt, Drawdown;
    var k :| 0 <= k < |es| && MaxDrawdown(es, |es|) == DrawdownAt(es, k);
    if ReachesDown(es, way) {
      var m :| 0 <= m < |es| && 0.0 < PeakAt(es, m) && Drawdown(PeakAt(es, m), es[m]) <= way;
      assert DrawdownAt(es, m) <= way;
    }
  }

  lemma DownIsNegative(high: real, low: real)
    requires low < 0.0 < high
    ensures Drawdown(high, low) < 0.0
  {
    ShareOf(high, low);
    MulDiv(low, high);
    if 0.0 <= low / high {
      MulNonNeg(low / high, high);
    }
  }

  /** No way down to a negative equity is missed, exactly when the one from the lowest positive equity before it is
      not. */
  lemma LowestDecides(es: seq<real>, j: nat)
    requires j < |es| && es[j] < 0.0
    ensures (forall i :: 0 <= i <= j ==> !WorsePair(es, i, j))
       <==> (LowestPositive(es, j).Some? ==> ReachesDown(es, Drawdown(LowestPositive(es, j).value, es[j])))
  {
    var low := LowestPositive(es, j);
    hide Drawdown, MaxDrawdown, PeakAt, ReachesDown, LowestPositive;
    if low.Some? {
      DownIsNegative(low.value, es[j]);
      ReachesMaximum(es, Drawdown(low.value, es[j]));
      var m :| 0 <= m <= j && es[m] == low.value;
      assert WorsePair(es, m, j) <==> !ReachesDown(es, Drawdown(low.value, es[j]));
      forall i | 0 <= i <= j && 0.0 < es[i]
        ensures Drawdown(low.value, es[j]) <= Drawdown(es[i], es[j])
      {
        HigherStart(low.value, es[i], es[j]);
      }
    }
  }

  /** Main result on the maximum drawdown: it is that of some pair, or zero; and the single pass finds the worst way
      down from any positive equity to any later one exactly when, for every negative equity, the way down to it from
      the lowest positive equity before it is no longer than some way down from a running peak.  Without negative
      equities it always does. */
  lemma MaxIsWorstPair(es: seq<real>)
    requires |es| > 0
    ensures MaxDrawdown(es, |es|) == 0.0
         || exists i, j :: 0 <= i <= j < |es| && 0.0 < es[i] && MaxDrawdown(es, |es|) == Drawdown(es[i], es[j])
    ensures (forall i, j :: 0 <= i <= j < |es| ==> !WorsePair(es, i, j))
       <==> forall j :: 0 <= j < |es| && es[j] < 0.0 ==>
              (LowestPositive(es, j).Some? ==> ReachesDown(es, Drawdown(LowestPositive(es, j).value, es[j])))
    ensures (forall k :: 0 <= k < |es| ==> 0.0 <= es[k]) ==>
              forall i, j :: 0 <= i <= j < |es| ==> !WorsePair(es, i, j)
  {
    MaxIsLeastStored(es);
    hide Drawdown, MaxDrawdown, PeakAt, WorsePair, LowestPositive, ReachesDown;
    forall i, j | 0 <= i <= j < |es| && 0.0 <= es[j]
      ensures !WorsePair(es, i, j)
    {
      OnlyNegativeEndsAreWorse(es, i, j);
    }
    forall j | 0 <= j < |es| && es[j] < 0.0
      ensures (forall i :: 0 <= i <= j ==> !WorsePair(es, i, j))
         <==> (LowestPositive(es, j).Some? ==> ReachesDown(es, Drawdown(LowestPositive(es, j).value, es[j])))
    {
      LowestDecides(es, j);
    }
    var k :| 0 <= k < |es| && MaxDrawdown(es, |es|) == DrawdownAt(es, k);
    PeakIsMaximum(es, k);
    var i :| 0 <= i <= k && es[i] == PeakAt(es, k);
  }

  /** With a negative equity it does not: from 1 to -1 is further down than from the peak 2. */
  lemma NegativeEquityMissed()
    ensures MaxDrawdown([1.0, 2.0, -1.0], 3) == -150.0 && Drawdown(1.0, -1.0) == -200.0
  {
    var es := [1.0, 2.0, -1.0];
    assert PeakAt(es, 0) == 1.0 && PeakAt(es, 1) == 2.0 && PeakAt(es, 2) == 2.0;
    assert MaxDrawdown(es, 1) == 0.0;
    assert MaxDrawdown(es, 2) == 0.0;
  }
}
