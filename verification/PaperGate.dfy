/** Positions grow only through an open gate, how much one entry can expose, and how the gate can stay shut. */
module PaperGate {
  import opened Common
  import opened Decimals
  import opened RiskSizing
  import opened PaperModel
  import opened PaperInvariant

  // ---------- Growth ----------

  function QuantityOf(ps: seq<Position>, id: nat): real {
    var i := FindId(ps, id);
    if i.None? then 0.0 else ps[i.value].quantity
  }

  lemma QuantityAt(ps: seq<Position>, j: nat)
    requires Apart(ps) && j < |ps|
    ensures FindId(ps, ps[j].id) == Some(j)
  {
  }

  lemma RemovalShrinks(ps: seq<Position>, i: nat, id: nat)
    requires Apart(ps) && i < |ps|
    requires forall j :: 0 <= j < |ps| ==> 0.0 < ps[j].quantity
    ensures QuantityOf(Without(ps, i), id) <= QuantityOf(ps, id)
  {
    var k := FindId(Without(ps, i), id);
    if k.Some? {
      QuantityAt(ps, if k.value < i then k.value else k.value + 1);
    }
  }

  /** The same positions, none of them larger. */
  lemma ReplacementShrinks(qs: seq<Position>, ps: seq<Position>, id: nat)
    requires Apart(ps) && |qs| == |ps|
    requires forall j :: 0 <= j < |ps| ==> 0.0 < ps[j].quantity
    requires forall j :: 0 <= j < |ps| ==> qs[j].id == ps[j].id && qs[j].quantity <= ps[j].quantity
    ensures QuantityOf(qs, id) <= QuantityOf(ps, id)
  {
    var k := FindId(qs, id);
    if k.Some? {
      QuantityAt(ps, k.value);
    }
  }

  lemma ReducedIsSmaller(p: Position, quantity: real, ratio: real, price: real, rate: real)
    requires 0.0 < quantity
    ensures var q := Reduced(p, quantity, ratio, price, rate); q.id == p.id && q.quantity <= p.quantity
  {
  }

  /** A call other than a submission makes no position larger. */
  lemma OtherCallsShrink(a: Account, s: Settings, e: Event, id: nat)
    requires Sound(a, s) && !e.Submit?
    ensures QuantityOf(Step(a, s, e).positions, id) <= QuantityOf(a.positions, id)
  {
    var ps, qs := a.positions, Step(a, s, e).positions;
    hide Hit, MakeRecord, NetPnl, EntryFeeShare, QuantityOf, Reduced, PartialQuantity, Without, Fee;
    match e
    case TickPrice(coin, price, now) =>
      var i := FindCoin(ps, coin);
      if i.Some? {
        if Hit(ps[i.value], price).Some? {
          RemovalShrinks(ps, i.value, id);
        } else {
          ReplacementShrinks(qs, ps, id);
        }
      }
    case CloseCall(cid, price, now) =>
      var i := FindId(ps, cid);
      if i.Some? {
        RemovalShrinks(ps, i.value, id);
      }
    case PartialCall(pid, price, ratio, now) =>
      var i := FindId(ps, pid);
      if i.Some? && PartialClose(a, s, i.value, price, ratio, now).Some? {
        ReducedIsSmaller(ps[i.value], PartialQuantity(ps[i.value].quantity, ratio), ratio, price, s.feeRate);
        ReplacementShrinks(qs, ps, id);
      }
    case PricesCall(prices) =>
      ReplacementShrinks(qs, ps, id);
    case HaltCall =>
    case ResumeCall =>
  }

  lemma DecisionShrinks(a: Account, s: Settings, sig: Signal, now: int, id: nat)
    requires Sound(a, s)
    ensures QuantityOf(DecisionAccount(a, s, sig, now).positions, id) <= QuantityOf(a.positions, id)
  {
    hide Validate, MakeRecord, NetPnl, EntryFeeShare, QuantityOf, Without;
    var i := FindCoin(a.positions, sig.coin);
    if i.Some? {
      RemovalShrinks(a.positions, i.value, id);
    }
  }

  /** Main result on the gate: whenever some position is larger after a call than before it, the call was an
      accepted signal, and the gate was open in the account in which the signal was finally decided, which is
      the account after the reverse close if there was one. */
  lemma GrowsOnlyThroughGate(a: Account, s: Settings, e: Event, id: nat)
    requires Sound(a, s)
    ensures QuantityOf(a.positions, id) < QuantityOf(Step(a, s, e).positions, id) ==>
              && e.Submit? && SubmitSignal(a, s, e.signal, e.now).accepted
              && GateOpen(DecisionAccount(a, s, e.signal, e.now), s, e.signal, e.now)
  {
    if !e.Submit? {
      OtherCallsShrink(a, s, e, id);
    } else {
      var d := DecisionAccount(a, s, e.signal, e.now);
      SubmissionShape(a, s, e.signal, e.now);
      if SubmitSignal(a, s, e.signal, e.now).accepted {
        ApprovedSize(d, s, e.signal, e.now);
      } else {
        ValidateKeepsPositions(d, s, e.signal, e.now);
        DecisionShrinks(a, s, e.signal, e.now, id);
      }
    }
  }

  // ---------- Exposure of one entry ----------

  lemma {:induction false} SumAppend(ps: seq<Position>, p: Position, f: Position -> real)
    ensures Sum(ps + [p], f) == Sum(ps, f) + f(p)
  {
    if |ps| > 0 {
      assert (ps + [p])[1..] == ps[1..] + [p];
      SumAppend(ps[1..], p, f);
    }
  }

  lemma QuantityWithinRisk(balance: real, risk: real, distance: real, symbol: string)
    requires 0.0 <= balance && 0.0 <= risk && 0.0 < distance
    ensures LossAtDistance(SizedQuantity(balance, risk, distance, symbol), distance) <= RiskAmount(balance, risk)
  {
    var amount := RiskAmount(balance, risk);
    MulNonNeg(balance, risk);
    var raw := amount / distance;
    MulDiv(amount, distance);
    if raw < 0.0 {
      MulLt(raw, 0.0, distance);
    }
    FloorToStepLargest(raw, LotSize(symbol));
    MulLe(SizedQuantity(balance, risk, distance, symbol), raw, distance);
    hide Mul, FloorToStep;
  }

  lemma RiskAmountMono(x: real, y: real, risk: real)
    requires x <= y && 0.0 <= risk
    ensures RiskAmount(x, risk) <= RiskAmount(y, risk)
  {
  }

  lemma MarginOfNotional(quantity: real, price: real, leverage: int)
    requires 1 <= leverage <= SYSTEM_MAX_LEVERAGE && MIN_NOTIONAL <= Notional(quantity, price)
    ensures 0.25 <= MarginFor(quantity, price, leverage)
    ensures Notional(quantity, price) <= 20.0 * MarginFor(quantity, price, leverage)
  {
    var notional, margin, l := Notional(quantity, price), MarginFor(quantity, price, leverage), leverage as real;
    MulDiv(notional, l);
    assert Mul(margin, l) == notional;
    if margin < 0.0 {
      MulLt(margin, 0.0, l);
    }
    MulLe(l, 20.0, margin);
    assert Mul(l, margin) == Mul(margin, l);
    assert Mul(20.0, margin) == 20.0 * margin;
    hide Mul, Notional, MarginFor;
  }

  lemma FeeOfNotional(quantity: real, price: real, rate: real)
    requires 0.0 <= Notional(quantity, price) && rate <= 0.0004
    ensures Fee(quantity, price, rate) <= 0.0004 * Notional(quantity, price)
  {
    MulLe(rate, 0.0004, Notional(quantity, price));
    assert Fee(quantity, price, rate) == Mul(rate, Notional(quantity, price));
    assert Mul(0.0004, Notional(quantity, price)) == 0.0004 * Notional(quantity, price);
    hide Mul, Fee, Notional;
  }

  /** Where the figures of an approved verdict come from. */
  lemma ApprovedFigures(a: Account, s: Settings, sig: Signal, now: int)
    requires Validate(a, s, sig, now).verdict.Approved? && sig.stopLoss.Some?
    ensures var v := Validate(a, s, sig, now).verdict;
      var leverage := ResolveFinalLeverage(sig.leverage, s.maxLeverage, s.plan);
      var distance := Abs(sig.entry - sig.stopLoss.value);
      && leverage != 0 && 0.0 < distance
      && v.quantity == SizedQuantity(Available(a), s.riskPerTrade, distance, sig.symbol)
      && v.margin == Quantize(MarginFor(v.quantity, sig.entry, leverage), 0.01)
      && v.maxLoss == Quantize(LossAtDistance(v.quantity, distance), 0.01)
      && MIN_NOTIONAL <= Notional(v.quantity, sig.entry)
      && 5.0 * v.margin <= Available(a)
  {
    hide CheckGate, SizedQuantity, MarginFor, Notional, LossAtDistance, RiskAmount, Sum, Quantize, PreActionFor,
         ResolveFinalLeverage, Available, OpenRisk;
    var leverage := ResolveFinalLeverage(sig.leverage, s.maxLeverage, s.plan);
    var sizing :=
      CalculatePositionSize(Available(a), s.riskPerTrade, sig.entry, sig.stopLoss.value, leverage, sig.symbol);
    assert Validate(a, s, sig, now).verdict == CheckSize(a, s, sig);
    assert ValidatePositionSize(sizing.value, Available(a), sig.entry, sig.symbol);
  }

  /** A margin of at most a fifth, and a fee of at most 0.04 percent of at most twenty times that margin. */
  lemma FreeAfterEntry(free: real, margin: real, exact: real, notional: real, fee: real)
    requires 5.0 * margin <= free && exact - 0.005 <= margin <= exact + 0.005 && 0.25 <= exact
    requires notional <= 20.0 * exact && fee <= 0.0004 * notional
    ensures 0.79 * free <= free - fee - margin
  {
  }

  lemma ApprovedLoss(a: Account, s: Settings, sig: Signal, now: int)
    requires Validate(a, s, sig, now).verdict.Approved? && sig.stopLoss.Some?
    requires 0.0 <= s.riskPerTrade && 0.0 <= Locked(a) && Available(a) == a.balance - Locked(a)
    ensures var v := Validate(a, s, sig, now).verdict;
      LossAtDistance(v.quantity, Abs(sig.entry - sig.stopLoss.value)) <= RiskAmount(a.balance, s.riskPerTrade)
  {
    ApprovedFigures(a, s, sig, now);
    assert 0.0 <= Available(a) <= a.balance;
    hide Validate, SizedQuantity, MarginFor, Notional, LossAtDistance, RiskAmount, Locked, Available, Quantize,
      ResolveFinalLeverage;
    QuantityWithinRisk(Available(a), s.riskPerTrade, Abs(sig.entry - sig.stopLoss.value), sig.symbol);
    RiskAmountMono(Available(a), a.balance, s.riskPerTrade);
  }

  lemma ApprovedMargin(a: Account, s: Settings, sig: Signal, now: int)
    requires Validate(a, s, sig, now).verdict.Approved? && sig.stopLoss.Some?
    requires s.feeRate <= 0.0004 && 1 <= sig.leverage && 1 <= s.maxLeverage
    ensures var v := Validate(a, s, sig, now).verdict;
      0.79 * Available(a) <= Available(a) - Fee(v.quantity, sig.entry, s.feeRate) - v.margin
  {
    var v := Validate(a, s, sig, now).verdict;
    var leverage := ResolveFinalLeverage(sig.leverage, s.maxLeverage, s.plan);
    ApprovedFigures(a, s, sig, now);
    LeverageInRange(sig.leverage, s.maxLeverage, s.plan);
    hide Validate, SizedQuantity, MarginFor, Notional, Fee, Available, Quantize, ResolveFinalLeverage;
    MarginOfNotional(v.quantity, sig.entry, leverage);
    FeeOfNotional(v.quantity, sig.entry, s.feeRate);
    QuantizeError(MarginFor(v.quantity, sig.entry, leverage), 0.01);
    FreeAfterEntry(Available(a), v.margin, MarginFor(v.quantity, sig.entry, leverage),
                   Notional(v.quantity, sig.entry), Fee(v.quantity, sig.entry, s.feeRate));
  }

  lemma LeverageInRange(recommended: int, userMax: int, plan: Plan)
    requires 1 <= recommended && 1 <= userMax
    ensures 1 <= ResolveFinalLeverage(recommended, userMax, plan) <= SYSTEM_MAX_LEVERAGE
  {
  }

  /** An approval needs something free. */
  lemma FreeIsPositive(a: Account, s: Settings, sig: Signal, now: int)
    requires Validate(a, s, sig, now).verdict.Approved? && sig.stopLoss.Some?
    requires 1 <= sig.leverage && 1 <= s.maxLeverage
    ensures Available(a) == a.balance - Locked(a)
  {
    var v := Validate(a, s, sig, now).verdict;
    var leverage := ResolveFinalLeverage(sig.leverage, s.maxLeverage, s.plan);
    ApprovedFigures(a, s, sig, now);
    LeverageInRange(sig.leverage, s.maxLeverage, s.plan);
    hide Validate, SizedQuantity, MarginFor, Notional, Locked, Quantize, ResolveFinalLeverage;
    MarginOfNotional(v.quantity, sig.entry, leverage);
    QuantizeError(MarginFor(v.quantity, sig.entry, leverage), 0.01);
  }

  // ---------- A gate that stays shut ----------

  /** No open position and three losses at the end of the history. */
  predicate LockedOut(a: Account) {
    a.positions == [] && CONSECUTIVE_LOSS_COOLDOWN <= TrailingLosses(a.history)
  }

  lemma LockedOutRefuses(a: Account, s: Settings, sig: Signal, now: int)
    requires LockedOut(a)
    ensures !SubmitSignal(a, s, sig, now).accepted
    ensures var b := SubmitSignal(a, s, sig, now).account;
      b.positions == [] && b.history == a.history && b.balance == a.balance
  {
    hide RiskRewardOk, DailyLoss, WeeklyLoss, RiskAmount, CheckSize;
  }

  /** Main result on the lockout.  The cooldown is meant to end by itself after thirty minutes, but the loss
      count only ever falls when a position closes without a loss.  A flat account with three trailing losses
      therefore refuses every signal for ever, whatever is called, `resume` included. */
  lemma {:induction false} LockedOutForever(a: Account, s: Settings, events: seq<Event>)
    requires LockedOut(a)
    ensures var b := Run(a, s, events);
      LockedOut(b) && b.history == a.history && b.balance == a.balance
    ensures forall sig, now :: !SubmitSignal(Run(a, s, events), s, sig, now).accepted
    decreases |events|
  {
    hide SubmitSignal;
    if |events| == 0 {
      forall sig, now
        ensures !SubmitSignal(a, s, sig, now).accepted
      {
        LockedOutRefuses(a, s, sig, now);
      }
    } else {
      var b := Step(a, s, events[0]);
      if events[0].Submit? {
        LockedOutRefuses(a, s, events[0].signal, events[0].now);
      }
      assert b.positions == [];
      LockedOutForever(b, s, events[1..]);
    }
  }

  /** The price at which a close pays its own fee and nothing more. */
  function BreakEven(direction: Direction, entry: real, rate: real): real
    requires 0.0 <= rate < 1.0
  {
    if direction.Long? then entry / (1.0 - rate) else entry / (1.0 + rate)
  }

  lemma BreakEvenNet(direction: Direction, entry: real, quantity: real, rate: real)
    requires direction.IsSide() && 0.0 <= rate < 1.0
    ensures NetPnl(direction, entry, BreakEven(direction, entry, rate), quantity, rate) == 0.0
  {
    var price := BreakEven(direction, entry, rate);
    var kept := if direction.Long? then 1.0 - rate else 1.0 + rate;
    MulDiv(entry, kept);
    assert Mul(price, kept) == entry;
    assert direction.Long? ==> entry == price - Mul(price, rate);
    assert direction.Short? ==> entry == price + Mul(price, rate);
    assert Fee(quantity, price, rate) == Mul(Mul(price, rate), quantity);
    assert GrossPnl(direction, entry, price, quantity)
        == Mul(if direction.Long? then price - entry else entry - price, quantity);
    hide Mul, Fee, GrossPnl;
  }

  lemma WinResetsCount(a: Account, s: Settings, i: nat, price: real, now: int)
    requires i < |a.positions|
    requires var p := a.positions[i]; 0.0 <= NetPnl(p.direction, p.entry, price, p.quantity, s.feeRate)
    ensures TrailingLosses(ClosePosition(a, s, i, price, Manual, now).history) == 0
  {
    var p := a.positions[i];
    var net := NetPnl(p.direction, p.entry, price, p.quantity, s.feeRate);
    QuantizeMonotone(0.0, net, 0.01);
    assert Multiple(0, 0.01) == 0.0;
    QuantizeExact(0, 0.01);
    hide NetPnl, Quantize, EntryFeeShare, Fee, GrossPnl;
  }

  /** So the account comes back from three losses in some run exactly when it still holds a position: only a closing
      without a loss lets it trade again. */
  lemma LockoutEndsOnlyByClosing(a: Account, s: Settings)
    requires Sound(a, s) && CONSECUTIVE_LOSS_COOLDOWN <= TrailingLosses(a.history) && 0.0 <= s.feeRate < 1.0
    ensures (exists events :: TrailingLosses(Run(a, s, events).history) < CONSECUTIVE_LOSS_COOLDOWN)
       <==> a.positions != []
  {
    if a.positions == [] {
      forall events
        ensures CONSECUTIVE_LOSS_COOLDOWN <= TrailingLosses(Run(a, s, events).history)
      {
        LockedOutForever(a, s, events);
      }
    } else {
      var p := a.positions[0];
      var price := BreakEven(p.direction, p.entry, s.feeRate);
      BreakEvenNet(p.direction, p.entry, p.quantity, s.feeRate);
      WinResetsCount(a, s, 0, price, 0);
      hide NetPnl, TrailingLosses, ClosePosition;
      var events := [CloseCall(p.id, price, 0)];
      assert FindId(a.positions, p.id) == Some(0);
      assert Run(Step(a, s, events[0]), s, events[1..]) == Step(a, s, events[0]);
      assert Run(a, s, events) == ClosePosition(a, s, 0, price, Manual, 0);
      assert TrailingLosses(Run(a, s, events).history) < CONSECUTIVE_LOSS_COOLDOWN;
    }
  }
}
