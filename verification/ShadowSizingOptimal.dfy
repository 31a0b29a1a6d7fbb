/** What an approved shadow size is: the best one, not just a safe one. */
module ShadowSizingOptimal {
  import opened Common
  import opened Decimals
  import opened ShadowPnl
  import opened ShadowSizing

  /** A lot multiple whose worst loss stays in the budget and whose notional some allowed leverage can carry. */
  ghost predicate Fits(inp: SizingInput, lossPerCoin: real, quantity: real)
    requires inp.marginBuffer != 0.0
  {
    && OnGrid(quantity, inp.rules.quantityStep)
    && LossOf(quantity, lossPerCoin) <= RiskBudget(inp)
    && Carries(MaxLeverage(inp), Notional(quantity, inp.entry), MarginCap(inp))
  }

  /** At this leverage the margin of the notional stays under the cap. */
  ghost predicate Carries(leverage: int, notional: real, marginCap: real) {
    notional <= Mul(leverage as real, marginCap)
  }

  /** The input passes the checks made before any quantity is computed, and has room for a position. */
  ghost predicate Sizable(inp: SizingInput, lossPerCoin: real) {
    && inp.direction.IsSide()
    && 0.0 < inp.entry && 0.0 < inp.stop && 0.0 < inp.target && 0.0 < inp.equity && 0.0 < inp.available
    && 0.0 < inp.riskPct <= 1.0
    && 1.0 <= inp.marginBuffer
    && 0.0 < lossPerCoin
    && 0.0 < MarginCap(inp) && 1 <= MaxLeverage(inp)
  }

  /** The quantity the code settles on, before the checks on its notional and its portfolio risk. */
  ghost function ChosenQuantity(inp: SizingInput, lossPerCoin: real): real
    requires Sizable(inp, lossPerCoin)
  {
    FitToLeverage(BudgetQuantity(inp, RiskBudget(inp), lossPerCoin),
                  inp.entry, inp.rules.quantityStep, MarginCap(inp), MaxLeverage(inp))
  }

  lemma BudgetIsPositive(inp: SizingInput)
    requires 0.0 < inp.equity && 0.0 < inp.riskPct
    ensures 0.0 < RiskBudget(inp)
  {
  }

  lemma DivNonNeg(x: real, z: real)
    requires 0.0 <= x && 0.0 < z
    ensures 0.0 <= x / z
  {
    MulDiv(x, z);
    if x / z < 0.0 {
      MulLt(x / z, 0.0, z);
    }
  }

  /** Dividing by a positive number turns an upper bound on a product into one on a factor. */
  lemma LeDiv(x: real, y: real, z: real)
    requires 0.0 < z
    ensures x <= y / z <==> Mul(x, z) <= y
  {
    MulDiv(y, z);
    if x <= y / z {
      MulLe(x, y / z, z);
    } else {
      MulLt(y / z, x, z);
    }
  }

  lemma FlooredLimit(q: real, limit: real, step: real)
    requires 0.0 < step && 0.0 <= limit
    ensures OnGrid(FloorToStep(limit, step), step) && 0.0 <= FloorToStep(limit, step) <= limit
    ensures OnGrid(q, step) && q <= limit ==> q <= FloorToStep(limit, step)
  {
    FloorToStepLargest(limit, step);
    if OnGrid(q, step) && q <= limit {
      var k :| q == Multiple(k, step);
    }
  }

  /** Whether the leverage ceiling allows a notional is a comparison with the cap times the leverage. */
  lemma RequiredLeverageLe(notional: real, marginCap: real, leverage: int)
    requires 0.0 < marginCap
    ensures RequiredLeverage(notional, marginCap) <= leverage <==> Carries(leverage, notional, marginCap)
  {
    DivLe(notional, leverage as real, marginCap);
  }

  lemma LargestWithinBudget(q: real, budget: real, loss: real, step: real)
    requires 0.0 < budget && 0.0 < loss && 0.0 < step
    ensures var first := FloorToStep(budget / loss, step);
      && OnGrid(first, step) && 0.0 <= first && LossOf(first, loss) <= budget
      && (OnGrid(q, step) && LossOf(q, loss) <= budget ==> q <= first)
  {
    DivNonNeg(budget, loss);
    FlooredLimit(q, budget / loss, step);
    LeDiv(q, budget, loss);
    LeDiv(FloorToStep(budget / loss, step), budget, loss);
  }

  lemma NotionalLe(q: real, carried: real, entry: real)
    requires 0.0 < entry
    ensures q <= carried / entry <==> Notional(q, entry) <= carried
  {
    LeDiv(q, carried, entry);
  }

  /** Capping a quantity keeps it on the grid, carries it, and gives up no more than it must. */
  lemma LargestCarried(q: real, first: real, entry: real, step: real, cap: real, maxLeverage: int)
    requires 0.0 < entry && 0.0 < step && 0.0 < cap && 1 <= maxLeverage
    requires OnGrid(first, step) && 0.0 <= first
    ensures var chosen := FitToLeverage(first, entry, step, cap, maxLeverage);
      && OnGrid(chosen, step) && 0.0 <= chosen <= first && Carries(maxLeverage, Notional(chosen, entry), cap)
      && (OnGrid(q, step) && q <= first && Carries(maxLeverage, Notional(q, entry), cap) ==> q <= chosen)
  {
    RequiredLeverageLe(Notional(first, entry), cap, maxLeverage);
    var carried := cap * maxLeverage as real;
    assert carried == Mul(maxLeverage as real, cap);
    MulNonNeg(maxLeverage as real, cap);
    DivNonNeg(carried, entry);
    hide Mul, Notional, FloorToStep, Multiple, RequiredLeverage;
    var limit := Min(first, carried / entry);
    FlooredLimit(q, limit, step);
    NotionalLe(q, carried, entry);
    NotionalLe(FloorToStep(limit, step), carried, entry);
  }

  lemma LossMono(q: real, r: real, loss: real)
    requires q <= r && 0.0 <= loss
    ensures LossOf(q, loss) <= LossOf(r, loss)
  {
  }

  /** The chosen quantity fits, and nothing larger does. */
  lemma ChosenIsLargest(inp: SizingInput, loss: real, q: real)
    requires Sizable(inp, loss)
    ensures 0.0 <= ChosenQuantity(inp, loss) <= BudgetQuantity(inp, RiskBudget(inp), loss)
    ensures Fits(inp, loss, ChosenQuantity(inp, loss))
    ensures Fits(inp, loss, q) ==> q <= ChosenQuantity(inp, loss)
  {
    hide FloorToStep, FitToLeverage, RiskBudget, MarginCap, MaxLeverage, LossOf, Notional, Carries;
    BudgetIsPositive(inp);
    LargestWithinBudget(q, RiskBudget(inp), loss, inp.rules.quantityStep);
    var first := BudgetQuantity(inp, RiskBudget(inp), loss);
    LargestCarried(q, first, inp.entry, inp.rules.quantityStep, MarginCap(inp), MaxLeverage(inp));
    LossMono(ChosenQuantity(inp, loss), first, loss);
  }

  /** The leverage is the least one, from 1 up, whose margin fits under the cap. */
  lemma LeastLeverage(notional: real, marginCap: real, leverage: int)
    requires 0.0 < marginCap
    requires leverage == (var r := RequiredLeverage(notional, marginCap); if r < 1 then 1 else r)
    ensures forall l: int :: 1 <= l ==> (leverage <= l <==> Carries(l, notional, marginCap))
    ensures MarginAt(notional, leverage) <= marginCap
    ensures MarginAt(notional, leverage) * leverage as real == notional
  {
    forall l: int | 1 <= l
      ensures leverage <= l <==> Carries(l, notional, marginCap)
    {
      RequiredLeverageLe(notional, marginCap, l);
    }
    assert Carries(leverage, notional, marginCap);
    DivLe(notional, marginCap, leverage as real);
    assert Mul(marginCap, leverage as real) == Mul(leverage as real, marginCap);
    MulDiv(notional, leverage as real);
  }

  /** A margin under the cap leaves the buffer covered. */
  lemma BufferCovered(inp: SizingInput, margin: real)
    requires 1.0 <= inp.marginBuffer && margin <= MarginCap(inp)
    ensures Buffered(margin, inp.marginBuffer) <= inp.available
  {
    LeDiv(margin, inp.available, inp.marginBuffer);
  }

  /** The figures of an approved result: the leverage is the least that carries the notional, and the margin
      and the loss stay within their limits. */
  ghost predicate SettledWell(inp: SizingInput, loss: real, r: SizingResult)
    requires r.Approved? && inp.marginBuffer != 0.0
  {
    && r.notional == Notional(r.quantity, inp.entry) && r.margin * r.leverage as real == r.notional
    && 1 <= r.leverage <= MaxLeverage(inp)
    && (forall l: int :: 1 <= l ==> (r.leverage <= l <==> Carries(l, r.notional, MarginCap(inp))))
    && r.margin <= MarginCap(inp)
    && r.lossPerCoin == loss && r.maxLoss == LossOf(r.quantity, loss) && r.maxLoss <= r.budget == RiskBudget(inp)
  }

  lemma SettleOutcome(inp: SizingInput, loss: real, q: real)
    requires Sizable(inp, loss) && Fits(inp, loss, q)
    ensures var r := Settle(inp, q, RiskBudget(inp), loss);
      && (r.Approved? <==>
            inp.rules.minNotional <= Notional(q, inp.entry) && inp.openRisk + LossOf(q, loss) <= PortfolioLimit(inp))
      && (r.Approved? ==> r.quantity == q && SettledWell(inp, loss, r))
      && (r.Rejected? ==>
            r.code == if Notional(q, inp.entry) < inp.rules.minNotional then MinNotional else PortfolioRiskExceeded)
  {
    hide RequiredLeverage, RiskBudget, MarginCap, MaxLeverage, LossOf, Notional, Carries, MarginAt, Buffered,
         PortfolioLimit, Utilization, OnGrid;
    var notional, cap := Notional(q, inp.entry), MarginCap(inp);
    var required := RequiredLeverage(notional, cap);
    var leverage := if required < 1 then 1 else required;
    LeastLeverage(notional, cap, leverage);
    BufferCovered(inp, MarginAt(notional, leverage));
  }

  /** The exact outcome of sizing.  Nothing fits that is large enough, or the largest quantity that fits is
      taken at the least leverage, unless it is too cheap or too much for the portfolio.  The checks for the
      balance and for the budget that the code makes at the end never fire. */
  lemma SizingOutcome(inp: SizingInput, loss: real)
    requires Sizable(inp, loss)
    ensures var r, q := SizeForLoss(inp, RiskBudget(inp), loss), ChosenQuantity(inp, loss);
      && (r.Approved? <==>
            inp.rules.minQuantity <= q
            && inp.rules.minNotional <= Notional(q, inp.entry)
            && inp.openRisk + LossOf(q, loss) <= PortfolioLimit(inp))
      && (r.Approved? ==> r.quantity == q && SettledWell(inp, loss, r))
      && (r.Rejected? ==> !r.code.InsufficientBalance? && !r.code.RiskBudgetExceeded?)
      && (r.Rejected? && (r.code.MinQuantity? || r.code.LeverageCap?) <==> q < inp.rules.minQuantity)
      && (r.Rejected? && r.code.MinNotional? ==> Notional(q, inp.entry) < inp.rules.minNotional)
  {
    hide FloorToStep, FitToLeverage, RiskBudget, MarginCap, MaxLeverage, LossOf, Notional, PortfolioLimit, Settle,
         SettledWell, Fits;
    ChosenIsLargest(inp, loss, 0.0);
    SettleOutcome(inp, loss, ChosenQuantity(inp, loss));
  }

  /** Main result: an approved size is the greatest lot multiple within the budget and the leverage cap,
      and it is held at the least leverage that the margin cap allows. */
  lemma ApprovedIsLargest(inp: SizingInput)
    ensures var loss, r := WorstLossPerCoin(inp), SizeFromRiskBudget(inp);
      r.Approved? ==>
        && Sizable(inp, loss)
        && Fits(inp, loss, r.quantity) && inp.rules.minQuantity <= r.quantity
        && (forall q :: Fits(inp, loss, q) ==> q <= r.quantity)
        && SettledWell(inp, loss, r)
  {
    hide WorstLossPerCoin, FloorToStep, FitToLeverage, RiskBudget, MarginCap, MaxLeverage, LossOf, Notional,
         PortfolioLimit, Settle, SettledWell, Fits;
    var loss := WorstLossPerCoin(inp);
    if SizeFromRiskBudget(inp).Approved? {
      SizingOutcome(inp, loss);
      ChosenIsLargest(inp, loss, 0.0);
      forall q | Fits(inp, loss, q)
        ensures q <= ChosenQuantity(inp, loss)
      {
        ChosenIsLargest(inp, loss, q);
      }
    }
  }

  /** Conversely, a rejection for size means that no lot multiple of the minimum size fits, and a rejection
      for notional that none that fits is worth enough. */
  lemma RejectedMeansNothingFits(inp: SizingInput, q: real)
    ensures var loss, r := WorstLossPerCoin(inp), SizeFromRiskBudget(inp);
      Sizable(inp, loss) && Fits(inp, loss, q) ==>
        && (r.Rejected? && (r.code.MinQuantity? || r.code.LeverageCap?) ==> q < inp.rules.minQuantity)
        && (r.Rejected? && r.code.MinNotional? ==> Notional(q, inp.entry) < inp.rules.minNotional)
        && (r.Rejected? ==> !r.code.InsufficientBalance? && !r.code.RiskBudgetExceeded?)
  {
    hide WorstLossPerCoin, FloorToStep, FitToLeverage, RiskBudget, MarginCap, MaxLeverage, LossOf, Notional,
         PortfolioLimit, Settle, SettledWell, Fits;
    var loss := WorstLossPerCoin(inp);
    if Sizable(inp, loss) && Fits(inp, loss, q) {
      ChosenIsLargest(inp, loss, q);
      SizingOutcome(inp, loss);
      NotionalMono(q, ChosenQuantity(inp, loss), inp.entry);
    }
  }

  lemma NotionalMono(q: real, r: real, price: real)
    requires q <= r && 0.0 <= price
    ensures Notional(q, price) <= Notional(r, price)
  {
  }

  lemma GridFloor(q: real, step: real)
    requires 0.0 < step && 0.0 <= q && OnGrid(q, step)
    ensures FloorToStep(q, step) == q
  {
    var k :| q == Multiple(k, step);
    if k < 0 {
      MulLt(k as real, 0.0, step);
    }
    FloorToStepExact(k, step);
  }

  /** Evaluating the approved size again as a fixed quantity approves it with the same figures. */
  lemma ReevaluationAgrees(inp: SizingInput)
    ensures var r := SizeFromRiskBudget(inp);
      r.Approved? ==> EvaluateFixedQuantityRisk(inp, r.quantity, r.leverage, r.margin) == r
  {
    hide WorstLossPerCoin, FloorToStep, FitToLeverage, MarginCap, MaxLeverage, LossOf, Notional,
         PortfolioLimit, Utilization, RiskBudget, MarginAt, Buffered, RequiredLeverage;
    if SizeFromRiskBudget(inp).Approved? {
      ApprovedIsLargest(inp);
      GridFloor(SizeFromRiskBudget(inp).quantity, inp.rules.quantityStep);
    }
  }
}
