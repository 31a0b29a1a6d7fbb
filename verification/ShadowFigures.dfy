/** A shadow trade and its size in plain figures. */
module ShadowFigures {
  import opened Common
  import opened Decimals
  import opened Funding
  import opened ShadowPnl
  import opened ShadowSizing
  import Optimal = ShadowSizingOptimal

  /** Plus for a long, minus for a short. */
  function Signed(direction: Direction, x: real): real {
    if direction.Long? then x else -x
  }

  /** The price at which a long is entered, or a short left: a rate above; the other two, a rate below. */
  function Above(price: real, bps: real): real {
    price + Mul(price, bps / 10000.0)
  }

  function Below(price: real, bps: real): real {
    price - Mul(price, bps / 10000.0)
  }

  /** Money is kept to eight decimals. */
  function Eighth(x: real): real {
    Quantize(x, 0.00000001)
  }

  /** What a trade is worth on paper, and what each of its costs is. */
  predicate Figures(r: Pnl, direction: Direction, entry: real, exit: real, quantity: real, events: nat, c: CostConfig) {
    var bps, rate := c.slippageBps, c.takerFeeRate;
    var entryFill := if direction.Long? then Above(entry, bps) else Below(entry, bps);
    var exitFill := if direction.Long? then Below(exit, bps) else Above(exit, bps);
    var funding := Mul(Mul(Mul(0.5 * (entry + exit), quantity), c.fundingRate), events as real);
    var gross := Signed(direction, Mul(exit - entry, quantity));
    && r.gross == Eighth(gross)
    && r.entryFee == Eighth(Mul(Mul(entryFill, quantity), rate))
    && r.exitFee == Eighth(Mul(Mul(exitFill, quantity), rate))
    && r.entrySlippage == Eighth(Mul(Mul(entry, quantity), bps) / 10000.0)
    && r.exitSlippage == Eighth(Mul(Mul(exit, quantity), bps) / 10000.0)
    && r.funding == Eighth(Signed(direction, funding))
    && r.slippage == r.entrySlippage + r.exitSlippage
    && r.net == Eighth(gross - r.entryFee - r.exitFee - r.funding - r.slippage)
  }

  lemma FillMeans(direction: Direction, price: real, bps: real, isEntry: bool)
    requires direction.IsSide()
    ensures ExpectedFillPrice(direction, price, bps, isEntry)
         == if direction.Long? == isEntry then Above(price, bps) else Below(price, bps)
  {
    var rate := bps / TEN_THOUSAND;
    assert price * (1.0 + rate) == price + Mul(price, rate) && price * (1.0 - rate) == price - Mul(price, rate);
  }

  lemma GrossMeans(direction: Direction, entry: real, exit: real, quantity: real)
    requires direction.IsSide()
    ensures GrossPnl(direction, entry, exit, quantity) == Some(Signed(direction, Mul(exit - entry, quantity)))
  {
  }

  lemma FundingMeans(direction: Direction, entry: real, exit: real, quantity: real, rate: real, events: nat)
    requires direction.IsSide()
    ensures FundingCharge(direction, entry, exit, quantity, rate, events)
         == Signed(direction, Mul(Mul(Mul(0.5 * (entry + exit), quantity), rate), events as real))
  {
    var sign := if direction.Long? then 1.0 else -1.0;
    var charge := Mul(Mul(Mul(0.5 * (entry + exit), quantity), rate), events as real);
    assert FundingCharge(direction, entry, exit, quantity, rate, events) == charge * sign;
    hide Mul, FundingCharge;
  }

  lemma FillCosts(price: real, quantity: real, rate: real)
    ensures FillFee(price, quantity, rate) == Eighth(Mul(Mul(price, quantity), rate))
    ensures FillSlippageCost(price, quantity, rate) == Eighth(Mul(Mul(price, quantity), rate) / 10000.0)
  {
    assert Mul(Mul(price, quantity), rate) == price * quantity * rate;
    hide Quantize;
  }

  lemma ReturnMeans(net: real, margin: Option<real>)
    ensures ReturnPct(net, margin).Some? <==> margin.Some? && 0.0 < margin.value
    ensures ReturnPct(net, margin).Some? ==>
              OnGrid(ReturnPct(net, margin).value, 0.0001)
              && Abs(Mul(ReturnPct(net, margin).value, margin.value) - 100.0 * net) <= 0.00005 * margin.value
  {
    if margin.Some? && 0.0 < margin.value {
      var m, pct := margin.value, ReturnPct(net, margin).value;
      QuantizeError(net / m * 100.0, 0.0001);
      MulDiv(net, m);
      hide Quantize;
      assert Mul(net / m * 100.0, m) == 100.0 * net;
      hide ReturnPct;
      MulLe(net / m * 100.0 - 0.00005, pct, m);
      MulLe(pct, net / m * 100.0 + 0.00005, m);
      MulAdd(net / m * 100.0, 0.00005, m);
      assert Mul(0.00005, m) == 0.00005 * m;
    }
  }

  /** Main result on shadow trades: every figure of a trade is what its prices, its quantity and the rates make it, for
      both sides; the funding is charged for every instant after its start and up to its end; the net profit is the
      gross one less all of them; and the return is a hundred times the net profit over the margin. */
  lemma TradeMeans(direction: Direction, entry: real, exit: real, quantity: real, margin: Option<real>, start: int,
                   end: int, config: CostConfig)
    ensures var r := CalculateShadowPnl(direction, entry, exit, quantity, margin, start, end, config);
      && (r.Some? <==> direction.IsSide())
      && (r.Some? ==>
            && Figures(r.value, direction, entry, exit, quantity, FundingEvents(start, end, config.fundingHours),
                       config)
            && (r.value.returnPct.Some? <==> margin.Some? && 0.0 < margin.value)
            && (r.value.returnPct.Some? ==>
                  OnGrid(r.value.returnPct.value, 0.0001)
                  && Abs(Mul(r.value.returnPct.value, margin.value) - 100.0 * r.value.net) <= 0.00005 * margin.value))
  {
    if direction.IsSide() {
      var r := CalculateShadowPnl(direction, entry, exit, quantity, margin, start, end, config).value;
      var events := FundingEvents(start, end, config.fundingHours);
      FillMeans(direction, entry, config.slippageBps, true);
      FillMeans(direction, exit, config.slippageBps, false);
      var entryFill := ExpectedFillPrice(direction, entry, config.slippageBps, true);
      var exitFill := ExpectedFillPrice(direction, exit, config.slippageBps, false);
      FillCosts(entryFill, quantity, config.takerFeeRate);
      FillCosts(exitFill, quantity, config.takerFeeRate);
      FillCosts(entry, quantity, config.slippageBps);
      FillCosts(exit, quantity, config.slippageBps);
      GrossMeans(direction, entry, exit, quantity);
      FundingMeans(direction, entry, exit, quantity, config.fundingRate, events);
      ReturnMeans(r.net, margin);
      hide Quantize, Mul, OnGrid, ReturnPct, FillFee, FillSlippageCost, FundingCharge, GrossPnl, ExpectedFillPrice,
        FundingEvents, Above, Below;
    }
  }

  // ---------- Sizes ----------

  /** What one coin loses at the stop, by its parts: the way to the stop, and for each of a buy and a sale at their
      slipped prices the fee, the slippage of both, and the size of the funding rate on the average of the entry and
      the slipped stop, for one interval at least. */
  predicate CoinLoss(loss: real, inp: SizingInput) {
    var bps, rate := inp.costs.slippageBps, inp.costs.takerFeeRate;
    var entryFill := if inp.direction.Long? then Above(inp.entry, bps) else Below(inp.entry, bps);
    var stopFill := if inp.direction.Long? then Below(inp.stop, bps) else Above(inp.stop, bps);
    var way := if inp.entry < inp.stop then inp.stop - inp.entry else inp.entry - inp.stop;
    var size := if inp.costs.fundingRate < 0.0 then -inp.costs.fundingRate else inp.costs.fundingRate;
    var intervals := if inp.fundingIntervals < 1 then 1 else inp.fundingIntervals;
    var fees := Eighth(Mul(entryFill, rate)) + Eighth(Mul(stopFill, rate));
    var slippage := Eighth(Mul(inp.entry, bps) / 10000.0) + Eighth(Mul(inp.stop, bps) / 10000.0);
    var reserve := Mul(Mul(0.5 * (inp.entry + stopFill), size), intervals as real);
    loss == way + fees + slippage + reserve
  }

  lemma CoinLossMeans(inp: SizingInput)
    requires inp.direction.IsSide()
    ensures CoinLoss(WorstLossPerCoin(inp), inp)
  {
    var costs := inp.costs;
    FillMeans(inp.direction, inp.entry, costs.slippageBps, true);
    FillMeans(inp.direction, inp.stop, costs.slippageBps, false);
    var entryFill := ExpectedFillPrice(inp.direction, inp.entry, costs.slippageBps, true);
    var stopFill := ExpectedFillPrice(inp.direction, inp.stop, costs.slippageBps, false);
    OneCoin(entryFill, costs.takerFeeRate);
    OneCoin(stopFill, costs.takerFeeRate);
    OneCoin(inp.entry, costs.slippageBps);
    OneCoin(inp.stop, costs.slippageBps);
    ReserveMeans(inp, stopFill);
    hide Mul, FillFee, FillSlippageCost, ExpectedFillPrice, FundingReserve, Above, Below, Eighth;
  }

  lemma OneCoin(price: real, rate: real)
    ensures FillFee(price, 1.0, rate) == Eighth(Mul(price, rate))
    ensures FillSlippageCost(price, 1.0, rate) == Eighth(Mul(price, rate) / 10000.0)
  {
    FillCosts(price, 1.0, rate);
    assert Mul(price, 1.0) == price;
    hide FillFee, FillSlippageCost, Eighth;
  }

  lemma ReserveMeans(inp: SizingInput, stopFill: real)
    ensures FundingReserve(inp, stopFill)
         == Mul(Mul(0.5 * (inp.entry + stopFill),
                    if inp.costs.fundingRate < 0.0 then -inp.costs.fundingRate else inp.costs.fundingRate),
                (if inp.fundingIntervals < 1 then 1 else inp.fundingIntervals) as real)
  {
  }

  /** A quantity fits an input at a loss per coin: whole steps, a loss within the risk budget, and a notional that the
      highest leverage allowed can carry within both margin caps. */
  ghost predicate Fitting(inp: SizingInput, loss: real, quantity: real) {
    && OnGrid(quantity, inp.rules.quantityStep)
    && Mul(quantity, loss) <= Mul(inp.equity, inp.riskPct)
    && exists leverage: int :: 1 <= leverage && AllowedLeverage(inp, leverage) && Carried(inp, quantity, leverage)
  }

  predicate AllowedLeverage(inp: SizingInput, leverage: int) {
    && leverage <= inp.planMaxLeverage && leverage <= inp.userMaxLeverage
    && leverage <= inp.systemMaxLeverage && leverage <= inp.safeLeverageCap
  }

  /** At this leverage the margin of the quantity is within the share of the equity, and with its buffer within what is
      available. */
  predicate Carried(inp: SizingInput, quantity: real, leverage: int) {
    var notional := Mul(quantity, inp.entry);
    && notional <= Mul(leverage as real, Mul(inp.equity, inp.maxMarginRatio))
    && Mul(notional, inp.marginBuffer) <= Mul(leverage as real, inp.available)
  }

  lemma CarriedMeans(inp: SizingInput, quantity: real, leverage: int)
    requires 1.0 <= inp.marginBuffer && 1 <= leverage
    ensures Carried(inp, quantity, leverage)
       <==> Optimal.Carries(leverage, Notional(quantity, inp.entry), MarginCap(inp))
  {
    var notional, l := Mul(quantity, inp.entry), leverage as real;
    var share, rest := Mul(inp.equity, inp.maxMarginRatio), inp.available / inp.marginBuffer;
    MulDiv(inp.available, inp.marginBuffer);
    assert Notional(quantity, inp.entry) == notional;
    assert MarginCap(inp) == Min(share, rest);
    assert Mul(Mul(l, rest), inp.marginBuffer) == Mul(l, Mul(rest, inp.marginBuffer));
    if share <= rest {
      MulLe(share, rest, l);
    } else {
      MulLe(rest, share, l);
    }
    assert Mul(share, l) == Mul(l, share) && Mul(rest, l) == Mul(l, rest);
    if notional <= Mul(l, rest) {
      MulLe(notional, Mul(l, rest), inp.marginBuffer);
    } else {
      MulLt(Mul(l, rest), notional, inp.marginBuffer);
    }
    hide Mul, MarginCap, Notional;
  }

  lemma HighestCarries(inp: SizingInput, quantity: real)
    requires 1.0 <= inp.marginBuffer && 0.0 < MarginCap(inp)
    ensures (exists leverage: int ::
               1 <= leverage && AllowedLeverage(inp, leverage) && Carried(inp, quantity, leverage))
       <==> 1 <= MaxLeverage(inp) && Optimal.Carries(MaxLeverage(inp), Notional(quantity, inp.entry), MarginCap(inp))
  {
    var most := MaxLeverage(inp);
    assert forall leverage: int :: AllowedLeverage(inp, leverage) <==> leverage <= most;
    hide MaxLeverage, AllowedLeverage, MarginCap, Carried, Optimal.Carries;
    if 1 <= most {
      CarriedMeans(inp, quantity, most);
    }
    forall leverage: int | 1 <= leverage <= most && Carried(inp, quantity, leverage)
      ensures Optimal.Carries(most, Notional(quantity, inp.entry), MarginCap(inp))
    {
      CarriedMeans(inp, quantity, leverage);
      MoreCarries(leverage, most, Notional(quantity, inp.entry), MarginCap(inp));
    }
  }

  lemma MoreCarries(leverage: int, most: int, notional: real, cap: real)
    requires leverage <= most && 0.0 < cap && Optimal.Carries(leverage, notional, cap)
    ensures Optimal.Carries(most, notional, cap)
  {
    MulLe(leverage as real, most as real, cap);
  }

  /** Orders for the two coins that are traded come in thousandths or hundredths, are one of these at least and worth
      five at least; there are rules for no other symbol. */
  lemma RulesMean(symbol: string)
    ensures var r := GetSymbolRules(symbol);
      && (r.Some? <==> symbol in {"BTCUSDT", "ETHUSDT"})
      && (r.Some? ==> r.value.minQuantity == r.value.quantityStep && r.value.minNotional == 5.0)
      && (symbol == "BTCUSDT" ==> r.value.quantityStep == 0.001 && r.value.priceTick == 0.1)
      && (symbol == "ETHUSDT" ==> r.value.quantityStep == 0.01 && r.value.priceTick == 0.01)
  {
    assert "BTCUSDT"[0] != "ETHUSDT"[0];
  }

  /** What refuses an input before any size is computed: the first of these. */
  function BadInput(inp: SizingInput, loss: real): Option<Code> {
    var prices := inp.entry <= 0.0 || inp.stop <= 0.0 || inp.target <= 0.0;
    var figures := prices || inp.equity <= 0.0 || inp.available <= 0.0;
    Or(When(inp.direction.Hold?, InvalidDirection),
       Or(When(figures, InvalidSizingInput),
          Or(When(inp.riskPct <= 0.0 || 1.0 < inp.riskPct, InvalidRiskPct),
             Or(When(inp.marginBuffer < 1.0, InvalidMarginBuffer), When(loss <= 0.0, InvalidWorstLoss)))))
  }

  /** There is some margin and some leverage at all. */
  predicate Capacity(inp: SizingInput) {
    0.0 < Mul(inp.equity, inp.maxMarginRatio) && AllowedLeverage(inp, 1)
  }

  /** The largest quantity that fits. */
  ghost predicate Largest(inp: SizingInput, loss: real, quantity: real) {
    Fitting(inp, loss, quantity) && forall q :: Fitting(inp, loss, q) ==> q <= quantity
  }

  /** A quantity that is large enough to trade, and not too much for the portfolio. */
  predicate Tradable(inp: SizingInput, loss: real, quantity: real) {
    && inp.rules.minQuantity <= quantity && inp.rules.minNotional <= Mul(quantity, inp.entry)
    && inp.openRisk + Mul(quantity, loss) <= Mul(inp.equity, inp.maxPortfolioRiskPct)
  }

  /** The figures of an approved size. */
  ghost predicate Booked(inp: SizingInput, loss: real, r: SizingResult)
    requires r.Approved?
  {
    && 1 <= r.leverage && Carried(inp, r.quantity, r.leverage)
    && (forall l: int :: 1 <= l && Carried(inp, r.quantity, l) ==> r.leverage <= l)
    && r.notional == Mul(r.quantity, inp.entry) && Mul(r.margin, r.leverage as real) == r.notional
    && r.budget == Mul(inp.equity, inp.riskPct) && r.lossPerCoin == loss && r.maxLoss == Mul(r.quantity, loss)
    && Mul(r.utilization, r.budget) == r.maxLoss
  }

  lemma ProductsMean(inp: SizingInput, q: real, loss: real)
    ensures LossOf(q, loss) == Mul(q, loss) && Notional(q, inp.entry) == Mul(q, inp.entry)
    ensures RiskBudget(inp) == Mul(inp.equity, inp.riskPct)
    ensures PortfolioLimit(inp) == Mul(inp.equity, inp.maxPortfolioRiskPct)
  {
  }

  lemma CapacityMeans(inp: SizingInput)
    requires 1.0 <= inp.marginBuffer && 0.0 < inp.available
    ensures Capacity(inp) <==> 0.0 < MarginCap(inp) && 1 <= MaxLeverage(inp)
  {
    var rest := inp.available / inp.marginBuffer;
    MulDiv(inp.available, inp.marginBuffer);
    if rest <= 0.0 {
      MulLe(rest, 0.0, inp.marginBuffer);
    }
    assert MarginCap(inp) == Min(Mul(inp.equity, inp.maxMarginRatio), rest);
    hide Mul, MarginCap;
  }

  lemma FittingMeans(inp: SizingInput, loss: real, q: real)
    requires 1.0 <= inp.marginBuffer && 0.0 < MarginCap(inp) && 1 <= MaxLeverage(inp)
    ensures Fitting(inp, loss, q) <==> Optimal.Fits(inp, loss, q)
  {
    ProductsMean(inp, q, loss);
    HighestCarries(inp, q);
    hide Mul, MarginCap, MaxLeverage, Carried, Optimal.Carries, OnGrid, AllowedLeverage, LossOf, Notional, RiskBudget;
  }

  lemma UtilizationMeans(maxLoss: real, budget: real)
    requires 0.0 < budget
    ensures Mul(Utilization(maxLoss, budget), budget) == maxLoss
  {
    MulDiv(maxLoss, budget);
  }

  lemma BudgetPositive(inp: SizingInput)
    requires 0.0 < inp.equity && 0.0 < inp.riskPct
    ensures 0.0 < Mul(inp.equity, inp.riskPct)
  {
  }

  lemma BookedMeans(inp: SizingInput, loss: real, r: SizingResult)
    requires r.Approved? && 1.0 <= inp.marginBuffer && Optimal.SettledWell(inp, loss, r)
    requires 0.0 < r.budget && r.utilization == Utilization(r.maxLoss, r.budget)
    ensures Booked(inp, loss, r)
  {
    ProductsMean(inp, r.quantity, loss);
    UtilizationMeans(r.maxLoss, r.budget);
    assert Mul(r.margin, r.leverage as real) == r.margin * r.leverage as real;
    hide Mul, MarginCap, MaxLeverage, Carried, Optimal.Carries, LossOf, Notional, RiskBudget, Utilization;
    CarriedMeans(inp, r.quantity, r.leverage);
    forall l: int | 1 <= l && Carried(inp, r.quantity, l)
      ensures r.leverage <= l
    {
      CarriedMeans(inp, r.quantity, l);
    }
  }

  lemma SettledUtilization(inp: SizingInput)
    ensures var r := SizeFromRiskBudget(inp);
      r.Approved? ==> r.utilization == Utilization(r.maxLoss, r.budget)
  {
    hide WorstLossPerCoin, FloorToStep, FitToLeverage, MarginCap, MaxLeverage, LossOf, Notional, PortfolioLimit,
      Utilization, RiskBudget, MarginAt, Buffered, RequiredLeverage;
  }

  lemma BadMeans(inp: SizingInput)
    ensures var loss, r := WorstLossPerCoin(inp), SizeFromRiskBudget(inp);
      match BadInput(inp, loss)
      case Some(code) =>
        r == Rejected(code, if code.InvalidWorstLoss? then Mul(inp.equity, inp.riskPct) else 0.0)
      case None =>
        && inp.direction.IsSide() && 0.0 < inp.entry && 0.0 < inp.stop && 0.0 < inp.target && 0.0 < inp.equity
        && 0.0 < inp.available && 0.0 < inp.riskPct <= 1.0 && 1.0 <= inp.marginBuffer && 0.0 < loss
        && r == SizeForLoss(inp, RiskBudget(inp), loss)
  {
    ProductsMean(inp, 0.0, 0.0);
    hide WorstLossPerCoin, SizeForLoss, Mul, RiskBudget;
  }

  /** Main result on sizes: a bad input is refused with the code of the first thing wrong with it; any other is approved
      exactly when there is capacity and the largest quantity that fits both budget and leverage is tradable, and then
      with that quantity, at the least leverage that carries it, with its own figures. */
  lemma SizeMeans(inp: SizingInput)
    ensures var loss, r := WorstLossPerCoin(inp), SizeFromRiskBudget(inp);
      match BadInput(inp, loss)
      case Some(code) =>
        r == Rejected(code, if code.InvalidWorstLoss? then Mul(inp.equity, inp.riskPct) else 0.0)
      case None =>
        && CoinLoss(loss, inp)
        && (r.Approved? <==> Capacity(inp) && exists q :: Largest(inp, loss, q) && Tradable(inp, loss, q))
        && (r.Approved? ==> Largest(inp, loss, r.quantity) && Tradable(inp, loss, r.quantity) && Booked(inp, loss, r))
        && (r.Rejected? ==> r.rejectedBudget == Mul(inp.equity, inp.riskPct))
  {
    var loss, r := WorstLossPerCoin(inp), SizeFromRiskBudget(inp);
    BadMeans(inp);
    hide SizeFromRiskBudget, BadInput, WorstLossPerCoin;
    if BadInput(inp, loss).None? {
      CoinLossMeans(inp);
      CapacityMeans(inp);
      SizedOutcome(inp, loss);
    }
  }

  lemma SizedOutcome(inp: SizingInput, loss: real)
    requires inp.direction.IsSide() && 0.0 < inp.entry && 0.0 < inp.stop && 0.0 < inp.target && 0.0 < inp.equity
    requires 0.0 < inp.available && 0.0 < inp.riskPct <= 1.0 && 1.0 <= inp.marginBuffer && 0.0 < loss
    requires loss == WorstLossPerCoin(inp)
    requires SizeFromRiskBudget(inp) == SizeForLoss(inp, RiskBudget(inp), loss)
    ensures var r, room := SizeFromRiskBudget(inp), 0.0 < MarginCap(inp) && 1 <= MaxLeverage(inp);
      && (r.Approved? <==> room && exists q :: Largest(inp, loss, q) && Tradable(inp, loss, q))
      && (r.Approved? ==> Largest(inp, loss, r.quantity) && Tradable(inp, loss, r.quantity) && Booked(inp, loss, r))
      && (r.Rejected? ==> r.rejectedBudget == Mul(inp.equity, inp.riskPct))
  {
    ProductsMean(inp, 0.0, loss);
    BudgetPositive(inp);
    var r := SizeFromRiskBudget(inp);
    RoomIsNeeded(inp, RiskBudget(inp), loss);
    SettledUtilization(inp);
    hide SizeFromRiskBudget, SizeForLoss, WorstLossPerCoin, MarginCap, MaxLeverage, RiskBudget, Tradable;
    if 0.0 < MarginCap(inp) && 1 <= MaxLeverage(inp) {
      Optimal.SizingOutcome(inp, loss);
      var chosen := Optimal.ChosenQuantity(inp, loss);
      ChosenIsLargestFit(inp, loss);
      TradableMeans(inp, loss, chosen);
      if r.Approved? {
        BookedMeans(inp, loss, r);
      }
      assert forall q :: Largest(inp, loss, q) ==> q == chosen;
    }
  }

  lemma TradableMeans(inp: SizingInput, loss: real, q: real)
    ensures Tradable(inp, loss, q)
       <==> && inp.rules.minQuantity <= q && inp.rules.minNotional <= Notional(q, inp.entry)
            && inp.openRisk + LossOf(q, loss) <= PortfolioLimit(inp)
  {
    ProductsMean(inp, q, loss);
  }

  lemma ChosenIsLargestFit(inp: SizingInput, loss: real)
    requires Optimal.Sizable(inp, loss)
    ensures Largest(inp, loss, Optimal.ChosenQuantity(inp, loss))
  {
    var chosen := Optimal.ChosenQuantity(inp, loss);
    hide MarginCap, MaxLeverage, Optimal.ChosenQuantity, Fitting, Optimal.Fits;
    Optimal.ChosenIsLargest(inp, loss, chosen);
    FittingMeans(inp, loss, chosen);
    forall q | Fitting(inp, loss, q)
      ensures q <= chosen
    {
      FittingMeans(inp, loss, q);
      Optimal.ChosenIsLargest(inp, loss, q);
    }
  }

  /** A size is refused without capacity, and every refusal names the budget. */
  lemma RoomIsNeeded(inp: SizingInput, budget: real, loss: real)
    requires 0.0 < loss && 0.0 < inp.entry && 1.0 <= inp.marginBuffer
    ensures var r := SizeForLoss(inp, budget, loss);
      && (r.Approved? ==> 0.0 < MarginCap(inp) && 1 <= MaxLeverage(inp))
      && (r.Rejected? ==> r.rejectedBudget == budget)
  {
    hide FloorToStep, FitToLeverage, MarginCap, MaxLeverage, LossOf, Notional, PortfolioLimit, Utilization, MarginAt,
      Buffered, RequiredLeverage;
  }

  /** What refuses a good input: no lots within the budget, no capacity, no lots within the leverage, too little
      worth, or too much for the portfolio, in this order. */
  lemma RefusalMeans(inp: SizingInput)
    ensures var loss, r := WorstLossPerCoin(inp), SizeFromRiskBudget(inp);
      BadInput(inp, loss).None? && r.Rejected? ==>
        var none := forall q :: OnGrid(q, inp.rules.quantityStep) && Mul(q, loss) <= Mul(inp.equity, inp.riskPct) ==>
                      q < inp.rules.minQuantity;
        && (r.code.MinQuantity? <==> none)
        && (r.code.NoMarginCapacity? <==> !none && !Capacity(inp))
        && (r.code.LeverageCap? <==>
              !none && Capacity(inp) && forall q :: Fitting(inp, loss, q) ==> q < inp.rules.minQuantity)
        && (r.code.MinNotional? || r.code.PortfolioRiskExceeded? || r.code.LeverageCap? || r.code.NoMarginCapacity?
            || r.code.MinQuantity?)
        && (r.code.MinNotional? ==> forall q :: Fitting(inp, loss, q) ==> Mul(q, inp.entry) < inp.rules.minNotional)
        && (r.code.PortfolioRiskExceeded? ==>
              exists q :: Largest(inp, loss, q)
                          && Mul(inp.equity, inp.maxPortfolioRiskPct) < inp.openRisk + Mul(q, loss))
  {
    var loss, r := WorstLossPerCoin(inp), SizeFromRiskBudget(inp);
    BadMeans(inp);
    hide SizeFromRiskBudget, BadInput, WorstLossPerCoin;
    if BadInput(inp, loss).None? && r.Rejected? {
      CapacityMeans(inp);
      RefusedFor(inp, loss);
    }
  }

  lemma RefusedFor(inp: SizingInput, loss: real)
    requires inp.direction.IsSide() && 0.0 < inp.entry && 0.0 < inp.stop && 0.0 < inp.target && 0.0 < inp.equity
    requires 0.0 < inp.available && 0.0 < inp.riskPct <= 1.0 && 1.0 <= inp.marginBuffer && 0.0 < loss
    requires SizeForLoss(inp, RiskBudget(inp), loss).Rejected?
    ensures var r, room := SizeForLoss(inp, RiskBudget(inp), loss), 0.0 < MarginCap(inp) && 1 <= MaxLeverage(inp);
      var none := forall q :: OnGrid(q, inp.rules.quantityStep) && Mul(q, loss) <= Mul(inp.equity, inp.riskPct) ==>
                    q < inp.rules.minQuantity;
      && (r.code.MinQuantity? <==> none)
      && (r.code.NoMarginCapacity? <==> !none && !room)
      && (r.code.LeverageCap? <==>
            !none && room && forall q :: Fitting(inp, loss, q) ==> q < inp.rules.minQuantity)
      && (r.code.MinNotional? || r.code.PortfolioRiskExceeded? || r.code.LeverageCap? || r.code.NoMarginCapacity?
          || r.code.MinQuantity?)
      && (r.code.MinNotional? ==> forall q :: Fitting(inp, loss, q) ==> Mul(q, inp.entry) < inp.rules.minNotional)
      && (r.code.PortfolioRiskExceeded? ==>
            exists q :: Largest(inp, loss, q)
                        && Mul(inp.equity, inp.maxPortfolioRiskPct) < inp.openRisk + Mul(q, loss))
  {
    var budget := RiskBudget(inp);
    var first := BudgetQuantity(inp, budget, loss);
    ProductsMean(inp, 0.0, loss);
    BudgetPositive(inp);
    FirstIsMost(inp, loss);
    if 0.0 < MarginCap(inp) && 1 <= MaxLeverage(inp) {
      var chosen := Optimal.ChosenQuantity(inp, loss);
      ChosenIsLargestFit(inp, loss);
      ProductsMean(inp, chosen, loss);
      Optimal.ChosenIsLargest(inp, loss, chosen);
      Optimal.SettleOutcome(inp, loss, chosen);
      forall q | Fitting(inp, loss, q)
        ensures Mul(q, inp.entry) <= Mul(chosen, inp.entry)
      {
        MulLe(q, chosen, inp.entry);
      }
      CodeOf(inp, loss);
      hide SizeForLoss, Settle, Fitting, Mul, RiskBudget, MarginCap, MaxLeverage, FitToLeverage, FloorToStep, LossOf,
        Notional, PortfolioLimit, BudgetQuantity, OnGrid, Optimal.ChosenQuantity, Optimal.Fits;
    } else {
      NoRoomCode(inp, loss);
      hide SizeForLoss, Mul, RiskBudget, MarginCap, MaxLeverage, BudgetQuantity, OnGrid;
    }
  }

  lemma FirstIsMost(inp: SizingInput, loss: real)
    requires 0.0 < inp.equity && 0.0 < inp.riskPct && 0.0 < loss
    ensures var first := BudgetQuantity(inp, RiskBudget(inp), loss);
      && OnGrid(first, inp.rules.quantityStep) && Mul(first, loss) <= Mul(inp.equity, inp.riskPct)
      && forall q :: OnGrid(q, inp.rules.quantityStep) && Mul(q, loss) <= Mul(inp.equity, inp.riskPct) ==> q <= first
  {
    BudgetPositive(inp);
    var first := BudgetQuantity(inp, RiskBudget(inp), loss);
    ProductsMean(inp, first, loss);
    Optimal.LargestWithinBudget(first, RiskBudget(inp), loss, inp.rules.quantityStep);
    forall q | OnGrid(q, inp.rules.quantityStep) && Mul(q, loss) <= Mul(inp.equity, inp.riskPct)
      ensures q <= first
    {
      ProductsMean(inp, q, loss);
      Optimal.LargestWithinBudget(q, RiskBudget(inp), loss, inp.rules.quantityStep);
    }
  }

  lemma CodeOf(inp: SizingInput, loss: real)
    requires Optimal.Sizable(inp, loss)
    ensures var r, first := SizeForLoss(inp, RiskBudget(inp), loss), BudgetQuantity(inp, RiskBudget(inp), loss);
      var chosen := Optimal.ChosenQuantity(inp, loss);
      r == if first < inp.rules.minQuantity then Rejected(MinQuantity, RiskBudget(inp))
           else if chosen < inp.rules.minQuantity then Rejected(LeverageCap, RiskBudget(inp))
           else Settle(inp, chosen, RiskBudget(inp), loss)
  {
    hide FloorToStep, FitToLeverage, MarginCap, MaxLeverage, RiskBudget, Settle, BudgetQuantity;
  }

  lemma NoRoomCode(inp: SizingInput, loss: real)
    requires 0.0 < loss && 0.0 < inp.entry && 1.0 <= inp.marginBuffer
    requires !(0.0 < MarginCap(inp) && 1 <= MaxLeverage(inp))
    ensures var r, first := SizeForLoss(inp, RiskBudget(inp), loss), BudgetQuantity(inp, RiskBudget(inp), loss);
      r.Rejected? && r.code == if first < inp.rules.minQuantity then MinQuantity else NoMarginCapacity
  {
    hide FloorToStep, FitToLeverage, MarginCap, MaxLeverage, RiskBudget, Settle, BudgetQuantity;
  }

  /** Main result on fixed quantities: they are refused for their size, their step or their leverage, for the budget or
      for the portfolio, in this order, and approved with the figures of the quantity otherwise. */
  lemma FixedMeans(inp: SizingInput, quantity: real, leverage: int, margin: real)
    ensures var loss, r := WorstLossPerCoin(inp), EvaluateFixedQuantityRisk(inp, quantity, leverage, margin);
      var budget := Mul(inp.equity, inp.riskPct);
      var offGrid := quantity <= 0.0 || quantity < inp.rules.minQuantity || !OnGrid(quantity, inp.rules.quantityStep);
      var code :=
        Or(When(quantity <= 0.0 || quantity < inp.rules.minQuantity, MinQuantity),
           Or(When(offGrid, LotStep),
              Or(When(leverage < 1, InvalidLeverage),
                 Or(When(budget < Mul(quantity, loss), RiskBudgetExceeded),
                    When(Mul(inp.equity, inp.maxPortfolioRiskPct) < inp.openRisk + Mul(quantity, loss),
                         PortfolioRiskExceeded)))));
      match code
      case Some(c) => r == Rejected(c, budget)
      case None =>
        && r.Approved? && r.quantity == quantity && r.leverage == leverage && r.margin == margin
        && r.notional == Mul(quantity, inp.entry) && r.budget == budget && r.lossPerCoin == loss
        && r.maxLoss == Mul(quantity, loss) && (0.0 < budget ==> Mul(r.utilization, budget) == r.maxLoss)
        && (budget <= 0.0 ==> r.utilization == 0.0)
  {
    var loss, budget := WorstLossPerCoin(inp), Mul(inp.equity, inp.riskPct);
    ProductsMean(inp, quantity, loss);
    if 0.0 < budget {
      UtilizationMeans(Mul(quantity, loss), budget);
    } else {
      assert Utilization(Mul(quantity, loss), budget) == 0.0;
    }
    if 0.0 < quantity {
      FloorToStepLargest(quantity, inp.rules.quantityStep);
      if OnGrid(quantity, inp.rules.quantityStep) {
        Optimal.GridFloor(quantity, inp.rules.quantityStep);
      }
    }
    hide WorstLossPerCoin, Mul, RiskBudget, PortfolioLimit, LossOf, Notional, Utilization, FloorToStep;
  }
}
