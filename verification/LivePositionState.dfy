/** The live position as the object whose fields the calls update in place.  Its methods are proved against the
    functions of the same name on position values. */
module LivePositionState {
  import opened Common
  import opened Decimals
  import opened RiskSizing
  import opened LivePosition

  class PositionState {
    const direction: Direction
    const stop: real
    const leverage: int
    const originalMargin: real
    const originalRisk: real
    var status: Status
    var entry: real
    var current: real
    var quantity: real
    var margin: real
    var realized: real
    var dcaCount: int
    var liquidation: real

    constructor (direction: Direction, entry: real, stop: real, quantity: real, leverage: int, margin: real,
                 maxLoss: real)
      requires leverage != 0
      ensures View() == Opened(direction, entry, stop, quantity, leverage, margin, maxLoss)
    {
      this.direction, this.stop, this.leverage := direction, stop, leverage;
      originalMargin, originalRisk := margin, maxLoss;
      status, this.entry, current, this.quantity, this.margin := Open, entry, entry, quantity, margin;
      realized, dcaCount, liquidation := 0.0, 0, LiquidationPrice(direction, entry, leverage);
    }

    function View(): State
      reads this
    {
      State(direction, status, entry, stop, current, quantity, leverage, margin, originalMargin, originalRisk,
            realized, dcaCount, liquidation)
    }

    method PartialClose(price: real, ratio: real, rate: real) returns (closed: Option<Closing>)
      modifies this
      ensures var b := LivePosition.PartialClose(old(View()), price, ratio, rate);
        View() == if b.None? then old(View()) else b.value
      ensures closed == if LivePosition.PartialClose(old(View()), price, ratio, rate).None? then None
                        else Some(ClosingOf(old(View()), old(quantity) - quantity, price, rate))
    {
      hide Gross, Fee, Net, Quantize, ClosedQuantity, MarginShare;
      var closeQuantity := ClosedQuantity(quantity, ratio);
      if status.Closed? || !(0.0 < ratio < 1.0) || closeQuantity <= 0.0 {
        return None;
      }
      var gross := Quantize(Gross(direction, entry, price, closeQuantity), 0.01);
      var fee := Quantize(Fee(closeQuantity, price, rate), 0.0001);
      var net := Quantize(Net(direction, entry, price, closeQuantity, rate), 0.01);
      var closeMargin := MarginShare(margin, ratio);
      quantity := quantity - closeQuantity;
      margin := margin - closeMargin;
      realized := realized + net;
      status := PartiallyClosed;
      current := price;
      return Some(Closing(closeQuantity, gross, fee, net));
    }

    method Close(price: real, rate: real) returns (closed: Closing)
      requires !status.Closed?
      modifies this
      ensures View() == ClosePosition(old(View()), price, rate)
      ensures closed == ClosingOf(old(View()), old(quantity), price, rate)
    {
      hide Gross, Fee, Net, Quantize;
      var gross := Quantize(Gross(direction, entry, price, quantity), 0.01);
      var fee := Quantize(Fee(quantity, price, rate), 0.0001);
      var net := Quantize(Net(direction, entry, price, quantity, rate), 0.01);
      status := Closed;
      current := price;
      realized := realized + net;
      closed := Closing(quantity, gross, fee, net);
    }

    /** Returns the fee of the added quantity, which the caller books. */
    method ApplyDca(signalEntry: real, addQuantity: real, addMargin: real, rate: real) returns (fee: real)
      requires quantity + addQuantity != 0.0 && leverage != 0
      modifies this
      ensures View() == LivePosition.ApplyDca(old(View()), signalEntry, addQuantity, addMargin)
      ensures fee == Quantize(Fee(addQuantity, signalEntry, rate), 0.0001)
    {
      hide RoundedAverage, LiquidationPrice, Quantize, Fee;
      fee := Quantize(Fee(addQuantity, signalEntry, rate), 0.0001);
      var average := RoundedAverage(quantity, entry, addQuantity, signalEntry);
      entry := average;
      quantity := quantity + addQuantity;
      margin := margin + addMargin;
      liquidation := LiquidationPrice(direction, average, leverage);
      dcaCount := dcaCount + 1;
    }
  }
}
