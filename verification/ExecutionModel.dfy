/** The order protocol of agents/execution/engine.py: entry, target and stop, one retry, emergency close. */
module ExecutionModel {
  import opened Common

  datatype Side = Buy | Sell

  datatype OrderType = Market | TakeProfitMarket | StopMarket

  datatype Purpose = Entry | TakeProfit | StopLoss | EmergencyClose

  datatype Ticket = Ticket(
    symbol: string,
    side: Side,
    orderType: OrderType,
    quantity: real,
    price: real,
    reduceOnly: bool,
    purpose: Purpose)

  datatype Fill = Fill(quantity: real, price: real)

  /** A ticket that was sent; without a fill, the gateway raised and took no order. */
  datatype Sent = Sent(ticket: Ticket, fill: Option<Fill>)

  /** The gateway may answer by anything it has seen before. */
  type Answers = (seq<Sent>, Ticket) -> Option<Fill>

  /** What orders are built from: the candidate, or the raw signal of the older flow. */
  datatype Order = Order(
    symbol: string,
    direction: Direction,
    entry: real,
    takeProfit: Option<real>,
    stopLoss: Option<real>)

  datatype Validation = Validation(approved: bool, code: string, quantity: Option<real>, leverage: Option<int>)

  datatype Request = Request(
    signal: Order,
    candidate: Option<Order>,
    finalAction: Option<Direction>,
    validation: Option<Validation>,      // supplied by the caller, or else asked of the validator
    fastExit: bool)

  /** What a call outside the engine does: it answers, or it raises. */
  datatype Reply<T> = Answered(value: T) | Raised

  datatype GateDecision = GateDecision(allowed: bool, code: Option<string>)

  datatype Setup = Setup(
    live: bool,
    validator: Reply<Validation>,
    gate: Option<Reply<GateDecision>>)

  datatype Outcome = Outcome(
    approved: bool,
    executed: bool,
    code: string,
    entry: Option<Fill>,
    takeProfit: Option<Fill>,
    stopLoss: Option<Fill>,
    tpSlFailed: bool,
    close: Option<Fill>,
    closeFailed: bool)

  // ---------- Tickets ----------

  function EntrySide(d: Direction): Side
    requires d.IsSide()
  {
    if d.Long? then Buy else Sell
  }

  function CloseSide(d: Direction): Side
    requires d.IsSide()
  {
    if d.Long? then Sell else Buy
  }

  function EntryTicket(o: Order, quantity: real): Ticket
    requires o.direction.IsSide()
  {
    Ticket(o.symbol, EntrySide(o.direction), Market, quantity, o.entry, false, Entry)
  }

  function TpTicket(o: Order, quantity: real): Ticket
    requires o.direction.IsSide() && o.takeProfit.Some?
  {
    Ticket(o.symbol, CloseSide(o.direction), TakeProfitMarket, quantity, o.takeProfit.value, true, TakeProfit)
  }

  function SlTicket(o: Order, quantity: real): Ticket
    requires o.direction.IsSide() && o.stopLoss.Some?
  {
    Ticket(o.symbol, CloseSide(o.direction), StopMarket, quantity, o.stopLoss.value, true, StopLoss)
  }

  function CloseTicket(o: Order, quantity: real): Ticket
    requires o.direction.IsSide()
  {
    Ticket(o.symbol, CloseSide(o.direction), Market, quantity, o.entry, true, EmergencyClose)
  }

  // ---------- The checks before an order ----------

  function Rejected(code: string): Outcome {
    Outcome(false, false, code, None, None, None, false, None, false)
  }

  function ApprovedOnPaper(): Outcome {
    Outcome(true, false, "", None, None, None, false, None, false)
  }

  /** The last checks on an approved request: the code of the first that fails. */
  function LocalSafety(req: Request, v: Validation, o: Order): Option<string> {
    if !v.approved then Some(v.code)
    else if req.validation.Some? && req.finalAction.None? then Some("FINAL_DECISION_MISSING")
    else if req.validation.Some? && req.candidate.None? then Some("CANDIDATE_MISSING")
    else if req.finalAction.Some? && !req.finalAction.value.IsSide() then Some("FINAL_DECISION_HOLD")
    else if !o.direction.IsSide() then Some("INVALID_DIRECTION")
    else if o.stopLoss.None? then Some("ORDER_003")
    else if o.takeProfit.None? then Some("TAKE_PROFIT_MISSING")
    else if v.quantity.None? || v.quantity.value <= 0.0 then Some("SIZING")
    else if v.leverage.None? || v.leverage.value <= 0 then Some("LEVERAGE")
    else None
  }

  function OrderOf(req: Request): Order {
    if req.validation.Some? && req.candidate.Some? then req.candidate.value else req.signal
  }

  function ValidationOf(setup: Setup, req: Request): Reply<Validation> {
    if req.validation.Some? then Answered(req.validation.value) else setup.validator
  }

  predicate Orderable(o: Order, v: Validation) {
    o.direction.IsSide() && o.takeProfit.Some? && o.stopLoss.Some? && v.quantity.Some?
  }

  // ---------- The protocol ----------

  function Place(answers: Answers, sent: seq<Sent>, t: Ticket): seq<Sent> {
    sent + [Sent(t, answers(sent, t))]
  }

  function LastFill(sent: seq<Sent>): Option<Fill>
    requires |sent| > 0
  {
    sent[|sent| - 1].fill
  }

  /** One try at what is still missing of the target and the stop: the target first, and no stop once the target
      has failed. */
  datatype Guards = Guards(sent: seq<Sent>, takeProfit: Option<Fill>, stopLoss: Option<Fill>)

  function TryGuards(answers: Answers, o: Order, quantity: real, g: Guards): Guards
    requires o.direction.IsSide() && o.takeProfit.Some? && o.stopLoss.Some?
  {
    var afterTp :=
      if g.takeProfit.Some? then g
      else
        var sent := Place(answers, g.sent, TpTicket(o, quantity));
        Guards(sent, LastFill(sent), g.stopLoss);
    if afterTp.takeProfit.None? || afterTp.stopLoss.Some? then afterTp
    else
      var sent := Place(answers, afterTp.sent, SlTicket(o, quantity));
      Guards(sent, afterTp.takeProfit, LastFill(sent))
  }

  predicate Complete(g: Guards) {
    g.takeProfit.Some? && g.stopLoss.Some?
  }

  /** After the entry was filled. */
  function Protect(answers: Answers, o: Order, quantity: real, entry: Fill, sent: seq<Sent>): (Outcome, seq<Sent>)
    requires o.direction.IsSide() && o.takeProfit.Some? && o.stopLoss.Some?
  {
    var first := TryGuards(answers, o, quantity, Guards(sent, None, None));
    var last := if Complete(first) then first else TryGuards(answers, o, quantity, first);
    if Complete(last) then
      (Outcome(true, true, "", Some(entry), last.takeProfit, last.stopLoss, false, None, false), last.sent)
    else
      var closed := Place(answers, last.sent, CloseTicket(o, entry.quantity));
      var fill := LastFill(closed);
      (Outcome(true, true, "", Some(entry), None, None, true, fill, fill.None?), closed)
  }

  function SendOrders(answers: Answers, o: Order, v: Validation, sent: seq<Sent>): (Outcome, seq<Sent>)
    requires Orderable(o, v)
  {
    var entered := Place(answers, sent, EntryTicket(o, v.quantity.value));
    if LastFill(entered).None? then (Rejected("SYSTEM_ERROR"), entered)
    else Protect(answers, o, v.quantity.value, LastFill(entered).value, entered)
  }

  /** What stops a live request at the safety gate. */
  function GateRefusal(gate: Option<Reply<GateDecision>>): Option<string> {
    if gate.None? then None
    else if gate.value.Raised? then Some("SYSTEM_ERROR")
    else if gate.value.value.allowed then None
    else
      var code := gate.value.value.code;
      Some(if code.Some? && code.value != "" then code.value else "SAFETY_GATE_BLOCKED")
  }

  function Execute(setup: Setup, req: Request, answers: Answers, sent: seq<Sent>): (Outcome, seq<Sent>) {
    var reply := ValidationOf(setup, req);
    if setup.live && req.fastExit then (Rejected("SHADOW_STRATEGY_FORBIDDEN"), sent)
    else if reply.Raised? then (Rejected("SYSTEM_ERROR"), sent)
    else
      var v, o := reply.value, OrderOf(req);
      var unsafe := LocalSafety(req, v, o);
      if unsafe.Some? then (Rejected(unsafe.value), sent)
      else if !setup.live then (ApprovedOnPaper(), sent)
      else
        var refusal := GateRefusal(setup.gate);
        if refusal.Some? then (Rejected(refusal.value), sent)
        else SendOrders(answers, o, v, sent)
  }
}
