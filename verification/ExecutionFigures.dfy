/** What an execution puts on the exchange, order by order, and what it reports when it puts nothing there. */
module ExecutionFigures {
  import opened Common
  import opened ExecutionModel
  import opened ExecutionSafety

  // ---------- What is decided on ----------

  /** The candidate of the deterministic flow, or the raw signal where no validation was supplied. */
  function Traded(req: Request): Order {
    match (req.validation, req.candidate)
    case (Some(_), Some(candidate)) => candidate
    case _ => req.signal
  }

  function Approval(setup: Setup, req: Request): Reply<Validation> {
    match req.validation
    case Some(v) => Answered(v)
    case None => setup.validator
  }

  /** What stops a request before its orders: the first of these obstacles, in the order in which the engine looks. */
  function Obstacle(setup: Setup, req: Request): Option<string> {
    var reply, o := Approval(setup, req), Traded(req);
    Or(When(setup.live && req.fastExit, "SHADOW_STRATEGY_FORBIDDEN"),
       if reply.Raised? then Some("SYSTEM_ERROR") else ObstacleIn(req, reply.value, o))
  }

  function ObstacleIn(req: Request, v: Validation, o: Order): Option<string> {
    var flow :=
      Or(When(!v.approved, v.code),
         Or(When(req.validation.Some? && req.finalAction.None?, "FINAL_DECISION_MISSING"),
            When(req.validation.Some? && req.candidate.None?, "CANDIDATE_MISSING")));
    var trade :=
      Or(When(req.finalAction == Some(Hold), "FINAL_DECISION_HOLD"),
         Or(When(o.direction.Hold?, "INVALID_DIRECTION"),
            Or(When(o.stopLoss.None?, "ORDER_003"), When(o.takeProfit.None?, "TAKE_PROFIT_MISSING"))));
    var size :=
      Or(When(v.quantity.None? || v.quantity.value <= 0.0, "SIZING"),
         When(v.leverage.None? || v.leverage.value <= 0, "LEVERAGE"));
    Or(flow, Or(trade, size))
  }

  /** What stops a live request after that: a gate that raises, or one that refuses, with its own code if it has one. */
  function ObstacleAtGate(gate: Option<Reply<GateDecision>>): Option<string> {
    match gate
    case None => None
    case Some(Raised) => Some("SYSTEM_ERROR")
    case Some(Answered(GateDecision(allowed, code))) =>
      When(!allowed, if code == None || code == Some("") then "SAFETY_GATE_BLOCKED" else code.value)
  }

  /** What a request that sends nothing reports. */
  predicate Refusal(r: Outcome, code: string) {
    && !r.approved && !r.executed && r.code == code
    && r.entry == r.takeProfit == r.stopLoss == r.close == None && !r.tpSlFailed && !r.closeFailed
  }

  /** Main result on refusals: a request is refused with the code of the first obstacle that it meets; one that meets
      none is approved on paper when the engine is not live, and sends its orders when it is and the safety gate lets
      it. */
  lemma RefusedByFirst(setup: Setup, req: Request, answers: Answers, sent: seq<Sent>)
    ensures var (r, after) := Execute(setup, req, answers, sent);
      var first, atGate := Obstacle(setup, req), ObstacleAtGate(setup.gate);
      && (first.Some? ==> Refusal(r, first.value) && after == sent)
      && (first.None? && !setup.live ==>
            r.approved && !r.executed && r.code == "" && r.entry.None? && after == sent)
      && (first.None? && setup.live && atGate.Some? ==> Refusal(r, atGate.value) && after == sent)
      && (first.None? && setup.live && atGate.None? ==> after != sent)
  {
    OrdersOnlyWhenCleared(setup, req, answers, sent);
    SendingIsCleared(setup, req, answers, sent);
    hide SendOrders;
  }

  // ---------- The orders ----------

  /** An order that closes what a position of a direction holds. */
  predicate Closes(t: Ticket, o: Order) {
    && t.symbol == o.symbol && t.reduceOnly
    && (o.direction.Long? ==> t.side.Sell?) && (o.direction.Short? ==> t.side.Buy?)
  }

  /** Main result on the orders, for every gateway.  What the exchange took for an executed call is one market entry on
      the side of the trade at the approved quantity; and either one target order at the target price and one stop
      order at the stop price, both for the approved quantity and on the other side, or one market close of the filled
      quantity on the other side, unless that close is reported as failed. */
  lemma OrdersOnTheExchange(setup: Setup, req: Request, answers: Answers, sent: seq<Sent>)
    ensures var (r, after) := Execute(setup, req, answers, sent);
      r.executed ==>
        && sent <= after && Approval(setup, req).Answered?
        && var o, v := Traded(req), Approval(setup, req).value;
           var news := New(sent, after);
           var entries, targets := Accepted(news, Entry), Accepted(news, TakeProfit);
           var stops, closes := Accepted(news, StopLoss), Accepted(news, EmergencyClose);
           && o.direction.IsSide()
           && |entries| == 1 && entries[0].orderType.Market? && !entries[0].reduceOnly
           && entries[0].symbol == o.symbol && (o.direction.Long? <==> entries[0].side.Buy?)
           && Some(entries[0].quantity) == v.quantity && entries[0].price == o.entry
           && (!r.tpSlFailed ==>
                 && |targets| == |stops| == 1 && closes == []
                 && Closes(targets[0], o) && targets[0].orderType.TakeProfitMarket?
                 && Some(targets[0].quantity) == v.quantity && Some(targets[0].price) == o.takeProfit
                 && Closes(stops[0], o) && stops[0].orderType.StopMarket?
                 && Some(stops[0].quantity) == v.quantity && Some(stops[0].price) == o.stopLoss)
           && (r.tpSlFailed ==> stops == [] && |closes| == if r.closeFailed then 0 else 1)
           && (r.tpSlFailed && !r.closeFailed ==>
                 Closes(closes[0], o) && closes[0].orderType.Market? && closes[0].price == o.entry
                 && closes[0].quantity == r.entry.value.quantity)
  {
    SendingIsCleared(setup, req, answers, sent);
    if Execute(setup, req, answers, sent).0.executed {
      PositionIsGuarded(setup, req, answers, sent);
      TallyParts(New(sent, Execute(setup, req, answers, sent).1));
      hide Execute, Accepted, TallyOf;
    }
  }

  /** The fills a call reports are the gateway's own answers to the orders it took. */
  ghost predicate Answer(news: seq<Sent>, p: Purpose, fill: Option<Fill>) {
    fill.Some? ==> exists k :: 0 <= k < |news| && news[k].ticket.purpose == p && news[k].fill == fill
  }

  lemma TryReports(answers: Answers, o: Order, quantity: real, before: seq<Sent>, g: Guards)
    requires o.direction.IsSide() && o.takeProfit.Some? && o.stopLoss.Some? && before <= g.sent
    requires Answer(New(before, g.sent), TakeProfit, g.takeProfit) && Answer(New(before, g.sent), StopLoss, g.stopLoss)
    ensures var h := TryGuards(answers, o, quantity, g);
      && g.sent <= h.sent
      && Answer(New(before, h.sent), TakeProfit, h.takeProfit) && Answer(New(before, h.sent), StopLoss, h.stopLoss)
  {
    var h := TryGuards(answers, o, quantity, g);
    var was, news := New(before, g.sent), New(before, h.sent);
    assert forall k :: 0 <= k < |was| ==> news[k] == was[k];
    if g.takeProfit.None? {
      assert news[|was|] == Sent(TpTicket(o, quantity), h.takeProfit);
    }
    if h.takeProfit.Some? && g.stopLoss.None? {
      assert news[|news| - 1] == Sent(SlTicket(o, quantity), h.stopLoss);
    }
  }

  /** Main result on reports: every fill in an outcome is the gateway's answer to an order of that purpose, and an
      executed call reports no refusal code. */
  lemma FillsAreAnswers(setup: Setup, req: Request, answers: Answers, sent: seq<Sent>)
    ensures var (r, after) := Execute(setup, req, answers, sent);
      && sent <= after
      && (var news := New(sent, after);
          && Answer(news, Entry, r.entry) && Answer(news, TakeProfit, r.takeProfit)
          && Answer(news, StopLoss, r.stopLoss) && Answer(news, EmergencyClose, r.close))
      && (r.executed ==> r.code == "")
      && (r.executed && !r.tpSlFailed ==> r.takeProfit.Some? && r.stopLoss.Some? && r.close.None?)
      && (r.tpSlFailed ==> r.takeProfit.None? && r.stopLoss.None? && (r.close.None? <==> r.closeFailed))
      && (Cleared(setup, req) && !r.executed ==> Refusal(r, "SYSTEM_ERROR"))
  {
    SendingIsCleared(setup, req, answers, sent);
    if Cleared(setup, req) {
      var o, quantity := OrderOf(req), ValidationOf(setup, req).value.quantity.value;
      var entered := Place(answers, sent, EntryTicket(o, quantity));
      assert New(sent, entered) == [Sent(EntryTicket(o, quantity), LastFill(entered))];
      hide TryGuards;
      if LastFill(entered).Some? {
        ProtectReports(answers, o, quantity, LastFill(entered).value, sent, entered);
      }
      hide Protect, Cleared;
    } else {
      RefusedByFirst(setup, req, answers, sent);
      hide SendOrders;
    }
  }

  lemma ProtectReports(answers: Answers, o: Order, quantity: real, fill: Fill, before: seq<Sent>, sent: seq<Sent>)
    requires o.direction.IsSide() && o.takeProfit.Some? && o.stopLoss.Some? && before <= sent
    requires Answer(New(before, sent), Entry, Some(fill))
    ensures var (r, after) := Protect(answers, o, quantity, fill, sent);
      && sent <= after && r.entry == Some(fill) && r.executed && r.code == ""
      && (var news := New(before, after);
          && Answer(news, Entry, r.entry) && Answer(news, TakeProfit, r.takeProfit)
          && Answer(news, StopLoss, r.stopLoss) && Answer(news, EmergencyClose, r.close))
      && (!r.tpSlFailed ==> r.takeProfit.Some? && r.stopLoss.Some? && r.close.None? && !r.closeFailed)
      && (r.tpSlFailed ==> r.takeProfit.None? && r.stopLoss.None? && (r.close.None? <==> r.closeFailed))
  {
    hide TryGuards;
    var start := Guards(sent, None, None);
    TryReports(answers, o, quantity, before, start);
    var first := TryGuards(answers, o, quantity, start);
    if !Complete(first) {
      TryReports(answers, o, quantity, before, first);
    }
    var after := Protect(answers, o, quantity, fill, sent).1;
    var was, news := New(before, sent), New(before, after);
    assert forall k :: 0 <= k < |was| ==> news[k] == was[k];
    var r := Protect(answers, o, quantity, fill, sent).0;
    if r.tpSlFailed {
      assert news[|news| - 1] == Sent(CloseTicket(o, fill.quantity), r.close);
    }
  }
}
