/** The execution engine as it runs against a gateway: `execute` of agents/execution/engine.py, whose exceptions are
    missing fills here. */
module ExecutionEngine {
  import opened Common
  import opened ExecutionModel

  class Gateway {
    const answers: Answers
    var sent: seq<Sent>

    constructor (answers: Answers)
      ensures this.answers == answers && sent == []
    {
      this.answers, sent := answers, [];
    }

    /** `None` stands for an exception: the order was not taken. */
    method PlaceOrder(t: Ticket) returns (fill: Option<Fill>)
      modifies this
      ensures sent == Place(answers, old(sent), t) && fill == LastFill(sent)
    {
      fill := answers(sent, t);
      sent := sent + [Sent(t, fill)];
    }
  }

  class Engine {
    const setup: Setup
    const gateway: Gateway

    constructor (setup: Setup, gateway: Gateway)
      ensures this.setup == setup && this.gateway == gateway
    {
      this.setup, this.gateway := setup, gateway;
    }

    method Execute(req: Request) returns (r: Outcome)
      modifies gateway
      ensures (r, gateway.sent) == ExecutionModel.Execute(setup, req, gateway.answers, old(gateway.sent))
    {
      hide SendOrders;
      if setup.live && req.fastExit {
        return Rejected("SHADOW_STRATEGY_FORBIDDEN");
      }
      var validation: Reply<Validation> := setup.validator;
      if req.validation.Some? {
        validation := Answered(req.validation.value);
      }
      if validation.Raised? {
        return Rejected("SYSTEM_ERROR");
      }
      var v, o := validation.value, OrderOf(req);
      if !v.approved {
        return Rejected(v.code);
      }
      var unsafe := LocalSafety(req, v, o);
      if unsafe.Some? {
        return Rejected(unsafe.value);
      }
      if !setup.live {
        return ApprovedOnPaper();
      }
      if setup.gate.Some? {
        if setup.gate.value.Raised? {
          return Rejected("SYSTEM_ERROR");
        }
        var decision := setup.gate.value.value;
        if !decision.allowed {
          return Rejected(if decision.code.Some? && decision.code.value != "" then decision.code.value
                          else "SAFETY_GATE_BLOCKED");
        }
      }
      r := PlaceAll(o, v);
    }

    /** Entry, target and stop, then one retry of what is missing, then the emergency close. */
    method PlaceAll(o: Order, v: Validation) returns (r: Outcome)
      requires Orderable(o, v)
      modifies gateway
      ensures (r, gateway.sent) == SendOrders(gateway.answers, o, v, old(gateway.sent))
    {
      var quantity := v.quantity.value;
      var entry := gateway.PlaceOrder(EntryTicket(o, quantity));
      if entry.None? {
        return Rejected("SYSTEM_ERROR");
      }
      ghost var start := Guards(gateway.sent, None, None);
      var tp: Option<Fill>, sl: Option<Fill>, tpSlFailed := None, None, false;
      tp := gateway.PlaceOrder(TpTicket(o, quantity));
      if tp.Some? {
        sl := gateway.PlaceOrder(SlTicket(o, quantity));
      }
      tpSlFailed := tp.None? || sl.None?;
      ghost var first := TryGuards(gateway.answers, o, quantity, start);
      assert Guards(gateway.sent, tp, sl) == first;
      if tpSlFailed {
        if tp.None? {
          tp := gateway.PlaceOrder(TpTicket(o, quantity));
        }
        if tp.Some? && sl.None? {
          sl := gateway.PlaceOrder(SlTicket(o, quantity));
        }
        assert Guards(gateway.sent, tp, sl) == TryGuards(gateway.answers, o, quantity, first);
        tpSlFailed := tp.None? || sl.None?;
        if tpSlFailed {
          var close := gateway.PlaceOrder(CloseTicket(o, entry.value.quantity));
          return Outcome(true, true, "", entry, None, None, true, close, close.None?);
        }
      }
      r := Outcome(true, true, "", entry, tp, sl, false, None, false);
    }
  }
}
