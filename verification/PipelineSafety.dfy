/** What every run of the pipeline keeps: its log, its gates, and how little a review can do. */
module PipelineSafety {
  import opened Common
  import opened PipelineModel
  import E = ExecutionModel
  import ExecutionSafety

  // ---------- Attempts ----------

  /** An agent is tried until the first attempt that gives something, at most `total` times. */
  lemma {:induction false} FirstGoodIsFirst<T>(attempts: nat -> Option<T>, total: nat)
    ensures var first := FirstGood(attempts, total);
      && (first.Some? ==> 1 <= first.value <= total && attempts(first.value).Some?
                          && forall k: nat :: 1 <= k < first.value ==> attempts(k).None?)
      && (first.None? ==> forall k: nat :: 1 <= k <= total ==> attempts(k).None?)
  {
    if total > 0 {
      FirstGoodIsFirst(attempts, total - 1);
    }
  }

  /** A step succeeds exactly when one of its attempts does, and then with the first good attempt and its output;
      it never makes more than its retries plus one. */
  lemma StepIsFirstGood<T>(name: string, attempts: nat -> Option<T>)
    ensures var ran := RunStep(name, attempts);
      && ran.record.name == name && 1 <= ran.record.attempt <= Retries(name) + 1
      && (ran.record.status == Success <==> exists k: nat :: 1 <= k <= Retries(name) + 1 && attempts(k).Some?)
      && (ran.record.status == Success <==> ran.output.Some?)
      && (ran.output.Some? ==> ran.output == attempts(ran.record.attempt))
      && (forall k: nat :: 1 <= k < ran.record.attempt ==> attempts(k).None?)
  {
    FirstGoodIsFirst(attempts, Retries(name) + 1);
  }

  // ---------- Who is asked how often ----------

  lemma {:induction false} SameFirst<T>(f: nat -> Option<T>, g: nat -> Option<T>, total: nat)
    requires forall k: nat :: 1 <= k <= total ==> f(k) == g(k)
    ensures FirstGood(f, total) == FirstGood(g, total)
  {
    if total > 0 {
      SameFirst(f, g, total - 1);
    }
  }

  lemma SameStep<T>(name: string, f: nat -> Option<T>, g: nat -> Option<T>)
    requires forall k: nat :: 1 <= k <= Retries(name) + 1 ==> f(k) == g(k)
    ensures RunStep(name, f) == RunStep(name, g)
  {
    SameFirst(f, g, Retries(name) + 1);
    FirstGoodIsFirst(f, Retries(name) + 1);
  }

  /** The two give the same answers when the decision and every gate are asked once, the technical and the strategy
      agent and the reviewer twice, and the market data three times. */
  ghost predicate SameAnswers(a: Agents, b: Agents) {
    && (forall n: nat :: 1 <= n <= 3 ==> a.marketData(n) == b.marketData(n))
    && (forall n: nat, s: Data :: 1 <= n <= 2 ==> a.technical(s, n) == b.technical(s, n))
    && (forall n: nat, s: Data, t: Data :: 1 <= n <= 2 ==> a.strategy(s, t, n) == b.strategy(s, t, n))
    && (forall s: Data, t: Data, g: Data :: a.decide(s, t, g, 1) == b.decide(s, t, g, 1))
    && (forall n: nat, d: Decision :: 1 <= n <= 2 ==> a.reviewer(d, n) == b.reviewer(d, n))
    && (forall c: Candidate, d: Decision, s: Data :: a.risk(c, d, s, 1) == b.risk(c, d, s, 1))
    && (forall x: real :: a.portfolio(x, 1) == b.portfolio(x, 1))
    && (forall o: E.Order, r: RiskResult :: a.positionManager(o, r, 1) == b.positionManager(o, r, 1))
    && a.setup == b.setup && a.answers == b.answers
  }

  lemma SamePlace(a: Agents, b: Agents, c: Candidate, final: Direction, risk: RiskResult, log: seq<StepRecord>)
    requires SameAnswers(a, b)
    ensures Place(a, c, final, risk, log) == Place(b, c, final, risk, log)
  {
    hide E.Execute, RunStep, Stop;
    SameStep("portfolio", (n: nat) => a.portfolio(NewRisk(risk), n), (n: nat) => b.portfolio(NewRisk(risk), n));
    SameStep("position_manager", (n: nat) => a.positionManager(c.order, risk, n),
             (n: nat) => b.positionManager(c.order, risk, n));
  }

  lemma SameGates(a: Agents, b: Agents, config: DecisionConfig, snapshot: Data, decision: Decision, c: Candidate,
                  review: Review, log: seq<StepRecord>)
    requires SameAnswers(a, b)
    ensures Gates(a, config, snapshot, decision, c, review, log) == Gates(b, config, snapshot, decision, c, review, log)
  {
    hide RunStep, Stop, Place, DecideFinalAction;
    var s6 := RunStep("risk", (n: nat) => a.risk(c, decision, snapshot, n));
    SameStep("risk", (n: nat) => a.risk(c, decision, snapshot, n), (n: nat) => b.risk(c, decision, snapshot, n));
    if s6.output.Some? {
      var risk := s6.output.value;
      var s7 := RunStep("final_decision",
                        (n: nat) => Some(DecideFinalAction(Some(c), Some(review), Some(risk), config)));
      if s7.output.Some? {
        SamePlace(a, b, c, s7.output.value, risk, log + [s6.record] + [s7.record]);
      }
    }
  }

  lemma SameReview(a: Agents, b: Agents, config: DecisionConfig, snapshot: Data, decision: Decision, c: Candidate,
                   log: seq<StepRecord>)
    requires SameAnswers(a, b)
    ensures ReviewCandidate(a, config, snapshot, decision, c, log)
      == ReviewCandidate(b, config, snapshot, decision, c, log)
  {
    hide RunStep, Stop, Gates, WithSkipped;
    var s5 := RunStep("ai_review", (n: nat) => a.reviewer(decision, n));
    SameStep("ai_review", (n: nat) => a.reviewer(decision, n), (n: nat) => b.reviewer(decision, n));
    SameGates(a, b, config, snapshot, decision, c, NO_REVIEW, WithSkipped(log, ["ai_review"]));
    if s5.output.Some? {
      SameGates(a, b, config, snapshot, decision, c, s5.output.value, log + [s5.record]);
    }
  }

  /** Main result on attempts: no gate has a second chance.  What the decision, the risk engine, the portfolio or the
      position manager would say when asked again, and what the others would say beyond their retries, changes nothing
      in the whole run, its log and its orders included. */
  lemma GatesAreAskedOnce(a: Agents, b: Agents, config: DecisionConfig)
    requires SameAnswers(a, b)
    ensures Run(a, config) == Run(b, config)
  {
    hide RunStep, Stop, ReviewCandidate;
    var s1 := RunStep("market_data", a.marketData);
    SameStep("market_data", a.marketData, b.marketData);
    if s1.output.Some? {
      var snapshot := s1.output.value;
      var s2 := RunStep("technical", (n: nat) => a.technical(snapshot, n));
      SameStep("technical", (n: nat) => a.technical(snapshot, n), (n: nat) => b.technical(snapshot, n));
      var technical := if s2.output.Some? then s2.output.value else NEUTRAL_TECHNICAL;
      var s3 := RunStep("strategy", (n: nat) => a.strategy(snapshot, technical, n));
      SameStep("strategy", (n: nat) => a.strategy(snapshot, technical, n),
               (n: nat) => b.strategy(snapshot, technical, n));
      var strategy := if s3.output.Some? then s3.output.value else NEUTRAL_STRATEGY;
      var s4 := RunStep("decision", (n: nat) => a.decide(snapshot, technical, strategy, n));
      SameStep("decision", (n: nat) => a.decide(snapshot, technical, strategy, n),
               (n: nat) => b.decide(snapshot, technical, strategy, n));
      if s4.output.Some? && s4.output.value.candidate.Some? {
        SameReview(a, b, config, snapshot, s4.output.value, s4.output.value.candidate.value,
                   [s1.record, s2.record, s3.record, s4.record]);
      }
    }
  }

  // ---------- The log ----------

  function Names(log: seq<StepRecord>): (names: seq<string>)
    ensures |names| == |log| && forall k :: 0 <= k < |log| ==> names[k] == log[k].name
  {
    seq(|log|, i requires 0 <= i < |log| => log[i].name)
  }

  lemma {:induction false} SkippedNames(log: seq<StepRecord>, names: seq<string>)
    requires forall k :: 0 <= k < |names| ==> !Recorded(log, names[k])
    ensures Names(WithSkipped(log, names)) == Names(log) + names
  {
    if |names| > 0 {
      SkippedNames(log, names[..|names| - 1]);
    }
  }

  lemma StepNamesDiffer()
    ensures forall i, j :: 0 <= i < j < |STEP_NAMES| ==> STEP_NAMES[i] != STEP_NAMES[j]
  {
    assert "strategy"[0] != "decision"[0];
    assert "technical"[0] != "ai_review"[0] && "technical"[0] != "portfolio"[0] && "technical"[0] != "execution"[0];
    assert "ai_review"[0] != "portfolio"[0] && "ai_review"[0] != "execution"[0] && "portfolio"[0] != "execution"[0];
  }

  /** A log that names the first steps is completed to the ten names. */
  lemma StopNames(status: PipelineStatus, log: seq<StepRecord>, next: nat)
    requires next <= |STEP_NAMES| && Names(log) == STEP_NAMES[..next]
    ensures Names(Stop(status, log, next).steps) == STEP_NAMES
  {
    StepNamesDiffer();
    assert forall i :: 0 <= i < |log| ==> log[i].name == Names(log)[i] == STEP_NAMES[i];
    assert forall k :: 0 <= k < |STEP_NAMES[next..]| ==> !Recorded(log, STEP_NAMES[next..][k]);
    SkippedNames(log, STEP_NAMES[next..]);
  }

  lemma PlaceNames(a: Agents, c: Candidate, final: Direction, risk: RiskResult, log: seq<StepRecord>)
    requires Names(log) == STEP_NAMES[..7]
    ensures Names(Place(a, c, final, risk, log).steps) == STEP_NAMES
  {
    hide Stop, FirstGood, Names, E.Execute;
    var log8 := log + [RunStep("portfolio", (n: nat) => a.portfolio(NewRisk(risk), n)).record];
    var log9 := log8 + [RunStep("position_manager", (n: nat) => a.positionManager(c.order, risk, n)).record];
    assert Names(log8) == STEP_NAMES[..8];
    assert Names(log9) == STEP_NAMES[..9];
    StopNames(Rejected, log8, 8);
    StopNames(Broken, log9, 9);
  }

  lemma GatesNames(a: Agents, config: DecisionConfig, snapshot: Data, decision: Decision, c: Candidate,
                   review: Review, log: seq<StepRecord>)
    requires Names(log) == STEP_NAMES[..5]
    ensures Names(Gates(a, config, snapshot, decision, c, review, log).steps) == STEP_NAMES
  {
    hide Stop, FirstGood, Names, DecideFinalAction, Place;
    var s6 := RunStep("risk", (n: nat) => a.risk(c, decision, snapshot, n));
    var log6 := log + [s6.record];
    assert Names(log6) == STEP_NAMES[..6];
    StopNames(OnHold, log6, 6);
    if s6.output.Some? && s6.output.value.validation.approved {
      var risk := s6.output.value;
      var s7 := RunStep("final_decision",
                        (n: nat) => Some(DecideFinalAction(Some(c), Some(review), Some(risk), config)));
      var log7 := log6 + [s7.record];
      assert Names(log7) == STEP_NAMES[..7];
      StopNames(OnHold, log7, 7);
      if s7.output.Some? {
        PlaceNames(a, c, s7.output.value, risk, log7);
      }
    }
  }

  lemma ReviewNames(a: Agents, config: DecisionConfig, snapshot: Data, decision: Decision, c: Candidate,
                    log: seq<StepRecord>)
    requires Names(log) == STEP_NAMES[..4]
    ensures Names(ReviewCandidate(a, config, snapshot, decision, c, log).steps) == STEP_NAMES
  {
    hide Stop, FirstGood, Names, Gates, WithSkipped;
    if config.reviewRequired {
      var s5 := RunStep("ai_review", (n: nat) => a.reviewer(decision, n));
      var log5 := log + [s5.record];
      assert Names(log5) == STEP_NAMES[..5];
      StopNames(OnHold, log5, 5);
      if s5.output.Some? {
        GatesNames(a, config, snapshot, decision, c, s5.output.value, log5);
      }
    } else {
      StepNamesDiffer();
      assert STEP_NAMES[4] == "ai_review";
      assert forall i :: 0 <= i < |log| ==> log[i].name == Names(log)[i] == STEP_NAMES[i];
      SkippedNames(log, ["ai_review"]);
      GatesNames(a, config, snapshot, decision, c, NO_REVIEW, WithSkipped(log, ["ai_review"]));
    }
  }

  /** Main result on the log: every run logs the ten steps by name, in order, each once. */
  lemma StepsAreTheTen(a: Agents, config: DecisionConfig)
    ensures Names(Run(a, config).steps) == STEP_NAMES
  {
    hide Stop, FirstGood, Names, ReviewCandidate;
    var s1 := RunStep("market_data", a.marketData);
    assert Names([s1.record]) == STEP_NAMES[..1];
    StopNames(Broken, [s1.record], 1);
    if s1.output.Some? {
      var snapshot := s1.output.value;
      var s2 := RunStep("technical", (n: nat) => a.technical(snapshot, n));
      var technical := if s2.output.Some? then s2.output.value else NEUTRAL_TECHNICAL;
      var s3 := RunStep("strategy", (n: nat) => a.strategy(snapshot, technical, n));
      var strategy := if s3.output.Some? then s3.output.value else NEUTRAL_STRATEGY;
      var s4 := RunStep("decision", (n: nat) => a.decide(snapshot, technical, strategy, n));
      var log := [s1.record, s2.record, s3.record, s4.record];
      assert Names(log) == STEP_NAMES[..4];
      StopNames(OnHold, log, 4);
      if s4.output.Some? && s4.output.value.candidate.Some? {
        ReviewNames(a, config, snapshot, s4.output.value, s4.output.value.candidate.value, log);
      }
    }
  }

  // ---------- The final decision ----------

  /** The final action is the candidate's own, exactly when nothing speaks against it, and HOLD otherwise: it is never
      the other side, and a missing part never lets a trade through. */
  lemma FinalActionIsTheCandidates(candidate: Option<Candidate>, review: Option<Review>, risk: Option<RiskResult>,
                                   config: DecisionConfig)
    ensures var final := DecideFinalAction(candidate, review, risk, config);
      && (final.IsSide() <==>
            && candidate.Some? && candidate.value.order.direction.IsSide() && !candidate.value.unknownStrategy
            && risk.Some? && risk.value.validation.approved
            && review.Some? && !review.value.reject && !(review.value.critical && config.rejectOnCritical)
            && config.minConfidence <= review.value.confidence
            && candidate.value.expectedNetProfit.Some?
            && MinNetProfit(candidate.value, config) < candidate.value.expectedNetProfit.value)
      && (final.IsSide() ==> final == candidate.value.order.direction)
      && (!final.IsSide() ==> final == Hold)
  {
  }

  // ---------- The gates ----------

  function SnapshotOf(a: Agents): Option<Data> {
    RunStep("market_data", a.marketData).output
  }

  /** The decision on what the first three agents gave, or on the neutral values of those that failed. */
  function DecisionOf(a: Agents, snapshot: Data): Option<Decision> {
    var s2 := RunStep("technical", (n: nat) => a.technical(snapshot, n));
    var technical := if s2.output.Some? then s2.output.value else NEUTRAL_TECHNICAL;
    var s3 := RunStep("strategy", (n: nat) => a.strategy(snapshot, technical, n));
    var strategy := if s3.output.Some? then s3.output.value else NEUTRAL_STRATEGY;
    RunStep("decision", (n: nat) => a.decide(snapshot, technical, strategy, n)).output
  }

  function ReviewOf(a: Agents, config: DecisionConfig, decision: Decision): Option<Review> {
    if config.reviewRequired then RunStep("ai_review", (n: nat) => a.reviewer(decision, n)).output
    else Some(NO_REVIEW)
  }

  function RiskOf(a: Agents, snapshot: Data, decision: Decision, c: Candidate): Option<RiskResult> {
    RunStep("risk", (n: nat) => a.risk(c, decision, snapshot, n)).output
  }

  /** The portfolio agrees and the position manager opens. */
  predicate Placed(a: Agents, c: Candidate, risk: RiskResult) {
    && RunStep("portfolio", (n: nat) => a.portfolio(NewRisk(risk), n)).output == Some(true)
    && RunStep("position_manager", (n: nat) => a.positionManager(c.order, risk, n)).output.Some?
  }

  /** Everything a run needs before it executes. */
  ghost predicate Ready(a: Agents, config: DecisionConfig, snapshot: Data, decision: Decision, review: Review) {
    && decision.candidate.Some?
    && var c := decision.candidate.value;
       var risk := RiskOf(a, snapshot, decision, c);
       && risk.Some? && risk.value.validation.approved
       && DecideFinalAction(Some(c), Some(review), risk, config) == c.order.direction != Hold
       && Placed(a, c, risk.value)
  }

  ghost predicate ExecutionReached(a: Agents, config: DecisionConfig) {
    && SnapshotOf(a).Some?
    && var snapshot := SnapshotOf(a).value;
       && DecisionOf(a, snapshot).Some?
       && var decision := DecisionOf(a, snapshot).value;
          && ReviewOf(a, config, decision).Some?
          && !ReviewOf(a, config, decision).value.reject
          && Ready(a, config, snapshot, decision, ReviewOf(a, config, decision).value)
  }

  lemma PlaceGate(a: Agents, c: Candidate, final: Direction, risk: RiskResult, log: seq<StepRecord>)
    ensures var r := Place(a, c, final, risk, log);
      if Placed(a, c, risk) then
        var (outcome, sent) := E.Execute(a.setup, RequestFor(c, final, risk), a.answers, []);
        r.execution == Some(outcome) && r.sent == sent
        && r.status == (if outcome.closeFailed then Broken
                        else if outcome.tpSlFailed then EmergencyClosed else Completed)
      else r.execution.None? && r.sent == [] && (r.status == Rejected || r.status == Broken)
  {
    hide FirstGood, WithSkipped, E.Execute;
  }

  lemma GatesGate(a: Agents, config: DecisionConfig, snapshot: Data, decision: Decision, c: Candidate, review: Review,
                  log: seq<StepRecord>)
    requires decision.candidate == Some(c)
    ensures var r := Gates(a, config, snapshot, decision, c, review, log);
      if Ready(a, config, snapshot, decision, review) then
        var risk := RiskOf(a, snapshot, decision, c).value;
        var (outcome, sent) := E.Execute(a.setup, RequestFor(c, c.order.direction, risk), a.answers, []);
        r.execution == Some(outcome) && r.sent == sent
        && r.status == (if outcome.closeFailed then Broken
                        else if outcome.tpSlFailed then EmergencyClosed else Completed)
      else r.execution.None? && r.sent == [] && r.status in [OnHold, Rejected, Broken]
  {
    hide WithSkipped, E.Execute, Place, Placed, MinNetProfit;
    var risk := RiskOf(a, snapshot, decision, c);
    if risk.Some? && risk.value.validation.approved {
      var final := DecideFinalAction(Some(c), Some(review), risk, config);
      FinalActionIsTheCandidates(Some(c), Some(review), risk, config);
      FirstTry("final_decision", final);
      PlaceGate(a, c, final, risk.value,
                log + [RunStep("risk", (n: nat) => a.risk(c, decision, snapshot, n)).record]
                + [RunStep("final_decision",
                           (n: nat) => Some(DecideFinalAction(Some(c), Some(review), risk, config))).record]);
    }
  }

  lemma FirstTry(name: string, value: Direction)
    ensures RunStep(name, (n: nat) => Some(value)).output == Some(value)
  {
  }

  /** The request a run that reaches its execution makes. */
  ghost function RequestOf(a: Agents, config: DecisionConfig): E.Request
    requires ExecutionReached(a, config)
  {
    var snapshot := SnapshotOf(a).value;
    var decision := DecisionOf(a, snapshot).value;
    var c := decision.candidate.value;
    RequestFor(c, c.order.direction, RiskOf(a, snapshot, decision, c).value)
  }

  lemma ReviewGate(a: Agents, config: DecisionConfig, snapshot: Data, decision: Decision, c: Candidate,
                   log: seq<StepRecord>)
    requires decision.candidate == Some(c)
    ensures var r := ReviewCandidate(a, config, snapshot, decision, c, log);
      var review := ReviewOf(a, config, decision);
      if review.Some? && !review.value.reject && Ready(a, config, snapshot, decision, review.value) then
        var risk := RiskOf(a, snapshot, decision, c).value;
        var (outcome, sent) := E.Execute(a.setup, RequestFor(c, c.order.direction, risk), a.answers, []);
        r.execution == Some(outcome) && r.sent == sent
        && r.status == (if outcome.closeFailed then Broken
                        else if outcome.tpSlFailed then EmergencyClosed else Completed)
      else r.execution.None? && r.sent == [] && r.status in [OnHold, Rejected, Broken]
  {
    hide WithSkipped, E.Execute, Gates, Ready, FirstGood;
    if !config.reviewRequired {
      GatesGate(a, config, snapshot, decision, c, NO_REVIEW, WithSkipped(log, ["ai_review"]));
    } else {
      var s5 := RunStep("ai_review", (n: nat) => a.reviewer(decision, n));
      if s5.output.Some? {
        GatesGate(a, config, snapshot, decision, c, s5.output.value, log + [s5.record]);
      }
    }
  }

  /** Main result on the gates: a run executes exactly when it reached its execution: every critical agent gave
      something at its first good attempt, the review did not veto, risk approved, the final action is the
      candidate's side and the portfolio agreed.  A run that does not, sends nothing; one that does, makes the
      request built from the candidate alone, and its status tells how the protocol ended. */
  lemma ExecutesOnlyThroughGates(a: Agents, config: DecisionConfig)
    ensures var r := Run(a, config);
      if ExecutionReached(a, config) then
        var (outcome, sent) := E.Execute(a.setup, RequestOf(a, config), a.answers, []);
        r.execution == Some(outcome) && r.sent == sent
        && r.status == (if outcome.closeFailed then Broken
                        else if outcome.tpSlFailed then EmergencyClosed else Completed)
      else r.execution.None? && r.sent == [] && r.status in [OnHold, Rejected, Broken]
  {
    hide WithSkipped, E.Execute, ReviewCandidate, ReviewOf, Ready, FirstGood;
    var s1 := RunStep("market_data", a.marketData);
    if s1.output.Some? {
      var snapshot := s1.output.value;
      var s2 := RunStep("technical", (n: nat) => a.technical(snapshot, n));
      var technical := if s2.output.Some? then s2.output.value else NEUTRAL_TECHNICAL;
      var s3 := RunStep("strategy", (n: nat) => a.strategy(snapshot, technical, n));
      var strategy := if s3.output.Some? then s3.output.value else NEUTRAL_STRATEGY;
      var s4 := RunStep("decision", (n: nat) => a.decide(snapshot, technical, strategy, n));
      var log := [s1.record, s2.record, s3.record, s4.record];
      if s4.output.Some? && s4.output.value.candidate.Some? {
        ReviewGate(a, config, snapshot, s4.output.value, s4.output.value.candidate.value, log);
      }
      if s4.output.Some? {
        HoldIsNotReady(a, config, snapshot, s4.output.value);
      }
    }
  }

  lemma HoldIsNotReady(a: Agents, config: DecisionConfig, snapshot: Data, decision: Decision)
    ensures decision.candidate.None? || decision.candidate.value.order.direction.Hold? ==>
              forall review :: !Ready(a, config, snapshot, decision, review)
  {
  }

  // ---------- What a status says about the orders ----------

  /** What the exchange took in a run. */
  function Taken(r: PipelineResult, p: E.Purpose): seq<E.Ticket> {
    ExecutionSafety.Accepted(r.sent, p)
  }

  predicate Traded(r: PipelineResult) {
    r.execution.Some? && r.execution.value.executed
  }

  /** Main result on statuses: without an execution nothing was sent; a completed run either took nothing, or holds a
      position with one target and one stop; an emergency-closed run took exactly one close and no stop; and a broken
      run that took an entry left a position that nothing protects. */
  lemma StatusTellsProtection(a: Agents, config: DecisionConfig)
    ensures var r := Run(a, config);
      && (r.status == OnHold || r.status == Rejected ==> r.sent == [])
      && (r.status == Completed ==>
            if Traded(r) then
              |Taken(r, E.Entry)| == |Taken(r, E.TakeProfit)| == |Taken(r, E.StopLoss)| == 1
              && Taken(r, E.EmergencyClose) == []
            else
              Taken(r, E.Entry) == Taken(r, E.TakeProfit) == Taken(r, E.StopLoss) == Taken(r, E.EmergencyClose) == [])
      && (r.status == EmergencyClosed ==>
            |Taken(r, E.Entry)| == |Taken(r, E.EmergencyClose)| == 1 && Taken(r, E.StopLoss) == [])
      && (r.status == Broken && r.sent != [] ==>
            |Taken(r, E.Entry)| == 1 && Taken(r, E.StopLoss) == Taken(r, E.EmergencyClose) == [])
      && |r.sent| <= 5
  {
    hide ExecutionReached, E.Execute, Run, RequestOf;
    ExecutesOnlyThroughGates(a, config);
    if ExecutionReached(a, config) {
      OutcomeTellsProtection(a.setup, RequestOf(a, config), a.answers);
    }
  }

  lemma OutcomeTellsProtection(setup: E.Setup, req: E.Request, answers: E.Answers)
    ensures var (r, sent) := E.Execute(setup, req, answers, []);
      && (r.executed && !r.tpSlFailed ==>
            |ExecutionSafety.Accepted(sent, E.Entry)| == |ExecutionSafety.Accepted(sent, E.TakeProfit)|
            == |ExecutionSafety.Accepted(sent, E.StopLoss)| == 1
            && ExecutionSafety.Accepted(sent, E.EmergencyClose) == [])
      && (!r.executed ==> !r.tpSlFailed && !r.closeFailed && forall p :: ExecutionSafety.Accepted(sent, p) == [])
      && (r.tpSlFailed ==>
            |ExecutionSafety.Accepted(sent, E.Entry)| == 1 && ExecutionSafety.Accepted(sent, E.StopLoss) == []
            && |ExecutionSafety.Accepted(sent, E.EmergencyClose)| == if r.closeFailed then 0 else 1)
      && (r.closeFailed ==> r.tpSlFailed)
      && |sent| <= 5
  {
    ExecutionSafety.SendingIsCleared(setup, req, answers, []);
    NothingSentNothingFailed(setup, req, answers);
    if ExecutionSafety.Cleared(setup, req) {
      ExecutionSafety.PositionIsGuarded(setup, req, answers, []);
      var (r, sent) := E.Execute(setup, req, answers, []);
      assert ExecutionSafety.New([], sent) == sent;
      ExecutionSafety.TallyParts(sent);
      hide E.Execute, E.SendOrders, ExecutionSafety.Cleared, ExecutionSafety.Accepted, ExecutionSafety.TallyOf,
        E.OrderOf, E.ValidationOf, E.TpTicket, E.SlTicket, E.CloseTicket, E.EntryTicket;
    }
  }

  lemma NothingSentNothingFailed(setup: E.Setup, req: E.Request, answers: E.Answers)
    ensures var (r, sent) := E.Execute(setup, req, answers, []);
      && (!r.executed ==> !r.tpSlFailed && !r.closeFailed)
      && (!ExecutionSafety.Cleared(setup, req) ==> sent == [])
  {
    hide E.TryGuards, E.Place;
    ExecutionSafety.SendingIsCleared(setup, req, answers, []);
    hide ExecutionSafety.Cleared;
  }

  /** A completed run need not have traded: what the safety gate refuses still ends as completed. */
  lemma RefusedIsCompleted(a: Agents, config: DecisionConfig)
    requires ExecutionReached(a, config) && a.setup.live && E.GateRefusal(a.setup.gate).Some?
    ensures var r := Run(a, config);
      r.status == Completed && r.sent == [] && !Traded(r)
  {
    hide ExecutionReached, Run, RequestOf;
    ExecutesOnlyThroughGates(a, config);
  }

  /** Main result on completed runs: a run that reached its execution ends as completed without a trade exactly when
      something before its entry order stopped it, or the gateway refused that order. */
  lemma CompletedUntraded(a: Agents, config: DecisionConfig)
    requires ExecutionReached(a, config)
    ensures var r := Run(a, config);
      var req := RequestOf(a, config);
      && r.status == Completed && !Traded(r)
      <==> (ExecutionSafety.Cleared(a.setup, req) ==>
              a.answers([], E.EntryTicket(E.OrderOf(req), req.validation.value.quantity.value)).None?)
  {
    ExecutesOnlyThroughGates(a, config);
    UntradedOutcome(a.setup, RequestOf(a, config), a.answers);
    hide ExecutionReached, Run, RequestOf, E.Execute;
  }

  lemma UntradedOutcome(setup: E.Setup, req: E.Request, answers: E.Answers)
    requires req.validation.Some?
    ensures var r := E.Execute(setup, req, answers, []).0;
      && (!r.executed ==> !r.tpSlFailed && !r.closeFailed)
      && (!r.executed
          <==> (ExecutionSafety.Cleared(setup, req) ==>
                  answers([], E.EntryTicket(E.OrderOf(req), req.validation.value.quantity.value)).None?))
  {
    NothingSentNothingFailed(setup, req, answers);
    ExecutionSafety.SendingIsCleared(setup, req, answers, []);
    hide E.TryGuards;
  }

  // ---------- A review can only veto ----------

  /** Main result on information: two runs that differ in the reviewer alone send the same orders, or one of them
      sends none. */
  lemma ReviewerCannotSteer(a: Agents, other: (Decision, nat) -> Option<Review>, config: DecisionConfig)
    ensures var r, s := Run(a, config), Run(a.(reviewer := other), config);
      (r.sent == s.sent && r.execution == s.execution && r.status == s.status)
      || (r.sent == [] && r.execution.None?) || (s.sent == [] && s.execution.None?)
  {
    hide E.Execute, Run, DecideFinalAction, FirstGood;
    ExecutesOnlyThroughGates(a, config);
    ExecutesOnlyThroughGates(a.(reviewer := other), config);
  }

  /** A reviewed run sends what the run without a review would send, or nothing. */
  lemma ReviewOnlyVetoes(a: Agents, config: DecisionConfig)
    requires config.minConfidence <= 1.0
    ensures var r, unreviewed := Run(a, config), Run(a, config.(reviewRequired := false));
      r.execution.Some? ==> r.sent == unreviewed.sent && r.execution == unreviewed.execution
  {
    hide E.Execute, Run, FirstGood;
    ExecutesOnlyThroughGates(a, config);
    ExecutesOnlyThroughGates(a, config.(reviewRequired := false));
  }
}
