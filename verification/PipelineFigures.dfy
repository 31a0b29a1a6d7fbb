/** What a run of the pipeline asks of whom, answer by answer, before it executes, and what it requests then. */
module PipelineFigures {
  import opened Common
  import opened PipelineModel
  import opened PipelineSafety
  import E = ExecutionModel

  /** The first answer of an agent that may be asked a number of times. */
  ghost predicate Answers<T>(attempts: nat -> Option<T>, times: nat, answer: Option<T>) {
    if answer.Some? then
      exists k: nat :: 1 <= k <= times && attempts(k) == answer && forall j: nat :: 1 <= j < k ==> attempts(j).None?
    else forall j: nat :: 1 <= j <= times ==> attempts(j).None?
  }

  lemma StepAnswers<T>(name: string, attempts: nat -> Option<T>, times: nat)
    requires times == Retries(name) + 1
    ensures Answers(attempts, times, RunStep(name, attempts).output)
  {
    StepIsFirstGood(name, attempts);
    var ran := RunStep(name, attempts);
    assert attempts(ran.record.attempt) == ran.output || ran.output.None?;
  }

  /** One answer is the only one. */
  lemma AnswersOnce<T>(attempts: nat -> Option<T>, answer: Option<T>)
    requires Answers(attempts, 1, answer)
    ensures attempts(1) == answer
  {
  }

  /** The gain a candidate has to promise: what is set outright, or else a share of its notional. */
  predicate Promising(c: Candidate, config: DecisionConfig) {
    && c.expectedNetProfit.Some?
    && match config.minNetProfit
       case Some(least) => least < c.expectedNetProfit.value
       case None => c.notional * config.minNetProfitPct < c.expectedNetProfit.value
  }

  /** What the analysis gives to the decision; an agent that fails is replaced by its neutral answer. */
  ghost predicate Analysed(a: Agents, snapshot: Data, technical: Data, strategy: Data) {
    && Answers(a.marketData, 3, Some(snapshot))
    && (Answers((n: nat) => a.technical(snapshot, n), 2, Some(technical))
        || (Answers((n: nat) => a.technical(snapshot, n), 2, None) && technical == "neutral technical result"))
    && (Answers((n: nat) => a.strategy(snapshot, technical, n), 2, Some(strategy))
        || (Answers((n: nat) => a.strategy(snapshot, technical, n), 2, None) && strategy == "neutral strategy signal"))
  }

  /** The review lets the candidate through, if one is asked for. */
  ghost predicate Reviewed(a: Agents, config: DecisionConfig, decision: Decision) {
    if config.reviewRequired then
      exists review: Review ::
        && Answers((n: nat) => a.reviewer(decision, n), 2, Some(review))
        && !review.reject && config.minConfidence <= review.confidence
        && !(review.critical && config.rejectOnCritical)
    else config.minConfidence <= 1.0
  }

  /** The candidate is approved by the risk engine, which is asked once, and nothing speaks against it. */
  ghost predicate Approved(a: Agents, config: DecisionConfig, snapshot: Data, decision: Decision, c: Candidate,
                           risk: RiskResult) {
    && decision.candidate == Some(c) && c.order.direction.IsSide() && !c.unknownStrategy && Promising(c, config)
    && a.risk(c, decision, snapshot, 1) == Some(risk) && risk.validation.approved
  }

  /** What a run goes through up to its final decision. */
  datatype Path = Path(snapshot: Data, technical: Data, strategy: Data, decision: Decision, candidate: Candidate,
                       risk: RiskResult)

  /** A run gets to its portfolio gate on this path: the market data came within three tries, the decision made one
      candidate of it, of the analysis and of the strategy, the review let it through and risk approved it. */
  ghost predicate Reaches(a: Agents, config: DecisionConfig, p: Path) {
    && Analysed(a, p.snapshot, p.technical, p.strategy)
    && a.decide(p.snapshot, p.technical, p.strategy, 1) == Some(p.decision)
    && Reviewed(a, config, p.decision)
    && Approved(a, config, p.snapshot, p.decision, p.candidate, p.risk)
  }

  /** The portfolio is asked once, about the maximum loss that risk names, or about zero if it names none. */
  predicate PortfolioAgrees(a: Agents, risk: RiskResult) {
    a.portfolio(if risk.maxLoss.Some? then risk.maxLoss.value else 0.0, 1) == Some(true)
  }

  // ---------- Answers of the agents ----------

  /** There is only one first answer. */
  lemma SameAnswer<T>(attempts: nat -> Option<T>, times: nat, x: Option<T>, y: Option<T>)
    requires Answers(attempts, times, x) && Answers(attempts, times, y)
    ensures x == y
  {
    if x.Some? && y.Some? {
      var j: nat :| 1 <= j <= times && attempts(j) == x && forall i: nat :: 1 <= i < j ==> attempts(i).None?;
      var k: nat :| 1 <= k <= times && attempts(k) == y && forall i: nat :: 1 <= i < k ==> attempts(i).None?;
      assert !(j < k) && !(k < j);
    }
  }

  /** A step gives the first answer of its agent, and only that. */
  lemma StepGives<T>(name: string, attempts: nat -> Option<T>, times: nat)
    requires times == Retries(name) + 1
    ensures forall x :: Answers(attempts, times, x) <==> RunStep(name, attempts).output == x
  {
    StepAnswers(name, attempts, times);
    forall x | Answers(attempts, times, x)
      ensures RunStep(name, attempts).output == x
    {
      SameAnswer(attempts, times, x, RunStep(name, attempts).output);
    }
  }

  lemma AskedOnce<T>(name: string, attempts: nat -> Option<T>)
    requires Retries(name) == 0
    ensures RunStep(name, attempts).output == attempts(1)
  {
    StepAnswers(name, attempts, 1);
    AnswersOnce(attempts, RunStep(name, attempts).output);
  }

  // ---------- The parts of a run ----------

  /** How a run ends that got to its portfolio gate. */
  ghost predicate EndsAs(r: PipelineResult, a: Agents, c: Candidate, risk: RiskResult) {
    if !PortfolioAgrees(a, risk) then r.status == Rejected && r.execution.None? && r.sent == []
    else if a.positionManager(c.order, risk, 1).None? then r.status == Broken && r.execution.None? && r.sent == []
    else
      var order, side := c.order, c.order.direction;
      var request := E.Request(order, Some(order), Some(side), Some(risk.validation), false);
      var (outcome, sent) := E.Execute(a.setup, request, a.answers, []);
      && r.execution == Some(outcome) && r.sent == sent
      && (outcome.closeFailed ==> r.status == Broken)
      && (outcome.tpSlFailed && !outcome.closeFailed ==> r.status == EmergencyClosed)
      && (!outcome.tpSlFailed && !outcome.closeFailed ==> r.status == Completed)
  }

  /** What the request of a run is executed as. */
  lemma ExecutedEnds(a: Agents, c: Candidate, risk: RiskResult, log: seq<StepRecord>)
    ensures var r, order := ExecuteFinal(a, RequestFor(c, c.order.direction, risk), log), c.order;
      var request := E.Request(order, Some(order), Some(order.direction), Some(risk.validation), false);
      var (outcome, sent) := E.Execute(a.setup, request, a.answers, []);
      && r.execution == Some(outcome) && r.sent == sent
      && (outcome.closeFailed ==> r.status == Broken)
      && (outcome.tpSlFailed && !outcome.closeFailed ==> r.status == EmergencyClosed)
      && (!outcome.tpSlFailed && !outcome.closeFailed ==> r.status == Completed)
  {
    hide RunStep, E.Execute;
  }

  lemma StoppedEnds(status: PipelineStatus, log: seq<StepRecord>, next: nat)
    requires next <= |STEP_NAMES|
    ensures var r := Stop(status, log, next); r.status == status && r.execution.None? && r.sent == []
  {
    hide WithSkipped;
  }

  lemma PlaceEnds(a: Agents, c: Candidate, risk: RiskResult, log: seq<StepRecord>)
    ensures EndsAs(Place(a, c, c.order.direction, risk, log), a, c, risk)
  {
    var s8 := RunStep("portfolio", (n: nat) => a.portfolio(NewRisk(risk), n));
    var s9 := RunStep("position_manager", (n: nat) => a.positionManager(c.order, risk, n));
    AskedOnce("portfolio", (n: nat) => a.portfolio(NewRisk(risk), n));
    AskedOnce("position_manager", (n: nat) => a.positionManager(c.order, risk, n));
    assert s8.output == a.portfolio(NewRisk(risk), 1) && s9.output == a.positionManager(c.order, risk, 1);
    assert PortfolioAgrees(a, risk) <==> s8.output == Some(true);
    var log8 := log + [s8.record];
    var log9 := log8 + [s9.record];
    StoppedEnds(Rejected, log8, 8);
    StoppedEnds(Broken, log9, 9);
    ExecutedEnds(a, c, risk, log9);
    hide RunStep, ExecuteFinal, Stop, E.Execute, PortfolioAgrees;
    assert Place(a, c, c.order.direction, risk, log)
        == if s8.output != Some(true) then Stop(Rejected, log8, 8)
           else if s9.output.None? then Stop(Broken, log9, 9)
           else ExecuteFinal(a, RequestFor(c, c.order.direction, risk), log9);
  }

  /** The final action, by what it takes. */
  lemma FinalMeans(c: Candidate, review: Review, risk: RiskResult, config: DecisionConfig)
    requires risk.validation.approved && !review.reject
    ensures DecideFinalAction(Some(c), Some(review), Some(risk), config)
         == if c.order.direction.IsSide() && !c.unknownStrategy && Promising(c, config)
               && config.minConfidence <= review.confidence && !(review.critical && config.rejectOnCritical)
            then c.order.direction else Hold
  {
  }

  /** The gates, by what they answer. */
  lemma GatesShape(a: Agents, config: DecisionConfig, snapshot: Data, decision: Decision, c: Candidate, review: Review,
                   log: seq<StepRecord>)
    ensures var r, risk := Gates(a, config, snapshot, decision, c, review, log), a.risk(c, decision, snapshot, 1);
      if risk.None? || !risk.value.validation.approved
         || DecideFinalAction(Some(c), Some(review), risk, config).Hold? then
        r.status == OnHold && r.execution.None? && r.sent == []
      else exists log7 ::
        r == Place(a, c, DecideFinalAction(Some(c), Some(review), risk, config), risk.value, log7)
  {
    var s6 := RunStep("risk", (n: nat) => a.risk(c, decision, snapshot, n));
    AskedOnce("risk", (n: nat) => a.risk(c, decision, snapshot, n));
    var risk := a.risk(c, decision, snapshot, 1);
    assert s6.output == risk;
    var log6 := log + [s6.record];
    StoppedEnds(OnHold, log6, 6);
    if risk.Some? && risk.value.validation.approved {
      var final := DecideFinalAction(Some(c), Some(review), risk, config);
      var s7 := RunStep("final_decision",
                        (n: nat) => Some(DecideFinalAction(Some(c), Some(review), Some(risk.value), config)));
      AskedOnce("final_decision",
                (n: nat) => Some(DecideFinalAction(Some(c), Some(review), Some(risk.value), config)));
      assert s7.output == Some(final);
      var log7 := log6 + [s7.record];
      StoppedEnds(OnHold, log7, 7);
      hide RunStep, Place, Stop, DecideFinalAction;
      assert Gates(a, config, snapshot, decision, c, review, log)
          == if final.Hold? then Stop(OnHold, log7, 7) else Place(a, c, final, risk.value, log7);
    } else {
      hide RunStep, Place, Stop, DecideFinalAction;
    }
  }

  /** The gates let a candidate to the portfolio exactly when it is approved and its review is good enough. */
  lemma GatesEnd(a: Agents, config: DecisionConfig, snapshot: Data, decision: Decision, c: Candidate, review: Review,
                 log: seq<StepRecord>)
    requires decision.candidate == Some(c) && !review.reject
    ensures var r, risk := Gates(a, config, snapshot, decision, c, review, log), a.risk(c, decision, snapshot, 1);
      if risk.Some? && Approved(a, config, snapshot, decision, c, risk.value)
         && config.minConfidence <= review.confidence && !(review.critical && config.rejectOnCritical) then
        EndsAs(r, a, c, risk.value)
      else r.status == OnHold && r.execution.None? && r.sent == []
  {
    GatesShape(a, config, snapshot, decision, c, review, log);
    var r, risk := Gates(a, config, snapshot, decision, c, review, log), a.risk(c, decision, snapshot, 1);
    hide Gates, Place, EndsAs, DecideFinalAction, Promising;
    if risk.Some? && risk.value.validation.approved {
      FinalMeans(c, review, risk.value, config);
      var final := DecideFinalAction(Some(c), Some(review), risk, config);
      if !final.Hold? {
        var log7 :| r == Place(a, c, final, risk.value, log7);
        PlaceEnds(a, c, risk.value, log7);
      }
    }
  }

  lemma ReviewEnds(a: Agents, config: DecisionConfig, snapshot: Data, decision: Decision, c: Candidate,
                   log: seq<StepRecord>)
    requires decision.candidate == Some(c)
    ensures var r, risk := ReviewCandidate(a, config, snapshot, decision, c, log), a.risk(c, decision, snapshot, 1);
      if risk.Some? && Approved(a, config, snapshot, decision, c, risk.value) && Reviewed(a, config, decision) then
        EndsAs(r, a, c, risk.value)
      else r.status == OnHold && r.execution.None? && r.sent == []
  {
    hide EndsAs, Gates, WithSkipped, Approved, Answers;
    if config.reviewRequired {
      var f5 := (n: nat) => a.reviewer(decision, n);
      StepGives("ai_review", f5, 2);
      var s5 := RunStep("ai_review", f5);
      hide RunStep;
      if s5.output.Some? && !s5.output.value.reject {
        GatesEnd(a, config, snapshot, decision, c, s5.output.value, log + [s5.record]);
      }
    } else {
      GatesEnd(a, config, snapshot, decision, c, NO_REVIEW, WithSkipped(log, ["ai_review"]));
    }
  }

  /** The steps up to the decision, and what they gave. */
  lemma AnalysisGives(a: Agents, snapshot: Data)
    requires SnapshotOf(a) == Some(snapshot)
    ensures exists technical, strategy ::
              && Analysed(a, snapshot, technical, strategy)
              && DecisionOf(a, snapshot) == a.decide(snapshot, technical, strategy, 1)
    ensures forall technical, strategy :: Analysed(a, snapshot, technical, strategy) ==>
              DecisionOf(a, snapshot) == a.decide(snapshot, technical, strategy, 1)
  {
    var f2 := (n: nat) => a.technical(snapshot, n);
    var s2 := RunStep("technical", f2);
    var technical := if s2.output.Some? then s2.output.value else NEUTRAL_TECHNICAL;
    var f3 := (n: nat) => a.strategy(snapshot, technical, n);
    var s3 := RunStep("strategy", f3);
    var strategy := if s3.output.Some? then s3.output.value else NEUTRAL_STRATEGY;
    var f4 := (n: nat) => a.decide(snapshot, technical, strategy, n);
    StepGives("market_data", a.marketData, 3);
    StepGives("technical", f2, 2);
    StepGives("strategy", f3, 2);
    AskedOnce("decision", f4);
    hide RunStep, Answers;
    assert Analysed(a, snapshot, technical, strategy);
    assert DecisionOf(a, snapshot) == a.decide(snapshot, technical, strategy, 1);
  }

  /** The log of the first four steps. */
  function FirstSteps(a: Agents, snapshot: Data): seq<StepRecord> {
    var s2 := RunStep("technical", (n: nat) => a.technical(snapshot, n));
    var technical := if s2.output.Some? then s2.output.value else NEUTRAL_TECHNICAL;
    var s3 := RunStep("strategy", (n: nat) => a.strategy(snapshot, technical, n));
    var strategy := if s3.output.Some? then s3.output.value else NEUTRAL_STRATEGY;
    var s4 := RunStep("decision", (n: nat) => a.decide(snapshot, technical, strategy, n));
    [RunStep("market_data", a.marketData).record, s2.record, s3.record, s4.record]
  }

  lemma RunIsReview(a: Agents, config: DecisionConfig)
    ensures var r := Run(a, config);
      if SnapshotOf(a).None? then r.status == Broken && r.execution.None? && r.sent == []
      else
        var decision := DecisionOf(a, SnapshotOf(a).value);
        if decision.None? || decision.value.candidate.None? || decision.value.candidate.value.order.direction.Hold? then
          r.status == OnHold && r.execution.None? && r.sent == []
        else
          r == ReviewCandidate(a, config, SnapshotOf(a).value, decision.value, decision.value.candidate.value,
                               FirstSteps(a, SnapshotOf(a).value))
  {
    hide RunStep, ReviewCandidate, WithSkipped;
  }

  lemma RunEnds(a: Agents, config: DecisionConfig)
    requires SnapshotOf(a).Some? && DecisionOf(a, SnapshotOf(a).value).Some?
    requires var decision := DecisionOf(a, SnapshotOf(a).value).value;
      decision.candidate.Some? && !decision.candidate.value.order.direction.Hold?
    ensures var r, decision := Run(a, config), DecisionOf(a, SnapshotOf(a).value).value;
      var c := decision.candidate.value;
      var risk := a.risk(c, decision, SnapshotOf(a).value, 1);
      if risk.Some? && Approved(a, config, SnapshotOf(a).value, decision, c, risk.value)
         && Reviewed(a, config, decision) then
        EndsAs(r, a, c, risk.value)
      else r.status == OnHold && r.execution.None? && r.sent == []
  {
    RunIsReview(a, config);
    var decision := DecisionOf(a, SnapshotOf(a).value).value;
    var c := decision.candidate.value;
    hide Run, SnapshotOf, DecisionOf, ReviewCandidate, EndsAs, Approved, Reviewed, FirstSteps;
    ReviewEnds(a, config, SnapshotOf(a).value, decision, c, FirstSteps(a, SnapshotOf(a).value));
  }

  lemma ReachedDecision(a: Agents, config: DecisionConfig, p: Path)
    requires Reaches(a, config, p)
    ensures SnapshotOf(a) == Some(p.snapshot) && DecisionOf(a, p.snapshot) == Some(p.decision)
  {
    StepGives("market_data", a.marketData, 3);
    AnalysisGives(a, p.snapshot);
    hide Answers, RunStep, DecisionOf, Reviewed, Approved;
  }

  /** Main result on what a run asks for.  A run that gets to its portfolio gate asks it about the maximum loss of the
      risk result, and is rejected if it does not agree; if it does and the position manager opens, the run executes the
      candidate's own order with the validation of the risk result, and ends as the outcome says. */
  lemma ReachingRunEnds(a: Agents, config: DecisionConfig, p: Path)
    requires Reaches(a, config, p)
    ensures EndsAs(Run(a, config), a, p.candidate, p.risk)
  {
    ReachedDecision(a, config, p);
    hide EndsAs, Run, SnapshotOf, DecisionOf, Reviewed, Analysed;
    RunEnds(a, config);
  }

  /** A run that does not get there sends nothing, and is broken if there were no market data in three tries, and on
      hold otherwise. */
  lemma OtherRunsHold(a: Agents, config: DecisionConfig)
    requires forall p :: !Reaches(a, config, p)
    ensures var r := Run(a, config);
      r.execution.None? && r.sent == [] && r.status == if Answers(a.marketData, 3, None) then Broken else OnHold
  {
    StepGives("market_data", a.marketData, 3);
    RunIsReview(a, config);
    hide Answers, RunStep, Reviewed, Run, DecisionOf, ReviewCandidate;
    if SnapshotOf(a).Some? {
      var snapshot := SnapshotOf(a).value;
      AnalysisGives(a, snapshot);
      var technical, strategy :| Analysed(a, snapshot, technical, strategy)
        && DecisionOf(a, snapshot) == a.decide(snapshot, technical, strategy, 1);
      var decision := DecisionOf(a, snapshot);
      if decision.Some? && decision.value.candidate.Some? && !decision.value.candidate.value.order.direction.Hold? {
        RunEnds(a, config);
        var c := decision.value.candidate.value;
        var risk := a.risk(c, decision.value, snapshot, 1);
        if risk.Some? {
          var p := Path(snapshot, technical, strategy, decision.value, c, risk.value);
          assert Reaches(a, config, p) <==>
            Reviewed(a, config, decision.value) && Approved(a, config, snapshot, decision.value, c, risk.value);
        }
      }
    }
  }

  /** So a run that executes had its portfolio agree to the maximum loss of the risk result, and its candidate promised
      more than the least gain. */
  lemma ExecutedWasAsked(a: Agents, config: DecisionConfig)
    requires Run(a, config).execution.Some?
    ensures exists p :: Reaches(a, config, p) && PortfolioAgrees(a, p.risk) && Promising(p.candidate, config)
                        && a.positionManager(p.candidate.order, p.risk, 1).Some?
  {
    hide Run, Analysed, Reviewed, E.Execute;
    if forall p :: !Reaches(a, config, p) {
      OtherRunsHold(a, config);
    }
    var p :| Reaches(a, config, p);
    ReachingRunEnds(a, config, p);
  }
}
