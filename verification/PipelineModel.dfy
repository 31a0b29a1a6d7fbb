/** The decision pipeline: agents/orchestrator/pipeline.py and runner.py, with agents/decision/final_decision.py. */
module PipelineModel {
  import opened Common
  import E = ExecutionModel

  // ---------- What flows through the pipeline ----------

  /** What an agent returned and the pipeline only hands on. */
  type Data = string

  const NEUTRAL_TECHNICAL: Data := "neutral technical result"
  const NEUTRAL_STRATEGY: Data := "neutral strategy signal"

  datatype Candidate = Candidate(
    order: E.Order,
    unknownStrategy: bool,
    notional: real,
    expectedNetProfit: Option<real>)

  datatype Decision = Decision(candidate: Option<Candidate>, detail: Data)

  datatype Review = Review(reject: bool, critical: bool, confidence: real)

  datatype RiskResult = RiskResult(validation: E.Validation, maxLoss: Option<real>)

  datatype DecisionConfig = DecisionConfig(
    reviewRequired: bool,
    rejectOnCritical: bool,
    minConfidence: real,
    minNetProfit: Option<real>,
    minNetProfitPct: real)

  /** The agents as arbitrary outcomes: what the `n`-th attempt of an agent gives on its inputs, or `None` when it
      raises or runs out of time. */
  datatype Agents = Agents(
    marketData: nat -> Option<Data>,
    technical: (Data, nat) -> Option<Data>,
    strategy: (Data, Data, nat) -> Option<Data>,
    decide: (Data, Data, Data, nat) -> Option<Decision>,
    reviewer: (Decision, nat) -> Option<Review>,
    risk: (Candidate, Decision, Data, nat) -> Option<RiskResult>,
    portfolio: (real, nat) -> Option<bool>,
    positionManager: (E.Order, RiskResult, nat) -> Option<Data>,
    setup: E.Setup,
    answers: E.Answers)

  // ---------- Running one agent ----------

  datatype Status = Running | Success | Failed | Skipped

  datatype StepRecord = StepRecord(name: string, status: Status, attempt: nat)

  const STEP_NAMES: seq<string> :=
    ["market_data", "technical", "strategy", "decision", "ai_review", "risk", "final_decision", "portfolio",
     "position_manager", "execution"]

  function Retries(name: string): nat {
    if name == "market_data" then 2
    else if name in ["technical", "strategy", "ai_review"] then 1
    else if name == "execution" then 3
    else 0
  }

  /** The first of the attempts 1 to `total` that gives something. */
  function FirstGood<T>(attempts: nat -> Option<T>, total: nat): Option<nat> {
    if total == 0 then None
    else
      var earlier := FirstGood(attempts, total - 1);
      if earlier.Some? then earlier else if attempts(total).Some? then Some(total) else None
  }

  datatype Ran<T> = Ran(record: StepRecord, output: Option<T>)

  function RunStep<T>(name: string, attempts: nat -> Option<T>): Ran<T> {
    var total := Retries(name) + 1;
    var first := FirstGood(attempts, total);
    if first.Some? then Ran(StepRecord(name, Success, first.value), attempts(first.value))
    else Ran(StepRecord(name, Failed, total), None)
  }

  function Skip(name: string): StepRecord {
    StepRecord(name, Skipped, 1)
  }

  predicate Recorded(log: seq<StepRecord>, name: string) {
    exists k :: 0 <= k < |log| && log[k].name == name
  }

  /** Names already in the log are not added again. */
  function WithSkipped(log: seq<StepRecord>, names: seq<string>): seq<StepRecord> {
    if |names| == 0 then log
    else
      var earlier := WithSkipped(log, names[..|names| - 1]);
      var last := names[|names| - 1];
      if Recorded(log, last) then earlier else earlier + [Skip(last)]
  }

  // ---------- The final decision ----------

  function MinNetProfit(c: Candidate, config: DecisionConfig): real {
    if config.minNetProfit.Some? then config.minNetProfit.value else c.notional * config.minNetProfitPct
  }

  /** The action, HOLD included.  The candidate, the review and the risk result may all be missing. */
  function DecideFinalAction(candidate: Option<Candidate>, review: Option<Review>, risk: Option<RiskResult>,
                             config: DecisionConfig): Direction {
    if candidate.None? || !candidate.value.order.direction.IsSide() then Hold
    else
      var c := candidate.value;
      if c.unknownStrategy then Hold
      else if risk.None? || !risk.value.validation.approved then Hold
      else if review.None? || review.value.reject then Hold
      else if review.value.critical && config.rejectOnCritical then Hold
      else if review.value.confidence < config.minConfidence then Hold
      else if c.expectedNetProfit.None? || c.expectedNetProfit.value <= MinNetProfit(c, config) then Hold
      else c.order.direction
  }

  // ---------- The run ----------

  datatype PipelineStatus = Completed | OnHold | Rejected | Broken | EmergencyClosed

  datatype PipelineResult = PipelineResult(
    status: PipelineStatus,
    steps: seq<StepRecord>,
    execution: Option<E.Outcome>,
    sent: seq<E.Sent>)

  /** A run that ends without an execution; the steps from `next` on are skipped. */
  function Stop(status: PipelineStatus, log: seq<StepRecord>, next: nat): PipelineResult
    requires next <= |STEP_NAMES|
  {
    PipelineResult(status, WithSkipped(log, STEP_NAMES[next..]), None, [])
  }

  /** The review that stands in when none is required. */
  const NO_REVIEW := Review(false, false, 1.0)

  function RequestFor(c: Candidate, final: Direction, risk: RiskResult): E.Request {
    E.Request(c.order, Some(c.order), Some(final), Some(risk.validation), false)
  }

  function Run(a: Agents, config: DecisionConfig): PipelineResult {
    var s1 := RunStep("market_data", a.marketData);
    if s1.output.None? then Stop(Broken, [s1.record], 1)
    else
      var snapshot := s1.output.value;
      var s2 := RunStep("technical", (n: nat) => a.technical(snapshot, n));
      var technical := if s2.output.Some? then s2.output.value else NEUTRAL_TECHNICAL;
      var s3 := RunStep("strategy", (n: nat) => a.strategy(snapshot, technical, n));
      var strategy := if s3.output.Some? then s3.output.value else NEUTRAL_STRATEGY;
      var s4 := RunStep("decision", (n: nat) => a.decide(snapshot, technical, strategy, n));
      var log := [s1.record, s2.record, s3.record, s4.record];
      if s4.output.None? then Stop(OnHold, log, 4)
      else
        var candidate := s4.output.value.candidate;
        if candidate.None? || candidate.value.order.direction.Hold? then Stop(OnHold, log, 4)
        else ReviewCandidate(a, config, snapshot, s4.output.value, candidate.value, log)
  }

  function ReviewCandidate(a: Agents, config: DecisionConfig, snapshot: Data, decision: Decision, c: Candidate,
                           log: seq<StepRecord>): PipelineResult {
    if !config.reviewRequired then
      Gates(a, config, snapshot, decision, c, NO_REVIEW, WithSkipped(log, ["ai_review"]))
    else
      var s5 := RunStep("ai_review", (n: nat) => a.reviewer(decision, n));
      if s5.output.None? || s5.output.value.reject then Stop(OnHold, log + [s5.record], 5)
      else Gates(a, config, snapshot, decision, c, s5.output.value, log + [s5.record])
  }

  function Gates(a: Agents, config: DecisionConfig, snapshot: Data, decision: Decision, c: Candidate, review: Review,
                 log: seq<StepRecord>): PipelineResult {
    var s6 := RunStep("risk", (n: nat) => a.risk(c, decision, snapshot, n));
    var log6 := log + [s6.record];
    if s6.output.None? || !s6.output.value.validation.approved then Stop(OnHold, log6, 6)
    else
      var risk := s6.output.value;
      var s7 := RunStep("final_decision",
                        (n: nat) => Some(DecideFinalAction(Some(c), Some(review), Some(risk), config)));
      var log7 := log6 + [s7.record];
      if s7.output.None? || s7.output.value.Hold? then Stop(OnHold, log7, 7)
      else Place(a, c, s7.output.value, risk, log7)
  }

  function NewRisk(risk: RiskResult): real {
    if risk.maxLoss.Some? then risk.maxLoss.value else 0.0
  }

  function Place(a: Agents, c: Candidate, final: Direction, risk: RiskResult, log: seq<StepRecord>): PipelineResult {
    var s8 := RunStep("portfolio", (n: nat) => a.portfolio(NewRisk(risk), n));
    var log8 := log + [s8.record];
    if s8.output.None? || !s8.output.value then Stop(Rejected, log8, 8)
    else
      var s9 := RunStep("position_manager", (n: nat) => a.positionManager(c.order, risk, n));
      var log9 := log8 + [s9.record];
      if s9.output.None? then Stop(Broken, log9, 9)
      else ExecuteFinal(a, RequestFor(c, final, risk), log9)
  }

  /** The execution never raises, so its first attempt stands; its outcome decides the status. */
  function ExecuteFinal(a: Agents, req: E.Request, log: seq<StepRecord>): PipelineResult {
    var (outcome, sent) := E.Execute(a.setup, req, a.answers, []);
    var s10 := RunStep("execution", (n: nat) => Some(outcome));
    PipelineResult(
      if outcome.closeFailed then Broken else if outcome.tpSlFailed then EmergencyClosed else Completed,
      log + [s10.record], Some(outcome), sent)
  }
}
