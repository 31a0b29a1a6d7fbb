/** The pipeline as it runs: the retry loop of agents/orchestrator/runner.py and `run` of pipeline.py, whose log of
    step results grows as the steps are taken. */
module PipelineEngine {
  import opened Common
  import opened PipelineModel
  import E = ExecutionModel
  import ExecutionEngine

  class AgentResult {
    const name: string
    var status: Status
    var attempt: nat

    constructor (name: string, status: Status)
      ensures View() == StepRecord(name, status, 1)
    {
      this.name, this.status, attempt := name, status, 1;
    }

    function View(): StepRecord
      reads this
    {
      StepRecord(name, status, attempt)
    }
  }

  ghost function Views(steps: seq<AgentResult>): (log: seq<StepRecord>)
    reads steps
    ensures |log| == |steps| && forall k :: 0 <= k < |steps| ==> log[k] == steps[k].View()
  {
    seq(|steps|, i requires 0 <= i < |steps| reads steps => steps[i].View())
  }

  /** `AgentRunner.run`: tries the agent until it gives something, at most its retries plus one times. */
  method RunAgent<T>(name: string, attempts: nat -> Option<T>) returns (result: AgentResult, output: Option<T>)
    ensures fresh(result) && Ran(result.View(), output) == RunStep(name, attempts)
  {
    result := new AgentResult(name, Running);
    var total := Retries(name) + 1;
    for attempt: nat := 1 to total + 1
      invariant result.name == name && result.status == Running
      invariant result.attempt == if attempt == 1 then 1 else attempt - 1
      invariant FirstGood(attempts, attempt - 1).None?
    {
      result.attempt := attempt;
      output := attempts(attempt);
      if output.Some? {
        result.status := Success;
        FirstGoodFound(attempts, attempt, total);
        return;
      }
    }
    result.status := Failed;
    output := None;
  }

  lemma {:induction false} FirstGoodFound<T>(attempts: nat -> Option<T>, found: nat, total: nat)
    requires 1 <= found <= total && attempts(found).Some? && FirstGood(attempts, found - 1).None?
    ensures FirstGood(attempts, total) == Some(found)
  {
    if found < total {
      FirstGoodFound(attempts, found, total - 1);
    }
  }

  method AppendSkipped(steps: seq<AgentResult>, names: seq<string>) returns (all: seq<AgentResult>)
    ensures Views(all) == WithSkipped(Views(steps), names)
  {
    var recorded: set<string> := {};
    for j := 0 to |steps|
      invariant forall name :: name in recorded <==> Recorded(Views(steps)[..j], name)
    {
      assert Views(steps)[..j + 1] == Views(steps)[..j] + [steps[j].View()];
      recorded := recorded + {steps[j].name};
    }
    assert Views(steps)[..|steps|] == Views(steps);
    all := steps;
    for j := 0 to |names|
      invariant Views(all) == WithSkipped(Views(steps), names[..j])
    {
      assert names[..j + 1][..j] == names[..j];
      if names[j] !in recorded {
        var s := new AgentResult(names[j], Skipped);
        all := all + [s];
      }
    }
    assert names[..|names|] == names;
  }

  datatype Finished = Finished(
    status: PipelineStatus,
    steps: seq<AgentResult>,
    execution: Option<E.Outcome>,
    sent: seq<E.Sent>) {

    ghost function View(): PipelineResult
      reads steps
    {
      PipelineResult(status, Views(steps), execution, sent)
    }
  }

  method Finish(status: PipelineStatus, steps: seq<AgentResult>, next: nat) returns (r: Finished)
    requires next <= |STEP_NAMES|
    ensures r.View() == Stop(status, Views(steps), next)
  {
    var all := AppendSkipped(steps, STEP_NAMES[next..]);
    r := Finished(status, all, None, []);
  }

  class Pipeline {
    const agents: Agents
    const config: DecisionConfig

    constructor (agents: Agents, config: DecisionConfig)
      ensures this.agents == agents && this.config == config
    {
      this.agents, this.config := agents, config;
    }

    method Run() returns (r: Finished)
      ensures r.View() == PipelineModel.Run(agents, config)
    {
      hide Stop, FirstGood, WithSkipped, ReviewCandidate, RunStep, AgentResult.View, Finished.View;
      var steps: seq<AgentResult> := [];
      var r1, market := RunAgent("market_data", agents.marketData);
      steps := steps + [r1];
      assert Views(steps) == [r1.View()];
      if market.None? {
        r := Finish(Broken, steps, 1);
        return;
      }
      var snapshot := market.value;
      var r2, chart := RunAgent("technical", (n: nat) => agents.technical(snapshot, n));
      steps := steps + [r2];
      var technical := if chart.Some? then chart.value else NEUTRAL_TECHNICAL;
      var r3, signal := RunAgent("strategy", (n: nat) => agents.strategy(snapshot, technical, n));
      steps := steps + [r3];
      var strategy := if signal.Some? then signal.value else NEUTRAL_STRATEGY;
      var r4, decided := RunAgent("decision", (n: nat) => agents.decide(snapshot, technical, strategy, n));
      steps := steps + [r4];
      assert Views(steps) == [r1.View(), r2.View(), r3.View(), r4.View()];
      if decided.None? {
        r := Finish(OnHold, steps, 4);
        return;
      }
      var candidate := decided.value.candidate;
      if candidate.None? || candidate.value.order.direction.Hold? {
        r := Finish(OnHold, steps, 4);
        return;
      }
      r := ReviewStep(snapshot, decided.value, candidate.value, steps);
    }

    /** Step 5. */
    method ReviewStep(snapshot: Data, decision: Decision, c: Candidate, before: seq<AgentResult>)
      returns (r: Finished)
      ensures r.View() == ReviewCandidate(agents, config, snapshot, decision, c, Views(before))
    {
      hide Stop, FirstGood, WithSkipped, Gates, RunStep;
      var steps := before;
      var review := NO_REVIEW;
      if !config.reviewRequired {
        steps := AppendSkipped(steps, ["ai_review"]);
      } else {
        var r5, answer := RunAgent("ai_review", (n: nat) => agents.reviewer(decision, n));
        steps := steps + [r5];
        assert Views(steps) == Views(before) + [r5.View()];
        if answer.None? || answer.value.reject {
          r := Finish(OnHold, steps, 5);
          return;
        }
        review := answer.value;
      }
      r := GateSteps(snapshot, decision, c, review, steps);
    }

    /** Steps 6 and 7. */
    method GateSteps(snapshot: Data, decision: Decision, c: Candidate, review: Review, before: seq<AgentResult>)
      returns (r: Finished)
      ensures r.View() == Gates(agents, config, snapshot, decision, c, review, Views(before))
    {
      hide Stop, FirstGood, DecideFinalAction, Place, RunStep;
      var steps := before;
      var r6, checked := RunAgent("risk", (n: nat) => agents.risk(c, decision, snapshot, n));
      steps := steps + [r6];
      assert Views(steps) == Views(before) + [r6.View()];
      if checked.None? || !checked.value.validation.approved {
        r := Finish(OnHold, steps, 6);
        return;
      }
      var risk := checked.value;
      var r7, final := RunAgent("final_decision",
                                (n: nat) => Some(DecideFinalAction(Some(c), Some(review), Some(risk), config)));
      steps := steps + [r7];
      assert Views(steps) == Views(before) + [r6.View()] + [r7.View()];
      if final.None? || final.value.Hold? {
        r := Finish(OnHold, steps, 7);
        return;
      }
      r := PlaceSteps(c, final.value, risk, steps);
    }

    /** Steps 8 to 10. */
    method PlaceSteps(c: Candidate, final: Direction, risk: RiskResult, before: seq<AgentResult>)
      returns (r: Finished)
      ensures r.View() == Place(agents, c, final, risk, Views(before))
    {
      hide Stop, FirstGood, ExecuteFinal, RunStep;
      var steps := before;
      var r8, agreed := RunAgent("portfolio", (n: nat) => agents.portfolio(NewRisk(risk), n));
      steps := steps + [r8];
      assert Views(steps) == Views(before) + [r8.View()];
      if agreed.None? || !agreed.value {
        r := Finish(Rejected, steps, 8);
        return;
      }
      var r9, opening := RunAgent("position_manager", (n: nat) => agents.positionManager(c.order, risk, n));
      steps := steps + [r9];
      assert Views(steps) == Views(before) + [r8.View()] + [r9.View()];
      if opening.None? {
        r := Finish(Broken, steps, 9);
        return;
      }
      r := ExecuteStep(RequestFor(c, final, risk), steps);
    }

    /** Step 10. */
    method ExecuteStep(req: E.Request, before: seq<AgentResult>) returns (r: Finished)
      ensures r.View() == ExecuteFinal(agents, req, Views(before))
    {
      hide E.Execute, RunStep;
      var gateway := new ExecutionEngine.Gateway(agents.answers);
      var engine := new ExecutionEngine.Engine(agents.setup, gateway);
      var outcome := engine.Execute(req);
      var r10, _ := RunAgent("execution", (n: nat) => Some(outcome));
      var steps := before + [r10];
      assert Views(steps) == Views(before) + [r10.View()];
      var status := Completed;
      if outcome.closeFailed {
        status := Broken;
      } else if outcome.tpSlFailed {
        status := EmergencyClosed;
      }
      r := Finished(status, steps, Some(outcome), gateway.sent);
    }
  }
}
