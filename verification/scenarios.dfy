/** The marketing workflow of `tests/test_marketing_workflow.py` run end to
    end on its sample input with no hook manager, and the same run with the
    goal left out. */
module MarketingScenarios {
  import opened Results
  import opened Values
  import opened Schemas
  import opened Agents
  import opened Observers
  import opened Orchestration
  import opened MarketingAgents
  import opened MarketingWorkflow
  import Text

  const Product := "AI CRM tool"
  const Audience := "SaaS founders"
  const Goal := "Increase signups"

  const TestPayload: Fields := map["product_description" := Str(Product), "target_audience" := Str(Audience),
                                   "goal" := Str(Goal)]

  const TestInput: Fields := map["payload" := Map(TestPayload), "metadata" := Map(map["trace" := Str("marketing-test")])]

  /** What each agent outputs on the sample input. */
  const FounderAnalysis := Analysis(["limited time"], ["growth and scalability"], "confident")

  const LoweredGoal := "increase signups"
  const Headline := CoreMessage(Str(Product), LoweredGoal)
  const Benefits := List([Str("Solve " + "limited time"), Str("Enable " + "growth and scalability")])

  const ValidatedOutput := AgentOutput(map["validated_input" := Map(TestPayload)], 1.0,
                                       map["validated_by" := Str(ValidatorName)])
  const AnalyzedOutput := AgentOutput(map["audience_insights" := Map(Insights(FounderAnalysis))], 0.85,
                                      map["analyzed_by" := Str(AnalyzerName)])
  const ProposalOutput := AgentOutput(map["core_message" := Str(Headline), "key_benefits" := Benefits,
                                          "goal" := Str(Goal)], 0.9,
                                      map["generated_by" := Str(ValuePropositionName)])
  const OutlineOutput := AgentOutput(map["content_outline" := Map(map[
                                        "headline" := Str(Headline),
                                        "introduction" := Str(Introduction(LoweredGoal)),
                                        "benefits_section" := Benefits,
                                        "call_to_action" := Str(CallToAction(LoweredGoal))])],
                                     0.85, map["generated_by" := Str(OutlineName)])

  // ---------------------------------------------------------------------
  // Each agent on its input

  lemma SampleIsClean()
    ensures Clean(Str(Product)) == Product && Clean(Str(Audience)) == Audience && Clean(Str(Goal)) == Goal
  {
    Text.StripKeepsTrimmed(Product);
    Text.StripKeepsTrimmed(Audience);
    Text.StripKeepsTrimmed(Goal);
  }

  /** The sample values are already stripped, so the validator passes
      them on unchanged. */
  lemma ValidatorOnSample()
    ensures ValidateMarketingInput(TestPayload) == Ok(ValidatedOutput)
  {
    SampleIsClean();
    CleanFieldsRevalidate(Product, Audience, Goal);
    assert TestPayload == CleanFields(Product, Audience, Goal);
  }

  lemma LowerAudience()
    ensures Text.Lower(Audience) == "saas founders"
  {
  }

  lemma LowerGoal()
    ensures Text.Lower(Goal) == LoweredGoal
  {
  }

  /** "saas founders" matches the founder rule and not the student rule. */
  lemma AnalyzerOnSample()
    ensures AnalyzeAudience(TestPayload) == Ok(AnalyzedOutput)
  {
    LowerAudience();
    Text.OccursBetween("saas ", "founder", "s");
    assert "saas " + "founder" + "s" == "saas founders";
    Text.MissingCharNotContained("saas founders", "student", 't');
    AudienceRuleTable("saas founders");
  }

  /** The value-proposition agent's whole output on a payload carrying
      the analyzer's insights. */
  lemma ProposalOf(product: Value, goal: string, a: Analysis)
    requires a.painPoints != [] && a.motivations != []
    ensures ProposeValue(map["product_description" := product, "goal" := Str(goal),
                             "audience_insights" := Map(Insights(a))])
            == Ok(AgentOutput(map["core_message" := Str(CoreMessage(product, Text.Lower(goal))),
                                  "key_benefits" := List([Str("Solve " + a.painPoints[0]),
                                                          Str("Enable " + a.motivations[0])]),
                                  "goal" := Str(goal)],
                              0.9, map["generated_by" := Str(ValuePropositionName)]))
  {
    ProposalFromInsights(product, goal, a);
  }

  lemma ProposalOnSample()
    ensures ProposeValue(map["product_description" := Str(Product), "goal" := Str(Goal),
                             "audience_insights" := Map(Insights(FounderAnalysis))]) == Ok(ProposalOutput)
  {
    ProposalOf(Str(Product), Goal, FounderAnalysis);
    LowerGoal();
  }

  /** The outline agent's whole output on a payload with a non-empty goal. */
  lemma OutlineOf(coreMessage: Value, keyBenefits: Value, goal: string)
    requires goal != []
    ensures OutlineContent(map["core_message" := coreMessage, "key_benefits" := keyBenefits, "goal" := Str(goal)])
            == Ok(AgentOutput(map["content_outline" := Map(map[
                                 "headline" := coreMessage,
                                 "introduction" := Str(Introduction(Text.Lower(goal))),
                                 "benefits_section" := keyBenefits,
                                 "call_to_action" := Str(CallToAction(Text.Lower(goal)))])],
                              0.85, map["generated_by" := Str(OutlineName)]))
  {
  }

  lemma OutlineOnSample()
    ensures OutlineContent(map["core_message" := Str(Headline), "key_benefits" := Benefits, "goal" := Str(Goal)])
            == Ok(OutlineOutput)
  {
    OutlineOf(Str(Headline), Benefits, Goal);
    LowerGoal();
  }

  /** A marketing agent runs to success with the output its `execute`
      returns. */
  lemma AgentRunsTo(a: Agent, name: string, payload: Fields, metadata: Fields, ctx: Context,
                    id: RunId, t0: int, t1: int, o: AgentOutput)
    requires a == MarketingAgent(name, a.description, a.execute)
    requires a.execute(AgentInput(payload, metadata), ctx) == Ok(RawOutput(o))
    ensures var r := Run(a, map["payload" := Map(payload), "metadata" := Map(metadata)], ctx, id, t0, t1);
            r.record.status == Success && r.output == o && r.record.agentName == name
  {
    var raw := map["payload" := Map(payload), "metadata" := Map(metadata)];
    assert a.inputSchema(raw) == Ok(AgentInput(payload, metadata));
  }

  // ---------------------------------------------------------------------
  // The four steps

  const Ctx1: Context := map[ValidatorName := Map(ValidatedOutput.output)]
  const Ctx2: Context := Ctx1[AnalyzerName := Map(AnalyzedOutput.output)]
  const Ctx3: Context := Ctx2[ValuePropositionName := Map(ProposalOutput.output)]
  const Ctx4: Context := Ctx3[OutlineName := Map(OutlineOutput.output)]

  /** Every record of the history is a success. */
  ghost predicate AllSucceeded(h: seq<RunRecord>) {
    forall j :: 0 <= j < |h| ==> h[j].status == Success
  }

  lemma AllSucceededGrow(h: seq<RunRecord>, h': seq<RunRecord>)
    requires AllSucceeded(h) && |h'| == |h| + 1 && h'[..|h|] == h && h'[|h|].status == Success
    ensures AllSucceeded(h')
  {
    forall j | 0 <= j < |h'|
      ensures h'[j].status == Success
    {
      if j < |h| {
        assert h'[j] == h'[..|h|][j];
      }
    }
  }

  /** Step `i` moves from the state with input `current` and context `ctx`
      to the one with input `next` and context `ctx'`, appending a
      successful record and producing `out`. */
  ghost predicate Advances(r: StepResult, st: LoopState, name: string, out: AgentOutput, ctx': Context)
  {
    && r.Next?
    && r.output == out
    && r.state.current == NextInput(name, out.output)
    && r.state.context == ctx'
    && r.state.hooks.None?
    && |r.state.history| == |st.history| + 1
    && r.state.history[..|st.history|] == st.history
    && r.state.history[|st.history|].status == Success
  }

  /** With no hook manager, a step whose input is prepared and whose agent
      succeeds hands its output on and records it in the context. */
  lemma StepSucceeds(steps: seq<WorkflowStep>, i: nat, st: LoopState, env: Env, input: Fields, out: AgentOutput)
    requires i < |steps| && st.hooks.None?
    requires StepInput(steps[i], st.current, st.context) == Ok(input)
    requires RunAt(steps, env, i, input, st.context).record.status == Success
    requires RunAt(steps, env, i, input, st.context).output == out
    ensures Advances(StepOnce(steps, i, st, env), st, steps[i].agent.name, out,
                     st.context[steps[i].agent.name := Map(out.output)])
  {
    var h := StepOnce(steps, i, st, env).state.history;
    assert h == st.history + [RunAt(steps, env, i, input, st.context).record];
    assert h[..|st.history|] == st.history;
  }

  /** The input each step prepares on the sample run. */
  const ValidatorInput: Fields := TestInput
  const AnalyzerInput: Fields :=
    map["payload" := Map(TestPayload), "metadata" := Map(map["previous_agent" := Str(ValidatorName)])]
  const ProposalInput: Fields :=
    map["payload" := Map(map["product_description" := Str(Product), "goal" := Str(Goal),
                             "audience_insights" := Map(Insights(FounderAnalysis))]),
        "metadata" := Map(map["previous_agent" := Str(AnalyzerName)])]
  const OutlineInput: Fields :=
    map["payload" := Map(map["core_message" := Str(Headline), "key_benefits" := Benefits, "goal" := Str(Goal)]),
        "metadata" := Map(map["previous_agent" := Str(ValuePropositionName)])]

  lemma AnalyzerInputPrepared()
    ensures StepInput(MarketingSteps()[1], NextInput(ValidatorName, ValidatedOutput.output), Ctx1) == Ok(AnalyzerInput)
  {
  }

  lemma ProposalInputPrepared()
    ensures StepInput(MarketingSteps()[2], NextInput(AnalyzerName, AnalyzedOutput.output), Ctx2) == Ok(ProposalInput)
  {
    assert ValidatedFromContext(Ctx2) == Ok(Map(TestPayload));
  }

  lemma OutlineInputPrepared()
    ensures StepInput(MarketingSteps()[3], NextInput(ValuePropositionName, ProposalOutput.output), Ctx3)
            == Ok(OutlineInput)
  {
    assert ValidatedFromContext(Ctx3) == Ok(Map(TestPayload));
  }

  lemma Step0(st: LoopState, env: Env)
    requires st.current == TestInput && st.context == map[] && st.hooks.None?
    ensures Advances(StepOnce(MarketingSteps(), 0, st, env), st, ValidatorName, ValidatedOutput, Ctx1)
  {
    var steps := MarketingSteps();
    ValidatorOnSample();
    AgentRunsTo(steps[0].agent, ValidatorName, TestPayload, map["trace" := Str("marketing-test")], map[],
                RunId(env.firstId), env.clock(0), env.clock(1), ValidatedOutput);
    StepSucceeds(steps, 0, st, env, ValidatorInput, ValidatedOutput);
  }

  lemma Step1(st: LoopState, env: Env)
    requires st.current == NextInput(ValidatorName, ValidatedOutput.output) && st.context == Ctx1 && st.hooks.None?
    ensures Advances(StepOnce(MarketingSteps(), 1, st, env), st, AnalyzerName, AnalyzedOutput, Ctx2)
  {
    var steps := MarketingSteps();
    AnalyzerInputPrepared();
    AnalyzerOnSample();
    AgentRunsTo(steps[1].agent, AnalyzerName, TestPayload, map["previous_agent" := Str(ValidatorName)], Ctx1,
                RunId(env.firstId + 1), env.clock(2), env.clock(3), AnalyzedOutput);
    StepSucceeds(steps, 1, st, env, AnalyzerInput, AnalyzedOutput);
  }

  lemma Step2(st: LoopState, env: Env)
    requires st.current == NextInput(AnalyzerName, AnalyzedOutput.output) && st.context == Ctx2 && st.hooks.None?
    ensures Advances(StepOnce(MarketingSteps(), 2, st, env), st, ValuePropositionName, ProposalOutput, Ctx3)
  {
    var steps := MarketingSteps();
    ProposalInputPrepared();
    ProposalOnSample();
    AgentRunsTo(steps[2].agent, ValuePropositionName, ProposalInput["payload"].fields,
                map["previous_agent" := Str(AnalyzerName)], Ctx2,
                RunId(env.firstId + 2), env.clock(4), env.clock(5), ProposalOutput);
    StepSucceeds(steps, 2, st, env, ProposalInput, ProposalOutput);
  }

  lemma Step3(st: LoopState, env: Env)
    requires st.current == NextInput(ValuePropositionName, ProposalOutput.output) && st.context == Ctx3
    requires st.hooks.None?
    ensures Advances(StepOnce(MarketingSteps(), 3, st, env), st, OutlineName, OutlineOutput, Ctx4)
  {
    var steps := MarketingSteps();
    OutlineInputPrepared();
    OutlineOnSample();
    AgentRunsTo(steps[3].agent, OutlineName, OutlineInput["payload"].fields,
                map["previous_agent" := Str(ValuePropositionName)], Ctx3,
                RunId(env.firstId + 3), env.clock(6), env.clock(7), OutlineOutput);
    StepSucceeds(steps, 3, st, env, OutlineInput, OutlineOutput);
  }

  // ---------------------------------------------------------------------
  // The whole run

  lemma HeadlineText()
    ensures Headline == "AI CRM tool" + " helps you " + "increase signups" + " efficiently."
  {
  }

  lemma CallToActionText()
    ensures CallToAction(LoweredGoal) == "Start today and " + "increase signups" + " with confidence."
  {
  }

  lemma FinalContextKeys()
    ensures Ctx4.Keys == {ValidatorName, AnalyzerName, ValuePropositionName, OutlineName}
  {
  }

  /** A step that succeeds hands over to the next one. */
  lemma RunFromNext(steps: seq<WorkflowStep>, i: nat, st: LoopState, env: Env)
    requires i + 1 < |steps| && StepOnce(steps, i, st, env).Next?
    ensures RunFrom(steps, i, st, env) == RunFrom(steps, i + 1, StepOnce(steps, i, st, env).state, env)
  {
  }

  /** When the last step succeeds and there is no hook manager, the run
      returns the success result. */
  lemma RunFromLast(steps: seq<WorkflowStep>, i: nat, st: LoopState, env: Env)
    requires i + 1 == |steps| && StepOnce(steps, i, st, env).Next?
    requires StepOnce(steps, i, st, env).state.hooks.None?
    ensures var next := StepOnce(steps, i, st, env);
            var result := WorkflowResult(WorkflowSuccess, next.output, next.state.history);
            RunFrom(steps, i, st, env) ==
              Completed(result, next.state.context, None, next.state.events + [WorkflowEnd(result, result.history)])
  {
  }

  /** The first two steps of the sample run succeed. */
  lemma SampleFirstHalf(env: Env) returns (s2: LoopState)
    ensures RunWorkflow(Orchestrator(MarketingSteps(), None), TestInput, map[], env) == RunFrom(MarketingSteps(), 2, s2, env)
    ensures s2.current == NextInput(AnalyzerName, AnalyzedOutput.output) && s2.context == Ctx2 && s2.hooks.None?
    ensures |s2.history| == 2 && AllSucceeded(s2.history)
  {
    var steps := MarketingSteps();
    var s0 := LoopState(TestInput, map[], [], None, [WorkflowStart(TestInput)]);
    Step0(s0, env);
    RunFromNext(steps, 0, s0, env);
    var s1 := StepOnce(steps, 0, s0, env).state;
    Step1(s1, env);
    RunFromNext(steps, 1, s1, env);
    s2 := StepOnce(steps, 1, s1, env).state;
    AllSucceededGrow(s0.history, s1.history);
    AllSucceededGrow(s1.history, s2.history);
  }

  /** The last two steps of the sample run succeed and the run returns. */
  lemma SampleSecondHalf(s2: LoopState, env: Env)
    requires s2.current == NextInput(AnalyzerName, AnalyzedOutput.output) && s2.context == Ctx2 && s2.hooks.None?
    requires |s2.history| == 2 && AllSucceeded(s2.history)
    ensures var r := RunFrom(MarketingSteps(), 2, s2, env);
            && r.Completed?
            && r.result.status == WorkflowSuccess
            && |r.result.history| == 4
            && AllSucceeded(r.result.history)
            && r.result.finalOutput == OutlineOutput
            && r.context == Ctx4
  {
    var steps := MarketingSteps();
    Step2(s2, env);
    RunFromNext(steps, 2, s2, env);
    var s3 := StepOnce(steps, 2, s2, env).state;
    Step3(s3, env);
    RunFromLast(steps, 3, s3, env);
    AllSucceededGrow(s2.history, s3.history);
    AllSucceededGrow(s3.history, StepOnce(steps, 3, s3, env).state.history);
  }

  /** The run's structure on the sample input: four successful steps, the
      outline as final output, and the four outputs in the context. */
  lemma SampleRunShape(env: Env)
    ensures var r := RunWorkflow(Orchestrator(MarketingSteps(), None), TestInput, map[], env);
            && r.Completed?
            && r.result.status == WorkflowSuccess
            && |r.result.history| == 4
            && AllSucceeded(r.result.history)
            && r.result.finalOutput == OutlineOutput
            && r.context == Ctx4
  {
    var s2 := SampleFirstHalf(env);
    SampleSecondHalf(s2, env);
  }

  /** The outline the sample run ends with: its headline is the generated
      core message and its call to action names the lower-cased goal. */
  lemma SampleOutlineText()
    ensures "content_outline" in OutlineOutput.output && OutlineOutput.output["content_outline"].Map?
    ensures var o := OutlineOutput.output["content_outline"].fields;
            && o.Keys == {"headline", "introduction", "benefits_section", "call_to_action"}
            && o["headline"] == Str("AI CRM tool" + " helps you " + "increase signups" + " efficiently.")
            && o["call_to_action"] == Str("Start today and " + "increase signups" + " with confidence.")
  {
    HeadlineText();
    CallToActionText();
  }

  /** The sample input runs through all four agents: the result is a
      success with four successful records, the final output is the outline
      above, and the context holds the four agents' outputs. */
  lemma SampleRunSucceeds(env: Env)
    ensures var r := RunWorkflow(Orchestrator(MarketingSteps(), None), TestInput, map[], env);
            && r.Completed?
            && r.result.status == WorkflowSuccess
            && |r.result.history| == 4
            && AllSucceeded(r.result.history)
            && r.result.finalOutput == OutlineOutput
            && r.context.Keys == {ValidatorName, AnalyzerName, ValuePropositionName, OutlineName}
  {
    SampleRunShape(env);
    FinalContextKeys();
  }

  // ---------------------------------------------------------------------
  // The sample input without its goal

  const NoGoalPayload: Fields := map["product_description" := Str(Product), "target_audience" := Str(Audience)]

  const NoGoalInput: Fields := map["payload" := Map(NoGoalPayload), "metadata" := Map(map["trace" := Str("marketing-test")])]

  const NoGoalError := Raise("ValueError", MissingFieldMessage("goal"))

  lemma ValidatorRejectsNoGoal()
    ensures ValidateMarketingInput(NoGoalPayload) == Err(NoGoalError)
  {
    assert Present(NoGoalPayload, RequiredKeys[0]) && Present(NoGoalPayload, RequiredKeys[1]);
    assert !Present(NoGoalPayload, RequiredKeys[2]);
    assert FirstMissing(NoGoalPayload, RequiredKeys) == Some(2);
  }

  /** The validator's run on the goal-less input is an error record. */
  lemma ValidatorRunWithoutGoal(env: Env)
    ensures var inv := RunAt(MarketingSteps(), env, 0, NoGoalInput, map[]);
            && inv.record.status == Error
            && inv.record.agentName == ValidatorName
            && inv.record.error == Some(NoGoalError.kind + ": " + NoGoalError.message + "\n")
            && inv.output == FailureOutput(NoGoalError)
  {
    var a := MarketingSteps()[0].agent;
    var vin := AgentInput(NoGoalPayload, map["trace" := Str("marketing-test")]);
    ValidatorRejectsNoGoal();
    assert a.inputSchema(NoGoalInput) == Ok(vin);
    assert a.execute(vin, map[]) == Err(NoGoalError);
    assert Core(a, vin, map[]).result == Err(NoGoalError);
    var text := NoGoalError.kind + ": " + NoGoalError.message + "\n";
    assert text + NoGoalError.traceback == text;
  }

  /** With no hook manager, a first step whose input is prepared (as it
      is when it has no transformer, or when its transformer returns) and
      whose agent fails ends the run with an error result holding that one
      record, and the context untouched. */
  lemma FirstStepFails(o: Orchestrator, initial: Fields, input: Fields, ctx: Context, env: Env)
    requires o.steps != [] && o.hooks.None?
    requires StepInput(o.steps[0], initial, ctx) == Ok(input)
    requires RunAt(o.steps, env, 0, input, ctx).record.status != Success
    ensures var inv := RunAt(o.steps, env, 0, input, ctx);
            var r := RunWorkflow(o, initial, ctx, env);
            && r.Completed?
            && r.result == WorkflowResult(WorkflowError, inv.output, [inv.record])
            && r.context == ctx
  {
  }

  /** Without a goal the validator fails, the run stops after the first
      step with an error result, the record's message names `goal`, and the
      context is left empty. */
  lemma MissingGoalStopsAtValidator(env: Env)
    ensures var r := RunWorkflow(Orchestrator(MarketingSteps(), None), NoGoalInput, map[], env);
            && r.Completed?
            && r.result.status == WorkflowError
            && |r.result.history| == 1
            && r.result.history[0].agentName == ValidatorName
            && r.result.history[0].error == Some("ValueError" + ": " + "Missing required input field: 'goal'" + "\n")
            && r.result.finalOutput.output == map["error" := Str("Missing required input field: 'goal'")]
            && r.context == map[]
  {
    ValidatorRunWithoutGoal(env);
    FirstStepFails(Orchestrator(MarketingSteps(), None), NoGoalInput, NoGoalInput, map[], env);
    NoGoalMessageText();
  }

  lemma NoGoalMessageText()
    ensures NoGoalError.kind == "ValueError"
    ensures NoGoalError.message == "Missing required input field: 'goal'"
  {
  }
}
