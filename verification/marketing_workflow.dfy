/** `domains/marketing/workflow/marketing_workflow.py`: the three input
    transformers between the marketing agents and the four-step workflow
    they form. A transformer only reads its arguments; here it is a pure
    function, so it cannot change the previous output or the context. */
module MarketingWorkflow {
  import opened Results
  import opened Values
  import opened Schemas
  import opened Agents
  import opened Orchestration
  import opened MarketingAgents
  import Text

  /** `pass_validated_input`: the validator's `validated_input`, or `{}`. */
  function PassValidatedInput(prev: Value, ctx: Context): (r: Result<Value>)
    ensures r.Err? <==> !prev.Map?
    ensures r.Err? ==> r.error == NoAttribute(prev, "get")
    ensures r.Ok? && "validated_input" in prev.fields ==> r.value == prev.fields["validated_input"]
    ensures r.Ok? && "validated_input" !in prev.fields ==> r.value == Map(map[])
  {
    GetFrom(prev, "validated_input", Map(map[]))
  }

  /** `context.get("marketing.input_validator", {}).get("validated_input", {})`. */
  function ValidatedFromContext(ctx: Context): Result<Value> {
    GetFrom(Get(ctx, ValidatorName, Map(map[])), "validated_input", Map(map[]))
  }

  /** `prepare_value_prop_input`: product and goal from the validator's
      entry in the context, insights from the previous output; absent
      values become `None`. Every `.get` needs a dict. */
  function PrepareValuePropInput(prev: Value, ctx: Context): (r: Result<Value>)
    ensures r.Ok? <==> ValidatedFromContext(ctx).Ok? && ValidatedFromContext(ctx).value.Map? && prev.Map?
    ensures r.Ok? ==>
              var validated := ValidatedFromContext(ctx).value.fields;
              && r.value.Map?
              && r.value.fields.Keys == {"product_description", "goal", "audience_insights"}
              && r.value.fields["product_description"] == Get(validated, "product_description", Null)
              && r.value.fields["goal"] == Get(validated, "goal", Null)
              && r.value.fields["audience_insights"] == Get(prev.fields, "audience_insights", Null)
    // the context is read before the previous output
    ensures ValidatedFromContext(ctx).Err? ==> r == Err(ValidatedFromContext(ctx).error)
    ensures ValidatedFromContext(ctx).Ok? && !ValidatedFromContext(ctx).value.Map? ==>
              r == Err(NoAttribute(ValidatedFromContext(ctx).value, "get"))
  {
    match ValidatedFromContext(ctx)
    case Err(e) => Err(e)
    case Ok(validated) =>
      match GetFrom(validated, "product_description", Null)
      case Err(e) => Err(e)
      case Ok(product) =>
        var goal := GetFrom(validated, "goal", Null).value;
        match GetFrom(prev, "audience_insights", Null)
        case Err(e) => Err(e)
        case Ok(insights) =>
          Ok(Map(map["product_description" := product, "goal" := goal, "audience_insights" := insights]))
  }

  /** `prepare_content_outline_input`: core message and benefits from the
      previous output, goal from the validator's entry in the context. */
  function PrepareContentOutlineInput(prev: Value, ctx: Context): (r: Result<Value>)
    ensures r.Ok? <==> ValidatedFromContext(ctx).Ok? && prev.Map? && ValidatedFromContext(ctx).value.Map?
    ensures r.Ok? ==>
              && r.value.Map?
              && r.value.fields.Keys == {"core_message", "key_benefits", "goal"}
              && r.value.fields["core_message"] == Get(prev.fields, "core_message", Null)
              && r.value.fields["key_benefits"] == Get(prev.fields, "key_benefits", Null)
              && r.value.fields["goal"] == Get(ValidatedFromContext(ctx).value.fields, "goal", Null)
    // the previous output is read before the validated entry's `goal`
    ensures ValidatedFromContext(ctx).Ok? && !prev.Map? ==> r == Err(NoAttribute(prev, "get"))
    ensures ValidatedFromContext(ctx).Ok? && prev.Map? && !ValidatedFromContext(ctx).value.Map? ==>
              r == Err(NoAttribute(ValidatedFromContext(ctx).value, "get"))
  {
    match ValidatedFromContext(ctx)
    case Err(e) => Err(e)
    case Ok(validated) =>
      match GetFrom(prev, "core_message", Null)
      case Err(e) => Err(e)
      case Ok(coreMessage) =>
        var keyBenefits := GetFrom(prev, "key_benefits", Null).value;
        match GetFrom(validated, "goal", Null)
        case Err(e) => Err(e)
        case Ok(goal) =>
          Ok(Map(map["core_message" := coreMessage, "key_benefits" := keyBenefits, "goal" := goal]))
  }

  /** `create_marketing_workflow`: the four agents in order, the first with
      no transformer and the others with the three transformers in order. */
  function CreateMarketingWorkflow(validator: Agent, analyzer: Agent, valueProposition: Agent, outline: Agent)
    : (steps: seq<WorkflowStep>)
    ensures |steps| == 4
    ensures steps[0].agent == validator && steps[1].agent == analyzer
    ensures steps[2].agent == valueProposition && steps[3].agent == outline
    ensures steps[0].transformer.None?
    ensures steps[1].transformer == Some(PassValidatedInput)
    ensures steps[2].transformer == Some(PrepareValuePropInput)
    ensures steps[3].transformer == Some(PrepareContentOutlineInput)
  {
    [WorkflowStep(validator, None),
     WorkflowStep(analyzer, Some(PassValidatedInput)),
     WorkflowStep(valueProposition, Some(PrepareValuePropInput)),
     WorkflowStep(outline, Some(PrepareContentOutlineInput))]
  }

  /** The workflow with the four marketing agents. */
  function MarketingSteps(): seq<WorkflowStep> {
    CreateMarketingWorkflow(InputValidatorAgent(), AudienceAnalyzerAgent(), ValuePropositionAgent(),
                            ContentOutlineGeneratorAgent())
  }

  // ---------------------------------------------------------------------
  // How the steps fit together

  /** The analyzer receives exactly the validator's cleaned dict. */
  lemma ValidatedInputReachesAnalyzer(payload: Fields, ctx: Context)
    requires ValidateMarketingInput(payload).Ok?
    ensures var out := ValidateMarketingInput(payload).value.output;
            PassValidatedInput(Map(out), ctx) == Ok(out["validated_input"])
  {
  }

  /** The value-proposition agent on a payload carrying the analyzer's
      insights: its benefits name the first pain point and the first
      motivation, never the fallbacks. */
  lemma ProposalFromInsights(product: Value, goal: string, a: Analysis)
    requires a.painPoints != [] && a.motivations != []
    ensures var proposal := ProposeValue(map["product_description" := product, "goal" := Str(goal),
                                             "audience_insights" := Map(Insights(a))]);
            && proposal.Ok?
            && proposal.value.output["core_message"] == Str(CoreMessage(product, Text.Lower(goal)))
            && proposal.value.output["key_benefits"] ==
                 List([Str("Solve " + a.painPoints[0]), Str("Enable " + a.motivations[0])])
  {
    var payload := map["product_description" := product, "goal" := Str(goal),
                       "audience_insights" := Map(Insights(a))];
    var insights := Insights(a);
    assert Get(payload, "audience_insights", Map(map[])) == Map(insights);
    var pains := Get(insights, "pain_points", List([]));
    var motives := Get(insights, "motivations", List([]));
    assert pains.List? && pains.items != [] && pains.items[0] == Str(a.painPoints[0]);
    assert motives.List? && motives.items != [] && motives.items[0] == Str(a.motivations[0]);
    assert "Solve" + " " + a.painPoints[0] == "Solve " + a.painPoints[0];
    assert "Enable" + " " + a.motivations[0] == "Enable " + a.motivations[0];
    assert Benefit("Solve", Get(insights, "pain_points", List([])), "Increase efficiency") ==
           Ok("Solve " + a.painPoints[0]);
    assert Benefit("Enable", Get(insights, "motivations", List([])), "Drive growth") ==
           Ok("Enable " + a.motivations[0]);
  }

  /** With the validator's output in the context (whatever else the context
      holds) and the analyzer's output as the previous payload, the value-proposition agent sees the cleaned
      product and goal and the analyzer's insights, and its benefits name
      the first pain point and first motivation; it never falls back. */
  lemma BenefitsComeFromInsights(payload: Fields, ctx: Context)
    requires ValidateMarketingInput(payload).Ok?
    requires ValidatorName in ctx && ctx[ValidatorName] == Map(ValidateMarketingInput(payload).value.output)
    ensures var clean := ValidateMarketingInput(payload).value.output["validated_input"].fields;
            var audience := AnalyzeAudience(clean);
            && audience.Ok?
            && PrepareValuePropInput(Map(audience.value.output), ctx).Ok?
            && var proposal := ProposeValue(PrepareValuePropInput(Map(audience.value.output), ctx).value.fields);
               var a := AudienceRules(Text.Lower(clean["target_audience"].s));
               && proposal.Ok?
               && proposal.value.output["core_message"] ==
                    Str(CoreMessage(clean["product_description"], Text.Lower(clean["goal"].s)))
               && proposal.value.output["key_benefits"] ==
                    List([Str("Solve " + a.painPoints[0]), Str("Enable " + a.motivations[0])])
  {
    var clean := ValidateMarketingInput(payload).value.output["validated_input"].fields;
    var audience := AnalyzeAudience(clean).value;
    var a := AudienceRules(Text.Lower(clean["target_audience"].s));
    AudienceRuleTable(Text.Lower(clean["target_audience"].s));
    assert audience.output == map["audience_insights" := Map(Insights(a))];
    assert ValidatedFromContext(ctx) == Ok(Map(clean));
    var input := PrepareValuePropInput(Map(audience.output), ctx).value.fields;
    assert input == map["product_description" := clean["product_description"], "goal" := clean["goal"],
                        "audience_insights" := Map(Insights(a))];
    ProposalFromInsights(clean["product_description"], clean["goal"].s, a);
  }

  /** The outline's headline is the value proposition's core message, its
      benefits section the key benefits, and its call to action names the
      lower-cased validated goal, whatever else the context and the
      validated input hold. */
  lemma OutlineFollowsProposal(proposalOutput: Fields, validated: Fields, goal: string, ctx: Context)
    requires ValidatorName in ctx && ctx[ValidatorName] == Map(map["validated_input" := Map(validated)])
    requires "goal" in validated && validated["goal"] == Str(goal)
    requires goal != []
    requires "core_message" in proposalOutput && "key_benefits" in proposalOutput
    ensures PrepareContentOutlineInput(Map(proposalOutput), ctx).Ok?
    ensures var outline := OutlineContent(PrepareContentOutlineInput(Map(proposalOutput), ctx).value.fields);
            && outline.Ok?
            && var o := outline.value.output["content_outline"].fields;
               && o["headline"] == proposalOutput["core_message"]
               && o["benefits_section"] == proposalOutput["key_benefits"]
               && o["call_to_action"] == Str(CallToAction(Text.Lower(goal)))
  {
  }
}
