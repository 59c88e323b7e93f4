/** The four rule-based agents of the marketing domain
    (`domains/marketing/agents/`): each is a `BaseAgent` whose `execute`
    reads the validated payload and returns an `Agentoutput`. The bodies of
    `execute` are modelled on the payload alone; they never read the
    context. */
module MarketingAgents {
  import opened Results
  import opened Values
  import opened Schemas
  import opened Agents
  import Text

  const ValidatorName := "marketing.input_validator"
  const AnalyzerName := "marketing.audience_analyzer"
  const ValuePropositionName := "marketing.value_proposition"
  const OutlineName := "marketing.content_outline_generator"

  /** `InputValidatorAgent.REQUIRED_KEYS`, in checking order. */
  const RequiredKeys: seq<string> := ["product_description", "target_audience", "goal"]

  // ---------------------------------------------------------------------
  // InputValidatorAgent

  /** The key is in the payload with a truthy value. */
  predicate Present(payload: Fields, key: string) {
    key in payload && Truthy(payload[key])
  }

  function MissingFieldMessage(key: string): string {
    "Missing required input field: '" + key + "'"
  }

  /** The first key of `keys` that is absent or falsy, if any: the loop of
      `execute` over `REQUIRED_KEYS`. */
  function FirstMissing(payload: Fields, keys: seq<string>): (r: Option<nat>)
    ensures r.None? <==> forall j :: 0 <= j < |keys| ==> Present(payload, keys[j])
    ensures r.Some? ==> r.value < |keys| && !Present(payload, keys[r.value])
                        && forall i :: 0 <= i < r.value ==> Present(payload, keys[i])
  {
    if keys == [] then None
    else if !Present(payload, keys[0]) then Some(0)
    else match FirstMissing(payload, keys[1..])
      case None => None
      case Some(j) => Some(j + 1)
  }

  /** `str(v).strip()`. */
  function Clean(v: Value): string {
    Text.Strip(ToStr(v))
  }

  /** `InputValidatorAgent.execute` on the payload: the first required key
      that is absent or falsy is a `ValueError` naming it; otherwise the
      output holds the three required values, stringified and stripped. */
  function ValidateMarketingInput(payload: Fields): (r: Result<AgentOutput>)
    ensures r.Ok? <==> forall j :: 0 <= j < |RequiredKeys| ==> Present(payload, RequiredKeys[j])
    ensures r.Err? ==>
              exists j :: 0 <= j < |RequiredKeys| && !Present(payload, RequiredKeys[j])
                          && (forall i :: 0 <= i < j ==> Present(payload, RequiredKeys[i]))
                          && r.error == Raise("ValueError", MissingFieldMessage(RequiredKeys[j]))
    ensures r.Ok? ==>
              && r.value.output.Keys == {"validated_input"}
              && r.value.output["validated_input"].Map?
              && var clean := r.value.output["validated_input"].fields;
                 && clean.Keys == {"product_description", "target_audience", "goal"}
                 && forall k :: k in clean ==> k in payload && clean[k] == Str(Clean(payload[k]))
    ensures r.Ok? ==> r.value.confidence == 1.0 && r.value.metadata == map["validated_by" := Str(ValidatorName)]
  {
    match FirstMissing(payload, RequiredKeys)
    case Some(j) => Err(Raise("ValueError", MissingFieldMessage(RequiredKeys[j])))
    case None =>
      assert Present(payload, RequiredKeys[0]) && Present(payload, RequiredKeys[1]) && Present(payload, RequiredKeys[2]);
      var clean := CleanFields(Clean(payload["product_description"]), Clean(payload["target_audience"]),
                               Clean(payload["goal"]));
      CleanedFromPayload(payload);
      Ok(AgentOutput(map["validated_input" := Map(clean)], 1.0, map["validated_by" := Str(ValidatorName)]))
  }

  /** Validation is stable: a validated payload whose cleaned values are all
      non-empty validates again to the same output. */
  lemma RevalidationIsStable(payload: Fields)
    requires ValidateMarketingInput(payload).Ok?
    requires var clean := ValidateMarketingInput(payload).value.output["validated_input"].fields;
             forall k :: k in clean ==> clean[k].s != []
    ensures var out := ValidateMarketingInput(payload).value;
            ValidateMarketingInput(out.output["validated_input"].fields) == Ok(out)
  {
    var out := ValidateMarketingInput(payload).value;
    var clean := out.output["validated_input"].fields;
    var pd, ta, goal := clean["product_description"].s, clean["target_audience"].s, clean["goal"].s;
    assert clean == CleanFields(pd, ta, goal);
    CleanIsStable(payload, clean, "product_description");
    CleanIsStable(payload, clean, "target_audience");
    CleanIsStable(payload, clean, "goal");
    CleanFieldsRevalidate(pd, ta, goal);
  }

  /** The `validated_input` dict with the given cleaned values. */
  function CleanFields(productDescription: string, targetAudience: string, goal: string): Fields {
    map["product_description" := Str(productDescription), "target_audience" := Str(targetAudience),
        "goal" := Str(goal)]
  }

  /** `CleanFields` built from the three payload values through any
      conversion `f` keeps the keys and maps each to `f` of its value. */
  lemma FieldsFrom(payload: Fields, f: Value -> string)
    requires "product_description" in payload && "target_audience" in payload && "goal" in payload
    ensures var clean := CleanFields(f(payload["product_description"]), f(payload["target_audience"]),
                                     f(payload["goal"]));
            && clean.Keys == {"product_description", "target_audience", "goal"}
            && forall k :: k in clean ==> k in payload && clean[k] == Str(f(payload[k]))
  {
    var clean := CleanFields(f(payload["product_description"]), f(payload["target_audience"]),
                             f(payload["goal"]));
    forall k | k in clean
      ensures k in payload && clean[k] == Str(f(payload[k]))
    {
      assert k == "product_description" || k == "target_audience" || k == "goal";
    }
  }

  /** The cleaned dict has the three required keys, each holding the
      cleaned payload value. */
  lemma CleanedFromPayload(payload: Fields)
    requires "product_description" in payload && "target_audience" in payload && "goal" in payload
    ensures var clean := CleanFields(Clean(payload["product_description"]), Clean(payload["target_audience"]),
                                     Clean(payload["goal"]));
            && clean.Keys == {"product_description", "target_audience", "goal"}
            && forall k :: k in clean ==> k in payload && clean[k] == Str(Clean(payload[k]))
  {
    FieldsFrom(payload, Clean);
  }

  /** Cleaning a cleaned value changes nothing. */
  lemma CleanIsStable(payload: Fields, clean: Fields, k: string)
    requires k in clean && k in payload && clean[k] == Str(Clean(payload[k]))
    ensures Clean(clean[k]) == clean[k].s
  {
    Text.StripIsIdempotent(ToStr(payload[k]));
  }

  lemma CleanFieldsRevalidate(pd: string, ta: string, goal: string)
    requires pd != [] && ta != [] && goal != []
    requires Clean(Str(pd)) == pd && Clean(Str(ta)) == ta && Clean(Str(goal)) == goal
    ensures ValidateMarketingInput(CleanFields(pd, ta, goal)) ==
              Ok(AgentOutput(map["validated_input" := Map(CleanFields(pd, ta, goal))], 1.0,
                             map["validated_by" := Str(ValidatorName)]))
  {
    var p := CleanFields(pd, ta, goal);
    assert p["product_description"] == Str(pd) && p["target_audience"] == Str(ta) && p["goal"] == Str(goal);
    assert Present(p, RequiredKeys[0]) && Present(p, RequiredKeys[1]) && Present(p, RequiredKeys[2]);
    assert FirstMissing(p, RequiredKeys).None?;
  }

  /** A value of white space only is truthy, so it passes the check, and
      comes out of it empty. */
  lemma BlankFieldPasses()
    ensures var payload := map["product_description" := Str("AI CRM tool"), "target_audience" := Str("SaaS founders"),
                               "goal" := Str("   ")];
            && ValidateMarketingInput(payload).Ok?
            && ValidateMarketingInput(payload).value.output["validated_input"].fields["goal"] == Str("")
  {
    assert Text.TextEnd("   ") == 0;
  }

  // ---------------------------------------------------------------------
  // AudienceAnalyzerAgent

  const DefaultPain := "general inefficiency"
  const DefaultMotivation := "improved outcomes"

  /** The pain points, motivations and tone the rules produce. */
  datatype Analysis = Analysis(painPoints: seq<string>, motivations: seq<string>, tone: string)

  /** The rules, in the order `execute` applies them: start professional
      with no entries; "founder" appends and sets a confident tone;
      "student" appends and sets an encouraging tone; no entry at all gives
      the general fallback. */
  function AudienceRules(audience: string): Analysis {
    var a := Analysis([], [], "professional");
    var a := if Text.Contains(audience, "founder")
             then Analysis(a.painPoints + ["limited time"], a.motivations + ["growth and scalability"], "confident")
             else a;
    var a := if Text.Contains(audience, "student")
             then Analysis(a.painPoints + ["budget constraints"], a.motivations + ["career growth"], "encouraging")
             else a;
    if a.painPoints == [] then Analysis([DefaultPain], [DefaultMotivation], a.tone) else a
  }

  /** The outcome of the rules for each combination of matches: student
      wins the tone over founder, and the two lists have equal length 1 or
      2. */
  lemma AudienceRuleTable(audience: string)
    ensures var founder := Text.Contains(audience, "founder");
            var student := Text.Contains(audience, "student");
            AudienceRules(audience) == Analysis(
              if founder && student then ["limited time", "budget constraints"]
              else if founder then ["limited time"]
              else if student then ["budget constraints"]
              else [DefaultPain],
              if founder && student then ["growth and scalability", "career growth"]
              else if founder then ["growth and scalability"]
              else if student then ["career growth"]
              else [DefaultMotivation],
              if student then "encouraging" else if founder then "confident" else "professional")
    ensures var a := AudienceRules(audience);
            |a.painPoints| == |a.motivations| && 1 <= |a.painPoints| <= 2
  {
    var none: seq<string> := [];
    assert none + ["limited time"] == ["limited time"];
    assert none + ["growth and scalability"] == ["growth and scalability"];
    assert none + ["budget constraints"] == ["budget constraints"];
    assert none + ["career growth"] == ["career growth"];
  }

  /** The insight dict the analyzer builds. */
  function Insights(a: Analysis): Fields {
    map["pain_points" := List(seq(|a.painPoints|, i requires 0 <= i < |a.painPoints| => Str(a.painPoints[i]))),
        "motivations" := List(seq(|a.motivations|, i requires 0 <= i < |a.motivations| => Str(a.motivations[i]))),
        "tone" := Str(a.tone)]
  }

  /** `AudienceAnalyzerAgent.execute` on the payload: the rules applied to
      the lower-cased `target_audience` (default `""`), which must be a
      string. */
  function AnalyzeAudience(payload: Fields): (r: Result<AgentOutput>)
    ensures r.Err? <==> "target_audience" in payload && !payload["target_audience"].Str?
    ensures r.Err? ==> r.error == NoAttribute(payload["target_audience"], "lower")
    ensures r.Ok? ==>
              var audience := Text.Lower(Get(payload, "target_audience", Str("")).s);
              && r.value.output == map["audience_insights" := Map(Insights(AudienceRules(audience)))]
              && r.value.confidence == 0.85
              && r.value.metadata == map["analyzed_by" := Str(AnalyzerName)]
  {
    match LowerOf(Get(payload, "target_audience", Str("")))
    case Err(e) => Err(e)
    case Ok(audience) =>
      Ok(AgentOutput(map["audience_insights" := Map(Insights(AudienceRules(audience)))], 0.85,
                     map["analyzed_by" := Str(AnalyzerName)]))
  }

  /** The analysis depends on the audience only through its lower-cased
      form, and its two lists always have the same length, 1 or 2. */
  lemma AudienceMatchIgnoresCase(payload: Fields, audience: string)
    ensures AnalyzeAudience(payload["target_audience" := Str(audience)])
            == AnalyzeAudience(payload["target_audience" := Str(Text.Lower(audience))])
    ensures var r := AnalyzeAudience(payload["target_audience" := Str(audience)]);
            && r.Ok?
            && var ins := r.value.output["audience_insights"].fields;
               && |ins["pain_points"].items| == |ins["motivations"].items|
               && 1 <= |ins["pain_points"].items| <= 2
  {
    Text.LowerIsIdempotent(audience);
    AudienceRuleTable(Text.Lower(audience));
  }

  // ---------------------------------------------------------------------
  // ValuePropositionAgent

  /** A benefit line: `f"{prefix} {items[0]}" if items else fallback`. */
  function Benefit(prefix: string, items: Value, fallback: string): (r: Result<string>)
    ensures !Truthy(items) ==> r == Ok(fallback)
    ensures items.List? && items.items != [] ==> r == Ok(prefix + " " + ToStr(items.items[0]))
    // only a truthy value that is neither a list nor a string cannot be subscripted by `[0]`
    ensures r.Err? <==> Truthy(items) && !items.List? && !items.Str?
  {
    if !Truthy(items) then Ok(fallback)
    else match FirstItem(items)
      case Err(e) => Err(e)
      case Ok(first) => Ok(prefix + " " + ToStr(first))
  }

  function CoreMessage(product: Value, loweredGoal: string): string {
    ToStr(product) + " helps you " + loweredGoal + " efficiently."
  }

  /** `ValuePropositionAgent.execute` on the payload: a core message from
      the product and the lower-cased goal, and two benefits from the first
      pain point and first motivation, if any. */
  function ProposeValue(payload: Fields): (r: Result<AgentOutput>)
    // `audience_insights.get(...)` needs a dict; `goal.lower()` a string
    ensures !Get(payload, "audience_insights", Map(map[])).Map? ==>
              r == Err(NoAttribute(Get(payload, "audience_insights", Map(map[])), "get"))
    ensures Get(payload, "audience_insights", Map(map[])).Map? && !Get(payload, "goal", Null).Str? ==>
              r == Err(NoAttribute(Get(payload, "goal", Null), "lower"))
    // with a dict of insights and a string goal, it succeeds exactly when both
    // benefit lines can be built, and otherwise fails with the first one's error
    ensures Get(payload, "audience_insights", Map(map[])).Map? && Get(payload, "goal", Null).Str? ==>
              var insights := Get(payload, "audience_insights", Map(map[])).fields;
              var solve := Benefit("Solve", Get(insights, "pain_points", List([])), "Increase efficiency");
              var enable := Benefit("Enable", Get(insights, "motivations", List([])), "Drive growth");
              && (r.Ok? <==> solve.Ok? && enable.Ok?)
              && (solve.Err? ==> r == Err(solve.error))
              && (solve.Ok? && enable.Err? ==> r == Err(enable.error))
    ensures r.Ok? ==>
              var insights := Get(payload, "audience_insights", Map(map[])).fields;
              var goal := Get(payload, "goal", Null);
              && goal.Str?
              && r.value.output.Keys == {"core_message", "key_benefits", "goal"}
              && r.value.output["core_message"] == Str(CoreMessage(Get(payload, "product_description", Null), Text.Lower(goal.s)))
              && r.value.output["goal"] == goal
              && r.value.output["key_benefits"].List?
              && |r.value.output["key_benefits"].items| == 2
              && Benefit("Solve", Get(insights, "pain_points", List([])), "Increase efficiency").Ok?
              && Benefit("Enable", Get(insights, "motivations", List([])), "Drive growth").Ok?
              && r.value.output["key_benefits"].items[0] ==
                   Str(Benefit("Solve", Get(insights, "pain_points", List([])), "Increase efficiency").value)
              && r.value.output["key_benefits"].items[1] ==
                   Str(Benefit("Enable", Get(insights, "motivations", List([])), "Drive growth").value)
              && r.value.confidence == 0.9
              && r.value.metadata == map["generated_by" := Str(ValuePropositionName)]
  {
    var product := Get(payload, "product_description", Null);
    var goal := Get(payload, "goal", Null);
    var insights := Get(payload, "audience_insights", Map(map[]));
    match GetFrom(insights, "pain_points", List([]))
    case Err(e) => Err(e)
    case Ok(painPoints) =>
      var motivations := GetFrom(insights, "motivations", List([])).value;
      match LowerOf(goal)
      case Err(e) => Err(e)
      case Ok(loweredGoal) =>
        match Benefit("Solve", painPoints, "Increase efficiency")
        case Err(e) => Err(e)
        case Ok(first) =>
          match Benefit("Enable", motivations, "Drive growth")
          case Err(e) => Err(e)
          case Ok(second) =>
            Ok(AgentOutput(map["core_message" := Str(CoreMessage(product, loweredGoal)),
                               "key_benefits" := List([Str(first), Str(second)]),
                               "goal" := goal],
                           0.9, map["generated_by" := Str(ValuePropositionName)]))
  }

  /** Without pain points or motivations the benefits fall back to the two
      fixed lines; a missing goal (`None`) fails. */
  lemma ValuePropositionFallbacks(payload: Fields)
    requires "audience_insights" !in payload
    ensures Get(payload, "goal", Null).Str? ==>
              && ProposeValue(payload).Ok?
              && ProposeValue(payload).value.output["key_benefits"] == List([Str("Increase efficiency"), Str("Drive growth")])
    ensures "goal" !in payload ==> ProposeValue(payload) == Err(NoAttribute(Null, "lower"))
  {
  }

  // ---------------------------------------------------------------------
  // ContentOutlineGeneratorAgent

  const DefaultGoal := "achieve your goals"

  lemma DefaultGoalIsLower()
    ensures Text.Lower(DefaultGoal) == DefaultGoal
  {
    Text.LowerKeepsLower(DefaultGoal);
  }

  /** `payload.get("goal") or "achieve your goals"`. */
  function GoalOrDefault(payload: Fields): (g: Value)
    ensures Truthy(g)
    ensures Present(payload, "goal") ==> g == payload["goal"]
  {
    if Present(payload, "goal") then payload["goal"] else Str(DefaultGoal)
  }

  function Introduction(loweredGoal: string): string {
    "Are you struggling to " + loweredGoal + "?"
  }

  function CallToAction(loweredGoal: string): string {
    "Start today and " + loweredGoal + " with confidence."
  }

  /** `ContentOutlineGeneratorAgent.execute` on the payload: an outline
      whose headline is the core message, whose benefits are the key
      benefits, and whose introduction and call to action name the
      lower-cased goal. */
  function OutlineContent(payload: Fields): (r: Result<AgentOutput>)
    ensures r.Err? <==> !GoalOrDefault(payload).Str?
    ensures r.Err? ==> r.error == NoAttribute(GoalOrDefault(payload), "lower")
    ensures r.Ok? ==>
              var goal := Text.Lower(GoalOrDefault(payload).s);
              && r.value.output.Keys == {"content_outline"}
              && r.value.output["content_outline"] == Map(map[
                   "headline" := Get(payload, "core_message", Null),
                   "introduction" := Str(Introduction(goal)),
                   "benefits_section" := Get(payload, "key_benefits", List([])),
                   "call_to_action" := Str(CallToAction(goal))])
              && r.value.confidence == 0.85
              && r.value.metadata == map["generated_by" := Str(OutlineName)]
  {
    var coreMessage := Get(payload, "core_message", Null);
    var keyBenefits := Get(payload, "key_benefits", List([]));
    match LowerOf(GoalOrDefault(payload))
    case Err(e) => Err(e)
    case Ok(goal) =>
      var outline := map["headline" := coreMessage, "introduction" := Str(Introduction(goal)),
                         "benefits_section" := keyBenefits, "call_to_action" := Str(CallToAction(goal))];
      Ok(AgentOutput(map["content_outline" := Map(outline)], 0.85, map["generated_by" := Str(OutlineName)]))
  }

  lemma OutlineLinesNameGoal(goal: string)
    ensures Text.Contains(CallToAction(goal), goal) && Text.Contains(Introduction(goal), goal)
  {
    Text.OccursBetween("Start today and ", goal, " with confidence.");
    Text.OccursBetween("Are you struggling to ", goal, "?");
  }

  /** The call to action and the introduction both contain the lower-cased
      goal, which is the default goal when none was given. */
  lemma OutlineNamesGoal(payload: Fields)
    requires OutlineContent(payload).Ok?
    ensures var goal := Text.Lower(GoalOrDefault(payload).s);
            var outline := OutlineContent(payload).value.output["content_outline"].fields;
            && Text.Contains(outline["call_to_action"].s, goal)
            && Text.Contains(outline["introduction"].s, goal)
            && (!Present(payload, "goal") ==> goal == DefaultGoal)
  {
    var goal := Text.Lower(GoalOrDefault(payload).s);
    var outline := OutlineContent(payload).value.output["content_outline"].fields;
    assert outline["call_to_action"] == Str(CallToAction(goal));
    assert outline["introduction"] == Str(Introduction(goal));
    OutlineLinesNameGoal(goal);
    if !Present(payload, "goal") {
      DefaultGoalIsLower();
    }
  }

  // ---------------------------------------------------------------------
  // The agents

  /** An `execute` that returns an `Agentoutput` instance. */
  function AsRaw(r: Result<AgentOutput>): Result<RawResult> {
    match r
    case Ok(o) => Ok(RawOutput(o))
    case Err(e) => Err(e)
  }

  function ExecuteValidator(vin: AgentInput, ctx: Context): Result<RawResult> {
    AsRaw(ValidateMarketingInput(vin.payload))
  }

  function ExecuteAnalyzer(vin: AgentInput, ctx: Context): Result<RawResult> {
    AsRaw(AnalyzeAudience(vin.payload))
  }

  function ExecuteValueProposition(vin: AgentInput, ctx: Context): Result<RawResult> {
    AsRaw(ProposeValue(vin.payload))
  }

  function ExecuteOutline(vin: AgentInput, ctx: Context): Result<RawResult> {
    AsRaw(OutlineContent(vin.payload))
  }

  /** A marketing agent: `BaseAgent.__init__` with `Agentinput`/`Agentoutput`,
      no allowed tool and the default hooks, and its own `execute`. */
  function MarketingAgent(name: string, description: string,
                          execute: (AgentInput, Context) -> Result<RawResult>): Agent {
    Agent(name, description, ValidateAgentInput, ValidateAgentOutput, {}, map[], DefaultHooks,
          NoPrepare, execute, NoFinalize, NeverRaises)
  }

  /** That is what the base constructor builds, with `execute` overridden. */
  lemma MarketingAgentIsBaseAgent(name: string, description: string,
                                  execute: (AgentInput, Context) -> Result<RawResult>)
    ensures MarketingAgent(name, description, execute) == NewAgent(name, description, Some([]), None).(execute := execute)
  {
  }

  function InputValidatorAgent(): Agent {
    MarketingAgent(ValidatorName, "Validates initial marketing input", ExecuteValidator)
  }

  function AudienceAnalyzerAgent(): Agent {
    MarketingAgent(AnalyzerName, "Analyzes target audience and extracts insights", ExecuteAnalyzer)
  }

  function ValuePropositionAgent(): Agent {
    MarketingAgent(ValuePropositionName, "Generates core message and key benefits", ExecuteValueProposition)
  }

  function ContentOutlineGeneratorAgent(): Agent {
    MarketingAgent(OutlineName, "Generates structured marketing content outline", ExecuteOutline)
  }
}
