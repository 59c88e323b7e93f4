/** The shapes of `engine/agent_base.py`: `Agentinput`, `Agentoutput` and
    `AgentrunRecord`, the pydantic validation of the first two, and the
    structured result `Orchestrator.run` returns. */
module Schemas {
  import opened Results
  import opened Values

  /** A confidence is a float constrained to `[0, 1]` by the output shape. */
  type Confidence = r: real | 0.0 <= r <= 1.0

  datatype AgentInput = AgentInput(payload: Fields, metadata: Fields)

  datatype AgentOutput = AgentOutput(output: Fields, confidence: Confidence, metadata: Fields)

  datatype Status = Running | Success | Error

  /** `str(uuid.uuid4())`, abstracted to a fresh token. */
  datatype RunId = RunId(n: nat)

  /** One agent invocation. Timestamps are readings of an abstract clock. */
  datatype RunRecord = RunRecord(
    runId: RunId,
    agentName: string,
    startTs: int,
    endTs: Option<int>,
    durationS: Option<int>,
    status: Status,
    input: Fields,
    output: Option<Fields>,
    error: Option<string>,
    tokensUsed: Option<int>,
    extra: Fields)

  /** A record in one of its two terminal states, with its timing filled in. */
  ghost predicate Finished(rec: RunRecord) {
    && rec.status != Running
    && rec.endTs.Some?
    && rec.durationS.Some?
    && rec.durationS.value == rec.endTs.value - rec.startTs
  }

  /** What `Orchestrator.run` returns: `{status, final_output, rec_history}`. */
  datatype WorkflowStatus = WorkflowSuccess | WorkflowError

  datatype WorkflowResult = WorkflowResult(status: WorkflowStatus, finalOutput: AgentOutput, history: seq<RunRecord>)

  /** A pydantic `ValidationError` listing the fields that failed, one
      message each, in declaration order. */
  function ValidationError(model: string, failures: seq<(string, string)>): (e: Exc)
    requires failures != []
    ensures e.kind == "ValidationError"
  {
    var n := |failures|;
    Raise("ValidationError",
          Text.NatToDecimal(n) + (if n == 1 then " validation error for " else " validation errors for ") + model
          + FailureLines(failures))
  }

  function FailureLines(failures: seq<(string, string)>): string {
    if failures == [] then ""
    else "\n" + failures[0].0 + "\n  " + failures[0].1 + FailureLines(failures[1..])
  }

  /** The failure for a `Dict[str, Any]` field given a value that is not a dict. */
  function DictField(raw: Fields, field: string): seq<(string, string)> {
    if field in raw && !raw[field].Map? then [(field, "Input should be a valid dictionary")] else []
  }

  /** The dict a `Dict[str, Any]` field with an empty default holds. */
  function DictOrEmpty(raw: Fields, field: string): Fields
    requires DictField(raw, field) == []
  {
    if field in raw then raw[field].fields else map[]
  }

  /** `Agentinput(**raw)`: `payload` and `metadata` must each be absent (and
      default to `{}`) or a dict; any other key is ignored. */
  function ValidateAgentInput(raw: Fields): (r: Result<AgentInput>)
    ensures r.Ok? <==> (forall f :: f in {"payload", "metadata"} && f in raw ==> raw[f].Map?)
    ensures r.Ok? ==> r.value.payload == (if "payload" in raw then raw["payload"].fields else map[])
    ensures r.Ok? ==> r.value.metadata == (if "metadata" in raw then raw["metadata"].fields else map[])
    ensures r.Err? ==> r.error.kind == "ValidationError"
  {
    var failures := DictField(raw, "payload") + DictField(raw, "metadata");
    if failures != [] then Err(ValidationError("Agentinput", failures))
    else Ok(AgentInput(DictOrEmpty(raw, "payload"), DictOrEmpty(raw, "metadata")))
  }

  /** The number a pydantic `float` field accepts from a value (lax mode:
      `int`, `float` and `bool`). */
  function AsFloat(v: Value): Option<real> {
    match v
    case Int(i) => Some(i as real)
    case Real(x) => Some(x)
    case Bool(b) => Some(if b then 1.0 else 0.0)
    case _ => None
  }

  function ConfidenceField(raw: Fields): seq<(string, string)> {
    if "confidence" !in raw then []
    else match AsFloat(raw["confidence"])
      case None => [("confidence", "Input should be a valid number")]
      case Some(x) =>
        if x < 0.0 then [("confidence", "Input should be greater than or equal to 0")]
        else if x > 1.0 then [("confidence", "Input should be less than or equal to 1")]
        else []
  }

  /** `Agentoutput(**raw)`: `output` and `metadata` are dicts defaulting to
      `{}`, `confidence` a number in `[0, 1]` defaulting to `1.0`. */
  function ValidateAgentOutput(raw: Fields): (r: Result<AgentOutput>)
    ensures r.Ok? <==> && (forall f :: f in {"output", "metadata"} && f in raw ==> raw[f].Map?)
                       && ("confidence" in raw ==> AsFloat(raw["confidence"]).Some?
                                                   && 0.0 <= AsFloat(raw["confidence"]).value <= 1.0)
    ensures r.Ok? && "confidence" !in raw ==> r.value.confidence == 1.0
    ensures r.Ok? && "confidence" in raw ==> r.value.confidence == AsFloat(raw["confidence"]).value
    ensures r.Ok? ==> r.value.output == (if "output" in raw then raw["output"].fields else map[])
    ensures r.Ok? ==> r.value.metadata == (if "metadata" in raw then raw["metadata"].fields else map[])
    ensures r.Err? ==> r.error.kind == "ValidationError"
  {
    var failures := DictField(raw, "output") + ConfidenceField(raw) + DictField(raw, "metadata");
    if failures != [] then Err(ValidationError("Agentoutput", failures))
    else
      var c: Confidence := if "confidence" in raw then AsFloat(raw["confidence"]).value else 1.0;
      Ok(AgentOutput(DictOrEmpty(raw, "output"), c, DictOrEmpty(raw, "metadata")))
  }

  /** `model_dump()` of an output. */
  function DumpOutput(o: AgentOutput): Fields {
    map["output" := Map(o.output), "confidence" := Real(o.confidence), "metadata" := Map(o.metadata)]
  }

  /** Validating a dumped output gives the output back. */
  lemma OutputDumpRoundTrip(o: AgentOutput)
    ensures ValidateAgentOutput(DumpOutput(o)) == Ok(o)
  {
  }
}
