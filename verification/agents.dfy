/** `BaseAgent` of `engine/agent_base.py`: tool registration, the agent-local
    hooks, and the defensive `run` wrapper around an agent's
    prepare/execute/finalize.

    An agent is a value; what its Python subclass overrides (`prepare`,
    `execute`, `finalize`, the two schemas) are function fields. Agent-local
    hooks are tokens; whether a hook raises when called with a record is
    the oracle `hookRaises`, because a hook's failure is only ever logged.
    A hook here can only raise: it cannot change the record or the agent
    it is passed. */
module Agents {
  import opened Results
  import opened Values
  import opened Schemas

  datatype HookFn = HookFn(id: nat)

  datatype Tool = Tool(id: nat)

  /** The shared run-scoped context: agent name to that agent's output. */
  type Context = Fields

  /** What `execute` may return before coercion: a dict, an `Agentoutput`,
      or another object converted by its `.dict()` method if it has one and
      by `dict(...)` otherwise (the conversion may itself raise). */
  datatype RawResult =
    | RawDict(fields: Fields)
    | RawOutput(out: AgentOutput)
    | RawObject(hasDictMethod: bool, conversion: Result<Fields>)

  datatype Agent = Agent(
    name: string,
    description: string,
    inputSchema: Fields -> Result<AgentInput>,
    outputSchema: Fields -> Result<AgentOutput>,
    allowedTools: set<string>,
    tools: map<string, Tool>,
    hooks: map<string, seq<HookFn>>,
    prepare: (AgentInput, Context) -> Outcome,
    execute: (AgentInput, Context) -> Result<RawResult>,
    finalize: (AgentInput, AgentOutput, Context) -> Outcome,
    hookRaises: (HookFn, RunRecord) -> bool)

  /** One step of an invocation, in the order it happened: an agent-local
      hook call (with the record it was given and whether it raised), or a
      lifecycle stage. */
  datatype Step =
    | HookCall(phase: string, hook: HookFn, seen: RunRecord, raised: bool)
    | Prepare
    | Execute
    | Finalize

  /** What `run` returns, `(Agentoutput, AgentrunRecord)`, with the trace of
      what it called. */
  datatype Invocation = Invocation(output: AgentOutput, record: RunRecord, trace: seq<Step>)

  const DefaultHooks: map<string, seq<HookFn>> := map["before" := [], "after" := [], "on_error" := []]

  /** The base-class `prepare`, `finalize` and `execute`. */
  function NoPrepare(vin: AgentInput, ctx: Context): Outcome {
    Pass
  }

  function NoFinalize(vin: AgentInput, result: AgentOutput, ctx: Context): Outcome {
    Pass
  }

  function NotImplemented(vin: AgentInput, ctx: Context): Result<RawResult> {
    Err(Raise("NotImplementedError", "Agents must implement execute(...)"))
  }

  function NeverRaises(h: HookFn, rec: RunRecord): bool {
    false
  }

  /** `BaseAgent.__init__` with the default shapes and base-class lifecycle:
      missing tools become the empty set, missing (or empty) hooks the three
      empty phases, and no tool is registered yet. */
  function NewAgent(name: string, description: string, allowedTools: Option<seq<string>>,
                    hooks: Option<map<string, seq<HookFn>>>): (a: Agent)
    ensures a.name == name && a.description == description && a.tools == map[]
    ensures forall t :: t in a.allowedTools <==> allowedTools.Some? && t in allowedTools.value
    ensures a.hooks == (if hooks.None? || hooks.value == map[] then DefaultHooks else hooks.value)
    ensures forall raw :: a.inputSchema(raw) == ValidateAgentInput(raw)
    ensures forall raw :: a.outputSchema(raw) == ValidateAgentOutput(raw)
    // the base class's `prepare` and `finalize` do nothing; its `execute` raises
    ensures forall vin, ctx :: a.prepare(vin, ctx) == Pass
    ensures forall vin, out, ctx :: a.finalize(vin, out, ctx) == Pass
    ensures forall vin, ctx :: a.execute(vin, ctx).Err? && a.execute(vin, ctx).error.kind == "NotImplementedError"
  {
    Agent(name, description, ValidateAgentInput, ValidateAgentOutput,
          if allowedTools.None? then {} else set t | t in allowedTools.value,
          map[],
          if hooks.None? || hooks.value == map[] then DefaultHooks else hooks.value,
          NoPrepare, NotImplemented, NoFinalize, NeverRaises)
  }

  /** `register_tool`: binds (or rebinds) the name, nothing else changes. */
  function RegisterTool(a: Agent, toolName: string, tool: Tool): (r: Agent)
    ensures r.tools.Keys == a.tools.Keys + {toolName} && r.tools[toolName] == tool
    ensures forall n :: n in a.tools && n != toolName ==> r.tools[n] == a.tools[n]
    ensures r == a.(tools := r.tools)
  {
    a.(tools := a.tools[toolName := tool])
  }

  /** `get_tool`: the tool must be both allowed and registered. */
  function GetTool(a: Agent, toolName: string): (r: Result<Tool>)
    ensures toolName !in a.allowedTools ==>
              r == Err(KeyError("Tool '" + toolName + "' is not allowed for agent '" + a.name + "'."))
    ensures toolName in a.allowedTools && toolName !in a.tools ==>
              r == Err(KeyError("Tool '" + toolName + "' not registered in agent '" + a.name + "'."))
    ensures r.Ok? <==> toolName in a.allowedTools && toolName in a.tools
    ensures r.Ok? ==> r.value == a.tools[toolName]
  {
    if toolName !in a.allowedTools then
      Err(KeyError("Tool '" + toolName + "' is not allowed for agent '" + a.name + "'."))
    else if toolName !in a.tools then
      Err(KeyError("Tool '" + toolName + "' not registered in agent '" + a.name + "'."))
    else Ok(a.tools[toolName])
  }

  /** A registered tool is returned exactly when it is allowed, and
      registering one name leaves the lookup of every other name alone. */
  lemma RegisteredToolIsFound(a: Agent, name: string, tool: Tool, other: string)
    ensures GetTool(RegisterTool(a, name, tool), name) ==
              (if name in a.allowedTools then Ok(tool)
               else Err(KeyError("Tool '" + name + "' is not allowed for agent '" + a.name + "'.")))
    ensures other != name ==> GetTool(RegisterTool(a, name, tool), other) == GetTool(a, other)
  {
  }

  /** `add_hook`: an unknown phase is a `ValueError`; otherwise `fn` is
      appended to that phase and nothing else changes. */
  function AddHook(a: Agent, when: string, fn: HookFn): (r: Result<Agent>)
    ensures r.Err? <==> when !in a.hooks
    ensures r.Err? ==> r.error == Raise("ValueError", "Unknown hook phase '" + when + "'")
    ensures r.Ok? ==> r.value.hooks.Keys == a.hooks.Keys
    ensures r.Ok? ==> r.value.hooks[when] == a.hooks[when] + [fn]
    ensures r.Ok? ==> forall p :: p in a.hooks && p != when ==> r.value.hooks[p] == a.hooks[p]
    ensures r.Ok? ==> r.value == a.(hooks := r.value.hooks)
  {
    if when !in a.hooks then Err(Raise("ValueError", "Unknown hook phase '" + when + "'"))
    else Ok(a.(hooks := a.hooks[when := a.hooks[when] + [fn]]))
  }

  /** `self.hooks.get(when, [])`. */
  function PhaseHooks(a: Agent, phase: string): seq<HookFn> {
    if phase in a.hooks then a.hooks[phase] else []
  }

  /** `_run_hooks`: every hook of the phase, in registration order, called
      with the record; a hook that raises is logged and the next one runs. */
  function RunHooks(a: Agent, phase: string, rec: RunRecord): (t: seq<Step>)
    ensures |t| == |PhaseHooks(a, phase)|
    ensures forall i :: 0 <= i < |t| ==>
              t[i] == HookCall(phase, PhaseHooks(a, phase)[i], rec, a.hookRaises(PhaseHooks(a, phase)[i], rec))
  {
    var hs := PhaseHooks(a, phase);
    seq(|hs|, i requires 0 <= i < |hs| => HookCall(phase, hs[i], rec, a.hookRaises(hs[i], rec)))
  }

  /** A hook added with `add_hook` is called last among its phase's hooks. */
  lemma AddedHookRunsLast(a: Agent, when: string, fn: HookFn, rec: RunRecord)
    requires when in a.hooks
    ensures var t := RunHooks(AddHook(a, when, fn).value, when, rec);
            |t| == |a.hooks[when]| + 1 && t[|t| - 1].hook == fn
            && t[..|t| - 1] == RunHooks(a, when, rec)
  {
  }

  /** Result coercion: an `Agentoutput` is used as it is; a dict goes
      through the output shape; any other object is first converted. */
  function Coerce(a: Agent, raw: RawResult): (r: Result<AgentOutput>)
    ensures raw.RawOutput? ==> r == Ok(raw.out)
    ensures raw.RawDict? ==> r == a.outputSchema(raw.fields)
    ensures raw.RawObject? && raw.conversion.Err? ==> r == Err(raw.conversion.error)
    ensures raw.RawObject? && raw.conversion.Ok? ==> r == a.outputSchema(raw.conversion.value)
  {
    match raw
    case RawDict(fields) => a.outputSchema(fields)
    case RawOutput(out) => Ok(out)
    case RawObject(_, conversion) =>
      match conversion
      case Err(e) => Err(e)
      case Ok(fields) => a.outputSchema(fields)
  }

  /** An output returned as a dict, or as an object whose conversion gives
      that dict, comes out of a default output shape unchanged, as does an
      `Agentoutput` returned as it is. */
  lemma DumpedOutputCoerces(a: Agent, o: AgentOutput, hasDictMethod: bool)
    requires forall raw :: a.outputSchema(raw) == ValidateAgentOutput(raw)
    ensures Coerce(a, RawDict(DumpOutput(o))) == Ok(o)
    ensures Coerce(a, RawObject(hasDictMethod, Ok(DumpOutput(o)))) == Ok(o)
    ensures Coerce(a, RawOutput(o)) == Ok(o)
  {
    OutputDumpRoundTrip(o);
  }

  /** The guarded part of `run`: prepare, execute, coercion, finalize. */
  datatype CoreRun = CoreRun(result: Result<AgentOutput>, stages: seq<Step>)

  /** Stops at the first failure and reports its exception; `finalize` is
      reached only when coercion succeeded, and success means it passed. */
  function Core(a: Agent, vin: AgentInput, ctx: Context): (c: CoreRun)
    ensures c.stages == [Prepare] || c.stages == [Prepare, Execute] || c.stages == [Prepare, Execute, Finalize]
    ensures a.prepare(vin, ctx).Fail? ==> c == CoreRun(Err(a.prepare(vin, ctx).error), [Prepare])
    ensures a.prepare(vin, ctx).Pass? && a.execute(vin, ctx).Err? ==>
              c == CoreRun(Err(a.execute(vin, ctx).error), [Prepare, Execute])
    ensures c.result.Ok? <==> && a.prepare(vin, ctx).Pass?
                              && a.execute(vin, ctx).Ok?
                              && Coerce(a, a.execute(vin, ctx).value).Ok?
                              && a.finalize(vin, Coerce(a, a.execute(vin, ctx).value).value, ctx).Pass?
    ensures c.result.Ok? ==> c.stages == [Prepare, Execute, Finalize]
                             && c.result.value == Coerce(a, a.execute(vin, ctx).value).value
  {
    match a.prepare(vin, ctx)
    case Fail(e) => CoreRun(Err(e), [Prepare])
    case Pass =>
      match a.execute(vin, ctx)
      case Err(e) => CoreRun(Err(e), [Prepare, Execute])
      case Ok(raw) =>
        match Coerce(a, raw)
        case Err(e) => CoreRun(Err(e), [Prepare, Execute])
        case Ok(out) =>
          match a.finalize(vin, out, ctx)
          case Fail(e) => CoreRun(Err(e), [Prepare, Execute, Finalize])
          case Pass => CoreRun(Ok(out), [Prepare, Execute, Finalize])
  }

  /** The record `run` creates before validating. */
  function Started(a: Agent, raw: Fields, id: RunId, t0: int): RunRecord {
    RunRecord(id, a.name, t0, None, None, Running, raw, None, None, None, map[])
  }

  const ValidationFailureOutput: AgentOutput := AgentOutput(map[], 0.0, map["error" := Str("input_validation")])

  /** The output `run` returns for an exception in the guarded part. */
  function FailureOutput(e: Exc): AgentOutput {
    AgentOutput(map["error" := Str(e.message)], 0.0, map["exception_type" := Str(e.kind)])
  }

  /** The non-hook steps of a trace. */
  function Stages(t: seq<Step>): seq<Step> {
    if t == [] then []
    else (if t[0].HookCall? then [] else [t[0]]) + Stages(t[1..])
  }

  lemma {:induction false} StagesAppend(s: seq<Step>, t: seq<Step>)
    ensures Stages(s + t) == Stages(s) + Stages(t)
  {
    if s == [] {
      assert s + t == t;
    } else {
      StagesAppend(s[1..], t);
      assert (s + t)[0] == s[0];
      assert (s + t)[1..] == s[1..] + t;
      var head := if s[0].HookCall? then [] else [s[0]];
      assert Stages(s + t) == head + Stages(s[1..] + t);
      assert Stages(s) == head + Stages(s[1..]);
    }
  }

  lemma {:induction false} HooksHaveNoStages(t: seq<Step>)
    requires forall i :: 0 <= i < |t| ==> t[i].HookCall?
    ensures Stages(t) == []
  {
    if t != [] {
      HooksHaveNoStages(t[1..]);
    }
  }

  /** Hook calls around a run of stages leave exactly those stages. */
  lemma StagesBetweenHooks(before: seq<Step>, mid: seq<Step>, after: seq<Step>)
    requires forall i :: 0 <= i < |before| ==> before[i].HookCall?
    requires forall i :: 0 <= i < |after| ==> after[i].HookCall?
    requires mid == [] || mid == [Prepare] || mid == [Prepare, Execute] || mid == [Prepare, Execute, Finalize]
    ensures Stages(before + mid + after) == mid
  {
    HooksHaveNoStages(before);
    HooksHaveNoStages(after);
    StagesAppend(before + mid, after);
    StagesAppend(before, mid);
    assert Stages([Finalize]) == [Finalize];
    assert Stages([Execute]) == [Execute];
    assert Stages([Execute, Finalize]) == [Execute] + Stages([Finalize]);
    assert Stages([Prepare]) == [Prepare];
    assert Stages([Prepare, Execute]) == [Prepare] + Stages([Execute]);
    assert Stages([Prepare, Execute, Finalize]) == [Prepare] + Stages([Execute, Finalize]);
  }

  /** `BaseAgent.run`. `raw` is the input dict, `id` the fresh run id and
      `t0`/`t1` the two clock readings it takes (start and end). */
  function Run(a: Agent, raw: Fields, ctx: Context, id: RunId, t0: int, t1: int): (r: Invocation)
    // the record is terminal, with its identity and timing
    ensures Finished(r.record)
    ensures r.record.status == Success || r.record.status == Error
    ensures r.record.runId == id && r.record.agentName == a.name && r.record.input == raw
    ensures r.record.startTs == t0 && r.record.endTs == Some(t1)
    ensures r.record.tokensUsed.None? && r.record.extra == map[]
    // input validation failure
    ensures a.inputSchema(raw).Err? ==>
              && r.record.status == Error
              && r.record.error == Some("InputvalidationError: " + a.inputSchema(raw).error.message)
              && r.record.output.None?
              && r.output == ValidationFailureOutput
              && r.trace == RunHooks(a, "on_error", r.record)
    // success exactly when validation and the guarded part both succeed
    ensures r.record.status == Success <==>
              a.inputSchema(raw).Ok? && Core(a, a.inputSchema(raw).value, ctx).result.Ok?
    ensures r.record.status == Success ==>
              && r.output == Core(a, a.inputSchema(raw).value, ctx).result.value
              && r.record.output == Some(r.output.output)
              && r.record.error.None?
              && r.trace == RunHooks(a, "before", Started(a, raw, id, t0))
                            + [Prepare, Execute, Finalize]
                            + RunHooks(a, "after", r.record)
    // an exception in prepare, execute, coercion or finalize
    ensures a.inputSchema(raw).Ok? && Core(a, a.inputSchema(raw).value, ctx).result.Err? ==>
              var c := Core(a, a.inputSchema(raw).value, ctx);
              && r.record.status == Error
              && r.record.output.None?
              && r.record.error == Some(c.result.error.kind + ": " + c.result.error.message + "\n"
                                        + c.result.error.traceback)
              && r.output == FailureOutput(c.result.error)
              && r.trace == RunHooks(a, "before", Started(a, raw, id, t0)) + c.stages
                            + RunHooks(a, "on_error", r.record)
  {
    var started := Started(a, raw, id, t0);
    match a.inputSchema(raw)
    case Err(e) =>
      var rec := started.(status := Error, error := Some("InputvalidationError: " + e.message),
                          endTs := Some(t1), durationS := Some(t1 - t0));
      Invocation(ValidationFailureOutput, rec, RunHooks(a, "on_error", rec))
    case Ok(vin) =>
      var before := RunHooks(a, "before", started);
      var core := Core(a, vin, ctx);
      match core.result
      case Ok(out) =>
        var rec := started.(status := Success, output := Some(out.output),
                            endTs := Some(t1), durationS := Some(t1 - t0));
        Invocation(out, rec, before + core.stages + RunHooks(a, "after", rec))
      case Err(e) =>
        var rec := started.(status := Error, error := Some(e.kind + ": " + e.message + "\n" + e.traceback),
                            endTs := Some(t1), durationS := Some(t1 - t0));
        Invocation(FailureOutput(e), rec, before + core.stages + RunHooks(a, "on_error", rec))
  }

  /** The lifecycle order: a run whose input fails validation reaches no
      stage; a successful run reaches prepare, execute and finalize exactly
      once each, in that order; a failed one stops at the stage that raised.
      Only `on_error` hooks follow a failure and only `after` hooks follow a
      success. */
  lemma LifecycleOrder(a: Agent, raw: Fields, ctx: Context, id: RunId, t0: int, t1: int)
    ensures var r := Run(a, raw, ctx, id, t0, t1);
            && (a.inputSchema(raw).Err? ==> Stages(r.trace) == [])
            && (r.record.status == Success ==> Stages(r.trace) == [Prepare, Execute, Finalize])
            && (a.inputSchema(raw).Ok? && r.record.status == Error ==>
                  Stages(r.trace) == Core(a, a.inputSchema(raw).value, ctx).stages)
  {
    var r := Run(a, raw, ctx, id, t0, t1);
    var started := Started(a, raw, id, t0);
    if a.inputSchema(raw).Err? {
      StagesBetweenHooks([], [], r.trace);
      assert [] + [] + r.trace == r.trace;
    } else {
      var c := Core(a, a.inputSchema(raw).value, ctx);
      var phase := if r.record.status == Success then "after" else "on_error";
      StagesBetweenHooks(RunHooks(a, "before", started), c.stages, RunHooks(a, phase, r.record));
    }
  }

  /** The run id and the clock readings only reach the record's identity
      and timing: two runs of an agent on the same input and context agree
      on the output, the status, the recorded output and the error, and
      reach the same stages. */
  lemma RunIgnoresIdAndClock(a: Agent, raw: Fields, ctx: Context, id1: RunId, t0: int, t1: int,
                             id2: RunId, u0: int, u1: int)
    ensures var r1 := Run(a, raw, ctx, id1, t0, t1);
            var r2 := Run(a, raw, ctx, id2, u0, u1);
            && r1.output == r2.output
            && r1.record.status == r2.record.status
            && r1.record.output == r2.record.output
            && r1.record.error == r2.record.error
            && r1.record.input == r2.record.input
            && |r1.trace| == |r2.trace|
            && forall i :: 0 <= i < |r1.trace| ==> !r1.trace[i].HookCall? ==> r1.trace[i] == r2.trace[i]
  {
  }

  /** The input shapes of every agent built by `NewAgent` raise nothing but
      pydantic's `ValidationError`, the one exception `run` catches while
      validating. */
  lemma DefaultInputShapeRaisesValidationError(name: string, description: string,
                                               allowedTools: Option<seq<string>>,
                                               hooks: Option<map<string, seq<HookFn>>>, raw: Fields)
    ensures var a := NewAgent(name, description, allowedTools, hooks);
            a.inputSchema(raw).Err? ==> a.inputSchema(raw).error.kind == "ValidationError"
  {
  }

  /** A hook step with its failure flag cleared. */
  function Quiet(s: Step): Step {
    if s.HookCall? then s.(raised := false) else s
  }

  /** Hooks observe and never decide: whatever the hooks raise when called,
      the run returns the same output and record, and calls the same hooks
      with the same records in the same order. */
  lemma HookFailuresAreSwallowed(a: Agent, raises: (HookFn, RunRecord) -> bool, raw: Fields, ctx: Context,
                                 id: RunId, t0: int, t1: int)
    ensures var r1 := Run(a, raw, ctx, id, t0, t1);
            var r2 := Run(a.(hookRaises := raises), raw, ctx, id, t0, t1);
            && r1.output == r2.output
            && r1.record == r2.record
            && |r1.trace| == |r2.trace|
            && forall i :: 0 <= i < |r1.trace| ==> Quiet(r1.trace[i]) == Quiet(r2.trace[i])
  {
  }
}
