/** `WorkflowStep` and `Orchestrator` of `engine/orchestrator.py`: a
    fail-fast fold over the steps that threads the current input, the shared
    context and the record history, and notifies the hook manager.

    A `GuardrailViolation` from the hook manager, and an exception from a
    transformer, leave `Orchestrator.run` uncaught; both are the `Aborted`
    outcome here. */
module Orchestration {
  import opened Results
  import opened Values
  import opened Schemas
  import opened Agents
  import opened Observers

  /** `input_transformer(prev_payload, context) -> next_payload`. */
  type Transformer = (Value, Context) -> Result<Value>

  datatype WorkflowStep = WorkflowStep(agent: Agent, transformer: Option<Transformer>)

  datatype Orchestrator = Orchestrator(steps: seq<WorkflowStep>, hooks: Option<HookManager>)

  /** `Orchestrator.__init__`: an empty step list is a `ValueError`. */
  function NewOrchestrator(steps: seq<WorkflowStep>, hooks: Option<HookManager>): (r: Result<Orchestrator>)
    ensures r.Err? <==> steps == []
    ensures r.Err? ==> r.error.kind == "ValueError"
    ensures r.Ok? ==> r.value.steps == steps && r.value.hooks == hooks
  {
    if steps == [] then Err(Raise("ValueError", "workflow needs atleast one step..."))
    else Ok(Orchestrator(steps, hooks))
  }

  /** Where the run ids and clock readings of the agent runs come from:
      step `i` gets id `firstId + i` and readings `2i` (start) and `2i + 1`
      (end). */
  datatype Env = Env(firstId: nat, clock: nat -> int)

  /** Why `run` raised instead of returning. */
  datatype Abort = GuardrailAbort(message: string) | TransformerFailure(error: Exc)

  /** The outcome of `Orchestrator.run`. Both variants carry the shared
      context as the run left it and the hook manager's listeners. The
      caller sees that context only when it passed a non-empty dict: for
      `None` or `{}`, `context or {}` makes a fresh dict that nobody keeps
      (here both are the empty map). `events` lists the notifications `run` issued, in order
      (with no hook manager they go nowhere). `attempted` is the local
      history at the moment of the abort. */
  datatype WorkflowRun =
    | Completed(result: WorkflowResult, context: Context, hooks: Option<HookManager>, events: seq<HookEvent>)
    | Aborted(reason: Abort, attempted: seq<RunRecord>, context: Context, hooks: Option<HookManager>,
              events: seq<HookEvent>)

  /** `if self.hooks: self.hooks.<event>(...)`: the updated manager and the
      violation that escaped, if any. */
  function Notify(hm: Option<HookManager>, e: HookEvent): (r: (Option<HookManager>, Option<string>))
    ensures hm.None? ==> r == (None, None)
    ensures hm.Some? ==> r.0.Some? && r.0.value.listeners == Broadcast(hm.value.listeners, e).listeners
                         && r.1 == Broadcast(hm.value.listeners, e).violation
  {
    if hm.None? then (None, None)
    else
      var d := Broadcast(hm.value.listeners, e);
      (Some(HookManager(d.listeners)), d.violation)
  }

  /** The input a step's agent receives: with a transformer, the transformed
      payload paired with the carried-over metadata (default `{}`); without
      one, the current input verbatim. */
  function StepInput(step: WorkflowStep, current: Fields, ctx: Context): (r: Result<Fields>)
    ensures step.transformer.None? ==> r == Ok(current)
    ensures step.transformer.Some? && "payload" !in current ==> r == Err(KeyError("payload"))
    ensures step.transformer.Some? && "payload" in current ==>
              match step.transformer.value(current["payload"], ctx)
              case Err(e) => r == Err(e)
              case Ok(p) => r == Ok(map["payload" := p, "metadata" := Get(current, "metadata", Map(map[]))])
  {
    match step.transformer
    case None => Ok(current)
    case Some(transform) =>
      if "payload" !in current then Err(KeyError("payload"))
      else match transform(current["payload"], ctx)
        case Err(e) => Err(e)
        case Ok(p) => Ok(map["payload" := p, "metadata" := Get(current, "metadata", Map(map[]))])
  }

  /** The input prepared for the step after a successful one. */
  function NextInput(agentName: string, output: Fields): Fields {
    map["payload" := Map(output), "metadata" := Map(map["previous_agent" := Str(agentName)])]
  }

  function OutputOf(rec: RunRecord): Fields {
    if rec.output.Some? then rec.output.value else map[]
  }

  /** The context after each successful record of `hist`, in order, has
      written its output under its agent's name. */
  function ApplyOutputs(ctx: Context, hist: seq<RunRecord>): Context {
    if hist == [] then ctx
    else
      var last := hist[|hist| - 1];
      var before := ApplyOutputs(ctx, hist[..|hist| - 1]);
      if last.status == Success then before[last.agentName := Map(OutputOf(last))] else before
  }

  /** The context keys are the initial keys and the names of the agents that
      succeeded, and nothing else. */
  lemma {:induction false} ContextKeys(ctx: Context, hist: seq<RunRecord>)
    ensures ApplyOutputs(ctx, hist).Keys ==
              ctx.Keys + set j | 0 <= j < |hist| && hist[j].status == Success :: hist[j].agentName
  {
    if hist != [] {
      var init := hist[..|hist| - 1];
      ContextKeys(ctx, init);
      var s := set j | 0 <= j < |hist| && hist[j].status == Success :: hist[j].agentName;
      var s' := set j | 0 <= j < |init| && init[j].status == Success :: init[j].agentName;
      assert s == s' + (if hist[|hist| - 1].status == Success then {hist[|hist| - 1].agentName} else {}) by {
        forall n | n in s ensures n in s' + (if hist[|hist| - 1].status == Success then {hist[|hist| - 1].agentName} else {}) {
          var j :| 0 <= j < |hist| && hist[j].status == Success && hist[j].agentName == n;
          if j < |init| {
            assert init[j] == hist[j];
          }
        }
        forall n | n in s' ensures n in s {
          var j :| 0 <= j < |init| && init[j].status == Success && init[j].agentName == n;
          assert hist[j] == init[j];
        }
      }
    }
  }

  /** The input step `j` starts from: the initial input for the first step,
      and the input prepared by step `j - 1` for the others. */
  function InputBefore(steps: seq<WorkflowStep>, initial: Fields, hist: seq<RunRecord>, j: nat): Fields
    requires j <= |hist| && j <= |steps|
  {
    if j == 0 then initial else NextInput(steps[j - 1].agent.name, OutputOf(hist[j - 1]))
  }

  /** The agent run of step `j` on a given input, in a given context. */
  function RunAt(steps: seq<WorkflowStep>, env: Env, j: nat, input: Fields, ctx: Context): Invocation
    requires j < |steps|
  {
    Run(steps[j].agent, input, ctx, RunId(env.firstId + j), env.clock(2 * j), env.clock(2 * j + 1))
  }

  /** The event that follows an agent run. */
  function RunEvent(agentName: string, inv: Invocation): HookEvent {
    if inv.record.status == Success then AfterAgent(agentName, inv.output, inv.record)
    else AgentError(agentName, inv.record.error, inv.record)
  }

  /** The input `before_agent` reported for step `j`. */
  function InputAt(events: seq<HookEvent>, j: nat): Fields {
    if 2 * j + 1 < |events| && events[2 * j + 1].BeforeAgent? then events[2 * j + 1].agentInput else map[]
  }

  /** Step `j` happened as `run` prescribes: its input was computed from the
      input before it and the context of the earlier records, `before_agent`
      saw that input, the record is that of the agent's run on it, and the
      matching `after_agent` or `agent_error` followed. */
  ghost predicate StepRecorded(steps: seq<WorkflowStep>, initial: Fields, ctx0: Context, env: Env,
                               hist: seq<RunRecord>, events: seq<HookEvent>, j: nat)
    requires j < |hist| <= |steps| && 2 * j + 2 < |events|
  {
    var input := InputAt(events, j);
    var inv := RunAt(steps, env, j, input, ApplyOutputs(ctx0, hist[..j]));
    && events[2 * j + 1] == BeforeAgent(steps[j].agent.name, input)
    && StepInput(steps[j], InputBefore(steps, initial, hist, j), ApplyOutputs(ctx0, hist[..j])) == Ok(input)
    && hist[j] == inv.record
    && events[2 * j + 2] == RunEvent(steps[j].agent.name, inv)
  }

  /** Every record of `hist` was produced as `run` prescribes, and `events`
      starts with `workflow_start` followed by the events of those steps. */
  ghost predicate Recorded(steps: seq<WorkflowStep>, initial: Fields, ctx0: Context, env: Env,
                           hist: seq<RunRecord>, events: seq<HookEvent>)
  {
    && |hist| <= |steps|
    && 2 * |hist| + 1 <= |events|
    && events[0] == WorkflowStart(initial)
    && forall j :: 0 <= j < |hist| ==> StepRecorded(steps, initial, ctx0, env, hist, events, j)
  }

  /** Recorded steps stay recorded when the history and events grow. */
  lemma RecordedGrows(steps: seq<WorkflowStep>, initial: Fields, ctx0: Context, env: Env,
                      hist: seq<RunRecord>, events: seq<HookEvent>, hist': seq<RunRecord>, events': seq<HookEvent>)
    requires Recorded(steps, initial, ctx0, env, hist, events)
    requires |hist'| <= |steps| && hist <= hist' && events <= events'
    ensures forall j :: 0 <= j < |hist| ==> StepRecorded(steps, initial, ctx0, env, hist', events', j)
  {
    forall j | 0 <= j < |hist|
      ensures StepRecorded(steps, initial, ctx0, env, hist', events', j)
    {
      assert StepRecorded(steps, initial, ctx0, env, hist, events, j);
      assert hist'[..j] == hist[..j];
      assert hist'[j] == hist[j];
      assert events'[2 * j + 1] == events[2 * j + 1] && events'[2 * j + 2] == events[2 * j + 2];
      assert InputAt(events', j) == InputAt(events, j);
      assert InputBefore(steps, initial, hist', j) == InputBefore(steps, initial, hist, j);
    }
  }

  /** The state the loop threads between steps. */
  datatype LoopState = LoopState(current: Fields, context: Context, history: seq<RunRecord>,
                                 hooks: Option<HookManager>, events: seq<HookEvent>)

  /** The loop invariant before step `i`: steps `0..i-1` ran and succeeded,
      the context holds exactly their outputs, and the current input is the
      one the last of them prepared. */
  ghost predicate Ready(steps: seq<WorkflowStep>, initial: Fields, ctx0: Context, env: Env, i: nat, st: LoopState)
  {
    && i <= |steps|
    && |st.history| == i
    && |st.events| == 2 * i + 1
    && Recorded(steps, initial, ctx0, env, st.history, st.events)
    && (forall j :: 0 <= j < i ==> st.history[j].status == Success)
    && st.context == ApplyOutputs(ctx0, st.history)
    && st.current == InputBefore(steps, initial, st.history, i)
  }

  /** What one step leads to: the loop continues with a new state and the
      output of the agent that just succeeded, or the run is over. */
  datatype StepResult = Next(state: LoopState, output: AgentOutput) | Done(run: WorkflowRun)

  /** `run` calls `workflow_end` and returns the result, unless that
      notification raises a violation. */
  function Finish(result: WorkflowResult, ctx: Context, hm: Option<HookManager>, events: seq<HookEvent>): (r: WorkflowRun)
    ensures r.events == events + [WorkflowEnd(result, result.history)]
    ensures r.context == ctx
    ensures r.Completed? ==> r.result == result
    ensures r.Aborted? ==> r.reason.GuardrailAbort? && r.attempted == result.history
    ensures r.Completed? <==> Notify(hm, WorkflowEnd(result, result.history)).1.None?
  {
    var ev := WorkflowEnd(result, result.history);
    var (hm', v) := Notify(hm, ev);
    if v.Some? then Aborted(GuardrailAbort(v.value), result.history, ctx, hm', events + [ev])
    else Completed(result, ctx, hm', events + [ev])
  }

  /** One iteration of the loop of `run`, for step `i`: compute the step
      input, notify `before_agent`, run the agent, append its record, and
      either stop (failure: `agent_error`, then `workflow_end`) or notify
      `after_agent`, write the output into the context and prepare the next
      input. */
  function StepOnce(steps: seq<WorkflowStep>, i: nat, st: LoopState, env: Env): StepResult
    requires i < |steps|
  {
    var step := steps[i];
    var name := step.agent.name;
    match StepInput(step, st.current, st.context)
    case Err(e) => Done(Aborted(TransformerFailure(e), st.history, st.context, st.hooks, st.events))
    case Ok(input) =>
      var ev1 := BeforeAgent(name, input);
      var (hm1, v1) := Notify(st.hooks, ev1);
      if v1.Some? then Done(Aborted(GuardrailAbort(v1.value), st.history, st.context, hm1, st.events + [ev1]))
      else
        var inv := RunAt(steps, env, i, input, st.context);
        var hist := st.history + [inv.record];
        var ev2 := RunEvent(name, inv);
        var events2 := st.events + [ev1, ev2];
        var (hm2, v2) := Notify(hm1, ev2);
        if v2.Some? then Done(Aborted(GuardrailAbort(v2.value), hist, st.context, hm2, events2))
        else if inv.record.status != Success then
          Done(Finish(WorkflowResult(WorkflowError, inv.output, hist), st.context, hm2, events2))
        else
          Next(LoopState(NextInput(name, inv.output.output), st.context[name := Map(inv.output.output)],
                         hist, hm2, events2), inv.output)
  }

  /** The loop of `run` from step `i` on; after the last step succeeds,
      `workflow_end` and the success result. */
  function RunFrom(steps: seq<WorkflowStep>, i: nat, st: LoopState, env: Env): WorkflowRun
    requires i < |steps|
    decreases |steps| - i
  {
    match StepOnce(steps, i, st, env)
    case Done(run) => run
    case Next(st', output) =>
      if i + 1 == |steps| then
        Finish(WorkflowResult(WorkflowSuccess, output, st'.history), st'.context, st'.hooks, st'.events)
      else RunFrom(steps, i + 1, st', env)
  }

  /** `Orchestrator.run(initial_input, context)`. */
  function RunWorkflow(o: Orchestrator, initial: Fields, ctx: Context, env: Env): WorkflowRun
    requires o.steps != []
  {
    var ev := WorkflowStart(initial);
    var (hm, v) := Notify(o.hooks, ev);
    if v.Some? then Aborted(GuardrailAbort(v.value), [], ctx, hm, [ev])
    else RunFrom(o.steps, 0, LoopState(initial, ctx, [], hm, [ev]), env)
  }
}
