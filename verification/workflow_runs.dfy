/** What `Orchestrator.run` guarantees about every run: one record per
    attempted step, in step order; fail-fast at the first failed step; the
    context holds exactly the outputs of the steps that succeeded; the
    events come in a fixed order; and custom metadata of the initial input
    reaches the first step only. */
module WorkflowRuns {
  import opened Results
  import opened Values
  import opened Schemas
  import opened Agents
  import opened Guardrails
  import opened Observers
  import opened Orchestration

  /** A run that returned a result. */
  ghost predicate Completes(steps: seq<WorkflowStep>, initial: Fields, ctx0: Context, env: Env, r: WorkflowRun)
    requires r.Completed?
  {
    var hist := r.result.history;
    var n := |hist|;
    && 1 <= n <= |steps|
    && Recorded(steps, initial, ctx0, env, hist, r.events)
    && |r.events| == 2 * n + 2
    && r.events[2 * n + 1] == WorkflowEnd(r.result, hist)
    // fail-fast: every step but the last attempted one succeeded
    && (forall j :: 0 <= j < n - 1 ==> hist[j].status == Success)
    && (r.result.status == WorkflowSuccess <==> hist[n - 1].status == Success)
    && (r.result.status == WorkflowSuccess ==> n == |steps|)
    && r.context == ApplyOutputs(ctx0, hist)
    && r.result.finalOutput == RunAt(steps, env, n - 1, InputAt(r.events, n - 1), ApplyOutputs(ctx0, hist[..n - 1])).output
  }

  /** A run that raised. `attempted` holds the records appended so far, all
      of them produced as `run` prescribes; which notification or transformer
      raised is told by the number and kind of the events. */
  ghost predicate Aborts(steps: seq<WorkflowStep>, initial: Fields, ctx0: Context, env: Env, r: WorkflowRun)
    requires r.Aborted?
  {
    var hist := r.attempted;
    var n := |hist|;
    && n <= |steps|
    && Recorded(steps, initial, ctx0, env, hist, r.events)
    && (forall j :: 0 <= j < n - 1 ==> hist[j].status == Success)
    && match r.reason
       case TransformerFailure(e) =>
         // step n's transformer raised; steps 0..n-1 succeeded
         && n < |steps|
         && |r.events| == 2 * n + 1
         && (n > 0 ==> hist[n - 1].status == Success)
         && r.context == ApplyOutputs(ctx0, hist)
         && StepInput(steps[n], InputBefore(steps, initial, hist, n), r.context) == Err(e)
       case GuardrailAbort(_) =>
         // `workflow_start` raised
         || (n == 0 && r.events == [WorkflowStart(initial)] && r.context == ctx0)
         // `before_agent` of step n raised: the agent never ran
         || (&& n < |steps|
             && |r.events| == 2 * n + 2
             && (n > 0 ==> hist[n - 1].status == Success)
             && r.context == ApplyOutputs(ctx0, hist)
             && StepInput(steps[n], InputBefore(steps, initial, hist, n), r.context) == Ok(InputAt(r.events, n))
             && r.events[2 * n + 1] == BeforeAgent(steps[n].agent.name, InputAt(r.events, n)))
         // `after_agent` or `agent_error` of step n - 1 raised: its output
         // never reached the context
         || (n > 0 && |r.events| == 2 * n + 1 && r.context == ApplyOutputs(ctx0, hist[..n - 1]))
         // `workflow_end` raised
         || (&& n > 0
             && |r.events| == 2 * n + 2
             && r.events[2 * n + 1].WorkflowEnd?
             && r.events[2 * n + 1].history == hist
             && (hist[n - 1].status == Success ==> n == |steps|)
             && r.context == ApplyOutputs(ctx0, hist))
  }

  ghost predicate Outcomes(steps: seq<WorkflowStep>, initial: Fields, ctx0: Context, env: Env, r: WorkflowRun) {
    && (r.Completed? ==> Completes(steps, initial, ctx0, env, r))
    && (r.Aborted? ==> Aborts(steps, initial, ctx0, env, r))
  }

  /** The loop invariant holds before the first step. */
  lemma StartIsReady(steps: seq<WorkflowStep>, initial: Fields, ctx0: Context, env: Env, hm: Option<HookManager>)
    ensures Ready(steps, initial, ctx0, env, 0, LoopState(initial, ctx0, [], hm, [WorkflowStart(initial)]))
  {
  }

  /** Appending events after the recorded ones keeps them recorded. */
  lemma RecordedExtend(steps: seq<WorkflowStep>, initial: Fields, ctx0: Context, env: Env,
                       hist: seq<RunRecord>, events: seq<HookEvent>, more: seq<HookEvent>)
    requires Recorded(steps, initial, ctx0, env, hist, events)
    ensures Recorded(steps, initial, ctx0, env, hist, events + more)
  {
    RecordedGrows(steps, initial, ctx0, env, hist, events, hist, events + more);
  }

  /** The agent run of step `i`, on the input its transformer produced,
      extends the records by one, and a failed run leaves the context as it
      was. */
  lemma StepRecordsRun(steps: seq<WorkflowStep>, initial: Fields, ctx0: Context, env: Env, i: nat, st: LoopState,
                       input: Fields)
    requires i < |steps| && Ready(steps, initial, ctx0, env, i, st)
    requires StepInput(steps[i], st.current, st.context) == Ok(input)
    ensures var inv := RunAt(steps, env, i, input, st.context);
            var hist := st.history + [inv.record];
            var events := st.events + [BeforeAgent(steps[i].agent.name, input), RunEvent(steps[i].agent.name, inv)];
            && Recorded(steps, initial, ctx0, env, hist, events)
            && InputAt(events, i) == input
            && hist[..i] == st.history
            && (inv.record.status == Success ==> ApplyOutputs(ctx0, hist) == st.context[steps[i].agent.name := Map(inv.output.output)])
            && (inv.record.status != Success ==> ApplyOutputs(ctx0, hist) == st.context)
  {
    var name := steps[i].agent.name;
    var inv := RunAt(steps, env, i, input, st.context);
    var hist := st.history + [inv.record];
    var events := st.events + [BeforeAgent(name, input), RunEvent(name, inv)];
    assert hist[..i] == st.history;
    assert InputAt(events, i) == input;
    RecordedGrows(steps, initial, ctx0, env, st.history, st.events, hist, events);
    assert StepRecorded(steps, initial, ctx0, env, hist, events, i);
    assert inv.record.agentName == name;
    assert inv.record.status == Success ==> OutputOf(inv.record) == inv.output.output;
  }

  /** A step that lets the loop go on keeps the invariant, appends its
      successful record, and hands on the output of its agent run. */
  lemma StepKeepsReady(steps: seq<WorkflowStep>, initial: Fields, ctx0: Context, env: Env, i: nat, st: LoopState)
    requires i < |steps| && Ready(steps, initial, ctx0, env, i, st)
    requires StepOnce(steps, i, st, env).Next?
    ensures var n := StepOnce(steps, i, st, env);
            && Ready(steps, initial, ctx0, env, i + 1, n.state)
            && n.state.history[..i] == st.history
            && n.state.history[i].status == Success
            && n.output == RunAt(steps, env, i, InputAt(n.state.events, i), st.context).output
  {
    var input := StepInput(steps[i], st.current, st.context).value;
    StepRecordsRun(steps, initial, ctx0, env, i, st, input);
  }

  /** Step `i`'s transformer raised. */
  lemma EndsInTransformer(steps: seq<WorkflowStep>, initial: Fields, ctx0: Context, env: Env, i: nat, st: LoopState)
    requires i < |steps| && Ready(steps, initial, ctx0, env, i, st)
    requires StepInput(steps[i], st.current, st.context).Err?
    ensures StepOnce(steps, i, st, env).Done?
    ensures Outcomes(steps, initial, ctx0, env, StepOnce(steps, i, st, env).run)
  {
  }

  /** `before_agent` of step `i` raised. */
  lemma EndsBeforeRun(steps: seq<WorkflowStep>, initial: Fields, ctx0: Context, env: Env, i: nat, st: LoopState,
                      input: Fields)
    requires i < |steps| && Ready(steps, initial, ctx0, env, i, st)
    requires StepInput(steps[i], st.current, st.context) == Ok(input)
    requires Notify(st.hooks, BeforeAgent(steps[i].agent.name, input)).1.Some?
    ensures StepOnce(steps, i, st, env).Done?
    ensures Outcomes(steps, initial, ctx0, env, StepOnce(steps, i, st, env).run)
  {
    var ev1 := BeforeAgent(steps[i].agent.name, input);
    RecordedExtend(steps, initial, ctx0, env, st.history, st.events, [ev1]);
    assert InputAt(st.events + [ev1], i) == input;
    var r := StepOnce(steps, i, st, env).run;
    assert r.events == st.events + [ev1] && r.attempted == st.history && r.context == st.context;
  }

  /** The agent of step `i` ran, and the notification of its outcome
      raised a violation. */
  lemma EndsInRunNotice(steps: seq<WorkflowStep>, initial: Fields, ctx0: Context, env: Env, i: nat, st: LoopState,
                        input: Fields, v: string, hm: Option<HookManager>)
    requires i < |steps| && Ready(steps, initial, ctx0, env, i, st)
    requires StepInput(steps[i], st.current, st.context) == Ok(input)
    ensures var inv := RunAt(steps, env, i, input, st.context);
            var name := steps[i].agent.name;
            Outcomes(steps, initial, ctx0, env,
                     Aborted(GuardrailAbort(v), st.history + [inv.record], st.context, hm,
                             st.events + [BeforeAgent(name, input), RunEvent(name, inv)]))
  {
    StepRecordsRun(steps, initial, ctx0, env, i, st, input);
    var inv := RunAt(steps, env, i, input, st.context);
    var hist := st.history + [inv.record];
    assert hist[..|hist| - 1] == st.history;
  }

  /** The agent of step `i` failed, nothing raised, and the run returns the
      error result. */
  lemma EndsInError(steps: seq<WorkflowStep>, initial: Fields, ctx0: Context, env: Env, i: nat, st: LoopState,
                    input: Fields, hm: Option<HookManager>)
    requires i < |steps| && Ready(steps, initial, ctx0, env, i, st)
    requires StepInput(steps[i], st.current, st.context) == Ok(input)
    requires RunAt(steps, env, i, input, st.context).record.status != Success
    ensures var inv := RunAt(steps, env, i, input, st.context);
            var name := steps[i].agent.name;
            Outcomes(steps, initial, ctx0, env,
                     Finish(WorkflowResult(WorkflowError, inv.output, st.history + [inv.record]), st.context, hm,
                            st.events + [BeforeAgent(name, input), RunEvent(name, inv)]))
  {
    StepRecordsRun(steps, initial, ctx0, env, i, st, input);
    var name := steps[i].agent.name;
    var inv := RunAt(steps, env, i, input, st.context);
    var hist := st.history + [inv.record];
    var events := st.events + [BeforeAgent(name, input), RunEvent(name, inv)];
    var result := WorkflowResult(WorkflowError, inv.output, hist);
    RecordedExtend(steps, initial, ctx0, env, hist, events, [WorkflowEnd(result, hist)]);
    assert InputAt(events + [WorkflowEnd(result, hist)], i) == input;
  }

  /** `before_agent` of step `i` let it run, and the step ended the run. */
  lemma EndsAfterRun(steps: seq<WorkflowStep>, initial: Fields, ctx0: Context, env: Env, i: nat, st: LoopState,
                     input: Fields)
    requires i < |steps| && Ready(steps, initial, ctx0, env, i, st)
    requires StepInput(steps[i], st.current, st.context) == Ok(input)
    requires Notify(st.hooks, BeforeAgent(steps[i].agent.name, input)).1.None?
    requires StepOnce(steps, i, st, env).Done?
    ensures Outcomes(steps, initial, ctx0, env, StepOnce(steps, i, st, env).run)
  {
    var name := steps[i].agent.name;
    var ev1 := BeforeAgent(name, input);
    var hm1 := Notify(st.hooks, ev1).0;
    var inv := RunAt(steps, env, i, input, st.context);
    var ev2 := RunEvent(name, inv);
    var (hm2, v) := Notify(hm1, ev2);
    if v.Some? {
      EndsInRunNotice(steps, initial, ctx0, env, i, st, input, v.value, hm2);
    } else {
      EndsInError(steps, initial, ctx0, env, i, st, input, hm2);
    }
  }

  /** A step that ends the run leaves it in one of the shapes `Outcomes`
      allows, given that steps `0..i-1` succeeded. */
  lemma StepEndsWell(steps: seq<WorkflowStep>, initial: Fields, ctx0: Context, env: Env, i: nat, st: LoopState)
    requires i < |steps| && Ready(steps, initial, ctx0, env, i, st)
    requires StepOnce(steps, i, st, env).Done?
    ensures Outcomes(steps, initial, ctx0, env, StepOnce(steps, i, st, env).run)
  {
    match StepInput(steps[i], st.current, st.context)
    case Err(_) => EndsInTransformer(steps, initial, ctx0, env, i, st);
    case Ok(input) =>
      if Notify(st.hooks, BeforeAgent(steps[i].agent.name, input)).1.Some? {
        EndsBeforeRun(steps, initial, ctx0, env, i, st, input);
      } else {
        EndsAfterRun(steps, initial, ctx0, env, i, st, input);
      }
  }

  /** After the last step succeeded, `workflow_end` is notified and the run
      returns the success result or raises. */
  lemma FinishesWell(steps: seq<WorkflowStep>, initial: Fields, ctx0: Context, env: Env, st: LoopState,
                     output: AgentOutput)
    requires steps != [] && Ready(steps, initial, ctx0, env, |steps|, st)
    requires var n := |steps|;
             output == RunAt(steps, env, n - 1, InputAt(st.events, n - 1), ApplyOutputs(ctx0, st.history[..n - 1])).output
    ensures Outcomes(steps, initial, ctx0, env,
                     Finish(WorkflowResult(WorkflowSuccess, output, st.history), st.context, st.hooks, st.events))
  {
    var n := |steps|;
    var result := WorkflowResult(WorkflowSuccess, output, st.history);
    var end := WorkflowEnd(result, st.history);
    RecordedExtend(steps, initial, ctx0, env, st.history, st.events, [end]);
    assert InputAt(st.events + [end], n - 1) == InputAt(st.events, n - 1);
  }

  /** The loop from step `i` on, started in a state where steps `0..i-1`
      succeeded, ends in one of the shapes `Outcomes` allows. */
  lemma {:induction false} RunFromOutcomes(steps: seq<WorkflowStep>, initial: Fields, ctx0: Context, env: Env,
                                           i: nat, st: LoopState)
    requires i < |steps| && Ready(steps, initial, ctx0, env, i, st)
    ensures Outcomes(steps, initial, ctx0, env, RunFrom(steps, i, st, env))
    decreases |steps| - i
  {
    match StepOnce(steps, i, st, env)
    case Done(_) => StepEndsWell(steps, initial, ctx0, env, i, st);
    case Next(st', output) =>
      StepKeepsReady(steps, initial, ctx0, env, i, st);
      if i + 1 == |steps| {
        FinishesWell(steps, initial, ctx0, env, st', output);
      } else {
        RunFromOutcomes(steps, initial, ctx0, env, i + 1, st');
      }
  }

  /** Every run of a workflow ends in one of the shapes `Outcomes` allows. */
  lemma RunOutcomes(o: Orchestrator, initial: Fields, ctx: Context, env: Env)
    requires o.steps != []
    ensures Outcomes(o.steps, initial, ctx, env, RunWorkflow(o, initial, ctx, env))
  {
    var (hm, v) := Notify(o.hooks, WorkflowStart(initial));
    if v.None? {
      StartIsReady(o.steps, initial, ctx, env, hm);
      RunFromOutcomes(o.steps, initial, ctx, env, 0, LoopState(initial, ctx, [], hm, [WorkflowStart(initial)]));
    }
  }

  /** The records a run appended, whether it returned or raised. */
  function History(r: WorkflowRun): seq<RunRecord> {
    if r.Completed? then r.result.history else r.attempted
  }

  /** What a recorded step tells about its record and its two events. */
  lemma RecordedStep(steps: seq<WorkflowStep>, initial: Fields, ctx0: Context, env: Env,
                     h: seq<RunRecord>, events: seq<HookEvent>, j: nat)
    requires Recorded(steps, initial, ctx0, env, h, events) && j < |h|
    ensures j < |steps| && 2 * j + 2 < |events|
    ensures h[j].agentName == steps[j].agent.name && h[j].runId == RunId(env.firstId + j)
    ensures h[j].status == Success || h[j].status == Error
    ensures events[2 * j + 1] == BeforeAgent(steps[j].agent.name, h[j].input)
    ensures h[j].status == Success <==> events[2 * j + 2].AfterAgent?
    ensures h[j].status == Error <==> events[2 * j + 2].AgentError?
    ensures StepInput(steps[j], InputBefore(steps, initial, h, j), ApplyOutputs(ctx0, h[..j])) == Ok(h[j].input)
  {
    assert StepRecorded(steps, initial, ctx0, env, h, events, j);
  }

  /** The facts of `OneRecordPerStep`, for any run in a shape `Outcomes`
      allows. */
  lemma RecordsOf(steps: seq<WorkflowStep>, initial: Fields, ctx0: Context, env: Env, r: WorkflowRun)
    requires Outcomes(steps, initial, ctx0, env, r)
    ensures var h := History(r);
            && |h| <= |steps|
            && 2 * |h| + 1 <= |r.events|
            && r.events[0] == WorkflowStart(initial)
            && forall j :: 0 <= j < |h| ==>
                 && h[j].agentName == steps[j].agent.name
                 && h[j].runId == RunId(env.firstId + j)
                 && (h[j].status == Success || h[j].status == Error)
                 && r.events[2 * j + 1] == BeforeAgent(steps[j].agent.name, h[j].input)
                 && (h[j].status == Success <==> r.events[2 * j + 2].AfterAgent?)
                 && (h[j].status == Error <==> r.events[2 * j + 2].AgentError?)
                 && StepInput(steps[j], InputBefore(steps, initial, h, j), ApplyOutputs(ctx0, h[..j])) == Ok(h[j].input)
  {
    var h := History(r);
    assert Recorded(steps, initial, ctx0, env, h, r.events);
    forall j | 0 <= j < |h|
      ensures && h[j].agentName == steps[j].agent.name
              && h[j].runId == RunId(env.firstId + j)
              && (h[j].status == Success || h[j].status == Error)
              && r.events[2 * j + 1] == BeforeAgent(steps[j].agent.name, h[j].input)
              && (h[j].status == Success <==> r.events[2 * j + 2].AfterAgent?)
              && (h[j].status == Error <==> r.events[2 * j + 2].AgentError?)
              && StepInput(steps[j], InputBefore(steps, initial, h, j), ApplyOutputs(ctx0, h[..j])) == Ok(h[j].input)
    {
      RecordedStep(steps, initial, ctx0, env, h, r.events, j);
    }
  }

  /** One record per attempted step, in step order: record `j` is the run of
      step `j`'s agent under the `j`-th fresh id, it is terminal, and
      `before_agent` was shown exactly the input it stores. The events are
      `workflow_start`, then `before_agent` and `after_agent`/`agent_error`
      for each record. */
  lemma OneRecordPerStep(o: Orchestrator, initial: Fields, ctx: Context, env: Env)
    requires o.steps != []
    ensures var r := RunWorkflow(o, initial, ctx, env);
            var h := History(r);
            && |h| <= |o.steps|
            && 2 * |h| + 1 <= |r.events|
            && r.events[0] == WorkflowStart(initial)
            && forall j :: 0 <= j < |h| ==>
                 && h[j].agentName == o.steps[j].agent.name
                 && h[j].runId == RunId(env.firstId + j)
                 && (h[j].status == Success || h[j].status == Error)
                 && r.events[2 * j + 1] == BeforeAgent(o.steps[j].agent.name, h[j].input)
                 && (h[j].status == Success <==> r.events[2 * j + 2].AfterAgent?)
                 && (h[j].status == Error <==> r.events[2 * j + 2].AgentError?)
  {
    RunOutcomes(o, initial, ctx, env);
    RecordsOf(o.steps, initial, ctx, env, RunWorkflow(o, initial, ctx, env));
  }

  /** Between `workflow_start` and the end of the recorded steps come only
      agent events. */
  lemma OnlyAgentEvents(steps: seq<WorkflowStep>, initial: Fields, ctx0: Context, env: Env,
                        h: seq<RunRecord>, events: seq<HookEvent>)
    requires Recorded(steps, initial, ctx0, env, h, events)
    ensures forall k :: 0 <= k < 2 * |h| + 1 ==> !events[k].WorkflowEnd?
  {
    forall k | 0 <= k < 2 * |h| + 1 ensures !events[k].WorkflowEnd? {
      if k > 0 {
        var j := (k - 1) / 2;
        RecordedStep(steps, initial, ctx0, env, h, events, j);
        assert k == 2 * j + 1 || k == 2 * j + 2;
      }
    }
  }

  /** The fail-fast facts, for any run in a shape `Outcomes` allows. */
  lemma FailFastOf(steps: seq<WorkflowStep>, initial: Fields, ctx0: Context, env: Env, r: WorkflowRun)
    requires r.Completed? && Completes(steps, initial, ctx0, env, r)
    ensures var h := r.result.history;
            var n := |h|;
            && 1 <= n <= |steps|
            && (forall j :: 0 <= j < n - 1 ==> h[j].status == Success)
            && (r.result.status == WorkflowError <==> h[n - 1].status == Error)
            && (r.result.status == WorkflowSuccess <==> n == |steps| && h[n - 1].status == Success)
            && |r.events| == 2 * n + 2
            && (r.result.status == WorkflowError ==> r.events[2 * n].AgentError?)
            && r.events[2 * n + 1] == WorkflowEnd(r.result, h)
            && (forall k :: 0 <= k < 2 * n + 1 ==> !r.events[k].WorkflowEnd?)
  {
    var h := r.result.history;
    var n := |h|;
    RecordedStep(steps, initial, ctx0, env, h, r.events, n - 1);
    OnlyAgentEvents(steps, initial, ctx0, env, h, r.events);
  }

  /** Fail-fast: a run that returns stops at the first failed step. Every
      step before the last attempted one succeeded; the status is `error`
      exactly when the last attempted step failed, and then `agent_error`
      and `workflow_end` were the last two events; `success` means every
      step ran. `workflow_end` is issued once, at the end. */
  lemma FailFast(o: Orchestrator, initial: Fields, ctx: Context, env: Env)
    requires o.steps != []
    ensures var r := RunWorkflow(o, initial, ctx, env);
            r.Completed? ==>
              var h := r.result.history;
              var n := |h|;
              && 1 <= n <= |o.steps|
              && (forall j :: 0 <= j < n - 1 ==> h[j].status == Success)
              && (r.result.status == WorkflowError <==> h[n - 1].status == Error)
              && (r.result.status == WorkflowSuccess <==> n == |o.steps| && h[n - 1].status == Success)
              && |r.events| == 2 * n + 2
              && (r.result.status == WorkflowError ==> r.events[2 * n].AgentError?)
              && r.events[2 * n + 1] == WorkflowEnd(r.result, h)
              && (forall k :: 0 <= k < 2 * n + 1 ==> !r.events[k].WorkflowEnd?)
  {
    RunOutcomes(o, initial, ctx, env);
    var r := RunWorkflow(o, initial, ctx, env);
    if r.Completed? {
      assert Completes(o.steps, initial, ctx, env, r);
      FailFastOf(o.steps, initial, ctx, env, r);
    }
  }

  /** The context a run leaves behind holds the caller's keys and the names
      of the agents that succeeded, nothing else; and step `j`'s transformer
      was applied to the context built by the steps before it. */
  lemma ContextFromSucceededSteps(o: Orchestrator, initial: Fields, ctx: Context, env: Env)
    requires o.steps != []
    ensures var r := RunWorkflow(o, initial, ctx, env);
            var h := History(r);
            && |h| <= |o.steps|
            && (r.Completed? ==>
                  r.context.Keys == ctx.Keys + set j | 0 <= j < |h| && h[j].status == Success :: h[j].agentName)
            && forall j :: 0 <= j < |h| ==>
                 StepInput(o.steps[j], InputBefore(o.steps, initial, h, j), ApplyOutputs(ctx, h[..j])) == Ok(h[j].input)
  {
    RunOutcomes(o, initial, ctx, env);
    var r := RunWorkflow(o, initial, ctx, env);
    RecordsOf(o.steps, initial, ctx, env, r);
    ContextKeys(ctx, History(r));
  }

  /** A recorded step after the first got the previous agent's name as its
      metadata. */
  lemma MetadataAt(steps: seq<WorkflowStep>, initial: Fields, ctx0: Context, env: Env,
                   h: seq<RunRecord>, events: seq<HookEvent>, j: nat)
    requires Recorded(steps, initial, ctx0, env, h, events) && 1 <= j < |h|
    ensures "metadata" in h[j].input
    ensures h[j].input["metadata"] == Map(map["previous_agent" := Str(steps[j - 1].agent.name)])
  {
    RecordedStep(steps, initial, ctx0, env, h, events, j);
    var before := InputBefore(steps, initial, h, j);
    assert before == NextInput(steps[j - 1].agent.name, OutputOf(h[j - 1]));
    assert "metadata" in before;
  }

  /** The metadata facts of `MetadataReachesFirstStepOnly`, for any run in
      a shape `Outcomes` allows. */
  lemma MetadataOf(steps: seq<WorkflowStep>, initial: Fields, ctx0: Context, env: Env, r: WorkflowRun)
    requires Outcomes(steps, initial, ctx0, env, r)
    ensures var h := History(r);
            && |h| <= |steps|
            && (|h| > 0 && steps[0].transformer.None? ==> h[0].input == initial)
            && (|h| > 0 && steps[0].transformer.Some? ==>
                  "metadata" in h[0].input && h[0].input["metadata"] == Get(initial, "metadata", Map(map[])))
            && forall j :: 1 <= j < |h| ==>
                 "metadata" in h[j].input
                 && h[j].input["metadata"] == Map(map["previous_agent" := Str(steps[j - 1].agent.name)])
  {
    var h := History(r);
    assert Recorded(steps, initial, ctx0, env, h, r.events);
    if |h| > 0 {
      RecordedStep(steps, initial, ctx0, env, h, r.events, 0);
    }
    forall j | 1 <= j < |h|
      ensures "metadata" in h[j].input
              && h[j].input["metadata"] == Map(map["previous_agent" := Str(steps[j - 1].agent.name)])
    {
      MetadataAt(steps, initial, ctx0, env, h, r.events, j);
    }
  }

  /** The metadata of the initial input reaches the first step only: every
      later step receives `{"previous_agent": <name of the step before>}`
      as its metadata, with or without a transformer. */
  lemma MetadataReachesFirstStepOnly(o: Orchestrator, initial: Fields, ctx: Context, env: Env)
    requires o.steps != []
    ensures var h := History(RunWorkflow(o, initial, ctx, env));
            && |h| <= |o.steps|
            && (|h| > 0 && o.steps[0].transformer.None? ==> h[0].input == initial)
            && (|h| > 0 && o.steps[0].transformer.Some? ==>
                  "metadata" in h[0].input && h[0].input["metadata"] == Get(initial, "metadata", Map(map[])))
            && forall j :: 1 <= j < |h| ==>
                 "metadata" in h[j].input
                 && h[j].input["metadata"] == Map(map["previous_agent" := Str(o.steps[j - 1].agent.name)])
  {
    RunOutcomes(o, initial, ctx, env);
    MetadataOf(o.steps, initial, ctx, env, RunWorkflow(o, initial, ctx, env));
  }

  /** A hook manager holding one guardrail with `max_steps = 1` and nothing
      else configured. */
  function OneStepGuard(count: int): Option<HookManager> {
    Some(HookManager([Guard(GuardrailHook(Some(1), [], [], count))]))
  }

  /** How that guardrail takes each event: only `before_agent` counts, and
      it raises once the count passes 1. */
  lemma OneStepGuardNotify(count: int, e: HookEvent)
    ensures e.WorkflowStart? ==> Notify(OneStepGuard(count), e) == (OneStepGuard(0), None)
    ensures e.BeforeAgent? && count + 1 <= 1 ==> Notify(OneStepGuard(count), e) == (OneStepGuard(count + 1), None)
    ensures e.BeforeAgent? && count + 1 > 1 ==>
              Notify(OneStepGuard(count), e) == (OneStepGuard(count + 1), Some(MaxStepsMessage(1)))
    ensures e.AfterAgent? || e.AgentError? || e.WorkflowEnd? ==> Notify(OneStepGuard(count), e) == (OneStepGuard(count), None)
  {
    var ls := [Guard(GuardrailHook(Some(1), [], [], count))];
    assert ls[1..] == [];
    assert Broadcast(ls[1..], e) == Dispatch([], [], None);
    var (l', del) := Deliver(ls[0], e);
    assert [l'] + [] == [l'];
    if !del.Violated? {
      assert Broadcast(ls, e) == Dispatch([l'], [del], None);
    } else {
      assert Broadcast(ls, e) == Dispatch([l'], [del], Some(del.message));
    }
  }

  /** The first step under that guardrail: it is let through, and either
      ends the run without a guardrail abort or hands on a state whose
      guardrail has counted one step. */
  lemma OneStepGuardFirst(steps: seq<WorkflowStep>, st: LoopState, env: Env)
    requires |steps| >= 2 && st.hooks == OneStepGuard(0) && st.history == [] && |st.events| == 1
    ensures var s := StepOnce(steps, 0, st, env);
            && (s.Done? ==>
                  && |History(s.run)| <= 1
                  && (s.run.Completed? ==> s.run.result.status == WorkflowError)
                  && !(s.run.Aborted? && s.run.reason.GuardrailAbort?))
            && (s.Next? ==>
                  && s.state.hooks == OneStepGuard(1)
                  && |s.state.history| == 1 && s.state.history[0].status == Success
                  && |s.state.events| == 3)
  {
    match StepInput(steps[0], st.current, st.context)
    case Err(_) =>
    case Ok(input) =>
      var ev1 := BeforeAgent(steps[0].agent.name, input);
      OneStepGuardNotify(0, ev1);
      var inv := RunAt(steps, env, 0, input, st.context);
      var ev2 := RunEvent(steps[0].agent.name, inv);
      OneStepGuardNotify(1, ev2);
      if inv.record.status != Success {
        var result := WorkflowResult(WorkflowError, inv.output, [inv.record]);
        OneStepGuardNotify(1, WorkflowEnd(result, [inv.record]));
      }
  }

  /** The second step under that guardrail never runs its agent. */
  lemma OneStepGuardSecond(steps: seq<WorkflowStep>, st: LoopState, env: Env)
    requires |steps| >= 2 && st.hooks == OneStepGuard(1) && |st.history| == 1 && |st.events| == 3
    ensures var s := StepOnce(steps, 1, st, env);
            && s.Done? && s.run.Aborted? && s.run.attempted == st.history
            && (s.run.reason.GuardrailAbort? ==>
                  && s.run.reason.message == MaxStepsMessage(1)
                  && |s.run.events| == 4
                  && s.run.events[3].BeforeAgent? && s.run.events[3].agentName == steps[1].agent.name)
  {
    match StepInput(steps[1], st.current, st.context)
    case Err(_) =>
    case Ok(input) =>
      OneStepGuardNotify(1, BeforeAgent(steps[1].agent.name, input));
  }

  /** With a hook manager holding only a guardrail of `max_steps = 1`, with
      no required keys and no blocked agents, on a workflow of two or more
      steps, at most one agent runs: the run raises `GuardrailViolation` in
      `before_agent` of the second step (unless a transformer raised first
      or the first step failed), and that is the only guardrail abort. */
  lemma MaxStepsOneStopsSecondStep(o: Orchestrator, initial: Fields, ctx: Context, env: Env)
    requires |o.steps| >= 2
    requires o.hooks == Some(HookManager([Guard(NewGuardrail(Some(1), None, None))]))
    ensures var r := RunWorkflow(o, initial, ctx, env);
            && |History(r)| <= 1
            && (r.Completed? ==> r.result.status == WorkflowError)
            && (r.Aborted? && r.reason.GuardrailAbort? ==>
                  && r.reason.message == MaxStepsMessage(1)
                  && |r.attempted| == 1 && r.attempted[0].status == Success
                  && |r.events| == 4
                  && r.events[3].BeforeAgent? && r.events[3].agentName == o.steps[1].agent.name)
  {
    var steps := o.steps;
    assert o.hooks == OneStepGuard(0);
    OneStepGuardNotify(0, WorkflowStart(initial));
    var st0 := LoopState(initial, ctx, [], OneStepGuard(0), [WorkflowStart(initial)]);
    assert RunWorkflow(o, initial, ctx, env) == RunFrom(steps, 0, st0, env);
    OneStepGuardFirst(steps, st0, env);
    match StepOnce(steps, 0, st0, env)
    case Done(_) =>
    case Next(st1, _) =>
      assert RunFrom(steps, 0, st0, env) == RunFrom(steps, 1, st1, env);
      OneStepGuardSecond(steps, st1, env);
  }
}
