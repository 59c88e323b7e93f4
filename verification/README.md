# Zap-Framework agent pipeline, modelled in Dafny

This project models the core of the Zap-Framework agent pipeline. The model is functional: every Python object is an immutable datatype, and every exception is a `Result` variant.

- **Agent contract.** `BaseAgent.run` validates the raw input, fires the agent's own `before`/`after`/`on_error` hooks, and runs `prepare`, `execute`, result coercion and `finalize`. It always returns an output and a terminal `AgentrunRecord`. Tool registry and hook registration are modelled too.
- **Orchestrator.** `Orchestrator.run` is a fail-fast fold over a non-empty list of `WorkflowStep`s. It threads the current input, the shared context (agent name to output) and the record history. It applies input transformers and notifies the hook manager in a fixed order.
- **Hook manager.** `HookManager._call` broadcasts each event to its listeners in order. It skips missing or non-callable methods and swallows failures. A `GuardrailViolation` is the one exception it re-raises, and that aborts the run.
- **Guardrail hook.** A stateful listener with a step counter, a required-key check on the initial payload, a max-steps limit and an agent block-list.
- **Marketing workflow.** The four rule-based agents (input validator, audience analyzer, value proposition, content outline), the three transformers between them, and `create_marketing_workflow`.
- **Retry wrapper.** `RetryLLM.generate_json` is a bounded retry loop over an abstract inner LLM.

Modules follow the program's structure:

| file | module | covers |
|---|---|---|
| `results.dfy` | `Results` | exceptions, `Option`, `Result` |
| `values.dfy` | `Values` | dynamic Python values and dicts, `dict.get`, `str()` |
| `text.dfy` | `Text` | `str.lower`, `str.strip`, `sub in s`, `str(int)` |
| `schemas.dfy` | `Schemas` | `Agentinput`, `Agentoutput`, `AgentrunRecord` |
| `agents.dfy` | `Agents` | `BaseAgent` |
| `guardrails.dfy` | `Guardrails` | `GuardrailHook` |
| `observers.dfy` | `Observers` | `BaseHook`, `HookManager`, the listeners |
| `orchestrator.dfy` | `Orchestration` | `WorkflowStep`, `Orchestrator` |
| `workflow_runs.dfy` | `WorkflowRuns` | what every run of the orchestrator guarantees |
| `marketing_agents.dfy` | `MarketingAgents` | the four marketing agents |
| `marketing_workflow.dfy` | `MarketingWorkflow` | the transformers and the workflow factory |
| `retry.dfy` | `Retry` | `RetryLLM` |
| `scenarios.dfy` | `MarketingScenarios` | the marketing workflow on the sample input of the marketing test |

The side effects and foreign calls became parameters:
- `uuid4()` is an abstract run id, numbered per step.
- `time.time()` is the reading of an abstract clock `Env.clock`.
- Whether an agent-local hook raises is an oracle field of the agent.
- The inner LLM is a function from call number to result.
- `time.sleep` is recorded as the list of requested delays.

Two behaviours of the code worth stating plainly, because the model keeps them as written:
- The input-validation prefix of a failed record is `InputvalidationError: `, with a lower-case `v`.
- An exception from an input transformer, or the `KeyError` of `current_input["payload"]`, propagates out of `Orchestrator.run`, as a `GuardrailViolation` does (the `TransformerFailure` abort).

## Model

| member | source | states |
|---|---|---|
| Schemas.ValidateAgentInput | engine/agent_base.py:18-24 | `Agentinput(**raw)` succeeds exactly when `payload` and `metadata` are absent or dicts; a missing field becomes `{}`; otherwise a `ValidationError` |
| Schemas.ValidateAgentOutput | engine/agent_base.py:26-32 | `Agentoutput(**raw)` succeeds exactly when `output`/`metadata` are dicts if present and `confidence` is a number in [0, 1]; confidence defaults to 1.0, `output` and `metadata` to `{}`; otherwise a `ValidationError` |
| Schemas.OutputDumpRoundTrip | engine/agent_base.py:26-32 | validating the dump of an output gives that output back |
| Agents.NewAgent | engine/agent_base.py:80-99 | no tools registered; allowed tools are exactly the given names; missing or empty hooks become the three empty phases; name and description kept; input validated by `Agentinput` and results by `Agentoutput`; the base `prepare` and `finalize` do nothing and the base `execute` raises `NotImplementedError` |
| Agents.RegisterTool | engine/agent_base.py:103-105 | the tool is stored under its name; every other registration and every other field is unchanged |
| Agents.GetTool | engine/agent_base.py:107-113 | `KeyError` "not allowed" if the name is not allowed; `KeyError` "not registered" if allowed but unregistered; otherwise exactly the registered tool |
| Agents.RegisteredToolIsFound | engine/agent_base.py:103-113 | after registering, lookup of that name gives the tool if it is allowed; lookups of other names are unchanged |
| Agents.AddHook | engine/agent_base.py:118-121 | `ValueError` for an unknown phase; otherwise `fn` is appended to that phase only, and the phases and other fields are unchanged |
| Agents.RunHooks | engine/agent_base.py:123-128 | every hook of the phase is called once, in registration order, with the record; a hook that raises does not stop the next |
| Agents.AddedHookRunsLast | engine/agent_base.py:118-128 | an added hook runs after all earlier hooks of its phase, which run as before |
| Agents.Coerce | engine/agent_base.py:216-225 | an `Agentoutput` is kept unchanged; a dict, or an object's `.dict()` / `dict(...)` conversion, goes through the output schema; a failed conversion is the error |
| Agents.DumpedOutputCoerces | engine/agent_base.py:216-225 | with the default output schema, the dump of an output, returned as a dict or by a successful conversion, coerces back to that output, as does the output itself |
| Agents.Core | engine/agent_base.py:211-228 | the guarded part stops at the first failure and reports its exception; success means prepare, execute, coercion and finalize all passed, and the result is the coerced output |
| Agents.Run | engine/agent_base.py:162-255 | the record is always terminal (`success` or `error`, never `running`), with id, name, raw input, both timestamps, and duration equal to end minus start; on input-validation failure: error record `InputvalidationError: …`, output `{}`/0.0/`input_validation`, only `on_error` hooks; success exactly when validation and the guarded part succeed, with `before` hooks, prepare, execute, finalize, `after` hooks, and record output equal to the result's; any other failure gives an error record with no output, `{"error": msg}`/0.0/`exception_type`, and `on_error` hooks |
| Agents.LifecycleOrder | engine/agent_base.py:193-236 | the lifecycle stages: none after a validation failure; prepare, execute, finalize on success; the attempted prefix on failure |
| Agents.RunIgnoresIdAndClock | engine/agent_base.py:176-255 | the fresh run id and the clock readings change only the record's identity and timing: two runs with the same input and context have the same output, status, recorded output, error and stages |
| Agents.DefaultInputShapeRaisesValidationError | engine/agent_base.py:193-196 | the default input shape fails only with a `ValidationError`, the exception `run` catches while validating |
| Agents.HookFailuresAreSwallowed | engine/agent_base.py:123-128 | whatever the hooks raise, `run` returns the same output and record and calls the same hooks in the same order |
| Guardrails.NewGuardrail | extensions/hooks/guardrail_hook.py:17-27 | missing lists become empty and the counter starts at 0 |
| Guardrails.MemberOf | extensions/hooks/guardrail_hook.py:37 | `key in payload` for a dict, list or string payload; `TypeError` for anything else |
| Guardrails.CheckRequired | extensions/hooks/guardrail_hook.py:34-40 | no violation exactly when every key is in the payload; otherwise the violation names the first missing key |
| Guardrails.OnWorkflowStart | extensions/hooks/guardrail_hook.py:31-40 | resets the counter to 0; no keys means no check; otherwise the required-key check on `initial_input.get("payload", {})` |
| Guardrails.BeforeAgentRun | extensions/hooks/guardrail_hook.py:44-55 | counts the step even when it then raises; raises exactly when the limit is exceeded or the agent is blocked; the limit is checked first |
| Guardrails.BeforeEach | extensions/hooks/guardrail_hook.py:44-55 | over a sequence of steps: all pass exactly when none raised, and the counter grows by one per step attempted |
| Guardrails.StepLimit | extensions/hooks/guardrail_hook.py:44-50 | with no blocked agent, `max_steps = m` lets the next `m - count` steps pass and stops the one after with the max-steps message; no limit lets every step pass |
| Observers.MethodNamesAreDistinct | engine/hooks.py:66-79 | each public method dispatches to its own listener method name |
| Observers.Deliver | engine/hooks.py:50-62 | a listener without a callable method is skipped and left unchanged; a callable that returns is handled, one that raises a `GuardrailViolation` gives that violation, and one that raises anything else has its exception swallowed; only those and the guardrail listener give a violation; the guardrail listener answers `on_workflow_start` and `before_agent_run` with its own verdict and passes every other event; the base and memory listeners always handle |
| Observers.PassiveListenersNeverInterfere | engine/hooks.py:20-35 | the `BaseHook` defaults and the logging and memory listeners handle every event and never raise; the memory listener only stores non-empty histories at `workflow_end` |
| Observers.Broadcast | engine/hooks.py:50-62 | listeners are called in order; without a violation every listener took the event; with one, the first violation stops the broadcast and later listeners are not called |
| Observers.ViolationIsFirstRaised | engine/hooks.py:50-62 | a violation escapes exactly when some listener raises one, and it is the first such listener's |
| Observers.NewHookManager | engine/hooks.py:46-47 | `HookManager(None)` has no listener, so every event is a no-op |
| Orchestration.NewOrchestrator | engine/orchestrator.py:34-43 | an empty step list is a `ValueError`; otherwise the steps and hook manager are kept |
| Orchestration.Notify | engine/orchestrator.py:62-64 | with no hook manager nothing happens; otherwise the event is broadcast and its violation, if any, escapes |
| Orchestration.StepInput | engine/orchestrator.py:70-80 | without a transformer the current input is used as is; with one, the payload is the transformer's result and the metadata is carried over (default `{}`); a missing `payload` or a raising transformer is the error |
| Orchestration.ContextKeys | engine/orchestrator.py:114-115 | the context's keys are the initial keys plus the names of the agents that succeeded, and nothing else |
| Orchestration.Finish | engine/orchestrator.py:125-135 | `workflow_end` is notified once with the result and history; the run returns that result unless a violation escapes |
| WorkflowRuns.RunOutcomes | engine/orchestrator.py:45-135 | every run either completes or aborts in one of the shapes the loop allows: records in step order, context from succeeded steps, events in order |
| WorkflowRuns.OneRecordPerStep | engine/orchestrator.py:66-91 | one record per attempted step, in step order, each with its agent's name, its own run id and a terminal status, between its `before_agent` and its `after_agent`/`agent_error` event |
| WorkflowRuns.FailFast | engine/orchestrator.py:93-135 | in a completed run every record but the last succeeded; the status is error exactly when the last record failed, and success exactly when all steps ran and succeeded; `agent_error` then `workflow_end` close a failed run, and `workflow_end` happens once |
| WorkflowRuns.ContextFromSucceededSteps | engine/orchestrator.py:70-115 | the final context keys are the initial keys plus the succeeded agents' names; each step's input was computed from the outputs of the earlier succeeded steps |
| WorkflowRuns.MetadataReachesFirstStepOnly | engine/orchestrator.py:117-123 | the initial metadata reaches only the first step; every later step gets exactly `{"previous_agent": <previous agent>}` |
| WorkflowRuns.MaxStepsOneStopsSecondStep | engine/orchestrator.py:82-89 | with a hook manager holding only a `max_steps=1` guardrail with no required keys or blocked agents, a run of two or more steps never gets past the first: a violation aborts it at step 2's `before_agent`, before step 2's agent runs |
| MarketingAgents.FirstMissing | domains/marketing/agents/input_validator_agent.py:33-35 | the first required key that is absent or falsy, scanning in order |
| MarketingAgents.ValidateMarketingInput | domains/marketing/agents/input_validator_agent.py:29-47 | fails with `Missing required input field: '<key>'` for the first absent or falsy key in required order; otherwise `{"validated_input": clean}` with exactly the three keys, each the stripped string of its input, confidence 1.0, `validated_by` the validator's name |
| MarketingAgents.RevalidationIsStable | domains/marketing/agents/input_validator_agent.py:37-41 | a validated payload whose cleaned values are non-empty validates again to the same output |
| MarketingAgents.CleanFieldsRevalidate | domains/marketing/agents/input_validator_agent.py:29-47 | three non-empty, already stripped strings pass validation unchanged |
| MarketingAgents.BlankFieldPasses | domains/marketing/agents/input_validator_agent.py:34-40 | a goal of white space only is truthy, passes the check and comes out empty |
| MarketingAgents.AudienceRuleTable | domains/marketing/agents/audience_analyzer_agent.py:29-47 | the insights for each combination of "founder"/"student" matches; student wins the tone; both lists are non-empty and of equal length 1 or 2 |
| MarketingAgents.AnalyzeAudience | domains/marketing/agents/audience_analyzer_agent.py:23-53 | the rules on the lower-cased `target_audience` (default `""`); a non-string audience is the `AttributeError` of `.lower()`; output `{"audience_insights": …}`, confidence 0.85 |
| MarketingAgents.AudienceMatchIgnoresCase | domains/marketing/agents/audience_analyzer_agent.py:26-47 | the analysis of an audience equals that of its lower-cased form, and always succeeds on a string |
| MarketingAgents.Benefit | domains/marketing/agents/value_proposition_agent.py:33-34 | the fallback when the list is empty or absent; otherwise the prefix and the first entry; it fails exactly when the value is truthy but neither a list nor a string |
| MarketingAgents.ProposeValue | domains/marketing/agents/value_proposition_agent.py:21-45 | core message "<product> helps you <lower(goal)> efficiently."; exactly two benefits; keys exactly core_message, key_benefits, goal; goal unchanged; confidence 0.9; a missing goal or non-dict insights is the `AttributeError`; with dict insights and a string goal it succeeds exactly when both benefit lines can be built, and otherwise returns the first benefit's error |
| MarketingAgents.ValuePropositionFallbacks | domains/marketing/agents/value_proposition_agent.py:25-35 | without insights the benefits are the two fallbacks; without a goal `execute` fails on `None.lower()` |
| MarketingAgents.GoalOrDefault | domains/marketing/agents/content_outline_generator.py:26 | the goal when present and truthy, else a truthy default |
| MarketingAgents.OutlineContent | domains/marketing/agents/content_outline_generator.py:21-39 | output exactly `{"content_outline": …}` with the core message as headline, the key benefits (default `[]`), and introduction and call to action naming the lower-cased goal; confidence 0.85 |
| MarketingAgents.OutlineLinesNameGoal | domains/marketing/agents/content_outline_generator.py:30-32 | the introduction and the call to action contain the goal they were built from |
| MarketingAgents.OutlineNamesGoal | domains/marketing/agents/content_outline_generator.py:24-33 | the outline's lines contain the lower-cased goal, which is "achieve your goals" when none was given |
| MarketingAgents.MarketingAgentIsBaseAgent | domains/marketing/agents/audience_analyzer_agent.py:14-21 | each marketing agent is the base agent with no allowed tool and default hooks, with its own `execute` |
| MarketingWorkflow.PassValidatedInput | domains/marketing/workflow/marketing_workflow.py:10-16 | `prev_output["validated_input"]` when present, else `{}`; a non-dict is the `AttributeError` of `.get` |
| MarketingWorkflow.PrepareValuePropInput | domains/marketing/workflow/marketing_workflow.py:19-29 | exactly product_description, goal (from the validator's context entry) and audience_insights (from the previous output), absent ones `None`; errors when a `.get` meets a non-dict |
| MarketingWorkflow.PrepareContentOutlineInput | domains/marketing/workflow/marketing_workflow.py:32-41 | exactly core_message and key_benefits from the previous output and goal from the validator's context entry; errors when a `.get` meets a non-dict |
| MarketingWorkflow.CreateMarketingWorkflow | domains/marketing/workflow/marketing_workflow.py:47-79 | four steps in order validator, analyzer, value proposition, outline; the first without transformer, the others with the three transformers in order |
| MarketingWorkflow.ValidatedInputReachesAnalyzer | domains/marketing/workflow/marketing_workflow.py:10-16 | the analyzer's payload is exactly the validator's cleaned dict |
| MarketingWorkflow.ProposalFromInsights | domains/marketing/agents/value_proposition_agent.py:28-35 | with non-empty insights the benefits name the first pain point and first motivation |
| MarketingWorkflow.BenefitsComeFromInsights | domains/marketing/workflow/marketing_workflow.py:19-29 | with the validator's entry in a context that may hold other agents' entries, after analysis the value proposition sees the cleaned product and goal and the analyzer's insights, and never falls back |
| MarketingWorkflow.OutlineFollowsProposal | domains/marketing/workflow/marketing_workflow.py:32-41 | the outline's headline and benefits are the proposal's, and, for a non-empty validated goal, its call to action names that goal lower-cased, whatever other entries the context and the validated input hold |
| Retry.FirstOk | extensions/LLM/retry_wrapper.py:22-24 | the first successful call among the first `n`, or none when all fail |
| Retry.GenerateJson | extensions/LLM/retry_wrapper.py:18-31 | at most `max_attempts` calls; returns the first success with no further call; after the final failure, re-raises its exception; one sleep of the delay between attempts, none after the last; `max_attempts <= 0` makes no call and returns `None`; a negative delay makes the first sleep raise |
| Retry.MoreAttemptsSameWinner | extensions/LLM/retry_wrapper.py:20-24 | allowing more attempts never changes which call wins |
| Retry.DefaultAbsorbsOneFailure | extensions/LLM/retry_wrapper.py:13-16 | the defaults are 2 attempts and a 1-second delay, so one failure followed by a success returns the second call's result |
| Text.Lower | domains/marketing/agents/audience_analyzer_agent.py:26 | `str.lower()`: same length, each character lower-cased |
| Text.LowerIsIdempotent | domains/marketing/agents/audience_analyzer_agent.py:26 | lower-casing twice is lower-casing once |
| Text.Strip | domains/marketing/agents/input_validator_agent.py:38-40 | `str.strip()`: the result is a slice between white space, and neither starts nor ends with white space |
| Text.StripIsIdempotent | domains/marketing/agents/input_validator_agent.py:38-40 | stripping twice is stripping once |
| Text.Contains | domains/marketing/agents/audience_analyzer_agent.py:35-40 | `sub in s` holds exactly when `sub` occurs at some index of `s` |
| Text.DecimalRoundTrip | extensions/hooks/guardrail_hook.py:48-50 | the decimal rendering of a non-negative `max_steps` in the message reads back as the same number |
| Text.IntDecimalRoundTrip | extensions/hooks/guardrail_hook.py:48-50 | the rendering of any `max_steps`, negative ones with their `-` sign included, is a sign and digits and reads back as the same number |
| MarketingScenarios.ValidatorOnSample | tests/test_marketing_workflow.py:29-36 | the sample payload validates unchanged |
| MarketingScenarios.AnalyzerOnSample | tests/test_marketing_workflow.py:29-36 | "SaaS founders" gives the founder insights with a confident tone |
| MarketingScenarios.ProposalOnSample | tests/test_marketing_workflow.py:29-36 | the sample's core message and benefits |
| MarketingScenarios.OutlineOnSample | tests/test_marketing_workflow.py:29-36 | the sample's outline |
| MarketingScenarios.SampleOutlineText | tests/test_marketing_workflow.py:29-38 | the final outline has the four outline keys; its headline is "AI CRM tool helps you increase signups efficiently." and its call to action is "Start today and increase signups with confidence.", naming the lower-cased goal |
| MarketingScenarios.SampleRunSucceeds | tests/test_marketing_workflow.py:10-38 | the sample run succeeds with four successful records, ends with the outline, and leaves the four agents' outputs in the context |
| MarketingScenarios.ValidatorRunWithoutGoal | domains/marketing/agents/input_validator_agent.py:33-35 | through `run`, an input without `goal` gives an error record whose message names `goal` |
| MarketingScenarios.FirstStepFails | engine/orchestrator.py:95-108 | with no hook manager, a first step whose input is prepared (no transformer, or one that returns) and whose agent fails ends the run with an error result holding that one record, and leaves the context untouched |
| MarketingScenarios.MissingGoalStopsAtValidator | domains/marketing/agents/input_validator_agent.py:33-35 | the sample input without its goal stops at the validator with one error record naming `goal`, and an empty context |

## Left out

- I/O and the environment: `print`, `uuid4`, `time.time`, `time.sleep`, and logging are abstracted or dropped (see above). The record's `duration_s` is an integer difference of clock readings, not a float.
- `engine/memory.py` and `extensions/memory_hook.py`: the JSON file store is not modelled. The memory listener is a list of saved histories, filled at `workflow_end`.
- `extensions/logging_hook.py`: it only prints. It is the passive listener.
- `extensions/LLM/gemini.py`, `extensions/LLM/base.py`, `engine/config.py`, `domains/marketing/agent_factory.py`, `run_marketing.py`: the network client, the abstract interface, environment reads and CLI wiring are not part of this model.
- `engine/guardrails.py` only declares the exception. It is the `Violated` delivery and the `GuardrailAbort` abort.
- Agents.Run: the traceback text is left abstract. Exceptions raised by the modelled code carry an empty traceback, so the record's error is `"<kind>: <message>\n"` followed by that text.
- Agents.Run: `prepare`, `execute` and `finalize` receive the context as a value. Changes an agent could make to the shared dict are not modelled; none of the marketing agents makes any.
- Agents.Run: every failure of the input shape becomes the `InputvalidationError` record. Python catches only pydantic's `ValidationError` there, so another exception from a custom `input_schema` would escape `run`. Every input shape in the model raises only `ValidationError` (Agents.DefaultInputShapeRaisesValidationError).
- Agents.RunHooks: an agent-local hook can only raise or return. Python calls it as `fn(self, record)` with the live record and agent, so a hook could set `extra`, `tokens_used` or even `status`, and `run` would return the changed record; the model cannot express such a hook (none in the repository does this).
- Observers.Custom: a listener other than the four known kinds has a fixed outcome per method name. The outcome ignores the arguments and earlier calls, and the listener keeps no state, so a stateful user listener such as one shaped like `GuardrailHook` cannot be written as a `Custom` listener. No listener can modify the record, output, result or history it receives, although Python passes the live objects.
- Orchestration.RunWorkflow: the run's final context is reported, but when the caller passes `None` or `{}`, `context or {}` makes a fresh dict the caller never sees; the model does not distinguish the caller's dict from that fresh one. The step list is treated as immutable after construction: Python keeps the caller's list by reference, so emptying it after `Orchestrator(...)` would make `run` skip the loop and raise `UnboundLocalError` on `output`, which the model cannot represent.
- Orchestration.StepInput: transformers are pure functions, so "transformers only read their arguments" holds by construction rather than by a lemma.
- Schemas.ValidateAgentInput: pydantic's message text is reduced to one line per failing field. Lax coercions pydantic would perform on dict fields are not modelled.
- Schemas.ValidateAgentOutput: confidence accepts ints, floats and bools as numbers. Pydantic's other lax conversions, such as numeric strings, are not modelled.
- Values.ToStr: `str()` is exact for `None`, `bool`, `int` and `str`. Floats, lists and dicts render as fixed placeholders, so MarketingAgents.ValidateMarketingInput cleans such values to those placeholders rather than Python's text.
- Text.Lower: only `A`..`Z` are lower-cased; Unicode case mapping is not modelled.
- Text.Strip: only ASCII white space is stripped; Unicode white space is not modelled.
- Values.KeyError: the `repr` of a string quotes it but does not escape special characters.
- Retry.GenerateJson: the delay is an integer number of seconds, not a float. Sleeping is recorded, not performed.
- The `n * 2` float arithmetic of the test agent in tests/test_agent_base.py is not modelled.
