/** `GuardrailHook` of `extensions/hooks/guardrail_hook.py`: a workflow
    observer with a step counter, a required-key check on the initial
    payload, a step limit and an agent block-list. Raising
    `GuardrailViolation` is the `Violation` verdict. */
module Guardrails {
  import opened Results
  import opened Values
  import Text

  datatype GuardrailHook = GuardrailHook(
    maxSteps: Option<int>,
    requiredInputKeys: seq<string>,
    blockedAgents: seq<string>,
    stepCount: int)

  /** What one guardrail method did: returned, raised `GuardrailViolation`,
      or raised another exception. */
  datatype Verdict = Allowed | Violation(message: string) | Failed(error: Exc)

  /** `GuardrailHook.__init__`: missing lists become empty, the counter 0. */
  function NewGuardrail(maxSteps: Option<int>, requiredInputKeys: Option<seq<string>>,
                        blockedAgents: Option<seq<string>>): (g: GuardrailHook)
    ensures g.maxSteps == maxSteps && g.stepCount == 0
    ensures g.requiredInputKeys == (if requiredInputKeys.Some? then requiredInputKeys.value else [])
    ensures g.blockedAgents == (if blockedAgents.Some? then blockedAgents.value else [])
  {
    GuardrailHook(maxSteps,
                  if requiredInputKeys.None? then [] else requiredInputKeys.value,
                  if blockedAgents.None? then [] else blockedAgents.value,
                  0)
  }

  /** `key in container`: dict keys, list elements, substrings of a string;
      anything else is not iterable. */
  function MemberOf(key: string, container: Value): (r: Result<bool>)
    ensures container.Map? ==> r == Ok(key in container.fields)
    ensures container.List? ==> r == Ok(Str(key) in container.items)
    ensures container.Str? ==> r == Ok(Text.Contains(container.s, key))
    ensures !(container.Map? || container.List? || container.Str?) ==> r.Err? && r.error.kind == "TypeError"
  {
    match container
    case Map(m) => Ok(key in m)
    case List(xs) => Ok(Str(key) in xs)
    case Str(s) => Ok(Text.Contains(s, key))
    case _ => Err(Raise("TypeError", "argument of type '" + TypeName(container) + "' is not iterable"))
  }

  function MissingKeyMessage(key: string): string {
    "Missing required input key: '" + key + "'"
  }

  /** Every key of `keys` is in the payload. */
  predicate AllIn(keys: seq<string>, payload: Value) {
    forall i :: 0 <= i < |keys| ==> MemberOf(keys[i], payload) == Ok(true)
  }

  /** `keys[i]` is the first key of `keys` that is not in the payload. */
  predicate FirstNotIn(keys: seq<string>, payload: Value, i: int) {
    && 0 <= i < |keys|
    && MemberOf(keys[i], payload) == Ok(false)
    && AllIn(keys[..i], payload)
  }

  lemma AllInCons(keys: seq<string>, payload: Value)
    requires keys != [] && MemberOf(keys[0], payload) == Ok(true)
    ensures AllIn(keys, payload) <==> AllIn(keys[1..], payload)
  {
    if AllIn(keys[1..], payload) {
      forall i | 0 <= i < |keys|
        ensures MemberOf(keys[i], payload) == Ok(true)
      {
        if i > 0 {
          assert keys[i] == keys[1..][i - 1];
        }
      }
    }
    if AllIn(keys, payload) {
      forall i | 0 <= i < |keys[1..]|
        ensures MemberOf(keys[1..][i], payload) == Ok(true)
      {
        assert keys[1..][i] == keys[i + 1];
      }
    }
  }

  lemma FirstNotInCons(keys: seq<string>, payload: Value, i: int)
    requires keys != [] && MemberOf(keys[0], payload) == Ok(true)
    requires FirstNotIn(keys[1..], payload, i)
    ensures FirstNotIn(keys, payload, i + 1) && keys[i + 1] == keys[1..][i]
  {
    assert keys[..i + 1][1..] == keys[1..][..i];
    AllInCons(keys[..i + 1], payload);
  }

  /** The required-key loop: a violation for the first key not in the
      payload, scanning in list order; an error when the payload cannot be
      searched. */
  function CheckRequired(keys: seq<string>, payload: Value): (v: Verdict)
    ensures v == Allowed <==> AllIn(keys, payload)
    ensures v.Violation? ==> exists i :: FirstNotIn(keys, payload, i) && v.message == MissingKeyMessage(keys[i])
    ensures v.Failed? ==> keys != [] && MemberOf(keys[0], payload).Err?
  {
    if keys == [] then Allowed
    else if !(payload.Map? || payload.List? || payload.Str?) then Failed(MemberOf(keys[0], payload).error)
    else if !MemberOf(keys[0], payload).value then
      assert FirstNotIn(keys, payload, 0);
      Violation(MissingKeyMessage(keys[0]))
    else
      var v := CheckRequired(keys[1..], payload);
      AllInCons(keys, payload);
      if v.Violation? then
        var i :| FirstNotIn(keys[1..], payload, i) && v.message == MissingKeyMessage(keys[1..][i]);
        FirstNotInCons(keys, payload, i);
        v
      else
        v
  }

  /** `on_workflow_start`: resets the counter first, then requires every
      configured key in `initial_input["payload"]` (a missing payload counts
      as `{}`). */
  function OnWorkflowStart(g: GuardrailHook, initialInput: Fields): (r: (GuardrailHook, Verdict))
    ensures r.0 == g.(stepCount := 0)
    ensures g.requiredInputKeys == [] ==> r.1 == Allowed
    ensures r.1 == CheckRequired(g.requiredInputKeys, Get(initialInput, "payload", Map(map[])))
  {
    var g' := g.(stepCount := 0);
    if g.requiredInputKeys == [] then (g', Allowed)
    else (g', CheckRequired(g.requiredInputKeys, Get(initialInput, "payload", Map(map[]))))
  }

  /** The step limit is exceeded once the counter passes `max_steps`. */
  predicate ExceedsLimit(maxSteps: Option<int>, count: int) {
    maxSteps.Some? && count > maxSteps.value
  }

  function MaxStepsMessage(maxSteps: int): string {
    "Workflow exceeded max steps (" + Text.IntToDecimal(maxSteps) + ")"
  }

  function BlockedMessage(agentName: string): string {
    "Agent '" + agentName + "' is blocked by guardrails"
  }

  /** `before_agent_run`: counts the step (also when it then raises), then
      checks the limit and then the block-list. */
  function BeforeAgentRun(g: GuardrailHook, agentName: string): (r: (GuardrailHook, Verdict))
    ensures r.0 == g.(stepCount := g.stepCount + 1)
    ensures !r.1.Failed?
    ensures r.1.Violation? <==> ExceedsLimit(g.maxSteps, g.stepCount + 1) || agentName in g.blockedAgents
    ensures ExceedsLimit(g.maxSteps, g.stepCount + 1) ==> r.1 == Violation(MaxStepsMessage(g.maxSteps.value))
    ensures !ExceedsLimit(g.maxSteps, g.stepCount + 1) && agentName in g.blockedAgents ==>
              r.1 == Violation(BlockedMessage(agentName))
  {
    var g' := g.(stepCount := g.stepCount + 1);
    if ExceedsLimit(g.maxSteps, g'.stepCount) then (g', Violation(MaxStepsMessage(g.maxSteps.value)))
    else if agentName in g.blockedAgents then (g', Violation(BlockedMessage(agentName)))
    else (g', Allowed)
  }

  /** Consecutive `before_agent_run` calls for the named agents, stopping at
      the first one that does not return: the guardrail afterwards, how many
      calls returned, and the verdict of the one that stopped (if any). */
  function BeforeEach(g: GuardrailHook, names: seq<string>): (r: (GuardrailHook, nat, Verdict))
    ensures r.1 <= |names|
    ensures r.2 == Allowed <==> r.1 == |names|
    ensures r.0.stepCount == g.stepCount + (if r.2 == Allowed then r.1 else r.1 + 1)
    decreases |names|
  {
    if names == [] then (g, 0, Allowed)
    else
      var (g', v) := BeforeAgentRun(g, names[0]);
      if v != Allowed then (g', 0, v)
      else
        var (g'', n, v') := BeforeEach(g', names[1..]);
        (g'', n + 1, v')
  }

  /** With `max_steps = m` and no blocked agent, the first `m` calls after a
      reset pass the limit and call `m + 1` raises; `None` never limits. */
  lemma {:induction false} StepLimit(g: GuardrailHook, names: seq<string>)
    requires g.stepCount >= 0
    requires forall i :: 0 <= i < |names| ==> names[i] !in g.blockedAgents
    ensures g.maxSteps.None? ==> BeforeEach(g, names).2 == Allowed
    ensures g.maxSteps.Some? && g.stepCount <= g.maxSteps.value ==>
              var left := g.maxSteps.value - g.stepCount;
              if |names| <= left then BeforeEach(g, names).2 == Allowed
              else BeforeEach(g, names).1 == left
                   && BeforeEach(g, names).2 == Violation(MaxStepsMessage(g.maxSteps.value))
    decreases |names|
  {
    if names != [] {
      var g' := BeforeAgentRun(g, names[0]).0;
      assert forall i :: 0 <= i < |names[1..]| ==> names[1..][i] !in g'.blockedAgents by {
        forall i | 0 <= i < |names[1..]|
          ensures names[1..][i] !in g'.blockedAgents
        {
          assert names[1..][i] == names[i + 1];
        }
      }
      StepLimit(g', names[1..]);
    }
  }
}
