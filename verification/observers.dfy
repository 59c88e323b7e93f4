/** The workflow-level observers of `engine/hooks.py`: the five events, the
    listeners (`BaseHook` and `LoggingHook`, `MemoryHook`, `GuardrailHook`,
    and other objects), and `HookManager`'s fan-out, which swallows
    every listener failure except `GuardrailViolation`. */
module Observers {
  import opened Results
  import opened Values
  import opened Schemas
  import opened Guardrails

  /** The five public `HookManager` methods, with their arguments. Agents
      are passed by name: that is all a listener reads of them. */
  datatype HookEvent =
    | WorkflowStart(initialInput: Fields)
    | WorkflowEnd(result: WorkflowResult, history: seq<RunRecord>)
    | BeforeAgent(agentName: string, agentInput: Fields)
    | AfterAgent(agentName: string, agentOutput: AgentOutput, record: RunRecord)
    | AgentError(agentName: string, error: Option<string>, record: RunRecord)

  /** The listener method each public method dispatches to. */
  function MethodName(e: HookEvent): string {
    match e
    case WorkflowStart(_) => "on_workflow_start"
    case WorkflowEnd(_, _) => "on_workflow_end"
    case BeforeAgent(_, _) => "before_agent_run"
    case AfterAgent(_, _, _) => "after_agent_run"
    case AgentError(_, _, _) => "on_agent_error"
  }

  /** Each event kind has its own listener method. */
  lemma MethodNamesAreDistinct(e1: HookEvent, e2: HookEvent)
    ensures MethodName(e1) == MethodName(e2) <==>
              (e1.WorkflowStart? && e2.WorkflowStart?) || (e1.WorkflowEnd? && e2.WorkflowEnd?)
              || (e1.BeforeAgent? && e2.BeforeAgent?) || (e1.AfterAgent? && e2.AfterAgent?)
              || (e1.AgentError? && e2.AgentError?)
  {
  }

  /** What calling a method of an arbitrary listener does. */
  datatype CallOutcome = Returns | RaisesOther(error: Exc) | RaisesViolation(message: string)

  /** `getattr(hook, name, None)`: present and callable, or present and not. */
  datatype Attr = NotCallable | Callable(outcome: CallOutcome)

  datatype Listener =
    | Passive                              // `BaseHook` itself, or `LoggingHook`, which only prints
    | Memory(saved: seq<seq<RunRecord>>)   // `MemoryHook`; its store is the list of saved histories
    | Guard(guard: GuardrailHook)
    // any other object, reduced to a fixed outcome per method name: the
    // outcome ignores the arguments and earlier calls, and the object keeps
    // no state; a missing method is a missing key
    | Custom(attrs: map<string, Attr>)

  /** How one listener took one event. */
  datatype Delivery = Skipped | Handled | Swallowed(error: Exc) | Violated(message: string)

  function FromVerdict(v: Verdict): Delivery {
    match v
    case Allowed => Handled
    case Violation(m) => Violated(m)
    case Failed(e) => Swallowed(e)
  }

  /** One listener's method call inside `_call`'s `try`. */
  function Deliver(l: Listener, e: HookEvent): (r: (Listener, Delivery))
    ensures l.Custom? ==> r.0 == l
    ensures l.Custom? && (MethodName(e) !in l.attrs || l.attrs[MethodName(e)].NotCallable?) ==> r.1 == Skipped
    ensures r.1 == Skipped ==> l.Custom?
    // a callable method: returning is handled, a `GuardrailViolation` is
    // re-raised, any other exception is swallowed
    ensures l.Custom? && MethodName(e) in l.attrs && l.attrs[MethodName(e)].Callable? ==>
              match l.attrs[MethodName(e)].outcome
              case Returns => r.1 == Handled
              case RaisesOther(x) => r.1 == Swallowed(x)
              case RaisesViolation(m) => r.1 == Violated(m)
    // only a guardrail or a listener that raises a `GuardrailViolation` gives one
    ensures r.1.Violated? ==>
              || l.Guard?
              || (l.Custom? && MethodName(e) in l.attrs && l.attrs[MethodName(e)] == Callable(RaisesViolation(r.1.message)))
    ensures l.Passive? || l.Memory? ==> r.1 == Handled
    // `GuardrailHook` acts on the start of a workflow and before each agent,
    // and passes every other event
    ensures l.Guard? && e.WorkflowStart? ==>
              var (g', v) := OnWorkflowStart(l.guard, e.initialInput);
              r == (Guard(g'), FromVerdict(v))
    ensures l.Guard? && e.BeforeAgent? ==>
              var (g', v) := BeforeAgentRun(l.guard, e.agentName);
              r == (Guard(g'), FromVerdict(v))
    ensures l.Guard? && !e.WorkflowStart? && !e.BeforeAgent? ==> r == (l, Handled)
    ensures r.0.Passive? == l.Passive? && r.0.Memory? == l.Memory? && r.0.Guard? == l.Guard?
  {
    match l
    case Passive => (l, Handled)
    case Memory(saved) =>
      if e.WorkflowEnd? && e.history != [] then (Memory(saved + [e.history]), Handled) else (l, Handled)
    case Guard(g) =>
      (match e
       case WorkflowStart(initial) =>
         var (g', v) := OnWorkflowStart(g, initial);
         (Guard(g'), FromVerdict(v))
       case BeforeAgent(name, _) =>
         var (g', v) := BeforeAgentRun(g, name);
         (Guard(g'), FromVerdict(v))
       case _ => (l, Handled))
    case Custom(attrs) =>
      var name := MethodName(e);
      if name !in attrs || attrs[name].NotCallable? then (l, Skipped)
      else match attrs[name].outcome
        case Returns => (l, Handled)
        case RaisesOther(exc) => (l, Swallowed(exc))
        case RaisesViolation(m) => (l, Violated(m))
  }

  /** `BaseHook`'s methods (and `LoggingHook`'s) do nothing and never raise;
      `MemoryHook` never raises and only `on_workflow_end` with a non-empty
      history changes its store. */
  lemma PassiveListenersNeverInterfere(e: HookEvent, saved: seq<seq<RunRecord>>)
    ensures Deliver(Passive, e) == (Passive, Handled)
    ensures Deliver(Memory(saved), e).1 == Handled
    ensures Deliver(Memory(saved), e).0 ==
              (if e.WorkflowEnd? && e.history != [] then Memory(saved + [e.history]) else Memory(saved))
  {
  }

  /** The listeners after the event, how each listener took it, and the
      violation that escaped (if any). */
  datatype Dispatch = Dispatch(listeners: seq<Listener>, deliveries: seq<Delivery>, violation: Option<string>)

  /** The first `k` listeners took the event without raising a violation:
      `listeners[j]` and `deliveries[j]` are what `ls[j]` became and how it
      took the event. */
  predicate TookInOrder(ls: seq<Listener>, e: HookEvent, listeners: seq<Listener>, deliveries: seq<Delivery>, k: nat) {
    && k <= |ls| && k <= |listeners| && k <= |deliveries|
    && forall j :: 0 <= j < k ==> (listeners[j], deliveries[j]) == Deliver(ls[j], e) && !deliveries[j].Violated?
  }

  lemma TookInOrderCons(ls: seq<Listener>, e: HookEvent, l': Listener, del: Delivery,
                        listeners: seq<Listener>, deliveries: seq<Delivery>, k: nat)
    requires ls != [] && Deliver(ls[0], e) == (l', del) && !del.Violated?
    requires TookInOrder(ls[1..], e, listeners, deliveries, k)
    ensures TookInOrder(ls, e, [l'] + listeners, [del] + deliveries, k + 1)
  {
    forall j | 0 < j < k + 1
      ensures ([l'] + listeners)[j] == listeners[j - 1] && ([del] + deliveries)[j] == deliveries[j - 1]
      ensures ls[j] == ls[1..][j - 1]
    {
    }
  }

  /** `HookManager._call`: every listener in list order; the first
      `GuardrailViolation` is re-raised at once and later listeners are not
      called; any other failure is swallowed and the next listener runs. */
  function Broadcast(ls: seq<Listener>, e: HookEvent): (d: Dispatch)
    ensures |d.listeners| == |ls|
    ensures d.violation.None? ==> |d.deliveries| == |ls| && TookInOrder(ls, e, d.listeners, d.deliveries, |ls|)
    ensures d.violation.Some? ==>
              && 1 <= |d.deliveries| <= |ls|
              && var k := |d.deliveries| - 1;
                 && Deliver(ls[k], e) == (d.listeners[k], Violated(d.violation.value))
                 && d.deliveries[k] == Violated(d.violation.value)
                 && TookInOrder(ls, e, d.listeners, d.deliveries, k)
                 && d.listeners[k + 1..] == ls[k + 1..]
  {
    if ls == [] then Dispatch([], [], None)
    else
      var (l', del) := Deliver(ls[0], e);
      if del.Violated? then
        assert TookInOrder(ls, e, [l'] + ls[1..], [del], 0);
        Dispatch([l'] + ls[1..], [del], Some(del.message))
      else
        var rest := Broadcast(ls[1..], e);
        var k := if rest.violation.None? then |ls| - 1 else |rest.deliveries| - 1;
        TookInOrderCons(ls, e, l', del, rest.listeners, rest.deliveries, k);
        Dispatch([l'] + rest.listeners, [del] + rest.deliveries, rest.violation)
  }

  /** A violation escapes exactly when some listener raises one, and it is
      the first listener's that does. */
  lemma ViolationIsFirstRaised(ls: seq<Listener>, e: HookEvent)
    ensures Broadcast(ls, e).violation.None? <==> forall j :: 0 <= j < |ls| ==> !Deliver(ls[j], e).1.Violated?
    ensures Broadcast(ls, e).violation.Some? ==>
              exists k :: 0 <= k < |ls| && Deliver(ls[k], e).1 == Violated(Broadcast(ls, e).violation.value)
                          && forall j :: 0 <= j < k ==> !Deliver(ls[j], e).1.Violated?
  {
    var d := Broadcast(ls, e);
    if d.violation.Some? {
      var k := |d.deliveries| - 1;
      assert Deliver(ls[k], e).1.Violated?;
    }
  }

  /** `HookManager`: its list of listeners. */
  datatype HookManager = HookManager(listeners: seq<Listener>)

  /** `HookManager(hooks)`: `None` (or an empty list) means no listener, so
      every event is then a no-op. */
  function NewHookManager(hooks: Option<seq<Listener>>): (m: HookManager)
    ensures hooks.None? ==> m.listeners == []
    ensures hooks.Some? ==> m.listeners == hooks.value
    ensures forall e :: hooks.None? ==> Broadcast(m.listeners, e) == Dispatch([], [], None)
  {
    HookManager(if hooks.None? then [] else hooks.value)
  }
}
