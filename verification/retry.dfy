/** `extensions/LLM/retry_wrapper.py`: an LLM wrapper that retries
    `generate_json` on any exception, sleeping between attempts, and
    re-raises the last exception once the attempts are used up.

    The wrapped LLM is a parameter: `llm(k)` is what its `k`-th call (from 0)
    returns or raises for the fixed prompt. Sleeping is recorded, not done. */
module Retry {
  import opened Results
  import opened Values

  /** The wrapper's two settings, defaults `max_attempts=2` and
      `delay_seconds=1`. */
  datatype RetryLLM = RetryLLM(maxAttempts: int := 2, delaySeconds: int := 1)

  /** What `generate_json` does in the end: return a dict, raise, or fall
      off the end of the loop (Python's implicit `None`) when no attempt is
      allowed. */
  datatype Answer = Returned(json: Fields) | Raised(error: Exc) | ReturnedNone

  /** The `ValueError` `time.sleep` raises for a negative length. */
  function NegativeSleep(): Exc {
    Raise("ValueError", "sleep length must be non-negative")
  }

  /** How many calls the `while attempt < max_attempts` loop can make. */
  function Allowed(w: RetryLLM): nat {
    if w.maxAttempts < 0 then 0 else w.maxAttempts
  }

  /** The first call that succeeds, among the first `n`. */
  function FirstOk(llm: nat -> Result<Fields>, n: nat): (j: Option<nat>)
    ensures j.None? <==> forall k :: 0 <= k < n ==> llm(k).Err?
    ensures j.Some? ==> j.value < n && llm(j.value).Ok? && forall k :: 0 <= k < j.value ==> llm(k).Err?
  {
    if n == 0 then None
    else match FirstOk(llm, n - 1)
      case Some(j) => Some(j)
      case None => if llm(n - 1).Ok? then Some(n - 1) else None
  }

  /** `RetryLLM.generate_json`: calls the wrapped LLM until it returns,
      at most `maxAttempts` times, sleeping `delaySeconds` after each
      failure but the last. */
  method GenerateJson(w: RetryLLM, llm: nat -> Result<Fields>) returns (answer: Answer, calls: nat, sleeps: seq<int>)
    // no attempt allowed: nothing is called and `None` comes back
    ensures w.maxAttempts <= 0 ==> answer == ReturnedNone && calls == 0 && sleeps == []
    ensures w.maxAttempts > 0 ==> !answer.ReturnedNone? && 1 <= calls <= w.maxAttempts
    // every call but the last failed, and each of those failures was followed by one sleep
    ensures forall k :: 0 <= k < calls - 1 ==> llm(k).Err?
    ensures forall k :: 0 <= k < |sleeps| ==> sleeps[k] == w.delaySeconds
    ensures calls > 0 && w.delaySeconds >= 0 ==> |sleeps| == calls - 1
    // the first success is what comes back
    ensures answer.Returned? <==> || (w.delaySeconds >= 0 && FirstOk(llm, Allowed(w)).Some?)
                                  || (w.delaySeconds < 0 && w.maxAttempts > 0 && llm(0).Ok?)
    ensures answer.Returned? ==> llm(calls - 1) == Ok(answer.json)
    // after the final attempt its exception is re-raised unchanged
    ensures answer.Raised? && w.delaySeconds >= 0 ==>
              calls == w.maxAttempts && answer.error == llm(calls - 1).error
    // a negative delay makes the first sleep raise instead of retrying
    ensures answer.Raised? && w.delaySeconds < 0 ==>
              && calls == 1
              && (w.maxAttempts == 1 ==> answer.error == llm(0).error)
              && (w.maxAttempts > 1 ==> answer.error == NegativeSleep())
  {
    var attempt: nat := 0;
    calls, sleeps := 0, [];
    while attempt < w.maxAttempts
      invariant calls == attempt <= Allowed(w)
      invariant w.maxAttempts > 0 ==> attempt < w.maxAttempts
      invariant forall k :: 0 <= k < attempt ==> llm(k).Err?
      invariant |sleeps| == attempt && forall k :: 0 <= k < |sleeps| ==> sleeps[k] == w.delaySeconds
      invariant w.delaySeconds < 0 ==> attempt == 0
    {
      var response := llm(attempt);
      calls := calls + 1;
      if response.Ok? {
        answer := Returned(response.value);
        return;
      }
      if attempt == w.maxAttempts - 1 {
        answer := Raised(response.error);
        assert FirstOk(llm, Allowed(w)).None?;
        return;
      }
      attempt := attempt + 1;
      if w.delaySeconds < 0 {
        answer := Raised(NegativeSleep());
        return;
      }
      sleeps := sleeps + [w.delaySeconds];
    }
    answer := ReturnedNone;
  }

  /** Allowing more attempts never changes which call wins: the loop
      returns at the first success whatever the bound beyond it. */
  lemma {:induction false} MoreAttemptsSameWinner(llm: nat -> Result<Fields>, n: nat, m: nat)
    requires n <= m && FirstOk(llm, n).Some?
    ensures FirstOk(llm, m) == FirstOk(llm, n)
    decreases m
  {
    if m > n {
      MoreAttemptsSameWinner(llm, n, m - 1);
    }
  }

  /** With the default settings, one failure followed by a success is
      absorbed: the second call wins. */
  lemma DefaultAbsorbsOneFailure(llm: nat -> Result<Fields>)
    requires llm(0).Err? && llm(1).Ok?
    ensures RetryLLM().delaySeconds == 1
    ensures FirstOk(llm, Allowed(RetryLLM())) == Some(1)
  {
  }
}
