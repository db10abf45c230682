/** What each step of an agent run did, in the plain terms of the provider, the tool executor and the stop event: how
    often they were asked, what was retried, and why the run went on or ended. */
module AgentSteps {
  import opened Messages
  import opened CallPairing
  import opened ContextWindow
  import opened AgentLoop

  function Retries(n: int): nat {
    if n > 0 then n else 0
  }

  /** A provider failure that may be tried again. */
  predicate MayRetry(a: Attempt) {
    a.Failed? && a.retryable
  }

  /** Every step asks the provider at least once and goes on exactly while it fails retryably and retries are left. */
  lemma StepRetries(c: Config, w: World, b: Builder, prefix: seq<Message>, history: seq<Message>, user: Message, run: Run, k: nat)
    requires IsRun(c, w, b, prefix, history, user, run) && k < |run.calls|
    ensures var first, end := if k == 0 then 0 else run.calls[k - 1], run.calls[k];
      && first < end <= first + 1 + Retries(c.retryAttempts)
      && (forall i :: first <= i < end - 1 ==> MayRetry(w.provider(i)))
      && (MayRetry(w.provider(end - 1)) ==> end == first + 1 + Retries(c.retryAttempts))
  {
    assert StepCalls(c, w, run.calls, k);
    forall i | CallsBefore(run.calls, k) <= i < run.calls[k] - 1 ensures MayRetry(w.provider(i)) {
      assert RetryableFailure(w, i);
    }
    assert MayRetry(w.provider(run.calls[k] - 1)) ==> RetryableFailure(w, run.calls[k] - 1);
  }

  /** A round is completed only by a reply with calls, with an executor there and the stop event unset at both polls. */
  lemma RoundMeaning(c: Config, w: World, b: Builder, prefix: seq<Message>, history: seq<Message>, user: Message, run: Run, k: nat)
    requires IsRun(c, w, b, prefix, history, user, run) && k < |run.rounds|
    ensures k < |run.calls| && run.calls[k] > 0
    ensures w.provider(run.calls[k] - 1) == Reply(run.rounds[k].response) && run.rounds[k].response.toolCalls != []
    ensures w.hasExecutor && !w.stopped(2 * k) && !w.stopped(2 * k + 1)
  {
    assert StepCalls(c, w, run.calls, k);
    assert IsRound(c, w, run.rounds, k) && RepliedAt(w, run.rounds, run.calls, k);
  }

  /** Why the run ended: it was stopped or out of steps before the next one, or the last step got no reply, a reply without
      calls, or one with calls that was not to be carried out. */
  lemma EndMeaning(c: Config, w: World, b: Builder, prefix: seq<Message>, history: seq<Message>, user: Message, run: Run)
    requires IsRun(c, w, b, prefix, history, user, run)
    ensures var n := |run.rounds|;
      if |run.calls| == n then
        (n < c.maxSteps && w.stopped(2 * n) && run.ending == Cancelled) || (n >= c.maxSteps && run.ending == StepsExhausted)
      else
        && |run.calls| == n + 1 && n < c.maxSteps && run.calls[n] > 0 && !w.stopped(2 * n)
        && match w.provider(run.calls[n] - 1)
           case Crashed => run.ending == Unhandled
           case Failed(code, _) => run.ending == ProviderError(code)
           case Reply(r) =>
             if r.toolCalls == [] then run.ending == Answered(r)
             else if w.stopped(2 * n + 1) then run.ending == CancelledAfter(r)
             else !w.hasExecutor && run.ending == NoExecutor(r)
  {
  }

  /** An execution that may be tried again: it returned an error marked so. A timeout or an exception never is. */
  predicate MayRunAgain(e: Execution) {
    e.Returned? && e.result.isError && e.result.retryable
  }

  /** What is reported of an execution after `n` attempts. */
  predicate Reports(w: World, m: Message, n: nat, e: Execution) {
    match e
    case Returned(r) => m.content == w.resultContent(if r.isError then ToolFailed else Completed, n, r)
    case TimedOut => m.content == w.resultContent(ToolFailed, n, ToolResult(true, false, "tool_timeout", ""))
    case Raised(body) => m.content == w.resultContent(ToolFailed, n, ToolResult(true, false, "tool_execution_exception", body))
  }

  /** Every requested call gets one tool message that answers it: a failed validation is reported without any execution, else
      the tool is executed again exactly while it fails retryably and retries are left, and its last outcome is reported. */
  lemma ResultMeaning(c: Config, w: World, rounds: seq<Round>, k: nat, i: nat)
    requires RoundsOf(c, w, rounds) && k < |rounds| && i < |rounds[k].response.toolCalls|
    ensures |rounds[k].results| == |rounds[k].response.toolCalls| && |rounds[k].marks| == |rounds[k].results| + 1
    ensures var call, m := rounds[k].response.toolCalls[i], rounds[k].results[i];
      m.role.Tool? && AnswerId(m) == call.callId && m.source == "tool_result:" + call.name
    ensures var call, m := rounds[k].response.toolCalls[i], rounds[k].results[i];
      var first, end := rounds[k].marks[i], rounds[k].marks[i + 1];
      match w.validate(call)
      case Some(e) => end == first && m.content == w.resultContent(PrepareFailed, 0, e)
      case None =>
        && first < end <= first + 1 + Retries(c.toolRetryAttempts)
        && (forall j :: first <= j < end - 1 ==> MayRunAgain(w.execute(j)))
        && (MayRunAgain(w.execute(end - 1)) ==> end == first + 1 + Retries(c.toolRetryAttempts))
        && Reports(w, m, end - first, w.execute(end - 1))
  {
    var round := rounds[k];
    assert IsRound(c, w, rounds, k);
    var first, end := round.marks[i], round.marks[i + 1];
    assert IsResultAt(c, w, round.response.toolCalls, round.results, round.marks, i);
    if w.validate(round.response.toolCalls[i]).None? {
      forall j | first <= j < end - 1 ensures MayRunAgain(w.execute(j)) {
        assert RetryableError(w, j);
      }
      assert MayRunAgain(w.execute(end - 1)) ==> RetryableError(w, end - 1);
    }
  }
}
