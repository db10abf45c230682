/** The agent loop: provider call with retries, tool execution, and the growing active turn that is handed
    to the context builder before every provider call. The provider, the tool executor and the stop event
    are arbitrary: the k-th consultation of each has an arbitrary outcome. */
module AgentLoop {
  import opened Messages
  import opened ContextWindow
  import opened ContextBuilder

  datatype ToolCall = ToolCall(callId: string, name: string, arguments: string)

  /** `hiddenOutput` tells that the response carries provider output that is not text; of it only non-empty
      image and built-in call lists and output types influence what is displayed. Missing texts are empty. */
  datatype Response = Response(
    content: string, toolCalls: seq<ToolCall>, finishReason: Option<string>,
    reasoning: string, signature: string, redacted: bool, refusal: string,
    hiddenOutput: bool, images: bool, builtinCalls: bool, outputTypes: bool)

  datatype Attempt = Reply(response: Response) | Failed(code: string, retryable: bool) | Crashed

  datatype ToolResult = ToolResult(isError: bool, retryable: bool, code: string, body: string)

  datatype Execution = Returned(result: ToolResult) | TimedOut | Raised(body: string)

  datatype Phase = PrepareFailed | ToolFailed | Completed

  datatype Config = Config(maxSteps: int, retryAttempts: int, toolRetryAttempts: int, errorText: string -> string)

  /** Everything the loop consults. The encoders give the JSON texts of contents and metadata. */
  datatype World = World(
    provider: nat -> Attempt,
    stopped: nat -> bool,
    hasExecutor: bool,
    validate: ToolCall -> Option<ToolResult>,
    execute: nat -> Execution,
    responseJson: Response -> string,
    resultContent: (Phase, nat, ToolResult) -> string,
    resultJson: (ToolCall, Phase, nat) -> string)

  datatype LoopEvent =
    | Text(text: Option<string>, reasoning: Option<string>)
    | ToolStart(names: seq<string>)
    | ToolEnd(count: nat)
    | Done(finalResponse: string, assistantMessages: seq<Message>, toolMessages: seq<Message>, steps: int, error: Option<string>)

  // ---- Messages of a round ----

  function DisplayContent(r: Response): string {
    if r.content != "" then r.content
    else if r.images then "[generated image available]"
    else if r.builtinCalls then "[built-in tool output available]"
    else if r.reasoning != "" then ""
    else if r.refusal != "" then r.refusal
    else if r.outputTypes then "[empty response output received]"
    else ""
  }

  function CallEntries(calls: seq<ToolCall>): seq<CallEntry> {
    seq(|calls|, i requires 0 <= i < |calls| => Call(Some(calls[i].callId), Some(calls[i].name), Some(calls[i].arguments)))
  }

  /** The message a response adds to the turn; a response without any output adds none. */
  function AssistantMessages(w: World, r: Response): seq<Message> {
    if DisplayContent(r) == "" && r.toolCalls == [] && !r.hiddenOutput then []
    else
      var calls := if r.toolCalls == [] then NotAList else CallList(CallEntries(r.toolCalls));
      var metadata :=
        if r.finishReason.None? && !r.hiddenOutput && r.toolCalls == [] then None
        else Some(Metadata(calls, None, w.responseJson(r)));
      [Message(Assistant, DisplayContent(r), "provider_response", metadata, r.reasoning, r.signature, r.redacted, "")]
  }

  function ToolMessage(w: World, call: ToolCall, phase: Phase, attempt: nat, result: ToolResult): Message {
    Message(Tool, w.resultContent(phase, attempt, result), "tool_result:" + call.name,
            Some(Metadata(NotAList, Some(call.callId), w.resultJson(call, phase, attempt))), "", "", false, "")
  }

  // ---- Provider calls ----

  function AtLeast(n: int, low: nat): nat {
    if n < low then low else n
  }

  /** Attempts one provider step may make. */
  function MaxAttempts(c: Config): nat {
    AtLeast(c.retryAttempts + 1, 1)
  }

  predicate RetryableFailure(w: World, call: nat) {
    w.provider(call).Failed? && w.provider(call).retryable
  }

  /** The calls `before` to `after - 1` are the attempts of one step: all but the last failed retryably, and the last
      did so only when no attempt was left. */
  predicate AreAttempts(c: Config, w: World, before: nat, after: nat) {
    && before < after <= before + MaxAttempts(c)
    && (forall k :: before <= k < after - 1 ==> RetryableFailure(w, k))
    && (RetryableFailure(w, after - 1) ==> after == before + MaxAttempts(c))
  }

  method CallProviderWithRetry(c: Config, w: World, calls: nat) returns (outcome: Attempt, made: nat)
    ensures AreAttempts(c, w, calls, calls + made)
    ensures outcome == w.provider(calls + made - 1)
  {
    made := 0;
    while true
      invariant made < MaxAttempts(c)
      invariant forall k :: calls <= k < calls + made ==> RetryableFailure(w, k)
      decreases MaxAttempts(c) - made
    {
      outcome := w.provider(calls + made);
      made := made + 1;
      if !outcome.Failed? {
        return;
      }
      var canRetry := outcome.retryable && made <= c.retryAttempts;
      if !canRetry {
        return;
      }
    }
  }

  // ---- Tool execution ----

  function ExecutionResult(e: Execution): ToolResult {
    match e
    case Returned(result) => result
    case TimedOut => ToolResult(true, false, "tool_timeout", "")
    case Raised(body) => ToolResult(true, false, "tool_execution_exception", body)
  }

  function MaxToolAttempts(c: Config): nat {
    AtLeast(c.toolRetryAttempts + 1, 1)
  }

  predicate RetryableError(w: World, execution: nat) {
    ExecutionResult(w.execute(execution)).isError && ExecutionResult(w.execute(execution)).retryable
  }

  method ExecuteToolWithLifecycle(c: Config, w: World, executions: nat)
    returns (result: ToolResult, attempt: nat, phase: Phase)
    ensures 1 <= attempt <= MaxToolAttempts(c)
    ensures result == ExecutionResult(w.execute(executions + attempt - 1))
    ensures phase == if result.isError then ToolFailed else Completed
    ensures forall k :: executions <= k < executions + attempt - 1 ==> RetryableError(w, k)
    ensures result.isError && result.retryable ==> attempt == MaxToolAttempts(c)
  {
    attempt := 1;
    result := ExecutionResult(w.execute(executions));
    while result.isError && result.retryable && attempt < MaxToolAttempts(c)
      invariant 1 <= attempt <= MaxToolAttempts(c)
      invariant result == ExecutionResult(w.execute(executions + attempt - 1))
      invariant forall k :: executions <= k < executions + attempt - 1 ==> RetryableError(w, k)
    {
      result := ExecutionResult(w.execute(executions + attempt));
      attempt := attempt + 1;
    }
    phase := if result.isError then ToolFailed else Completed;
  }

  /** The executions `before` to `after - 1` are the attempts at one call: all but the last failed retryably, the
      last did so only when no attempt was left, and the message reports its outcome. */
  predicate IsOutcomeOf(c: Config, w: World, call: ToolCall, m: Message, before: nat, after: nat) {
    && before < after <= before + MaxToolAttempts(c)
    && (forall k :: before <= k < after - 1 ==> RetryableError(w, k))
    && (RetryableError(w, after - 1) ==> after == before + MaxToolAttempts(c))
    && var result := ExecutionResult(w.execute(after - 1));
       m == ToolMessage(w, call, if result.isError then ToolFailed else Completed, after - before, result)
  }

  /** The message answers the call: with the validation error when there is one, and then nothing is executed,
      else with the outcome of its attempts. */
  predicate IsResultOf(c: Config, w: World, call: ToolCall, m: Message, before: nat, after: nat) {
    if w.validate(call).Some?
    then after == before && m == ToolMessage(w, call, PrepareFailed, 0, w.validate(call).value)
    else IsOutcomeOf(c, w, call, m, before, after)
  }

  predicate IsResultAt(c: Config, w: World, calls: seq<ToolCall>, ms: seq<Message>, marks: seq<nat>, i: nat)
    requires i < |calls| == |ms| && |marks| == |calls| + 1
  {
    IsResultOf(c, w, calls[i], ms[i], marks[i], marks[i + 1])
  }

  /** One message per call, in call order; `marks[i]` counts the executions made before call `i`, so that every
      execution belongs to exactly one call. */
  ghost predicate AreResultsOf(c: Config, w: World, calls: seq<ToolCall>, ms: seq<Message>, marks: seq<nat>) {
    |ms| == |calls| && |marks| == |calls| + 1
    && forall i :: 0 <= i < |calls| ==> IsResultAt(c, w, calls, ms, marks, i)
  }

  lemma ResultStep(c: Config, w: World, calls: seq<ToolCall>, i: nat, ms: seq<Message>, marks: seq<nat>, m: Message, after: nat)
    requires i < |calls| && AreResultsOf(c, w, calls[..i], ms, marks)
    requires IsResultOf(c, w, calls[i], m, marks[i], after)
    ensures AreResultsOf(c, w, calls[..i + 1], ms + [m], marks + [after])
  {
    var answered, messages, ends := calls[..i + 1], ms + [m], marks + [after];
    forall k | 0 <= k < |answered| ensures IsResultAt(c, w, answered, messages, ends, k) {
      assert k < i ==> IsResultAt(c, w, calls[..i], ms, marks, k);
    }
  }

  method ExecuteTools(c: Config, w: World, calls: seq<ToolCall>, executions: nat)
    returns (messages: seq<Message>, marks: seq<nat>)
    ensures AreResultsOf(c, w, calls, messages, marks)
    ensures marks[0] == executions <= marks[|calls|] <= executions + |calls| * MaxToolAttempts(c)
  {
    messages, marks := [], [executions];
    var executed := executions;
    for i := 0 to |calls|
      invariant AreResultsOf(c, w, calls[..i], messages, marks)
      invariant marks[0] == executions && marks[i] == executed
      invariant executions <= executed <= executions + i * MaxToolAttempts(c)
    {
      var call := calls[i];
      var validationError := w.validate(call);
      var message;
      if validationError.Some? {
        message := ToolMessage(w, call, PrepareFailed, 0, validationError.value);
      } else {
        var result, attempt, phase := ExecuteToolWithLifecycle(c, w, executed);
        executed := executed + attempt;
        message := ToolMessage(w, call, phase, attempt, result);
      }
      ResultStep(c, w, calls, i, messages, marks, message, executed);
      messages, marks := messages + [message], marks + [executed];
    }
    assert calls[..|calls|] == calls;
  }

  // ---- Rounds and their traces ----

  /** A completed step: a response with tool calls, the result messages, and the executions behind them. */
  datatype Round = Round(response: Response, results: seq<Message>, marks: seq<nat>)

  /** How a run ends. `Unhandled` covers everything that raises. */
  datatype Ending =
    | Cancelled
    | CancelledAfter(response: Response)
    | Answered(response: Response)
    | StepsExhausted
    | ProviderError(code: string)
    | NoExecutor(response: Response)
    | Unhandled

  predicate Raises(ending: Ending) {
    ending.NoExecutor? || ending.Unhandled?
  }

  /** The record of a run: `contexts` are the lists handed to the provider, `calls` the number of provider
      calls made by the end of each step. */
  datatype Run = Run(rounds: seq<Round>, ending: Ending, contexts: seq<seq<Message>>, calls: seq<nat>, events: seq<LoopEvent>)

  /** The active turn after some rounds. */
  function Turn(w: World, user: Message, rounds: seq<Round>): seq<Message> {
    if rounds == [] then [user]
    else
      var last := rounds[|rounds| - 1];
      Turn(w, user, rounds[..|rounds| - 1]) + (AssistantMessages(w, last.response) + last.results)
  }

  function Assistants(w: World, rounds: seq<Round>): seq<Message> {
    if rounds == [] then []
    else Assistants(w, rounds[..|rounds| - 1]) + AssistantMessages(w, rounds[|rounds| - 1].response)
  }

  function Results(rounds: seq<Round>): seq<Message> {
    if rounds == [] then [] else Results(rounds[..|rounds| - 1]) + rounds[|rounds| - 1].results
  }

  function TextEvents(r: Response): seq<LoopEvent> {
    var text := if DisplayContent(r) == "" then None else Some(DisplayContent(r));
    var reasoning := if r.reasoning == "" then None else Some(r.reasoning);
    if text.Some? || reasoning.Some? then [Text(text, reasoning)] else []
  }

  function Names(calls: seq<ToolCall>): seq<string> {
    seq(|calls|, i requires 0 <= i < |calls| => calls[i].name)
  }

  function RoundEvents(rounds: seq<Round>): seq<LoopEvent> {
    if rounds == [] then []
    else
      var last := rounds[|rounds| - 1];
      RoundEvents(rounds[..|rounds| - 1])
      + (TextEvents(last.response) + [ToolStart(Names(last.response.toolCalls)), ToolEnd(|last.results|)])
  }

  function LastContent(ms: seq<Message>): string {
    if ms == [] then "" else ms[|ms| - 1].content
  }

  /** What is emitted after `n` completed rounds that left these assistant and result messages. */
  function EndEvents(c: Config, w: World, before: seq<Message>, results: seq<Message>, n: nat, ending: Ending): seq<LoopEvent> {
    match ending
    case Cancelled => [Done(LastContent(before), before, results, n, Some("cancelled"))]
    case CancelledAfter(r) =>
      TextEvents(r) + [Done(DisplayContent(r), before + AssistantMessages(w, r), results, n + 1, Some("cancelled"))]
    case Answered(r) =>
      TextEvents(r) + [Done(DisplayContent(r), before + AssistantMessages(w, r), results, n + 1, None)]
    case StepsExhausted => [Done(LastContent(before), before, results, c.maxSteps, None)]
    case ProviderError(code) =>
      var fallback := if LastContent(before) == "" then c.errorText(code) else LastContent(before);
      [Done(fallback, before, results, n + 1, Some(code))]
    case NoExecutor(r) => TextEvents(r)
    case Unhandled => []
  }

  function Events(c: Config, w: World, rounds: seq<Round>, ending: Ending): seq<LoopEvent> {
    RoundEvents(rounds) + EndEvents(c, w, Assistants(w, rounds), Results(rounds), |rounds|, ending)
  }

  /** Context `k` was built from the history and the active turn after `k` rounds. */
  ghost predicate BuiltAt(w: World, b: Builder, prefix: seq<Message>, history: seq<Message>, user: Message,
                          rounds: seq<Round>, contexts: seq<seq<Message>>, k: nat)
    requires k < |contexts| && k <= |rounds|
  {
    contexts[k] == Context(b, prefix, history, Turn(w, user, rounds[..k]))
  }

  ghost predicate ContextsOf(w: World, b: Builder, prefix: seq<Message>, history: seq<Message>, user: Message,
                             rounds: seq<Round>, contexts: seq<seq<Message>>)
  {
    |rounds| <= |contexts| <= |rounds| + 1
    && forall k :: 0 <= k < |contexts| ==> BuiltAt(w, b, prefix, history, user, rounds, contexts, k)
  }

  /** The number of tool executions made in the first `k` rounds. */
  function ExecutedBefore(rounds: seq<Round>, k: nat): nat
    requires k <= |rounds|
  {
    if k == 0 || rounds[k - 1].marks == [] then 0 else rounds[k - 1].marks[|rounds[k - 1].marks| - 1]
  }

  /** Round `k` is complete: nothing stopped it, and every requested call has its result, from the executions that
      follow those of the rounds before. */
  ghost predicate IsRound(c: Config, w: World, rounds: seq<Round>, k: nat)
    requires k < |rounds|
  {
    && !w.stopped(2 * k) && !w.stopped(2 * k + 1) && w.hasExecutor
    && rounds[k].response.toolCalls != []
    && AreResultsOf(c, w, rounds[k].response.toolCalls, rounds[k].results, rounds[k].marks)
    && rounds[k].marks[0] == ExecutedBefore(rounds, k)
  }

  ghost predicate RoundsOf(c: Config, w: World, rounds: seq<Round>) {
    forall k :: 0 <= k < |rounds| ==> IsRound(c, w, rounds, k)
  }

  /** The number of provider calls made before step `k`. */
  function CallsBefore(calls: seq<nat>, k: nat): nat
    requires k <= |calls|
  {
    if k == 0 then 0 else calls[k - 1]
  }

  function Replies(w: World, calls: nat): Option<Response> {
    if calls > 0 && w.provider(calls - 1).Reply? then Some(w.provider(calls - 1).response) else None
  }

  /** Step `k` made the provider calls that follow those of the steps before. */
  predicate StepCalls(c: Config, w: World, calls: seq<nat>, k: nat)
    requires k < |calls|
  {
    AreAttempts(c, w, CallsBefore(calls, k), calls[k])
  }

  predicate RepliedAt(w: World, rounds: seq<Round>, calls: seq<nat>, k: nat)
    requires k < |rounds| && k < |calls|
  {
    Replies(w, calls[k]) == Some(rounds[k].response)
  }

  /** Each step makes its attempts, and a completed round used the reply of its last. */
  ghost predicate ProviderStepsOf(c: Config, w: World, rounds: seq<Round>, calls: seq<nat>) {
    |rounds| <= |calls|
    && (forall k :: 0 <= k < |calls| ==> StepCalls(c, w, calls, k))
    && (forall k :: 0 <= k < |rounds| ==> RepliedAt(w, rounds, calls, k))
  }

  /** The record so far is that of a run: rounds, contexts and provider calls belong together. */
  ghost predicate Progress(c: Config, w: World, b: Builder, prefix: seq<Message>, history: seq<Message>, user: Message,
                           rounds: seq<Round>, contexts: seq<seq<Message>>, calls: seq<nat>)
  {
    && |calls| == |contexts| <= AtLeast(c.maxSteps, 0)
    && RoundsOf(c, w, rounds)
    && ContextsOf(w, b, prefix, history, user, rounds, contexts)
    && ProviderStepsOf(c, w, rounds, calls)
  }

  /** Why a step ends the run after the provider's outcome, if it does. */
  function StepEnding(w: World, outcome: Attempt, stopped: bool): Option<Ending> {
    match outcome
    case Crashed => Some(Unhandled)
    case Failed(code, _) => Some(ProviderError(code))
    case Reply(r) =>
      if r.toolCalls == [] then Some(Answered(r))
      else if stopped then Some(CancelledAfter(r))
      else if !w.hasExecutor then Some(NoExecutor(r))
      else None
  }

  /** What ended the run. The stop event is polled before each step and again once calls were requested. */
  ghost predicate EndsBy(c: Config, w: World, rounds: seq<Round>, calls: seq<nat>, ending: Ending) {
    var n := |rounds|;
    if |calls| == n then
      match ending
      case Cancelled => n < c.maxSteps && w.stopped(2 * n)
      case StepsExhausted => n >= c.maxSteps
      case _ => false
    else
      && |calls| == n + 1 && calls[n] > 0 && !w.stopped(2 * n)
      && StepEnding(w, w.provider(calls[n] - 1), w.stopped(2 * n + 1)) == Some(ending)
  }

  ghost predicate IsRun(c: Config, w: World, b: Builder, prefix: seq<Message>, history: seq<Message>, user: Message, run: Run) {
    && Progress(c, w, b, prefix, history, user, run.rounds, run.contexts, run.calls)
    && EndsBy(c, w, run.rounds, run.calls, run.ending)
    && run.events == Events(c, w, run.rounds, run.ending)
  }

  lemma CallStep(c: Config, w: World, b: Builder, prefix: seq<Message>, history: seq<Message>, user: Message,
                 rounds: seq<Round>, contexts: seq<seq<Message>>, calls: seq<nat>, prompt: seq<Message>, made: nat)
    requires Progress(c, w, b, prefix, history, user, rounds, contexts, calls)
    requires |contexts| == |rounds| < c.maxSteps
    requires prompt == Context(b, prefix, history, Turn(w, user, rounds))
    requires AreAttempts(c, w, CallsBefore(calls, |calls|), made)
    ensures Progress(c, w, b, prefix, history, user, rounds, contexts + [prompt], calls + [made])
    ensures |calls + [made]| == |rounds| + 1 && (calls + [made])[|rounds|] == made > 0
  {
    assert rounds[..|rounds|] == rounds;
    forall k | 0 <= k < |contexts| + 1
      ensures BuiltAt(w, b, prefix, history, user, rounds, contexts + [prompt], k)
    {
      assert k < |contexts| ==> BuiltAt(w, b, prefix, history, user, rounds, contexts, k);
    }
    forall k | 0 <= k < |calls| + 1 ensures StepCalls(c, w, calls + [made], k) {
      assert k < |calls| ==> StepCalls(c, w, calls, k);
    }
    forall k | 0 <= k < |rounds| ensures RepliedAt(w, rounds, calls + [made], k) {
      assert RepliedAt(w, rounds, calls, k);
    }
  }

  lemma RoundStep(c: Config, w: World, b: Builder, prefix: seq<Message>, history: seq<Message>, user: Message,
                  rounds: seq<Round>, contexts: seq<seq<Message>>, calls: seq<nat>, round: Round)
    requires Progress(c, w, b, prefix, history, user, rounds, contexts, calls)
    requires |contexts| == |rounds| + 1
    requires IsRound(c, w, rounds + [round], |rounds|)
    requires RepliedAt(w, rounds + [round], calls, |rounds|)
    ensures Progress(c, w, b, prefix, history, user, rounds + [round], contexts, calls)
  {
    var after := rounds + [round];
    forall k | 0 <= k < |after| ensures IsRound(c, w, after, k) && RepliedAt(w, after, calls, k) {
      assert k < |rounds| ==> IsRound(c, w, rounds, k) && RepliedAt(w, rounds, calls, k);
    }
    forall k | 0 <= k < |contexts| ensures BuiltAt(w, b, prefix, history, user, after, contexts, k) {
      assert after[..k] == rounds[..k];
      assert BuiltAt(w, b, prefix, history, user, rounds, contexts, k);
    }
  }

  /** What the loop carries along belongs to these rounds. */
  predicate IsTrace(w: World, user: Message, rounds: seq<Round>, activeTurn: seq<Message>, assistants: seq<Message>,
                    results: seq<Message>, events: seq<LoopEvent>, executions: nat)
  {
    && activeTurn == Turn(w, user, rounds)
    && assistants == Assistants(w, rounds) && results == Results(rounds)
    && events == RoundEvents(rounds) && executions == ExecutedBefore(rounds, |rounds|)
  }

  lemma TraceStep(w: World, user: Message, rounds: seq<Round>, activeTurn: seq<Message>, assistants: seq<Message>,
                  results: seq<Message>, events: seq<LoopEvent>, executions: nat, round: Round)
    requires IsTrace(w, user, rounds, activeTurn, assistants, results, events, executions) && round.marks != []
    ensures var spoken := AssistantMessages(w, round.response);
      IsTrace(w, user, rounds + [round], activeTurn + (spoken + round.results), assistants + spoken, results + round.results,
              events + (TextEvents(round.response) + [ToolStart(Names(round.response.toolCalls)), ToolEnd(|round.results|)]),
              round.marks[|round.marks| - 1])
  {
    assert (rounds + [round])[..|rounds|] == rounds;
  }

  /** The first half of a step: build the context of the active turn and call the provider with it. */
  method AskProvider(c: Config, w: World, b: Builder, prefix: seq<Message>, history: seq<Message>, user: Message,
                     activeTurn: seq<Message>, rounds: seq<Round>, contexts: seq<seq<Message>>, calls: seq<nat>)
    returns (outcome: Attempt, contexts': seq<seq<Message>>, calls': seq<nat>)
    requires Progress(c, w, b, prefix, history, user, rounds, contexts, calls)
    requires |contexts| == |rounds| < c.maxSteps && activeTurn == Turn(w, user, rounds)
    ensures Progress(c, w, b, prefix, history, user, rounds, contexts', calls')
    ensures |contexts'| == |calls'| == |rounds| + 1 && calls'[|rounds|] > 0
    ensures outcome == w.provider(calls'[|rounds|] - 1)
  {
    var prompt := BuildContext(b, prefix, history, [], activeTurn);
    assert history + [] == history;
    var made := CallsBefore(calls, |calls|);
    var attempts;
    outcome, attempts := CallProviderWithRetry(c, w, made);
    made := made + attempts;
    CallStep(c, w, b, prefix, history, user, rounds, contexts, calls, prompt, made);
    contexts', calls' := contexts + [prompt], calls + [made];
  }

  /** The second half: execute the requested tools, which completes a round. */
  method Act(c: Config, w: World, b: Builder, prefix: seq<Message>, history: seq<Message>, user: Message,
             response: Response, executions: nat, rounds: seq<Round>, contexts: seq<seq<Message>>, calls: seq<nat>)
    returns (round: Round)
    requires Progress(c, w, b, prefix, history, user, rounds, contexts, calls)
    requires |contexts| == |rounds| + 1 && response.toolCalls != []
    requires !w.stopped(2 * |rounds|) && !w.stopped(2 * |rounds| + 1) && w.hasExecutor
    requires Replies(w, calls[|rounds|]) == Some(response)
    requires executions == ExecutedBefore(rounds, |rounds|)
    ensures round.response == response && round.marks != []
    ensures Progress(c, w, b, prefix, history, user, rounds + [round], contexts, calls)
  {
    var messages, marks := ExecuteTools(c, w, response.toolCalls, executions);
    round := Round(response, messages, marks);
    RoundStep(c, w, b, prefix, history, user, rounds, contexts, calls, round);
  }

  method RunStream(c: Config, w: World, b: Builder, prefix: seq<Message>, history: seq<Message>, user: Message)
    returns (run: Run)
    ensures IsRun(c, w, b, prefix, history, user, run)
  {
    var activeTurn: seq<Message> := [user];
    var assistants: seq<Message>, results: seq<Message> := [], [];
    var events: seq<LoopEvent> := [];
    var rounds: seq<Round> := [];
    var contexts: seq<seq<Message>>, calls: seq<nat> := [], [];
    var polls, executions: nat := 0, 0;
    var ending := StepsExhausted;
    while |rounds| < c.maxSteps
      invariant Progress(c, w, b, prefix, history, user, rounds, contexts, calls)
      invariant |rounds| == |contexts|
      invariant IsTrace(w, user, rounds, activeTurn, assistants, results, events, executions)
      invariant ending == StepsExhausted && polls == 2 * |rounds|
      decreases c.maxSteps - |rounds|
    {
      polls := polls + 2;
      if w.stopped(polls - 2) {
        ending := Cancelled;
        break;
      }
      var outcome;
      outcome, contexts, calls := AskProvider(c, w, b, prefix, history, user, activeTurn, rounds, contexts, calls);
      var ended := StepEnding(w, outcome, w.stopped(polls - 1));
      if ended.Some? {
        ending := ended.value;
        break;
      }
      var round := Act(c, w, b, prefix, history, user, outcome.response, executions, rounds, contexts, calls);
      TraceStep(w, user, rounds, activeTurn, assistants, results, events, executions, round);
      var spoken := AssistantMessages(w, round.response);
      assistants, results := assistants + spoken, results + round.results;
      activeTurn := activeTurn + (spoken + round.results);
      events := events + (TextEvents(round.response) + [ToolStart(Names(round.response.toolCalls)), ToolEnd(|round.results|)]);
      rounds, executions := rounds + [round], round.marks[|round.marks| - 1];
    }
    events := events + EndEvents(c, w, assistants, results, |rounds|, ending);
    run := Run(rounds, ending, contexts, calls, events);
  }
}
