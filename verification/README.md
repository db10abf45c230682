# Verified model of the bot's conversation and scheduling core

This project models, in Dafny, the parts of the nahida bot where a mistake would not show up as a crash but as
a broken conversation or a job that runs twice, and proves what those parts guarantee.

- **Tool transcripts under a token budget.** The agent loop (`AgentLoop`, with what its runs
  guarantee in `AgentRuns` and what they report in `AgentEvents`) grows an active turn of assistant calls
  and tool results. Before every provider call the context builder cuts the conversation to a budget: it groups
  calls with their results and fills a newest-first window (`ContextWindow`), truncates by binary search
  (`ContextTruncation`), and places a summary of what was dropped (`ContextBuilder`); `ContextMeaning` says what
  a built context is without the steps that build it, and the two built-in token
  counters are in `Tokenization`. The OpenAI-compatible provider then drops broken fragments (`Sanitizer`, and
  position by position `SanitizerMeaning`)
  and has an independent check of the serialized form (`ProtocolChecker`, its report in `ProtocolIssues`); `CallPairing` defines what well
  paired means. The main theorems say that the views of
  "well paired" agree, that budgeting never breaks a pair and always meets the budget, and that every request
  of every run of the loop is valid.
- **The scheduler's claim protocol.** `CronRepository` is the job table, `SchedulerProtocol` the state machine of
  claims, fires, crashes and user commands with its inductive invariant, `SchedulerRuns` what follows for whole
  runs (one fire per job, limits, an attempt bound), `SchedulerTiming` when jobs fire again, `SchedulerReach` runs that reach the attempt bound,
  `SchedulerLimit` and `SchedulerMaxRuns` when limit and maximum are exceeded, `SchedulerService` the service
  whose methods carry out the steps.
- **Per-session serialization** of agent runs in the message router (`MessageRouter`).
- **Stream reassembly** for both provider families (`OpenAiStream`, `AnthropicStream`, over `StreamIndex`).
- **Smaller functions with laws of their own:** nested settings merge (`RuntimeSettings`), the generated section
  of MEMORY.md (`MemoryMarkdown`), the HTML message splitter (`HtmlSplitter`), reciprocal rank fusion
  (`RankFusion`). `Messages` and `Text` hold shared values and string operations.

Code that works step by step is modelled as methods with loops, or as classes with fields where the original
keeps mutable state. Each method is proved equal to, or a refinement of, a recursive function or relation, and
the laws are proved about that function. The tokenizer, the summary text, the provider, the tool executor,
the stop event, cron expressions, JSON decoding and clock readings are arbitrary parameters.

Where the code does not do what its documentation or a reader would expect, the model keeps the code's
behaviour, and the exact condition is proved:

- The sanitizer promises a list the API accepts (nahida_bot/agent/providers/openai_compatible.py:533-539), but it
  keeps a second answer to one call id and calls the serializer later drops. Its output passes the protocol
  check if and only if every answered call survives serialization whole and is answered without repetition
  (`SanitizedPassesChecker`, with inputs `RepeatedAnswerFails` and `NamelessCallFails`).
- The splitter promises chunks that each fit (nahida_bot/channels/telegram/markdown_converter.py:57). They fit
  if and only if every over-long paragraph consists of lines, or else words, that fit (`ChunksFit`); a long line
  inside a paragraph is never cut between words (`LongLineIsNotCut`).
- A finished run drains one queued message. If that message starts no run, because it has become a command
  meanwhile or the agent is gone, the rest of the queue is left without a run: queues wait behind runs throughout
  a run of the router if and only if this never happens to a longer queue (`DrainStrandsQueue`, `QueuesStayBehind`,
  with the inputs `QueueIsOvertaken` and `QueueLosesAgent`). Distinct messages of a session are started in
  arrival order if and only if none starts a run past a queue without one (`OrderIsKept`).
- All scheduler tasks together exceed `max_concurrent_fires` if and only if the dreaming task runs beside a full
  set of fires (`ExceededByDreaming`); some run gets there if and only if dreaming is enabled and limit and quota
  are positive (`LimitCanBeExceeded`).
- A job never runs more often than its `max_runs` as long as no update that takes effect lowers it to the runs
  already made (`MaximumIsKept`). An update can lead to an overrun if and only if it does lower it so
  (`LoweredMaximumOverruns`), and some run from the first state overruns if and only if limit and quota are positive
  (`MaximumCanBeOverrun`); the one more success the job then gets ends it (`SuccessCost`).
- Cutting a streamed tool-call fragment in two collects to the same parts if and only if both halves carry the index,
  or, without one, both fall on a call that was there before, or the second is empty and does (`CutIsHarmless`). The
  same condition decides whether every later stream builds the same calls (`CutIsUnnoticed`). An unindexed
  fragment opens a call of its own only when no call sits at the number of calls (`UnindexedOpensCall`), and is
  glued to another call otherwise (`UnindexedCallCollides`).
- A block start that arrives after some of its deltas gives the same block if and only if these brought no text,
  thinking or signature that is missed (`LateStartIsHarmless`, with the input `LateStartDiscardsText`).
- Replacing the generated memory section twice equals replacing it once if and only if the user's text holds neither
  marker, or both with the first start ahead of the first end, and the text written first has no end marker but its
  last (`LastWriterWins`), which a projection has if and only if no entry quotes it (`ProjectionIsBlock`,
  `LastRefreshWins`).

Verify with `dafny verify dfyconfig.toml`.

## Model

| member | source | states |
|---|---|---|
| Sanitizer.CollectToolGroup | nahida_bot/agent/providers/openai_compatible.py:556-567 | the inner walk ends behind the whole tool run; it collects exactly the answers to the required ids, in order, and the ids they answer |
| Sanitizer.SanitizeToolTranscript | nahida_bot/agent/providers/openai_compatible.py:529-605 | the in-place walk returns the recursive reading `Sanitized`, about which the following laws are proved |
| Sanitizer.MatchingFacts | nahida_bot/agent/providers/openai_compatible.py:559-567 | of a tool run exactly the answers to required ids are kept; all are kept if and only if the run answers nothing else |
| CallPairing.ClosedMeaning | nahida_bot/agent/providers/openai_compatible.py:533-539 | the running definition of a closed transcript equals the position-by-position one: each call directly followed by answers to exactly its ids, once each, and no stray tool message |
| Sanitizer.SanitizedIdempotent | nahida_bot/agent/providers/openai_compatible.py:529-605 | a second pass changes nothing, on every input |
| Sanitizer.SanitizedSize | nahida_bot/agent/providers/openai_compatible.py:529-605 | the sanitizer never adds messages and its result never starts with a tool message |
| Sanitizer.SanitizedFixedPoint | nahida_bot/agent/providers/openai_compatible.py:529-605 | a list is closed if and only if the sanitizer leaves it alone and no tool run repeats an answer |
| Sanitizer.SanitizedIsSound | nahida_bot/agent/providers/openai_compatible.py:529-605 | the sanitized list is closed by the ids that survive serialization if and only if every answered call of the input survives whole and is answered without repetition |
| SanitizerMeaning.SanitizedMeaning | nahida_bot/agent/providers/openai_compatible.py:529-605 | kept are, in order, exactly: other messages without calls, calls answered in full by the tool messages directly behind them, and of these tool messages those that answer such a call |
| ProtocolChecker.SerializeAssistantToolCalls | nahida_bot/agent/providers/openai_compatible.py:869-898 | keeps, in order, exactly the entries with a string id, a string name and dict arguments |
| ProtocolChecker.WireCallsMeaning | nahida_bot/agent/providers/openai_compatible.py:869-898 | there are rising positions, exactly those of the complete entries, such that wire call k carries id, name and arguments of the entry at position k, each in its own field |
| ProtocolChecker.CompleteCallsSurvive | nahida_bot/agent/providers/openai_compatible.py:869-898 | when every entry is complete all of them are sent, in order |
| ProtocolChecker.SerializeMessage | nahida_bot/agent/providers/openai_compatible.py:750-774 | tool calls appear on an assistant payload only when some survive, the call id only on a tool payload that has one |
| ProtocolChecker.PayloadMeaning | nahida_bot/agent/providers/openai_compatible.py:750-774 | a payload keeps the role, has calls if and only if an assistant message lists a complete one, and names a call if and only if a tool message answers one |
| ProtocolChecker.SerializeMessages | nahida_bot/agent/providers/openai_compatible.py:516-527 | the request is the serialization of the sanitized list, message by message |
| ProtocolChecker.SerializedProtocolIssues | nahida_bot/agent/providers/openai_compatible.py:665-732 | the walk with mutable pending ids reports the issues of the recursive reading, in order and with their indices |
| ProtocolIssues.IssuesMeaning | nahida_bot/agent/providers/openai_compatible.py:665-732 | an issue of some kind is reported if and only if it is due at its position, with the ids then awaited and the message that called them; one for each position at most, in order |
| ProtocolChecker.NoIssues | nahida_bot/agent/providers/openai_compatible.py:665-732 | no issue is reported if and only if the list, read by the ids that survive serialization, is closed |
| ProtocolChecker.SanitizerAgreesWithChecker | nahida_bot/agent/providers/openai_compatible.py:529-732 | on well-formed calls three views agree: no issues, well paired position by position, left alone by the sanitizer without repeated answers |
| ProtocolChecker.SanitizedPassesChecker | nahida_bot/agent/providers/openai_compatible.py:529-732 | what the sanitizer sends passes the check if and only if the input is sound: every answered call survives serialization whole and is answered without repetition |
| ProtocolChecker.SanitizedPassesOnWellFormed | nahida_bot/agent/providers/openai_compatible.py:529-732 | with well-formed calls and no repeated answers the sanitized request always passes, however broken the pairing was |
| ProtocolChecker.RepeatedAnswerFails | nahida_bot/agent/providers/openai_compatible.py:562-564 | two answers to one id are kept by the sanitizer and reported by the check |
| ProtocolChecker.NamelessCallFails | nahida_bot/agent/providers/openai_compatible.py:882-885 | an answered call without a string name is kept by the sanitizer, lost on the wire, and reported by the check |
| ContextWindow.EstimateTokens | nahida_bot/agent/context.py:754-780 | the estimate is the sum of the message costs, so it is additive over concatenation |
| ContextWindow.SizeAppend | nahida_bot/agent/context.py:754-780 | the size of a concatenation is the sum of the sizes |
| ContextWindow.ToolTranscriptGroups | nahida_bot/agent/context.py:633-653 | the in-place grouping returns the recursive one: each assistant message with calls together with its whole tool run |
| ContextWindow.GroupsFlatten | nahida_bot/agent/context.py:633-653 | grouping loses and reorders nothing |
| ContextWindow.GroupsMeaning | nahida_bot/agent/context.py:633-653 | the groups are single messages and calls with tool messages, and no tool message behind a call is left out of its group |
| ContextWindow.SelectGroups | nahida_bot/agent/context.py:613-623 | the newest-first loop computes both sides of the greedy choice |
| ContextWindow.SlidingWindowWithSuffix | nahida_bot/agent/context.py:604-631 | returns the kept and the dropped messages of the greedy choice, with prefix and suffix reserved |
| ContextWindow.WindowIsPartition | nahida_bot/agent/context.py:604-631 | kept and dropped are the two sides of one choice of groups: in order, whole, and exhaustive |
| ContextWindow.GreedyFits | nahida_bot/agent/context.py:604-631 | the kept groups fit on top of the reserve |
| ContextWindow.NothingFits | nahida_bot/agent/context.py:604-631 | an overfull reserve keeps nothing |
| ContextWindow.GreedyMaximal | nahida_bot/agent/context.py:617-623 | no dropped group could be added without exceeding the budget |
| ContextWindow.GreedyIsGreatest | nahida_bot/agent/context.py:617-623 | read newest first, the kept set is lexicographically greatest among all choices of groups that fit |
| ContextWindow.WindowMeaning | nahida_bot/agent/context.py:604-631 | kept and dropped are the two sides of the choice of whole groups that fits beside the reserve and is greatest read newest first; nothing is kept when the reserve does not fit |
| ContextWindow.WindowIsOne | nahida_bot/agent/context.py:604-631 | there is only one such choice, so the window is determined by it |
| ContextWindow.NothingDropped | nahida_bot/agent/context.py:604-631 | when all groups fit nothing is dropped |
| ContextWindow.ReserveStaysFree | nahida_bot/agent/context.py:94-106 | a size is within what is usable if and only if the configured reserve stays free below the configured maximum, in characters if one is set, else in tokens |
| ContextTruncation.TruncateMessageToBudget | nahida_bot/agent/context.py:679-718 | the binary search in place returns the recursive search, with all its early refusals |
| ContextTruncation.SearchFinds | nahida_bot/agent/context.py:698-716 | for any tokenizer the cut found fits, and when none is found not even the shortest candidate fits |
| ContextTruncation.TruncatedFits | nahida_bot/agent/context.py:679-718 | a truncated message fits the remainder and is the same message with a prefix of its content, marked when shortened |
| ContextTruncation.TruncationSucceeds | nahida_bot/agent/context.py:679-718 | the search succeeds whenever the shortest candidate fits |
| ContextTruncation.TruncationIsMaximal | nahida_bot/agent/context.py:698-716 | when longer candidates never cost less, the cuts that fit are exactly those up to the one found |
| ContextTruncation.TruncationOrderMeaning | nahida_bot/agent/context.py:549-590 | the order lists every non-system message with content, and no other: tool results, assistant messages with calls, other assistant messages, user messages, each longest first and then oldest first |
| ContextTruncation.TryCut | nahida_bot/agent/context.py:477-506 | what truncating one protected message to the room the others leave yields, first with and then without marker, or nothing when it makes no progress |
| ContextTruncation.FindCut | nahida_bot/agent/context.py:475-521 | returns the first position of the order whose truncation makes progress |
| ContextTruncation.CutFitsBudget | nahida_bot/agent/context.py:471-525 | one truncation that makes progress brings the whole list within the budget |
| ContextTruncation.CutAtMeaning | nahida_bot/agent/context.py:476-506 | a truncation makes progress if and only if the message costs more than a positive room left by the others, which it fits without its content |
| ContextTruncation.FitProtectedMessages | nahida_bot/agent/context.py:455-547 | the fitting loop terminates and returns the untouched list, the list with the first productive cut, or the window |
| ContextTruncation.ProtectedFitCases | nahida_bot/agent/context.py:455-547 | the result is the input unchanged when it fits, else the input with exactly one content cut to a proper prefix plus optional marker and the total within budget, else the window over the untouched messages |
| ContextTruncation.ProtectedFitMeaning | nahida_bot/agent/context.py:455-547 | the active turn is untouched when it fits; else, if any message can be shortened, exactly the safest of these is cut, to the longest prefix that fits, with the marker where the marker fits; else it is the newest-first window |
| Tokenization.MatchesPrefix | nahida_bot/agent/tokenization.py:20-39 | appending text never lowers the number of matches |
| Tokenization.MatchesSplit | nahida_bot/agent/tokenization.py:20-39 | no match crosses a line break, so counts add up there |
| Tokenization.MatchesMeaning | nahida_bot/agent/tokenization.py:20-39 | the count is the number of positions at which a word run or a symbol starts |
| Tokenization.CountMeaning | nahida_bot/agent/tokenization.py:20-52 | what the two counters count: tokens, or characters divided by a ratio and rounded up, and nothing for no text |
| Tokenization.EveryFieldCounts | nahida_bot/agent/context.py:754-800 | every field of a message is part of the text it is measured by |
| Tokenization.LongerContentCostsMore | nahida_bot/agent/tokenization.py:20-52 | for both counters a message whose content is extended, before the same marker line, never costs less in serialized form |
| Tokenization.TruncationKeepsTheLongestPrefix | nahida_bot/agent/context.py:679-718 | with either built-in counter the truncation search returns the longest content that fits |
| ContextBuilder.FitSummaryWithWindow | nahida_bot/agent/context.py:720-747 | the loop gives up the oldest groups until the summary fits, and never a tool transcript |
| ContextBuilder.SummarizeDropped | nahida_bot/agent/context.py:398-453 | the whole or else the shortened summary is placed, and the plain window stays when neither finds room |
| ContextBuilder.PlaceSummaryInWindow | nahida_bot/agent/context.py:401-453 | both placements of a summary are tried in order |
| ContextMeaning.SummaryFitMeaning | nahida_bot/agent/context.py:720-747 | a summary is placed with the least number of oldest groups given up, none of them a tool transcript, and not at all if and only if no number will do |
| ContextMeaning.SummaryIsShortened | nahida_bot/agent/context.py:679-718 | the shortened summary is the longest non-empty part that fits the room, and there is none when the room is not larger than the empty message by more than four |
| ContextBuilder.BuildContext | nahida_bot/agent/context.py:207-358 | every return path yields the function `Context` of prefix, history and active turn, about which the following laws are proved |
| ContextBuilder.BuildContextWithProtectedMessages | nahida_bot/agent/context.py:360-453 | fits the active turn, then the window in front of it, then the summary |
| ContextMeaning.ContextIs | nahida_bot/agent/context.py:207-453 | every context, on every path: the whole conversation when it fits; else prefix, best choice of whole history groups, fitted active turn, and, if anything was dropped, its summary in place of as few oldest groups as possible, whole or else shortened or else not at all |
| ContextMeaning.HistoryIsKept | nahida_bot/agent/context.py:360-453 | history that fits beside prefix and fitted active turn is kept whole, without a summary |
| ContextMeaning.ContextLeavesReserve | nahida_bot/agent/context.py:207-453 | in the terms of the configured budget: a prefix within it leaves the reserve free in every context |
| ContextBuilder.KeptFits | nahida_bot/agent/context.py:604-631 | the windowed messages fit on top of what was reserved, or nothing is kept |
| ContextBuilder.SummarizedShape | nahida_bot/agent/context.py:720-747 | a context with a summary is prefix, summary, the groups that were not given up, and suffix; none of the given-up groups was a tool transcript |
| ContextBuilder.ContextFits | nahida_bot/agent/context.py:207-453 | budget theorem: a prefix within the budget yields a context within the budget on every path, an overfull prefix is sent alone |
| ContextBuilder.OverfullPrefix | nahida_bot/agent/context.py:207-453 | when the prefix alone exceeds the budget the context is exactly the prefix |
| ContextBuilder.GroupsOfClosed | nahida_bot/agent/context.py:633-653 | the groups of a closed list are closed one by one |
| ContextBuilder.ContextClosed | nahida_bot/agent/context.py:207-453 | pairing survives budgeting: from closed parts every path yields a closed context, whatever was dropped, truncated or summarized |
| ContextBuilder.ActiveTurnSurvives | nahida_bot/agent/context.py:360-453 | the prefix opens every context, and the active turn closes it untouched whenever it fits next to the prefix |
| ContextBuilder.RequestIsValid | nahida_bot/agent/context.py:207-453 | from closed parts with well-formed calls the sanitizer leaves the context alone and the check of the serialized request reports nothing |
| AgentLoop.CallProviderWithRetry | nahida_bot/agent/loop.py:429-512 | between one and all allowed attempts are made, every one but the last failed retryably, the last outcome is returned, and a retryable failure is returned only after all attempts |
| AgentLoop.ExecuteToolWithLifecycle | nahida_bot/agent/loop.py:752-855 | the same for one tool, with the attempt number and the phase reported |
| AgentLoop.ExecuteTools | nahida_bot/agent/loop.py:712-750 | one result message per call, in call order: its validation error, or the outcome of the last of its attempts, the earlier ones having failed retryably; every execution belongs to exactly one call, and at most the allowed attempts are made for each |
| AgentLoop.AskProvider | nahida_bot/agent/loop.py:269-292 | the context of the current active turn is built and sent, with the provider calls counted |
| AgentLoop.Act | nahida_bot/agent/loop.py:347-371 | executing the requested tools completes a round, from the executions that follow those of the rounds before |
| AgentLoop.RunStream | nahida_bot/agent/loop.py:253-418 | a run of the loop satisfies `IsRun`: contexts built from the turn so far, for every step its own provider attempts, all but the last of which failed retryably, for every call the result of its own executions, the emitted events, and the reason it ended |
| AgentSteps.StepRetries | nahida_bot/agent/loop.py:429-512 | every step asks the provider at least once, and again exactly while it fails retryably and retries are left |
| AgentSteps.RoundMeaning | nahida_bot/agent/loop.py:270-371 | a round is completed only by a reply with calls, with an executor there and the stop event unset at both polls |
| AgentSteps.EndMeaning | nahida_bot/agent/loop.py:253-418 | why the run ended, told by the provider, the stop event, the executor and the step limit alone |
| AgentSteps.ResultMeaning | nahida_bot/agent/loop.py:712-855 | every requested call gets one tool message that answers it: a failed validation without any execution, else the last outcome of its attempts, which go on exactly while they fail retryably and retries are left; timeouts and exceptions are not retried |
| AgentEvents.ShownContent | nahida_bot/agent/loop.py:622-646 | what a response shows: its content, else a notice of images or built-in calls, else nothing beside reasoning, else the refusal or a notice of empty output |
| AgentEvents.SpokenMessage | nahida_bot/agent/loop.py:576-620 | a response adds no message if and only if it shows, calls and hides nothing; else one with what it shows, its reasoning and its calls in order |
| AgentEvents.CallsReachTheWire | nahida_bot/agent/loop.py:602-612 | the calls of a response, put into the turn and serialized, come out with the same ids, names and arguments in the same order |
| AgentEvents.DoneMeaning | nahida_bot/agent/loop.py:253-418 | the done event carries exactly the assistant and the tool messages of the final active turn, in order; its response is what the last reply shows, or what was last said, or the error text; error and steps follow the ending, which the provider and the stop event decide |
| AgentEvents.NoticesMeaning | nahida_bot/agent/loop.py:299-371 | each completed round is announced by the names of its calls and closed by their number, nothing else is, and the texts are those of the responses, in order |
| AgentEvents.EveryContextIs | nahida_bot/agent/loop.py:269-292 | every context handed to the provider is the context of the active turn at that time, as `ContextMeaning.ContextIs` describes it |
| AgentRuns.OneDoneEvent | nahida_bot/agent/loop.py:253-418 | a run that does not raise emits exactly one done event, as its last, with steps within the limit; a run that raises emits none |
| AgentRuns.ProviderCallBound | nahida_bot/agent/loop.py:253-512 | at most `max_steps` contexts and `max_steps` times the allowed attempts in provider calls |
| AgentRuns.ToolExecutionBound | nahida_bot/agent/loop.py:712-855 | over a whole run every requested call is executed at most as often as allowed |
| AgentRuns.RoundClosed | nahida_bot/agent/loop.py:573-750 | a round is a closed transcript if and only if the provider used non-empty distinct call ids |
| AgentRuns.TurnClosed | nahida_bot/agent/loop.py:235-359 | the active turn is closed at every context build if and only if every response so far used good ids |
| AgentRuns.EveryRequestIsValid | nahida_bot/agent/loop.py:253-418 | end to end: with a closed history and good ids, every context of every run passes sanitizer and check unchanged |
| CronRepository.Repository.SelectDue | nahida_bot/scheduler/repository.py:85-123 | the due rows by firing time, each once, up to the limit; a due row is passed over only when the limit is reached by rows that are no later |
| CronRepository.Repository.ClaimDueJobs | nahida_bot/scheduler/repository.py:85-123 | returns the selection as it was before the claim, and marks exactly those rows claimed |
| CronRepository.Repository.CompleteFire | nahida_bot/scheduler/repository.py:160-201 | the new table after a success: run counted, failures cleared, claim released, job ended when no next time is given; a deleted row stays deleted |
| CronRepository.Repository.MarkFailed | nahida_bot/scheduler/repository.py:203-238 | the new table after a failure: failure counted, claim released, job ended on request, an inactive job never revived |
| CronRepository.Repository.CancelJob | nahida_bot/scheduler/repository.py:240-250 | only an active job is cancelled, and its claim is dropped |
| CronRepository.Repository.UpdateJob | nahida_bot/scheduler/repository.py:252-294 | only an active unclaimed job is changed |
| CronRepository.Repository.DeleteJob | nahida_bot/scheduler/repository.py:296-303 | the row is gone, and whether it was there is reported |
| CronRepository.Repository.ReleaseStaleClaims | nahida_bot/scheduler/repository.py:316-323 | all claims are dropped and counted |
| CronRepository.Repository.InsertJobWithQuota | nahida_bot/scheduler/repository.py:325-379 | count and insert in one step: over quota or with a taken id the table is unchanged |
| SchedulerProtocol.ClaimedFacts | nahida_bot/scheduler/repository.py:85-123 | a claim touches exactly the selected rows and only their claim |
| SchedulerProtocol.ClaimKeepsInv | nahida_bot/scheduler/service.py:341-345 | claiming keeps the invariant: a due row has no fire in flight, and each new snapshot agrees with its row |
| SchedulerProtocol.PollBeginKeepsInv | nahida_bot/scheduler/service.py:330-342 | measuring the free slots leaves room for as many fires |
| SchedulerProtocol.DispatchKeepsInv | nahida_bot/scheduler/service.py:344-358 | dispatching turns claimed jobs into running fires, one each |
| SchedulerProtocol.SucceedKeepsInv | nahida_bot/scheduler/service.py:602-607 | a success decided from the snapshot keeps the invariant though the row may be cancelled or deleted |
| SchedulerProtocol.FailKeepsInv | nahida_bot/scheduler/service.py:586-601 | a failure decided from the snapshot keeps failures of active jobs below the limit |
| SchedulerProtocol.CreateKeepsInv | nahida_bot/scheduler/service.py:145-210 | creating a job keeps the invariant and the quota of its chat |
| SchedulerProtocol.UpdateKeepsInv | nahida_bot/scheduler/service.py:212-300 | an update keeps the invariant, since it never touches a claimed row |
| SchedulerProtocol.CancelKeepsInv | nahida_bot/scheduler/service.py:311-316 | cancelling a job, even mid-fire, keeps the invariant |
| SchedulerProtocol.DeleteKeepsInv | nahida_bot/scheduler/service.py:318-325 | deleting a job, even mid-fire, keeps the invariant |
| SchedulerProtocol.RestartKeepsInv | nahida_bot/scheduler/service.py:75-107 | a restart after a crash releases every claim whose fire is gone |
| SchedulerProtocol.StepKeepsInv | nahida_bot/scheduler/service.py:327-644 | every step of the protocol keeps the invariant: snapshots agree with their rows, at most one unsettled fire per job, claims backed by fires, limits and quotas |
| SchedulerRuns.RunKeepsInv | nahida_bot/scheduler/service.py:327-644 | the invariant holds after any run of steps |
| SchedulerRuns.ReachableIsSafe | nahida_bot/scheduler/service.py:327-384 | in every reachable state: at most one unsettled fire per job, fires within the limit, all tasks within the limit plus one, chats within their quota, no claim without a fire |
| SchedulerRuns.RetiredForever | nahida_bot/scheduler/repository.py:85-123 | a deleted or inactive job is never active and never claimed again |
| SchedulerRuns.SuccessCost | nahida_bot/scheduler/service.py:602-631 | a success of an active job ends it or costs exactly the failures it makes up for and itself; the last run owed ends it |
| SchedulerRuns.FailureCost | nahida_bot/scheduler/service.py:633-644 | a failure of an active job ends it if and only if the failure limit is reached, else it costs one attempt |
| SchedulerRuns.AttemptBound | nahida_bot/scheduler/service.py:579-644 | between updates, attempts made and attempts left never exceed the attempts left before |
| SchedulerRuns.CreatedJobBound | nahida_bot/scheduler/service.py:579-644 | a job with `max_runs` m settles at most m times the failure limit while active, a one-shot job at most the failure limit |
| SchedulerTiming.SuccessReschedules | nahida_bot/scheduler/service.py:602-631 | a success changes its row to exactly this: one more run, claim and failures cleared, active if and only if it was and runs again, and then next its interval after the success or at the next time of its cron expression |
| SchedulerTiming.FailureDelays | nahida_bot/scheduler/service.py:633-644 | a failure changes its row to exactly this: one more failure, claim cleared, next after the retry delay, active if and only if it was and the failure limit is not reached |
| SchedulerTiming.FireProgress | nahida_bot/scheduler/service.py:336-358 | a fire that has sent its error message is gone, and a dispatch turns every claimed job into a running fire |
| SchedulerTiming.NextClaimIsDue | nahida_bot/scheduler/service.py:579-644 | over any run without an update of the job, the claim after a settled fire comes no earlier than the interval after the success, the next cron time, or the retry delay after the failure |
| SchedulerTiming.ClaimsAreSpaced | nahida_bot/scheduler/service.py:327-352 | over any run without update or failure of the job and without a restart, and with a clock that does not go back, two claims of an interval job lie at least its interval apart |
| SchedulerTiming.DueIsClaimed | nahida_bot/scheduler/service.py:327-352 | a claim with slots to spare takes every due job and only due ones |
| SchedulerTiming.DreamingMeaning | nahida_bot/scheduler/service.py:360-384 | dreaming starts if and only if a poll finds it enabled, due, not running, and a slot free; when it is due next |
| SchedulerTiming.DreamsAreSpaced | nahida_bot/scheduler/service.py:360-384 | over any run without a restart two successive starts of dreaming lie at least its interval apart |
| SchedulerReach.AttemptBoundIsReached | nahida_bot/scheduler/service.py:579-644 | the bound is tight: from any quiet state with a lone schedulable job some run makes all the attempts left |
| SchedulerReach.CreatedJobReachesBound | nahida_bot/scheduler/service.py:579-644 | from the first state on, a created job with `max_runs` m can settle exactly m times the failure limit, a one-shot job exactly the failure limit |
| SchedulerReach.LastSuccess | nahida_bot/scheduler/service.py:602-631 | a success of a schedulable job ends it if and only if it was the last run owed |
| SchedulerLimit.ExceededByDreaming | nahida_bot/scheduler/service.py:332-345 | in a reachable state all tasks exceed the limit if and only if the dreaming task runs beside a full set of fires |
| SchedulerLimit.LimitPlusOneIsReached | nahida_bot/scheduler/service.py:332-345 | a poll that finds dreaming due and a job for every free slot brings all tasks to the limit plus one |
| SchedulerLimit.LimitCanBeExceeded | nahida_bot/scheduler/service.py:332-384 | some run from the first state exceeds the limit if and only if dreaming is enabled and limit and quota are positive |
| SchedulerMaxRuns.StepWithin | nahida_bot/scheduler/service.py:212-644 | every step but a lowering update keeps all run counts within the maxima, strictly for jobs active or in flight |
| SchedulerMaxRuns.MaximumIsKept | nahida_bot/scheduler/service.py:212-644 | over any run in which no update that takes effect lowers a maximum to the runs made, no job runs more often than its maximum |
| SchedulerMaxRuns.ActiveJobRunsOnce | nahida_bot/scheduler/service.py:579-631 | an active job gets one more run, whatever its maximum |
| SchedulerMaxRuns.LoweredMaximumOverruns | nahida_bot/scheduler/service.py:236-252 | after an update that takes effect some run without further updates exceeds the new maximum if and only if it is not above the runs already made |
| SchedulerMaxRuns.SomeRunOverruns | nahida_bot/scheduler/service.py:236-252 | a run from the first state in which a job is created with maximum two, runs once, is updated to maximum one, and runs again |
| SchedulerMaxRuns.MaximumCanBeOverrun | nahida_bot/scheduler/service.py:236-252 | some run from the first state lets a job run more often than its maximum if and only if limit and quota are positive |
| SchedulerService.AcceptedJob | nahida_bot/scheduler/service.py:145-210 | an accepted job is fresh, fires in the future, and after a success has a next time if and only if it is not one-shot and has more than one run |
| SchedulerService.CreateMeaning | nahida_bot/scheduler/service.py:145-210 | a request is accepted if and only if prompt, maximum and schedule are valid, and the job is then exactly the requested one |
| SchedulerService.AcceptedUpdate | nahida_bot/scheduler/service.py:212-300 | an accepted update has a positive maximum, a one-shot forgets it, and a next time after a success exists if and only if the maximum is not reached by it |
| SchedulerService.UpdateMeaning | nahida_bot/scheduler/service.py:212-300 | an update is accepted if and only if what results is valid; each value is the requested one or else the old one, the next time follows the new schedule unless an interval job is not rescheduled, everything else stays |
| SchedulerService.Service.Start | nahida_bot/scheduler/service.py:75-107 | is the restart step of the protocol |
| SchedulerService.Service.CreateJob | nahida_bot/scheduler/service.py:145-210 | an invalid request changes nothing; a valid one is the create step, refused exactly when the quota is used up |
| SchedulerService.Service.PlanJobUpdate | nahida_bot/scheduler/service.py:228-281 | which error a request for an update meets, if and only if, and the planned change otherwise |
| SchedulerService.Service.WriteUpdate | nahida_bot/scheduler/service.py:283-294 | writing a plan, however old, is the update step, refused exactly when the job is gone, inactive or claimed by then |
| SchedulerService.Service.UpdateJob | nahida_bot/scheduler/service.py:212-300 | both parts without interruption: which error is returned, if and only if; on success the update step with the planned change, else no change |
| SchedulerService.Service.CancelJob | nahida_bot/scheduler/service.py:311-316 | is the cancel step, with its answer |
| SchedulerService.Service.DeleteJob | nahida_bot/scheduler/service.py:318-325 | is the delete step, with its answer |
| SchedulerService.Service.BeginPoll | nahida_bot/scheduler/service.py:330-339 | is the first step of a poll round: count free slots, then dispatch dreaming if due |
| SchedulerService.Service.ClaimDue | nahida_bot/scheduler/service.py:341-342 | is the claim step for as many jobs as there were free slots |
| SchedulerService.Service.DispatchClaimed | nahida_bot/scheduler/service.py:344-358 | is the dispatch step |
| SchedulerService.Service.FireSucceeded | nahida_bot/scheduler/service.py:602-607 | is the success step, decided from the snapshot |
| SchedulerService.Service.FireFailed | nahida_bot/scheduler/service.py:586-601 | is the failure step, decided from the snapshot |
| SchedulerService.Service.ErrorSent | nahida_bot/scheduler/service.py:593-601 | ends a fire that was still sending its error message |
| SchedulerService.Service.DreamEnded | nahida_bot/scheduler/service.py:381-384 | ends the dreaming task |
| MessageRouter.TrafficKeepsInv | nahida_bot/core/router.py:334-448 | arrivals and finished runs keep the invariant: whoever waits, waits behind a run, and nothing that waits is a command |
| MessageRouter.TrafficStep | nahida_bot/core/router.py:334-448 | one step appends an arrival to what was asked for and changes it in no other way; starts exceed finishes by the active run |
| MessageRouter.RunsAreSerialized | nahida_bot/core/router.py:334-448 | over any traffic, started messages followed by waiting ones are the requests in arrival order, and starts minus finishes is the number of active runs |
| MessageRouter.FirstInFirstOut | nahida_bot/core/router.py:334-448 | from an empty router: first in, first out, a non-empty queue implies an active run, and at most one run is active |
| MessageRouter.DrainStrandsQueue | nahida_bot/core/router.py:334-448 | after a finished run the rest of the queue waits behind a run if and only if it is empty, the router is stopping, or the drained message finds an agent and is no command |
| MessageRouter.QueuesStayBehind | nahida_bot/core/router.py:290-448 | over every run, with commands and agent changing and the router stopping at any time, all queues always wait behind runs if and only if no finish meets a queue longer than one whose head starts no run |
| MessageRouter.OrderedStep | nahida_bot/core/router.py:290-448 | any step but an overtaking arrival keeps what was asked for in arrival order: messages only drop out or join at the end |
| MessageRouter.OrderIsKept | nahida_bot/core/router.py:290-448 | over every run with no message arriving twice, what a session had started, then what waits, is always in arrival order if and only if no arrival starts a run past a queue without one |
| MessageRouter.BehindIsInOrder | nahida_bot/core/router.py:290-448 | as long as no queue is left without a run no message overtakes another |
| MessageRouter.QueueIsOvertaken | nahida_bot/core/router.py:313-335 | a run from an empty router in which a waiting message becomes a command, the one behind it is left without a run, and a later one is started before it |
| MessageRouter.QueueLosesAgent | nahida_bot/core/router.py:337-339 | a run from an empty router in which the agent is removed and a waiting message is left without a run |
| MessageRouter.StoppingRun | nahida_bot/core/router.py:148-166 | while stopping, under any interleaving of arrivals and ends: nothing starts, a session has a run exactly if its run has not finished, and a queue only as long as that |
| MessageRouter.StopDrains | nahida_bot/core/router.py:148-166 | once every run that was active when stopping began has finished, no run is left, none has started, no session that had a run has a queue, and stopping can end |
| MessageRouter.ActiveRunTracker.Start | nahida_bot/core/session_runner.py:85-92 | a second run of a session is refused and the runs stay as they are |
| MessageRouter.ActiveRunTracker.Finish | nahida_bot/core/session_runner.py:94-95 | the session has no run afterwards, the others are untouched |
| MessageRouter.Router.DispatchMessage | nahida_bot/core/router.py:290-367 | is the dispatch step, and the tracker never refuses |
| MessageRouter.Router.DrainPending | nahida_bot/core/router.py:440-448 | is the drain step, and the tracker never refuses |
| MessageRouter.Router.RunFinished | nahida_bot/core/router.py:432-438 | is the finish step, and the tracker never refuses |
| StreamIndex.ListingIsUnique | nahida_bot/agent/providers/openai_compatible.py:494 | a set of indices has only one ascending listing |
| StreamIndex.SortIndices | nahida_bot/agent/providers/openai_compatible.py:494 | lists exactly the given indices in ascending order |
| OpenAiStream.CollectStreamToolCalls | nahida_bot/agent/providers/openai_compatible.py:461-488 | the in-place collection refines the recursive one, unindexed and malformed fragments included |
| OpenAiStream.CollectedPerIndex | nahida_bot/agent/providers/openai_compatible.py:461-488 | with indexed fragments, each index holds what its own fragments alone would give |
| OpenAiStream.FoldedMeaning | nahida_bot/agent/providers/openai_compatible.py:477-488 | an index keeps the last id and the joined names and arguments, nothing else |
| OpenAiStream.ReassemblyIsStable | nahida_bot/agent/providers/openai_compatible.py:461-488 | streams that give every index the same id and the same joined texts collect to the same, however cut and interleaved |
| OpenAiStream.UnindexedOpensCall | nahida_bot/agent/providers/openai_compatible.py:471-476 | a fragment without an index opens a call of its own if and only if no call sits at the number of calls |
| OpenAiStream.CutIsHarmless | nahida_bot/agent/providers/openai_compatible.py:471-488 | cutting a fragment in two collects to the same parts if and only if the halves carry the index, or meet in a call that was there before, or the second half is empty and falls on such a call |
| OpenAiStream.CutInStream | nahida_bot/agent/providers/openai_compatible.py:471-488 | such a harmless cut changes nothing at any place in any stream |
| OpenAiStream.CutIsUnnoticed | nahida_bot/agent/providers/openai_compatible.py:461-510 | the same condition holds if and only if the cut and the whole fragment build the same calls whatever fragments follow |
| OpenAiStream.UnindexedSplitIsLost | nahida_bot/agent/providers/openai_compatible.py:471-476 | at the start of a stream the second half of an unindexed name opens a call of its own |
| OpenAiStream.UnindexedCallCollides | nahida_bot/agent/providers/openai_compatible.py:471-479 | behind a single call at index one, an unindexed call is glued to it and takes over its id |
| OpenAiStream.BuildStreamToolCalls | nahida_bot/agent/providers/openai_compatible.py:490-512 | the calls with an id and a name, by ascending index |
| OpenAiStream.ReassemblyReturnsCalls | nahida_bot/agent/providers/openai_compatible.py:461-512 | fragments that deliver some calls in any pieces are rebuilt to exactly these calls in index order |
| OpenAiStream.ParseStreamResponse | nahida_bot/agent/providers/openai_compatible.py:379-459 | the whole loop: each text is the join of its pieces, finish reason and usage are the last given, the calls are those of all fragments |
| OpenAiStream.TextMeaning | nahida_bot/agent/providers/openai_compatible.py:379-459 | each text field is the concatenation of its own pieces, and absent if and only if none arrived |
| OpenAiStream.LastMeaning | nahida_bot/agent/providers/openai_compatible.py:379-459 | finish reason and usage are the ones given last |
| OpenAiStream.FragmentsMeaning | nahida_bot/agent/providers/openai_compatible.py:379-459 | the fragments are those of all chunks, one after the other |
| OpenAiStream.SameMessage | nahida_bot/agent/providers/openai_compatible.py:379-512 | two streams with the same joined texts per field and per index reassemble to the same message |
| OpenAiStream.StreamReturnsCalls | nahida_bot/agent/providers/openai_compatible.py:379-512 | a stream that delivers some calls reassembles to exactly them |
| AnthropicStream.ApplyContentBlockDelta | nahida_bot/agent/providers/anthropic.py:510-541 | one delta changes exactly the part it is for, types an untyped block, and gathers input text beside it |
| AnthropicStream.CollectedPerIndex | nahida_bot/agent/providers/anthropic.py:425-537 | each index ends with what its own events alone would give |
| AnthropicStream.InterleavingDoesNotMatter | nahida_bot/agent/providers/anthropic.py:425-537 | two streams with the same events per index collect to the same |
| AnthropicStream.DeltasGrow | nahida_bot/agent/providers/anthropic.py:510-541 | whatever came before, deltas behind a typed block append their joined texts, thinking and input text and leave the last signature |
| AnthropicStream.StartedBlock | nahida_bot/agent/providers/anthropic.py:458-472 | a started typed block ends as itself with all its pieces appended, and the joined input text beside it |
| AnthropicStream.UnstartedBlock | nahida_bot/agent/providers/anthropic.py:417-504 | without a start the deltas make a block of their own: joined texts and thinking, the last signature, and the type of the first delta that gives one |
| AnthropicStream.CutsDoNotMatter | nahida_bot/agent/providers/anthropic.py:458-537 | an index that received the same events, or the same started block with the same joined pieces, ends the same |
| AnthropicStream.LateStartForgets | nahida_bot/agent/providers/anthropic.py:458-472 | a start behind some deltas forgets the block they made but keeps the input text they brought |
| AnthropicStream.LateStartIsHarmless | nahida_bot/agent/providers/anthropic.py:458-537 | a late start gives the same block as an early one if and only if the deltas before it brought no text, thinking or signature that is missed |
| AnthropicStream.LateStartDiscardsText | nahida_bot/agent/providers/anthropic.py:458-472 | a start behind its only text discards the text the same start in front of it keeps |
| AnthropicStream.FinishContent | nahida_bot/agent/providers/anthropic.py:483-493 | gathered inputs are decoded into their blocks, anything but an object counting as the empty one, and the blocks are listed by index |
| AnthropicStream.ParseStreamResponse | nahida_bot/agent/providers/anthropic.py:417-504 | the whole loop yields the finished content of the collected blocks, or none |
| AnthropicStream.SameContent | nahida_bot/agent/providers/anthropic.py:417-537 | streams that give every index the same events, or the same started block cut in another way, reassemble to the same content |
| AnthropicStream.StreamReturnsBlocks | nahida_bot/agent/providers/anthropic.py:417-537 | a stream that starts some blocks and brings them pieces, cut and interleaved in any way, yields exactly the whole blocks in index order, with the inputs decoded |
| RuntimeSettings.DeepMerge | nahida_bot/core/runtime_settings.py:86-105 | the recursive in-place merge computes `Merged`, about which the following laws are proved |
| RuntimeSettings.MergeRuntimeMeta | nahida_bot/core/runtime_settings.py:64-74 | metadata that is no dict counts as empty |
| RuntimeSettings.MergeIsPathOverride | nahida_bot/core/runtime_settings.py:86-105 | every path to a scalar follows the verdict of the updates: kept, set, or dropped by a null, a scalar or a dict in its way |
| RuntimeSettings.MergeKeepsNormal | nahida_bot/core/runtime_settings.py:86-105 | stored settings without nulls and empty dicts stay so, whatever the updates hold |
| RuntimeSettings.LeavesDetermine | nahida_bot/core/runtime_settings.py:86-105 | normal settings are determined by their scalars, so the path law is the whole truth about them |
| RuntimeSettings.MergeIsIdempotent | nahida_bot/core/runtime_settings.py:86-105 | the same updates applied twice change nothing more, on any stored settings |
| RankFusion.ReciprocalRankFusion | nahida_bot/agent/memory/vector.py:210-221 | the accumulating loops, the sort and the slice compute `Fused`, about which the following laws are proved |
| RankFusion.TallyList | nahida_bot/agent/memory/vector.py:217-220 | after a ranked list each id has gained one over k plus its rank, for each occurrence |
| RankFusion.SortedItems | nahida_bot/agent/memory/vector.py:221 | sorts the items of the score dict as `Sorted` orders the ids, each with its score |
| RankFusion.FusedMeaning | nahida_bot/agent/memory/vector.py:210-221 | each listed id at most once, with its score, by falling score, as many as the limit allows, and none left out scores more than one kept |
| RankFusion.TiesKeepFirstOccurrence | nahida_bot/agent/memory/vector.py:221 | among equal scores the fused order is the order of first occurrence, reading the lists one after the other |
| RankFusion.UnanimousScore | nahida_bot/agent/memory/vector.py:210-221 | an id ranked before another in every list that holds the other scores at least as much, and more if the other is listed |
| RankFusion.FusionRespectsUnanimity | nahida_bot/agent/memory/vector.py:210-221 | such an id precedes the other in the fused order: the other never appears without it ahead |
| Text.JoinOfSplit | nahida_bot/channels/telegram/markdown_converter.py:71 | splitting at a separator and joining by it gives the text back |
| HtmlSplitter.AccumulateChunks | nahida_bot/channels/telegram/markdown_converter.py:222-241 | the loop packs the pieces greedily |
| HtmlSplitter.PackedRejoins | nahida_bot/channels/telegram/markdown_converter.py:222-241 | the chunks rejoin, by the separator they were packed by, to the pieces joined |
| HtmlSplitter.PackedFits | nahida_bot/channels/telegram/markdown_converter.py:222-241 | all chunks fit if and only if all pieces do |
| HtmlSplitter.PackedIsGreedy | nahida_bot/channels/telegram/markdown_converter.py:222-241 | the pieces fall into groups in order, one per chunk; a group of several pieces fits, and no group could have taken the next piece too |
| HtmlSplitter.SplitLargeSegment | nahida_bot/channels/telegram/markdown_converter.py:206-219 | packs lines if there are any, else words, else cuts hard |
| HtmlSplitter.LargeFacts | nahida_bot/channels/telegram/markdown_converter.py:206-219 | the parts of a paragraph rejoin to it, and all fit if and only if its lines, or else its words, do |
| HtmlSplitter.HardSplitIsFull | nahida_bot/channels/telegram/markdown_converter.py:206-219 | text without line breaks and spaces is cut at exactly the limit |
| HtmlSplitter.PlaceParagraph | nahida_bot/channels/telegram/markdown_converter.py:75-97 | one round of the loop is the step `Add` of the packing: behind the current chunk, or flush and start anew with the paragraph or its last part |
| HtmlSplitter.PackParagraphs | nahida_bot/channels/telegram/markdown_converter.py:71-100 | the loop packs the paragraphs, its running length being that of the current chunk |
| HtmlSplitter.NextParagraph | nahida_bot/channels/telegram/markdown_converter.py:64-102 | the next paragraph joins the last chunk if and only if both fit with the blank line between them; else it starts a chunk of its own, or several when it is too long |
| HtmlSplitter.SplitHtmlMessage | nahida_bot/channels/telegram/markdown_converter.py:56-102 | computes `SplitMessage`, about which the following laws are proved |
| HtmlSplitter.ShortMessage | nahida_bot/channels/telegram/markdown_converter.py:62-66 | no text gives no chunk, and a text within the limit is one |
| HtmlSplitter.SplitLosesNothing | nahida_bot/channels/telegram/markdown_converter.py:56-102 | the original text is the chunks rejoined with a blank line, a line break, a space or nothing at each break |
| HtmlSplitter.ChunksFit | nahida_bot/channels/telegram/markdown_converter.py:56-102 | every chunk is within the limit if and only if every over-long paragraph consists of lines, or else words, that fit |
| HtmlSplitter.LongLineIsNotCut | nahida_bot/channels/telegram/markdown_converter.py:206-219 | an over-long line behind a line break stays whole, so the promised limit is missed |
| MemoryMarkdown.ReplacedLayout | nahida_bot/agent/memory/markdown.py:184-197 | with the markers in order the new file is the text before the old section, the new text, and the text after it, separated by blank lines |
| MemoryMarkdown.SurroundingsSurvive | nahida_bot/agent/memory/markdown.py:191-196 | these texts are the user's text around the old section but for the blanks next to it |
| MemoryMarkdown.WrittenBlockIsFound | nahida_bot/agent/memory/markdown.py:184-197 | what was written is exactly what the next run finds between the markers, the markers included |
| MemoryMarkdown.SecondReplacesFirst | nahida_bot/agent/memory/markdown.py:184-197 | with the markers in order a second replacement undoes the first if and only if the first text has no end marker but its last |
| MemoryMarkdown.StrayEndAppends | nahida_bot/agent/memory/markdown.py:189-197 | with an end marker that no start precedes every run appends one more section |
| MemoryMarkdown.StrayStartSwallows | nahida_bot/agent/memory/markdown.py:189-197 | with a start marker that no end follows the second run swallows the user's text behind it |
| MemoryMarkdown.StrayStartDiffers | nahida_bot/agent/memory/markdown.py:189-197 | and then the two results differ, whatever was written |
| MemoryMarkdown.LastWriterWins | nahida_bot/agent/memory/markdown.py:184-197 | a second replacement undoes the first if and only if the user's text holds neither marker, or both with the first start ahead of the first end, and the first text has no end marker but its last |
| MemoryMarkdown.BlankFileIsInOrder | nahida_bot/agent/memory/markdown.py:186-188 | the heading a blank file gets holds no marker |
| MemoryMarkdown.GroupEntries | nahida_bot/agent/memory/markdown.py:140-166 | each heading gets the entries of its items, in item order, items without content left out |
| MemoryMarkdown.ShownMeaning | nahida_bot/agent/memory/markdown.py:147 | the items shown are the first ones, as many as allowed |
| MemoryMarkdown.KindsAreFiled | nahida_bot/agent/memory/markdown.py:152-161 | which kinds of items go under which heading |
| MemoryMarkdown.EntryMeaning | nahida_bot/agent/memory/markdown.py:162-168 | an entry is a bullet with the id in brackets, the title and a colon, each if there is one, and the content |
| MemoryMarkdown.EntriesUnder | nahida_bot/agent/memory/markdown.py:140-168 | under a heading stand the entries of the items of its kinds that have content, and no others |
| MemoryMarkdown.BuildMemoryProjection | nahida_bot/agent/memory/markdown.py:138-181 | the block is start marker, introduction, the non-empty groups in fixed order, and end marker, of the first items only |
| MemoryMarkdown.ProjectionIsBlock | nahida_bot/agent/memory/markdown.py:138-181 | the projection is a well-formed block if and only if no entry quotes the end marker |
| MemoryMarkdown.LastRefreshWins | nahida_bot/agent/memory/markdown.py:138-197 | for any items, refreshing twice leaves what the second refresh alone would have written if and only if the user's text holds neither marker, or both with the first start ahead of the first end, and no item of the first refresh quotes the end marker |

## Left out

- Request contents, reasoning fields and multimodal blocks of a serialized message: they play no part in pairing; JSON texts are taken as given strings, encoding and decoding as inverse.
- System prompt, instruction, skill and workspace memory loading, and the merging of system messages: they form the given prefix.
- Summary wording: an arbitrary text of the dropped messages.
- The fallback of the composite tokenizer and provider-specific tokenizers: the budget laws hold for any tokenizer, the longest-prefix law for the two built-in ones. The Unicode word and space tables are a parameter.
- Logging, metrics, traces, sleeps between retries and polls.
- The rules of tool-argument validation: any validation outcome is allowed.
- Cancellation of an agent run from outside, which raises in the middle of a step; the stop event is modelled.
- Non-positive limits in the splitter, for which the hard cut of the original makes no progress: the limit is positive here.
- Dates as ISO strings, time zones and croniter: times are integers and the next cron time is an arbitrary function.
- Platform, chat and workspace columns of a job, and the listing queries: a chat is its session key.
- Database errors while claiming or settling: every repository method succeeds as one atomic step.
- The delay between the end of a task and its removal from the task set: a task leaves the set as its last step.
- A restart in the same process after a stop that timed out, and a second process: a restart ends all fires of the old process.
- The dreaming work itself and its provider selection.
- SchedulerService.Service.UpdateJob: reads the row and writes it without interruption; its two parts are also separate methods, between which any step may happen. Reading the updated job back is not modelled.
- Reuse of job ids: ids are random in the original and assumed fresh.
- Command execution, its results and session switching: a command is answered without starting a run.
- Cancellation of a router run before it enters its try block; there the finishing step would be skipped.
- Sending responses to the chat and the reasoning display.
- Anthropic block starts whose text, thinking or type is present but not a string.
- HTTP, server-sent event framing, JSON decoding of fragments; the message start, usage and stop reason of Anthropic streams.
- Non-streamed parsing of tool calls: a streamed message is compared with the calls an unstreamed one lists.
- Floating-point rounding of fusion scores: scores are exact, and k is not negative.
- The conversion of Markdown to Telegram HTML, placeholders included.
- The daily and long-term memory notes, filters and validation of the Markdown memory.
- Subagents, plugins, channel adapters, MCP, media and configuration.
