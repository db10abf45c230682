/** What a run of the agent loop tells its caller: the final response, the two message lists and the error of the done
    event, and the texts and tool notices before it, read off the rounds, the provider and the ending. */
module AgentEvents {
  import opened Messages
  import opened ProtocolChecker
  import opened ContextMeaning
  import opened ContextWindow
  import opened AgentLoop

  // ---- Messages of one role ----

  function OfRole(ms: seq<Message>, role: Role): seq<Message> {
    if ms == [] then []
    else if ms[0].role == role then [ms[0]] + OfRole(ms[1..], role)
    else OfRole(ms[1..], role)
  }

  lemma {:induction false} OfRoleAppend(a: seq<Message>, b: seq<Message>, role: Role)
    ensures OfRole(a + b, role) == OfRole(a, role) + OfRole(b, role)
  {
    if a == [] {
      assert a + b == b;
    } else {
      assert (a + b)[0] == a[0] && (a + b)[1..] == a[1..] + b;
      OfRoleAppend(a[1..], b, role);
    }
  }

  lemma {:induction false} OfOwnRole(ms: seq<Message>, role: Role, other: Role)
    requires role != other && forall m :: m in ms ==> m.role == role
    ensures OfRole(ms, role) == ms && OfRole(ms, other) == []
  {
    if ms != [] {
      OfOwnRole(ms[1..], role, other);
      assert ms == [ms[0]] + ms[1..];
    }
  }

  // ---- What a response shows and adds ----

  /** The content itself when there is any, else a notice for other output; reasoning alone shows nothing, and a refusal
      is shown only without it. */
  lemma ShownContent(r: Response)
    ensures r.content != "" ==> DisplayContent(r) == r.content
    ensures r.content == "" && r.images ==> DisplayContent(r) == "[generated image available]"
    ensures r.content == "" && !r.images && r.builtinCalls ==> DisplayContent(r) == "[built-in tool output available]"
    ensures r.content == "" && !r.images && !r.builtinCalls && r.reasoning != "" ==> DisplayContent(r) == ""
    ensures r.content == "" && !r.images && !r.builtinCalls && r.reasoning == "" ==>
      DisplayContent(r) == if r.refusal == "" && r.outputTypes then "[empty response output received]" else r.refusal
  {
  }

  /** A response adds at most one message, and none exactly when it shows nothing, calls nothing and hides nothing; the
      message says what is shown, keeps the reasoning, and lists the calls. */
  lemma SpokenMessage(w: World, r: Response)
    ensures AssistantMessages(w, r) == [] <==> DisplayContent(r) == "" && r.toolCalls == [] && !r.hiddenOutput
    ensures AssistantMessages(w, r) != [] ==>
      var m := AssistantMessages(w, r)[0];
      && |AssistantMessages(w, r)| == 1 && m.role.Assistant? && m.content == DisplayContent(r)
      && m.reasoning == r.reasoning && m.reasoningSignature == r.signature && m.redactedThinking == r.redacted
      && (r.toolCalls != [] ==> m.metadata.Some? && m.metadata.value.toolCalls == CallList(CallEntries(r.toolCalls)))
      && (r.toolCalls == [] && m.metadata.Some? ==> m.metadata.value.toolCalls.NotAList?)
      && (m.metadata.None? <==> r.finishReason.None? && !r.hiddenOutput && r.toolCalls == [])
      && m.source == "provider_response" && m.partsJson == ""
  {
  }

  /** The calls of a response reach the request unchanged: same ids, names and arguments, in the same order. */
  lemma CallsReachTheWire(w: World, r: Response)
    requires r.toolCalls != []
    ensures |AssistantMessages(w, r)| == 1
    ensures var payload := Wire(AssistantMessages(w, r)[0]);
      && payload.role.Assistant? && payload.toolCalls.Some? && |payload.toolCalls.value| == |r.toolCalls|
      && forall i :: 0 <= i < |r.toolCalls| ==>
           payload.toolCalls.value[i] == WireCall(r.toolCalls[i].callId, r.toolCalls[i].name, r.toolCalls[i].arguments)
  {
    CompleteCallsSurvive(CallEntries(r.toolCalls));
  }

  // ---- The final active turn ----

  /** The response behind the last completed round, if the run got one. */
  function LastWords(ending: Ending): Option<Response> {
    match ending
    case Answered(r) => Some(r)
    case CancelledAfter(r) => Some(r)
    case NoExecutor(r) => Some(r)
    case _ => None
  }

  function FinalTurn(w: World, user: Message, run: Run): seq<Message> {
    Turn(w, user, run.rounds) + if LastWords(run.ending).Some? then AssistantMessages(w, LastWords(run.ending).value) else []
  }

  lemma ResultsAreTools(c: Config, w: World, round: Round)
    requires AreResultsOf(c, w, round.response.toolCalls, round.results, round.marks)
    ensures forall m :: m in round.results ==> m.role.Tool?
  {
    forall m | m in round.results ensures m.role.Tool? {
      var i :| 0 <= i < |round.results| && round.results[i] == m;
      assert IsResultAt(c, w, round.response.toolCalls, round.results, round.marks, i);
    }
  }

  lemma {:induction false} TurnByRole(c: Config, w: World, user: Message, rounds: seq<Round>)
    requires user.role.User? && RoundsOf(c, w, rounds)
    ensures Assistants(w, rounds) == OfRole(Turn(w, user, rounds), Assistant)
    ensures Results(rounds) == OfRole(Turn(w, user, rounds), Tool)
    decreases |rounds|
  {
    if rounds == [] {
      assert [user][1..] == [];
    } else {
      var n := |rounds| - 1;
      var before, last := Turn(w, user, rounds[..n]), rounds[n];
      var spoken := AssistantMessages(w, last.response);
      forall k | 0 <= k < n ensures IsRound(c, w, rounds[..n], k) {
        assert IsRound(c, w, rounds, k);
      }
      TurnByRole(c, w, user, rounds[..n]);
      assert IsRound(c, w, rounds, n);
      ResultsAreTools(c, w, last);
      RoundByRole(before, spoken, last.results);
    }
  }

  lemma RoundByRole(before: seq<Message>, spoken: seq<Message>, results: seq<Message>)
    requires (forall m :: m in spoken ==> m.role.Assistant?) && forall m :: m in results ==> m.role.Tool?
    ensures OfRole(before + (spoken + results), Assistant) == OfRole(before, Assistant) + spoken
    ensures OfRole(before + (spoken + results), Tool) == OfRole(before, Tool) + results
  {
    OfRoleAppend(before, spoken + results, Assistant);
    OfRoleAppend(before, spoken + results, Tool);
    OfRoleAppend(spoken, results, Assistant);
    OfRoleAppend(spoken, results, Tool);
    OfOwnRole(spoken, Assistant, Tool);
    OfOwnRole(results, Tool, Assistant);
    assert spoken + [] == spoken && [] + results == results;
  }

  // ---- The done event ----

  /** What was last said, or nothing. */
  function LastSaid(turn: seq<Message>): string {
    var said := OfRole(turn, Assistant);
    if said == [] then "" else said[|said| - 1].content
  }

  predicate IsDone(c: Config, run: Run, turn: seq<Message>, e: LoopEvent) {
    && e.Done? && e.assistantMessages == OfRole(turn, Assistant) && e.toolMessages == OfRole(turn, Tool)
    && match run.ending
       case Answered(r) => e.error.None? && e.finalResponse == DisplayContent(r) && e.steps == |run.rounds| + 1
       case CancelledAfter(r) =>
         e.error == Some("cancelled") && e.finalResponse == DisplayContent(r) && e.steps == |run.rounds| + 1
       case Cancelled => e.error == Some("cancelled") && e.finalResponse == LastSaid(turn) && e.steps == |run.rounds|
       case StepsExhausted => e.error.None? && e.finalResponse == LastSaid(turn) && e.steps == c.maxSteps
       case ProviderError(code) =>
         && e.error == Some(code) && e.steps == |run.rounds| + 1
         && e.finalResponse == if LastSaid(turn) != "" then LastSaid(turn) else c.errorText(code)
       case _ => false
  }

  lemma LastWordsEnd(w: World, user: Message, run: Run, spoken: seq<Message>)
    requires spoken == if LastWords(run.ending).Some? then AssistantMessages(w, LastWords(run.ending).value) else []
    requires Assistants(w, run.rounds) == OfRole(Turn(w, user, run.rounds), Assistant)
    requires Results(run.rounds) == OfRole(Turn(w, user, run.rounds), Tool)
    ensures OfRole(FinalTurn(w, user, run), Assistant) == Assistants(w, run.rounds) + spoken
    ensures OfRole(FinalTurn(w, user, run), Tool) == Results(run.rounds)
  {
    RoundByRole(Turn(w, user, run.rounds), spoken, []);
    assert spoken + [] == spoken;
    assert Results(run.rounds) + [] == Results(run.rounds);
  }

  lemma LastEvent(c: Config, w: World, run: Run, turn: seq<Message>, spoken: seq<Message>)
    requires !Raises(run.ending) && run.events == Events(c, w, run.rounds, run.ending)
    requires spoken == if LastWords(run.ending).Some? then AssistantMessages(w, LastWords(run.ending).value) else []
    requires OfRole(turn, Assistant) == Assistants(w, run.rounds) + spoken && OfRole(turn, Tool) == Results(run.rounds)
    ensures run.events != [] && IsDone(c, run, turn, run.events[|run.events| - 1])
  {
    var last := EndEvents(c, w, Assistants(w, run.rounds), Results(run.rounds), |run.rounds|, run.ending);
    assert Assistants(w, run.rounds) + [] == Assistants(w, run.rounds);
    assert run.events[|run.events| - 1] == last[|last| - 1];
  }

  /** The last event of a run that does not raise: the messages are those of the final active turn, in order; an answered
      or interrupted run returns what the provider's last reply shows, any other what was last said, or the error text. */
  lemma DoneMeaning(c: Config, w: World, b: Builder, prefix: seq<Message>, history: seq<Message>, user: Message, run: Run)
    requires IsRun(c, w, b, prefix, history, user, run) && user.role.User? && !Raises(run.ending)
    ensures run.events != [] && IsDone(c, run, FinalTurn(w, user, run), run.events[|run.events| - 1])
  {
    var spoken := if LastWords(run.ending).Some? then AssistantMessages(w, LastWords(run.ending).value) else [];
    TurnByRole(c, w, user, run.rounds);
    LastWordsEnd(w, user, run, spoken);
    LastEvent(c, w, run, FinalTurn(w, user, run), spoken);
  }

  // ---- The events before it ----

  datatype Notice = Started | Ended | Spoken

  predicate IsNotice(e: LoopEvent, notice: Notice) {
    match notice
    case Started => e.ToolStart?
    case Ended => e.ToolEnd?
    case Spoken => e.Text?
  }

  function Only(events: seq<LoopEvent>, notice: Notice): seq<LoopEvent> {
    if events == [] then []
    else if IsNotice(events[0], notice) then [events[0]] + Only(events[1..], notice)
    else Only(events[1..], notice)
  }

  lemma {:induction false} OnlyAppend(a: seq<LoopEvent>, b: seq<LoopEvent>, notice: Notice)
    ensures Only(a + b, notice) == Only(a, notice) + Only(b, notice)
  {
    if a == [] {
      assert a + b == b;
    } else {
      assert (a + b)[0] == a[0] && (a + b)[1..] == a[1..] + b;
      OnlyAppend(a[1..], b, notice);
    }
  }

  lemma OnlyOne(e: LoopEvent, notice: Notice)
    ensures Only([e], notice) == if IsNotice(e, notice) then [e] else []
  {
    assert [e][1..] == [];
  }

  /** The responses of a run, in order. */
  function Said(rounds: seq<Round>): seq<Response> {
    seq(|rounds|, k requires 0 <= k < |rounds| => rounds[k].response)
  }

  function Responses(run: Run): seq<Response> {
    Said(run.rounds) + if LastWords(run.ending).Some? then [LastWords(run.ending).value] else []
  }

  function SomeText(text: string): Option<string> {
    if text == "" then None else Some(text)
  }

  /** One text event for each response that shows or reasons something, with both. */
  function TextsOf(rs: seq<Response>): seq<LoopEvent> {
    if rs == [] then []
    else
      var n := |rs| - 1;
      var text, reasoning := SomeText(DisplayContent(rs[n])), SomeText(rs[n].reasoning);
      if text.None? && reasoning.None? then TextsOf(rs[..n]) else TextsOf(rs[..n]) + [Text(text, reasoning)]
  }

  /** Round `k` is announced by the names of its calls, in order, and closed by their number. */
  predicate IsAnnounced(rounds: seq<Round>, starts: seq<LoopEvent>, ends: seq<LoopEvent>, k: nat)
    requires k < |rounds| == |starts| == |ends|
  {
    var calls := rounds[k].response.toolCalls;
    && starts[k].ToolStart? && |starts[k].names| == |calls| && (forall i :: 0 <= i < |calls| ==> starts[k].names[i] == calls[i].name)
    && ends[k] == ToolEnd(|calls|)
  }

  ghost predicate AreAnnounced(rounds: seq<Round>, starts: seq<LoopEvent>, ends: seq<LoopEvent>) {
    |rounds| == |starts| == |ends| && forall k :: 0 <= k < |rounds| ==> IsAnnounced(rounds, starts, ends, k)
  }

  lemma TextNotices(r: Response, notice: Notice)
    ensures Only(TextEvents(r), notice) == if notice.Spoken? then TextEvents(r) else []
  {
    if TextEvents(r) != [] {
      OnlyOne(TextEvents(r)[0], notice);
    }
  }

  function Block(r: Response, count: nat): seq<LoopEvent> {
    TextEvents(r) + [ToolStart(Names(r.toolCalls)), ToolEnd(count)]
  }

  lemma BlockNotices(r: Response, count: nat, notice: Notice)
    ensures Only(Block(r, count), notice) == match notice
      case Started => [ToolStart(Names(r.toolCalls))]
      case Ended => [ToolEnd(count)]
      case Spoken => TextEvents(r)
  {
    var start, end := ToolStart(Names(r.toolCalls)), ToolEnd(count);
    OnlyAppend(TextEvents(r), [start, end], notice);
    TextNotices(r, notice);
    assert [start, end] == [start] + [end];
    OnlyAppend([start], [end], notice);
    OnlyOne(start, notice);
    OnlyOne(end, notice);
  }

  lemma ResponseTexts(rs: seq<Response>, r: Response)
    ensures TextsOf(rs + [r]) == TextsOf(rs) + TextEvents(r)
  {
    assert (rs + [r])[..|rs|] == rs;
    assert TextsOf(rs) + [] == TextsOf(rs);
  }

  lemma OneMoreAnnounced(rounds: seq<Round>, starts: seq<LoopEvent>, ends: seq<LoopEvent>, last: Round)
    requires AreAnnounced(rounds, starts, ends) && |last.results| == |last.response.toolCalls|
    ensures AreAnnounced(rounds + [last], starts + [ToolStart(Names(last.response.toolCalls))], ends + [ToolEnd(|last.results|)])
  {
    var all, starts', ends' := rounds + [last], starts + [ToolStart(Names(last.response.toolCalls))], ends + [ToolEnd(|last.results|)];
    forall k | 0 <= k < |all| ensures IsAnnounced(all, starts', ends', k) {
      assert k < |rounds| ==> IsAnnounced(rounds, starts, ends, k);
    }
  }

  /** The notices of one kind that the rounds give, round by round. */
  function OfRounds(rounds: seq<Round>, notice: Notice): seq<LoopEvent> {
    if rounds == [] then []
    else
      var n := |rounds| - 1;
      OfRounds(rounds[..n], notice) + match notice
        case Started => [ToolStart(Names(rounds[n].response.toolCalls))]
        case Ended => [ToolEnd(|rounds[n].results|)]
        case Spoken => TextEvents(rounds[n].response)
  }

  lemma {:induction false} RoundNotices(rounds: seq<Round>, notice: Notice)
    ensures Only(RoundEvents(rounds), notice) == OfRounds(rounds, notice)
    decreases |rounds|
  {
    if rounds != [] {
      var n := |rounds| - 1;
      RoundNotices(rounds[..n], notice);
      OnlyAppend(RoundEvents(rounds[..n]), Block(rounds[n].response, |rounds[n].results|), notice);
      BlockNotices(rounds[n].response, |rounds[n].results|, notice);
    }
  }

  lemma {:induction false} RoundsAnnounced(c: Config, w: World, rounds: seq<Round>)
    requires RoundsOf(c, w, rounds)
    ensures AreAnnounced(rounds, OfRounds(rounds, Started), OfRounds(rounds, Ended))
    decreases |rounds|
  {
    if rounds != [] {
      var n := |rounds| - 1;
      forall k | 0 <= k < n ensures IsRound(c, w, rounds[..n], k) {
        assert IsRound(c, w, rounds, k);
      }
      RoundsAnnounced(c, w, rounds[..n]);
      assert IsRound(c, w, rounds, n);
      OneMoreAnnounced(rounds[..n], OfRounds(rounds[..n], Started), OfRounds(rounds[..n], Ended), rounds[n]);
      assert rounds == rounds[..n] + [rounds[n]];
    }
  }

  lemma SaidLast(rounds: seq<Round>)
    requires rounds != []
    ensures Said(rounds) == Said(rounds[..|rounds| - 1]) + [rounds[|rounds| - 1].response]
  {
  }

  lemma {:induction false} RoundsSpoken(rounds: seq<Round>)
    ensures OfRounds(rounds, Spoken) == TextsOf(Said(rounds))
    decreases |rounds|
  {
    if rounds != [] {
      var n := |rounds| - 1;
      RoundsSpoken(rounds[..n]);
      SaidLast(rounds);
      ResponseTexts(Said(rounds[..n]), rounds[n].response);
    }
  }

  lemma EndNotices(c: Config, w: World, before: seq<Message>, results: seq<Message>, n: nat, ending: Ending, notice: Notice)
    ensures Only(EndEvents(c, w, before, results, n, ending), notice)
         == if LastWords(ending).Some? && notice.Spoken? then TextEvents(LastWords(ending).value) else []
  {
    var last := EndEvents(c, w, before, results, n, ending);
    if LastWords(ending).Some? {
      var r := LastWords(ending).value;
      TextNotices(r, notice);
      if !ending.NoExecutor? {
        OnlyAppend(TextEvents(r), [last[|last| - 1]], notice);
        OnlyOne(last[|last| - 1], notice);
      }
    } else if last != [] {
      OnlyOne(last[0], notice);
    }
  }

  lemma RunNotices(c: Config, w: World, run: Run, notice: Notice)
    requires run.events == Events(c, w, run.rounds, run.ending)
    ensures Only(run.events, notice) == OfRounds(run.rounds, notice)
      + if LastWords(run.ending).Some? && notice.Spoken? then TextEvents(LastWords(run.ending).value) else []
  {
    RoundNotices(run.rounds, notice);
    EndNotices(c, w, Assistants(w, run.rounds), Results(run.rounds), |run.rounds|, run.ending, notice);
    OnlyAppend(RoundEvents(run.rounds), EndEvents(c, w, Assistants(w, run.rounds), Results(run.rounds), |run.rounds|, run.ending), notice);
  }

  /** All notices of a run: each completed round is announced and closed, nothing else is, and the texts are those of
      its responses, in order. */
  lemma NoticesMeaning(c: Config, w: World, b: Builder, prefix: seq<Message>, history: seq<Message>, user: Message, run: Run)
    requires IsRun(c, w, b, prefix, history, user, run)
    ensures AreAnnounced(run.rounds, Only(run.events, Started), Only(run.events, Ended))
    ensures Only(run.events, Spoken) == TextsOf(Responses(run))
  {
    RunNotices(c, w, run, Started);
    RunNotices(c, w, run, Ended);
    RunNotices(c, w, run, Spoken);
    RoundsAnnounced(c, w, run.rounds);
    RoundsSpoken(run.rounds);
    assert OfRounds(run.rounds, Started) + [] == OfRounds(run.rounds, Started);
    assert OfRounds(run.rounds, Ended) + [] == OfRounds(run.rounds, Ended);
    if LastWords(run.ending).Some? {
      ResponseTexts(Said(run.rounds), LastWords(run.ending).value);
    } else {
      assert Responses(run) == Said(run.rounds);
    }
  }

  /** Every context handed to the provider is the context of the active turn at that time. */
  lemma EveryContextIs(c: Config, w: World, b: Builder, prefix: seq<Message>, history: seq<Message>, user: Message, run: Run, k: nat)
    requires IsRun(c, w, b, prefix, history, user, run) && k < |run.contexts|
    ensures k <= |run.rounds| && IsContext(b, prefix, history, Turn(w, user, run.rounds[..k]), run.contexts[k])
  {
    assert BuiltAt(w, b, prefix, history, user, run.rounds, run.contexts, k);
    ContextIs(b, prefix, history, Turn(w, user, run.rounds[..k]));
  }
}
