/** What every run of the agent loop guarantees: one done event, a bound on provider calls, an active turn that
    is a closed transcript, and valid requests. */
module AgentRuns {
  import opened Messages
  import opened CallPairing
  import opened ProtocolChecker
  import opened Sanitizer
  import opened ContextWindow
  import opened ContextBuilder
  import opened AgentLoop

  predicate NoDone(events: seq<LoopEvent>) {
    forall e :: e in events ==> !e.Done?
  }

  lemma {:induction false} RoundEventsHaveNoDone(rounds: seq<Round>)
    ensures NoDone(RoundEvents(rounds))
    decreases |rounds|
  {
    if rounds != [] {
      RoundEventsHaveNoDone(rounds[..|rounds| - 1]);
    }
  }

  lemma DoneLast(front: seq<LoopEvent>, last: LoopEvent)
    requires NoDone(front)
    ensures var all := front + [last]; all[|all| - 1] == last && NoDone(all[..|all| - 1])
  {
    assert (front + [last])[..|front|] == front;
  }

  lemma EndEventsHaveOneDone(c: Config, w: World, before: seq<Message>, results: seq<Message>, n: nat, ending: Ending)
    ensures var last := EndEvents(c, w, before, results, n, ending);
      if Raises(ending) then NoDone(last)
      else last != [] && last[|last| - 1].Done? && NoDone(last[..|last| - 1])
           && last[|last| - 1].steps == if ending.StepsExhausted? then c.maxSteps else if ending.Cancelled? then n else n + 1
  {
    var last := EndEvents(c, w, before, results, n, ending);
    if ending.CancelledAfter? || ending.Answered? {
      DoneLast(TextEvents(ending.response), last[|last| - 1]);
    }
  }

  /** A run that does not raise emits exactly one done event, as its last, with a step count within the
      limit; a run that raises emits none. */
  lemma OneDoneEvent(c: Config, w: World, b: Builder, prefix: seq<Message>, history: seq<Message>, user: Message, run: Run)
    requires IsRun(c, w, b, prefix, history, user, run)
    ensures var n := |run.events|;
      if Raises(run.ending) then NoDone(run.events)
      else n > 0 && run.events[n - 1].Done? && NoDone(run.events[..n - 1]) && run.events[n - 1].steps <= c.maxSteps
  {
    var before := RoundEvents(run.rounds);
    var last := EndEvents(c, w, Assistants(w, run.rounds), Results(run.rounds), |run.rounds|, run.ending);
    RoundEventsHaveNoDone(run.rounds);
    EndEventsHaveOneDone(c, w, Assistants(w, run.rounds), Results(run.rounds), |run.rounds|, run.ending);
    if !Raises(run.ending) {
      assert run.events[..|run.events| - 1] == before + last[..|last| - 1];
    }
  }

  lemma {:induction false} CallsUpTo(c: Config, w: World, rounds: seq<Round>, calls: seq<nat>, k: nat)
    requires ProviderStepsOf(c, w, rounds, calls) && k <= |calls|
    ensures k <= CallsBefore(calls, k) <= k * MaxAttempts(c)
  {
    if k > 0 {
      CallsUpTo(c, w, rounds, calls, k - 1);
      assert StepCalls(c, w, calls, k - 1);
      assert k * MaxAttempts(c) == (k - 1) * MaxAttempts(c) + MaxAttempts(c);
    }
  }

  /** At most `maxSteps` contexts are built, and at most that many times all allowed attempts are made. */
  lemma ProviderCallBound(c: Config, w: World, b: Builder, prefix: seq<Message>, history: seq<Message>, user: Message, run: Run)
    requires IsRun(c, w, b, prefix, history, user, run)
    ensures |run.contexts| <= AtLeast(c.maxSteps, 0)
    ensures CallsBefore(run.calls, |run.calls|) <= AtLeast(c.maxSteps, 0) * (1 + AtLeast(c.retryAttempts, 0))
  {
    CallsUpTo(c, w, run.rounds, run.calls, |run.calls|);
    MoreSteps(|run.calls|, AtLeast(c.maxSteps, 0), MaxAttempts(c));
  }

  lemma MoreSteps(n: nat, steps: nat, each: nat)
    requires n <= steps
    ensures n * each <= steps * each
  {
    assert (steps - n) * each >= 0;
  }

  /** The tool calls requested in the first `k` rounds. */
  function CallCount(rounds: seq<Round>, k: nat): nat
    requires k <= |rounds|
  {
    if k == 0 then 0 else CallCount(rounds, k - 1) + |rounds[k - 1].response.toolCalls|
  }

  lemma {:induction false} MarksUpTo(c: Config, w: World, calls: seq<ToolCall>, ms: seq<Message>, marks: seq<nat>, i: nat)
    requires AreResultsOf(c, w, calls, ms, marks) && i <= |calls|
    ensures marks[0] <= marks[i] <= marks[0] + i * MaxToolAttempts(c)
  {
    if i > 0 {
      MarksUpTo(c, w, calls, ms, marks, i - 1);
      assert IsResultAt(c, w, calls, ms, marks, i - 1);
      assert i * MaxToolAttempts(c) == (i - 1) * MaxToolAttempts(c) + MaxToolAttempts(c);
    }
  }

  /** Every requested call is executed at most as often as allowed. */
  lemma {:induction false} ToolExecutionBound(c: Config, w: World, rounds: seq<Round>, k: nat)
    requires RoundsOf(c, w, rounds) && k <= |rounds|
    ensures ExecutedBefore(rounds, k) <= CallCount(rounds, k) * (1 + AtLeast(c.toolRetryAttempts, 0))
  {
    if k > 0 {
      var last := rounds[k - 1];
      var n := |last.response.toolCalls|;
      ToolExecutionBound(c, w, rounds, k - 1);
      assert IsRound(c, w, rounds, k - 1);
      MarksUpTo(c, w, last.response.toolCalls, last.results, last.marks, n);
      MoreCalls(CallCount(rounds, k - 1), n, MaxToolAttempts(c));
    }
  }

  lemma MoreCalls(a: nat, b: nat, each: nat)
    ensures (a + b) * each == a * each + b * each
  {
  }

  // ---- The active turn is a closed transcript ----

  /** Call ids a provider may use: non-empty and distinct within the response. */
  predicate GoodIds(calls: seq<ToolCall>) {
    && (forall i :: 0 <= i < |calls| ==> calls[i].callId != "")
    && (forall i, j :: 0 <= i < j < |calls| ==> calls[i].callId != calls[j].callId)
  }

  function Ids(calls: seq<ToolCall>): set<string> {
    set t | t in calls :: t.callId
  }

  lemma AssistantCalls(w: World, r: Response, view: View)
    requires r.toolCalls != []
    ensures |AssistantMessages(w, r)| == 1
    ensures CallIds(view, AssistantMessages(w, r)[0]) == Ids(r.toolCalls) - {""}
  {
    var m := AssistantMessages(w, r)[0];
    var entries := m.metadata.value.toolCalls.entries;
    forall t | t in r.toolCalls && t.callId != "" ensures t.callId in CallIds(view, m) {
      var i :| 0 <= i < |r.toolCalls| && r.toolCalls[i] == t;
      assert entries[i] in entries && HasId(view, entries[i]);
    }
  }

  lemma ResultAnswers(c: Config, w: World, calls: seq<ToolCall>, ms: seq<Message>, marks: seq<nat>)
    requires AreResultsOf(c, w, calls, ms, marks)
    ensures forall i :: 0 <= i < |ms| ==> ms[i].role.Tool? && AnswerId(ms[i]) == calls[i].callId
    ensures AnswerIds(ms) == Ids(calls)
  {
    forall i | 0 <= i < |ms| ensures ms[i].role.Tool? && AnswerId(ms[i]) == calls[i].callId {
      assert IsResultAt(c, w, calls, ms, marks, i);
    }
    forall t | t in calls ensures t.callId in AnswerIds(ms) {
      var i :| 0 <= i < |calls| && calls[i] == t;
      assert ms[i] in ms;
    }
  }

  /** A round is a closed transcript exactly when the provider chose good ids. */
  lemma RoundClosed(c: Config, w: World, round: Round)
    requires round.response.toolCalls != []
    requires AreResultsOf(c, w, round.response.toolCalls, round.results, round.marks)
    ensures Closed(AssistantMessages(w, round.response) + round.results) <==> GoodIds(round.response.toolCalls)
    ensures AssistantMessages(w, round.response)[0].role.Assistant?
  {
    var calls, results := round.response.toolCalls, round.results;
    var call := AssistantMessages(w, round.response)[0];
    AssistantCalls(w, round.response, Stored);
    ResultAnswers(c, w, calls, results, round.marks);
    assert AssistantMessages(w, round.response) == [call];
    assert ([call] + results)[1..] == results;
    AnswersMeaning(Stored, CallIds(Stored, call), results);
    GoodIdsMeaning(calls, results);
  }

  lemma GoodIdsMeaning(calls: seq<ToolCall>, results: seq<Message>)
    requires |results| == |calls| && forall i :: 0 <= i < |results| ==> AnswerId(results[i]) == calls[i].callId
    ensures GoodIds(calls) <==> "" !in Ids(calls) && NoRepeats(results)
  {
    forall i | 0 <= i < |calls| ensures calls[i].callId in Ids(calls) {
      assert calls[i] in calls;
    }
  }

  predicate GoodRoundAt(rounds: seq<Round>, k: nat)
    requires k < |rounds|
  {
    GoodIds(rounds[k].response.toolCalls)
  }

  ghost predicate GoodRounds(rounds: seq<Round>) {
    forall k :: 0 <= k < |rounds| ==> GoodRoundAt(rounds, k)
  }

  lemma GoodRoundsSplit(rounds: seq<Round>, n: nat)
    requires |rounds| == n + 1
    ensures GoodRounds(rounds) <==> GoodRounds(rounds[..n]) && GoodRoundAt(rounds, n)
  {
    forall k | 0 <= k < n ensures GoodRoundAt(rounds[..n], k) == GoodRoundAt(rounds, k) {
    }
    if GoodRounds(rounds) {
      forall k | 0 <= k < n ensures GoodRoundAt(rounds[..n], k) {
        assert GoodRoundAt(rounds, k);
      }
    }
  }

  lemma UserIsClosed(user: Message)
    requires user.role.User?
    ensures Closed([user])
  {
    assert CallIds(Stored, user) == {};
    assert [user][1..] == [];
  }

  lemma TurnOfRound(w: World, user: Message, rounds: seq<Round>)
    requires rounds != []
    ensures var n := |rounds| - 1;
      Turn(w, user, rounds) == Turn(w, user, rounds[..n]) + (AssistantMessages(w, rounds[n].response) + rounds[n].results)
  {
  }

  /** The active turn is closed exactly when every response used good ids. */
  lemma {:induction false} TurnClosed(c: Config, w: World, user: Message, rounds: seq<Round>)
    requires user.role.User?
    requires RoundsOf(c, w, rounds)
    ensures Closed(Turn(w, user, rounds)) <==> GoodRounds(rounds)
    decreases |rounds|
  {
    if rounds == [] {
      UserIsClosed(user);
    } else {
      var n := |rounds| - 1;
      var last := rounds[n];
      RoundsOfPrefix(c, w, rounds, n);
      TurnClosed(c, w, user, rounds[..n]);
      assert IsRound(c, w, rounds, n);
      TurnOfRound(w, user, rounds);
      RoundAfterTurn(c, w, Turn(w, user, rounds[..n]), last);
      GoodRoundsSplit(rounds, n);
    }
  }

  /** A round appended to a turn keeps it closed exactly when the round used good ids. */
  lemma RoundAfterTurn(c: Config, w: World, turn: seq<Message>, round: Round)
    requires round.response.toolCalls != []
    requires AreResultsOf(c, w, round.response.toolCalls, round.results, round.marks)
    ensures Closed(turn + (AssistantMessages(w, round.response) + round.results))
        <==> Closed(turn) && GoodIds(round.response.toolCalls)
  {
    RoundClosed(c, w, round);
    AssistantCalls(w, round.response, Stored);
    FollowsAppend(Stored, {}, turn, AssistantMessages(w, round.response) + round.results);
  }

  lemma RoundsOfPrefix(c: Config, w: World, rounds: seq<Round>, n: nat)
    requires RoundsOf(c, w, rounds) && n <= |rounds|
    ensures RoundsOf(c, w, rounds[..n])
  {
    forall k | 0 <= k < n ensures IsRound(c, w, rounds[..n], k) {
      assert IsRound(c, w, rounds, k);
    }
  }

  lemma {:induction false} TurnWellFormed(c: Config, w: World, user: Message, rounds: seq<Round>)
    requires user.role.User?
    requires RoundsOf(c, w, rounds)
    ensures WellFormedCalls(Turn(w, user, rounds))
    decreases |rounds|
  {
    if rounds != [] {
      var n := |rounds| - 1;
      var last := rounds[n];
      RoundsOfPrefix(c, w, rounds, n);
      TurnWellFormed(c, w, user, rounds[..n]);
      assert IsRound(c, w, rounds, n);
      AssistantCalls(w, last.response, Stored);
      AssistantCalls(w, last.response, Serialized);
      ResultAnswers(c, w, last.response.toolCalls, last.results, last.marks);
    }
  }

  /** Every request of every run is valid: with a closed, well-formed history and good ids from the provider,
      whatever the budget cuts, the sanitizer leaves each context alone and the checker finds nothing. */
  lemma EveryRequestIsValid(c: Config, w: World, b: Builder, prefix: seq<Message>, history: seq<Message>, user: Message,
                            run: Run, k: nat)
    requires IsRun(c, w, b, prefix, history, user, run) && k < |run.contexts|
    requires user.role.User?
    requires Closed(prefix) && Closed(history) && WellFormedCalls(prefix) && WellFormedCalls(history)
    requires GoodRounds(run.rounds)
    ensures Sanitized(run.contexts[k]) == run.contexts[k]
    ensures Issues(Wires(Sanitized(run.contexts[k]))) == []
  {
    var rounds := run.rounds[..k];
    assert BuiltAt(w, b, prefix, history, user, run.rounds, run.contexts, k);
    RoundsOfPrefix(c, w, run.rounds, k);
    forall i | 0 <= i < k ensures GoodRoundAt(rounds, i) {
      assert GoodRoundAt(run.rounds, i);
    }
    TurnClosed(c, w, user, rounds);
    TurnWellFormed(c, w, user, rounds);
    RequestIsValid(b, prefix, history, Turn(w, user, rounds));
  }
}
