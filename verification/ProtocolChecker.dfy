/** The serialized side of the transcript protocol: how a message becomes a request message, and the
    checker that walks the request with a set of pending call ids. Contents, reasoning and multimodal
    blocks of the request play no part in pairing and are not modelled. */
module ProtocolChecker {
  import opened Messages
  import opened CallPairing
  import opened Sanitizer

  datatype WireCall = WireCall(id: string, name: string, arguments: string)

  datatype WireMessage = WireMessage(role: Role, toolCalls: Option<seq<WireCall>>, toolCallId: Option<string>)

  // ---- Serialization ----

  /** The entries that survive serialization, in order. */
  function WireCalls(entries: seq<CallEntry>): seq<WireCall> {
    if entries == [] then []
    else if IsSerializable(entries[0]) then
      [WireCall(entries[0].id.value, entries[0].name.value, entries[0].arguments.value)] + WireCalls(entries[1..])
    else WireCalls(entries[1..])
  }

  /** An entry with a string id, a string name and a dict of arguments. */
  predicate IsComplete(e: CallEntry) {
    e.Call? && e.id.Some? && e.name.Some? && e.arguments.Some?
  }

  predicate CarriesEntry(call: WireCall, e: CallEntry) {
    IsComplete(e) && call.id == e.id.value && call.name == e.name.value && call.arguments == e.arguments.value
  }

  predicate CarriesAt(entries: seq<CallEntry>, calls: seq<WireCall>, at: seq<nat>, k: nat)
    requires k < |at| == |calls|
  {
    at[k] < |entries| && CarriesEntry(calls[k], entries[at[k]]) && (k + 1 < |at| ==> at[k] < at[k + 1])
  }

  /** `at` lists the positions of the complete entries in rising order, and each call carries its entry field by field. */
  ghost predicate CarriesComplete(entries: seq<CallEntry>, calls: seq<WireCall>, at: seq<nat>) {
    && |at| == |calls|
    && (forall k :: 0 <= k < |at| ==> CarriesAt(entries, calls, at, k))
    && (forall i :: 0 <= i < |entries| && IsComplete(entries[i]) ==> i in at)
  }

  function Moved(at: seq<nat>): seq<nat> {
    seq(|at|, k requires 0 <= k < |at| => at[k] + 1)
  }

  lemma MovedMembers(at: seq<nat>, i: nat)
    ensures i in at <==> i + 1 in Moved(at)
  {
    if i in at {
      var k :| 0 <= k < |at| && at[k] == i;
      assert Moved(at)[k] == i + 1;
    }
  }

  /** One more entry in front. */
  lemma CarriesOneMore(e: CallEntry, entries: seq<CallEntry>, calls: seq<WireCall>, at: seq<nat>)
    requires CarriesComplete(entries, calls, at)
    ensures if IsComplete(e)
      then CarriesComplete([e] + entries, [WireCall(e.id.value, e.name.value, e.arguments.value)] + calls, [0] + Moved(at))
      else CarriesComplete([e] + entries, calls, Moved(at))
  {
    var all, moved := [e] + entries, if IsComplete(e) then [0] + Moved(at) else Moved(at);
    var first := if IsComplete(e) then 1 else 0;
    var more := if IsComplete(e) then [WireCall(e.id.value, e.name.value, e.arguments.value)] + calls else calls;
    forall k | 0 <= k < |moved| ensures CarriesAt(all, more, moved, k) {
      assert k >= first ==> CarriesAt(entries, calls, at, k - first);
    }
    forall i | 0 <= i < |all| && IsComplete(all[i]) ensures i in moved {
      if i > 0 {
        assert entries[i - 1] == all[i];
        MovedMembers(at, i - 1);
      }
    }
  }

  lemma {:induction false} WireCallsMeaning(entries: seq<CallEntry>) returns (at: seq<nat>)
    ensures CarriesComplete(entries, WireCalls(entries), at)
  {
    at := [];
    if entries != [] {
      var rest := WireCallsMeaning(entries[1..]);
      CarriesOneMore(entries[0], entries[1..], WireCalls(entries[1..]), rest);
      assert entries == [entries[0]] + entries[1..];
      at := if IsComplete(entries[0]) then [0] + Moved(rest) else Moved(rest);
    }
  }

  /** When every entry is complete, all of them reach the wire, in order. */
  lemma {:induction false} CompleteCallsSurvive(entries: seq<CallEntry>)
    requires forall i :: 0 <= i < |entries| ==> IsComplete(entries[i])
    ensures |WireCalls(entries)| == |entries|
    ensures forall i :: 0 <= i < |entries| ==> CarriesEntry(WireCalls(entries)[i], entries[i])
  {
    if entries != [] {
      CompleteCallsSurvive(entries[1..]);
    }
  }

  method SerializeAssistantToolCalls(payload: seq<CallEntry>) returns (serialized: seq<WireCall>)
    ensures serialized == WireCalls(payload)
  {
    serialized := [];
    for i := 0 to |payload|
      invariant serialized + WireCalls(payload[i..]) == WireCalls(payload)
    {
      var item := payload[i];
      if IsSerializable(item) {
        var call := WireCall(item.id.value, item.name.value, item.arguments.value);
        Assoc(serialized, [call], WireCalls(payload[i + 1..]));
        serialized := serialized + [call];
      }
    }
  }

  function Wire(m: Message): WireMessage {
    var calls :=
      if m.role.Assistant? && m.metadata.Some? && m.metadata.value.toolCalls.CallList?
      then WireCalls(m.metadata.value.toolCalls.entries) else [];
    WireMessage(
      m.role,
      if calls == [] then None else Some(calls),
      if AnswerId(m) == "" then None else Some(AnswerId(m)))
  }

  /** The calls under the metadata of an assistant message. */
  predicate HasEntries(m: Message, entries: seq<CallEntry>) {
    m.role.Assistant? && m.metadata.Some? && m.metadata.value.toolCalls == CallList(entries)
  }

  /** A payload keeps the role, has calls exactly when an assistant message lists a complete one, and names the answered call
      exactly when a tool message has a non-empty id for it. */
  lemma PayloadMeaning(m: Message)
    ensures Wire(m).role == m.role
    ensures Wire(m).toolCalls.Some? <==> exists entries, i :: HasEntries(m, entries) && 0 <= i < |entries| && IsComplete(entries[i])
    ensures forall entries :: HasEntries(m, entries) && Wire(m).toolCalls.Some? ==> Wire(m).toolCalls.value == WireCalls(entries)
    ensures Wire(m).toolCallId.Some? <==>
      m.role.Tool? && m.metadata.Some? && m.metadata.value.toolCallId.Some? && m.metadata.value.toolCallId.value != ""
    ensures Wire(m).toolCallId.Some? ==> Wire(m).toolCallId == m.metadata.value.toolCallId
  {
    if m.role.Assistant? && m.metadata.Some? && m.metadata.value.toolCalls.CallList? {
      var entries := m.metadata.value.toolCalls.entries;
      var at := WireCallsMeaning(entries);
      assert HasEntries(m, entries);
      if WireCalls(entries) != [] {
        assert CarriesAt(entries, WireCalls(entries), at, 0);
        assert IsComplete(entries[at[0]]);
      }
    }
  }

  function Wires(ms: seq<Message>): seq<WireMessage> {
    seq(|ms|, i requires 0 <= i < |ms| => Wire(ms[i]))
  }

  method SerializeMessage(message: Message) returns (payload: WireMessage)
    ensures payload == Wire(message)
  {
    payload := WireMessage(message.role, None, None);
    if message.role.Assistant? && message.metadata.Some? && message.metadata.value.toolCalls.CallList? {
      var calls := SerializeAssistantToolCalls(message.metadata.value.toolCalls.entries);
      if calls != [] {
        payload := payload.(toolCalls := Some(calls));
      }
    }
    if message.role.Tool? && message.metadata.Some? && message.metadata.value.toolCallId.Some?
       && message.metadata.value.toolCallId.value != "" {
      payload := payload.(toolCallId := message.metadata.value.toolCallId);
    }
  }

  method SerializeMessages(messages: seq<Message>) returns (serialized: seq<WireMessage>)
    ensures serialized == Wires(Sanitized(messages))
  {
    var sanitized := SanitizeToolTranscript(messages);
    serialized := [];
    for i := 0 to |sanitized|
      invariant serialized == Wires(sanitized)[..i]
    {
      var payload := SerializeMessage(sanitized[i]);
      serialized := serialized + [payload];
    }
  }

  // ---- The checker ----

  datatype Issue =
    | MissingToolMessages(assistantIndex: Option<nat>, beforeIndex: Option<nat>, missing: set<string>)
    | MissingToolCallId(index: nat)
    | OrphanToolMessage(index: nat, id: string)
    | UnexpectedToolCallId(index: nat, id: string, pending: set<string>)

  function WireIds(w: WireMessage): set<string> {
    if w.role.Assistant? && w.toolCalls.Some? then
      set c | c in w.toolCalls.value && c.id != "" :: c.id
    else {}
  }

  /** The checker's state between two messages. */
  datatype Pending = Pending(ids: set<string>, since: Option<nat>)

  function Interrupted(w: WireMessage, index: nat, walk: Pending): seq<Issue> {
    if walk.ids != {} && !w.role.Tool?
    then [MissingToolMessages(walk.since, Some(index), walk.ids)] else []
  }

  function ToolIssues(w: WireMessage, index: nat, walk: Pending): seq<Issue> {
    if !w.role.Tool? then []
    else if w.toolCallId.None? || w.toolCallId.value == "" then [MissingToolCallId(index)]
    else if walk.ids == {} then [OrphanToolMessage(index, w.toolCallId.value)]
    else if w.toolCallId.value in walk.ids then []
    else [UnexpectedToolCallId(index, w.toolCallId.value, walk.ids)]
  }

  function Next(w: WireMessage, index: nat, walk: Pending): Pending {
    if w.role.Tool? then
      if ToolIssues(w, index, walk) == [] then walk.(ids := walk.ids - {w.toolCallId.value}) else walk
    else
      var closed := if walk.ids != {} then Pending({}, None) else walk;
      if WireIds(w) != {} then Pending(WireIds(w), Some(index)) else closed
  }

  function IssuesFrom(ws: seq<WireMessage>, index: nat, walk: Pending): seq<Issue>
    requires index <= |ws|
    decreases |ws| - index
  {
    if index == |ws| then
      if walk.ids != {} then [MissingToolMessages(walk.since, None, walk.ids)] else []
    else
      (Interrupted(ws[index], index, walk) + ToolIssues(ws[index], index, walk))
      + IssuesFrom(ws, index + 1, Next(ws[index], index, walk))
  }

  function Issues(ws: seq<WireMessage>): seq<Issue> {
    IssuesFrom(ws, 0, Pending({}, None))
  }

  method SerializedProtocolIssues(messages: seq<WireMessage>) returns (issues: seq<Issue>)
    ensures issues == Issues(messages)
  {
    issues := [];
    var pendingIds: set<string> := {};
    var pendingIndex: Option<nat> := None;
    for index := 0 to |messages|
      invariant issues + IssuesFrom(messages, index, Pending(pendingIds, pendingIndex)) == Issues(messages)
    {
      var message := messages[index];
      ghost var before, walk := issues, Pending(pendingIds, pendingIndex);
      if pendingIds != {} && !message.role.Tool? {
        issues := issues + [MissingToolMessages(pendingIndex, Some(index), pendingIds)];
        pendingIds, pendingIndex := {}, None;
      }
      assert issues == before + Interrupted(message, index, walk);
      ghost var middle := issues;
      if message.role.Assistant? {
        var ids := WireIds(message);
        if ids != {} {
          pendingIds, pendingIndex := ids, Some(index);
        }
      } else if message.role.Tool? {
        if message.toolCallId.None? || message.toolCallId.value == "" {
          issues := issues + [MissingToolCallId(index)];
        } else if pendingIds == {} {
          issues := issues + [OrphanToolMessage(index, message.toolCallId.value)];
        } else if message.toolCallId.value in pendingIds {
          pendingIds := pendingIds - {message.toolCallId.value};
        } else {
          issues := issues + [UnexpectedToolCallId(index, message.toolCallId.value, pendingIds)];
        }
      }
      assert issues == middle + ToolIssues(message, index, walk);
      Assoc(before, Interrupted(message, index, walk), ToolIssues(message, index, walk));
      Assoc(before, Interrupted(message, index, walk) + ToolIssues(message, index, walk),
            IssuesFrom(messages, index + 1, Pending(pendingIds, pendingIndex)));
    }
    if pendingIds != {} {
      issues := issues + [MissingToolMessages(pendingIndex, None, pendingIds)];
    }
  }

  // ---- The checker accepts exactly the transcripts that are closed once serialized ----

  lemma {:induction false} WireCallIds(entries: seq<CallEntry>)
    ensures (set c | c in WireCalls(entries) && c.id != "" :: c.id)
         == (set e | e in entries && HasId(Serialized, e) :: e.id.value)
  {
    if entries != [] {
      WireCallIds(entries[1..]);
      assert entries == [entries[0]] + entries[1..];
      var e, rest := entries[0], WireCalls(entries[1..]);
      if IsSerializable(e) {
        var call := WireCall(e.id.value, e.name.value, e.arguments.value);
        assert WireCalls(entries) == [call] + rest;
        assert (set c | c in WireCalls(entries) && c.id != "" :: c.id)
            == (if call.id != "" then {call.id} else {}) + (set c | c in rest && c.id != "" :: c.id);
      }
      assert (set x | x in entries && HasId(Serialized, x) :: x.id.value)
          == (if HasId(Serialized, e) then {e.id.value} else {})
             + (set x | x in entries[1..] && HasId(Serialized, x) :: x.id.value);
    }
  }

  lemma WireIdsAgree(m: Message)
    ensures WireIds(Wire(m)) == CallIds(Serialized, m)
  {
    if m.role.Assistant? && m.metadata.Some? && m.metadata.value.toolCalls.CallList? {
      WireCallIds(m.metadata.value.toolCalls.entries);
    }
  }

  lemma {:induction false} IssuesFromMeaning(ms: seq<Message>, index: nat, walk: Pending)
    requires index <= |ms|
    ensures IssuesFrom(Wires(ms), index, walk) == [] <==> Follows(Serialized, walk.ids, ms[index..])
    decreases |ms| - index
  {
    if index < |ms| {
      var w, rest := Wires(ms)[index], ms[index..];
      assert rest[1..] == ms[index + 1..];
      WireIdsAgree(ms[index]);
      IssuesFromMeaning(ms, index + 1, Next(w, index, walk));
    }
  }

  /** The checker reports nothing exactly when the transcript, read by the ids that survive
      serialization, is closed. */
  lemma NoIssues(ms: seq<Message>)
    ensures Issues(Wires(ms)) == [] <==> Follows(Serialized, {}, ms)
  {
    IssuesFromMeaning(ms, 0, Pending({}, None));
    assert ms[0..] == ms;
  }

  // ---- The three views agree ----

  /** Every call with an id survives serialization. */
  ghost predicate WellFormedCalls(ms: seq<Message>) {
    forall m :: m in ms ==> CallIds(Serialized, m) == CallIds(Stored, m)
  }

  lemma {:induction false} ViewsAgree(pending: set<string>, ms: seq<Message>)
    requires WellFormedCalls(ms)
    ensures Follows(Serialized, pending, ms) <==> Follows(Stored, pending, ms)
    decreases |ms|
  {
    if ms != [] {
      var next := if ms[0].role.Tool? then pending - {AnswerId(ms[0])} else CallIds(Stored, ms[0]);
      assert WellFormedCalls(ms[1..]);
      ViewsAgree(next, ms[1..]);
    }
  }

  /** On well-formed calls, being closed, passing the checker, and being left alone by the sanitizer
      without a repeated answer are the same thing. */
  lemma SanitizerAgreesWithChecker(ms: seq<Message>)
    requires WellFormedCalls(ms)
    ensures Issues(Wires(ms)) == [] <==> WellPaired(ms)
    ensures Issues(Wires(ms)) == [] <==> Sanitized(ms) == ms && NoRepeatedAnswers(ms)
  {
    NoIssues(ms);
    ViewsAgree({}, ms);
    ClosedMeaning(ms);
    SanitizedFixedPoint(ms);
  }

  /** What the sanitizer sends passes the checker exactly when every answered call of its input
      survives serialization whole and is answered without repetition. */
  lemma SanitizedPassesChecker(ms: seq<Message>)
    ensures Issues(Wires(Sanitized(ms))) == [] <==> Sound(ms)
  {
    NoIssues(Sanitized(ms));
    SanitizedIsSound(ms);
  }

  /** In particular it passes on every input with well-formed calls whose tool runs repeat no id,
      however broken the pairing is otherwise. */
  lemma SanitizedPassesOnWellFormed(ms: seq<Message>)
    requires WellFormedCalls(ms) && NoRepeatedAnswers(ms)
    ensures Issues(Wires(Sanitized(ms))) == []
  {
    forall i | 0 <= i < |ms| ensures SoundAt(ms, i) {
      assert NoRepeats(RunAfter(ms, i));
      MatchingKeepsNoRepeats(RunAfter(ms, i), CallIds(Stored, ms[i]));
    }
    SanitizedPassesChecker(ms);
  }

  lemma {:induction false} MatchingKeepsNoRepeats(run: seq<Message>, ids: set<string>)
    requires NoRepeats(run)
    ensures NoRepeats(Matching(run, ids))
  {
    if run != [] {
      MatchingKeepsNoRepeats(run[1..], ids);
      MatchingFacts(run[1..], ids);
      assert forall k :: 0 <= k < |run[1..]| ==> run[1..][k] == run[k + 1];
      assert AnswerId(run[0]) !in AnswerIds(run[1..]);
    }
  }

  // ---- Inputs on which sanitized output still fails the checker ----

  function CallMessage(name: Option<string>): Message {
    Message(Assistant, "", "provider_response",
            Some(Metadata(CallList([Call(Some("a"), name, Some("{}"))]), None, "")), "", "", false, "")
  }

  function AnswerMessage(id: string): Message {
    Message(Tool, "", "tool_result", Some(Metadata(NotAList, Some(id), "")), "", "", false, "")
  }

  lemma CallMessageIds(name: Option<string>)
    ensures CallIds(Stored, CallMessage(name)) == {"a"}
    ensures CallIds(Serialized, CallMessage(name)) == if name.Some? then {"a"} else {}
  {
    var entries := CallMessage(name).metadata.value.toolCalls.entries;
    assert entries == [Call(Some("a"), name, Some("{}"))];
    assert entries[0] in entries;
  }

  /** Two answers to one id are kept by the sanitizer and flagged by the checker. */
  lemma RepeatedAnswerFails()
    ensures var ms := [CallMessage(Some("f")), AnswerMessage("a"), AnswerMessage("a")];
      Sanitized(ms) == ms && Issues(Wires(Sanitized(ms))) != []
  {
    var ms := [CallMessage(Some("f")), AnswerMessage("a"), AnswerMessage("a")];
    var run := ms[1..];
    CallMessageIds(Some("f"));
    MatchingFacts(run, {"a"});
    ToolRunUnique(run, 2);
    assert ms[1..3] == run && run[0] in run;
    assert ms == [ms[0]] + run;
    assert AnswerId(run[0]) == AnswerId(run[1]);
    SanitizedFixedPoint(ms);
    assert RunAfter(ms, 0) == run;
    assert !NoRepeats(run);
    assert !PairedAt(ms, 0);
    ClosedMeaning(ms);
    assert Sanitized(ms[3..]) == [];
    SanitizedPassesChecker(ms);
    assert !SoundAt(ms, 0);
  }

  /** A call whose name is not a string is answered, kept by the sanitizer, and lost on the wire. */
  lemma NamelessCallFails()
    ensures var ms := [CallMessage(None), AnswerMessage("a")];
      Closed(ms) && Sanitized(ms) == ms && Issues(Wires(Sanitized(ms))) != []
  {
    var ms := [CallMessage(None), AnswerMessage("a")];
    var run := ms[1..];
    CallMessageIds(None);
    assert run[1..] == [];
    SanitizedFixedPoint(ms);
    NoIssues(ms);
    assert !Follows(Serialized, {}, run);
  }
}
