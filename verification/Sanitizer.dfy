/** The sanitizer that drops broken call/result fragments, and what it guarantees: it is idempotent, it leaves
    exactly the closed transcripts alone (up to repeated answers), and when its output is well paired once
    serialized. */
module Sanitizer {
  import opened Messages
  import opened CallPairing

  // ---- The sanitizer ----

  function Matching(run: seq<Message>, ids: set<string>): seq<Message> {
    if run == [] then []
    else if AnswerId(run[0]) in ids then [run[0]] + Matching(run[1..], ids)
    else Matching(run[1..], ids)
  }

  /** What the sanitizer keeps of an assistant message that calls something and the tool run after it. */
  function KeptGroup(call: Message, run: seq<Message>): seq<Message> {
    var answers := Matching(run, CallIds(Stored, call));
    if CallIds(Stored, call) <= AnswerIds(answers) then [call] + answers else []
  }

  function Sanitized(ms: seq<Message>): seq<Message>
    decreases |ms|
  {
    if ms == [] then []
    else if CallIds(Stored, ms[0]) == {} then
      if ms[0].role.Tool? then Sanitized(ms[1..]) else [ms[0]] + Sanitized(ms[1..])
    else
      var n := 1 + ToolRun(ms[1..]);
      KeptGroup(ms[0], ms[1..n]) + Sanitized(ms[n..])
  }

  lemma {:induction false} MatchingAppend(run: seq<Message>, m: Message, ids: set<string>)
    ensures Matching(run + [m], ids) == if AnswerId(m) in ids then Matching(run, ids) + [m] else Matching(run, ids)
  {
    if run == [] {
      assert run + [m] == [m];
    } else {
      assert (run + [m])[1..] == run[1..] + [m];
      MatchingAppend(run[1..], m, ids);
    }
  }

  /** The inner walk: collect the answers to `required` from the tool messages after an assistant. */
  method CollectToolGroup(messages: seq<Message>, start: nat, required: set<string>)
    returns (toolGroup: seq<Message>, seen: set<string>, next: nat)
    requires start <= |messages|
    ensures next == start + ToolRun(messages[start..])
    ensures toolGroup == Matching(messages[start..next], required)
    ensures seen == AnswerIds(toolGroup)
  {
    toolGroup, seen, next := [], {}, start;
    while next < |messages| && messages[next].role.Tool?
      invariant start <= next <= |messages|
      invariant forall i :: start <= i < next ==> messages[i].role.Tool?
      invariant toolGroup == Matching(messages[start..next], required)
      invariant seen == AnswerIds(toolGroup)
    {
      var toolMessage := messages[next];
      assert messages[start..next + 1] == messages[start..next] + [toolMessage];
      MatchingAppend(messages[start..next], toolMessage, required);
      AnswerIdsAppend(toolGroup, toolMessage);
      if AnswerId(toolMessage) in required {
        toolGroup := toolGroup + [toolMessage];
        seen := seen + {AnswerId(toolMessage)};
      }
      next := next + 1;
    }
    ToolRunUnique(messages[start..], next - start);
  }

  lemma SanitizedCall(ms: seq<Message>, n: nat)
    requires ms != [] && CallIds(Stored, ms[0]) != {} && n == 1 + ToolRun(ms[1..])
    ensures Sanitized(ms) == KeptGroup(ms[0], ms[1..n]) + Sanitized(ms[n..])
  {
  }

  /** The sanitizer on the rest of the list, from a call on. */
  lemma SanitizedFrom(messages: seq<Message>, index: nat, next: nat)
    requires index < |messages| && CallIds(Stored, messages[index]) != {}
    requires next == index + 1 + ToolRun(messages[index + 1..])
    ensures Sanitized(messages[index..])
         == KeptGroup(messages[index], messages[index + 1..next]) + Sanitized(messages[next..])
  {
    SliceOfSlice(messages, index, index + 1, next);
    SliceOfSlice(messages, index, next, next);
    SanitizedCall(messages[index..], next - index);
  }

  lemma SanitizedPlain(messages: seq<Message>, index: nat)
    requires index < |messages| && CallIds(Stored, messages[index]) == {}
    ensures Sanitized(messages[index..]) ==
      if messages[index].role.Tool? then Sanitized(messages[index + 1..])
      else [messages[index]] + Sanitized(messages[index + 1..])
  {
    assert messages[index..][1..] == messages[index + 1..];
  }

  /** One call with its tool run, as the loop takes it. */
  lemma SanitizedGroupTaken(done: seq<Message>, messages: seq<Message>, index: nat, next: nat, toolGroup: seq<Message>)
    requires index < |messages| && CallIds(Stored, messages[index]) != {}
    requires next == index + 1 + ToolRun(messages[index + 1..])
    requires toolGroup == Matching(messages[index + 1..next], CallIds(Stored, messages[index]))
    ensures done + Sanitized(messages[index..]) ==
      if CallIds(Stored, messages[index]) <= AnswerIds(toolGroup)
      then (done + ([messages[index]] + toolGroup)) + Sanitized(messages[next..]) else done + Sanitized(messages[next..])
  {
    var kept, rest := KeptGroup(messages[index], messages[index + 1..next]), Sanitized(messages[next..]);
    SanitizedFrom(messages, index, next);
    Assoc(done, kept, rest);
    assert [] + rest == rest;
  }

  method SanitizeToolTranscript(messages: seq<Message>) returns (sanitized: seq<Message>)
    ensures sanitized == Sanitized(messages)
  {
    sanitized := [];
    var index := 0;
    assert messages[0..] == messages;
    while index < |messages|
      invariant 0 <= index <= |messages|
      invariant sanitized + Sanitized(messages[index..]) == Sanitized(messages)
    {
      var message := messages[index];
      var required := CallIds(Stored, message);
      if required == {} {
        SanitizedPlain(messages, index);
        Assoc(sanitized, [message], Sanitized(messages[index + 1..]));
        if !message.role.Tool? {
          sanitized := sanitized + [message];
        }
        index := index + 1;
      } else {
        var toolGroup, seen, next := CollectToolGroup(messages, index + 1, required);
        SanitizedGroupTaken(sanitized, messages, index, next, toolGroup);
        if required <= seen {
          sanitized := sanitized + ([message] + toolGroup);
        }
        index := next;
      }
    }
  }

  // ---- What the sanitizer does ----

  lemma AnswerIdsCons(m: Message, rest: seq<Message>)
    ensures AnswerIds([m] + rest) == {AnswerId(m)} + AnswerIds(rest)
  {
  }

  lemma {:induction false} MatchingFacts(run: seq<Message>, ids: set<string>)
    ensures AnswerIds(Matching(run, ids)) == AnswerIds(run) * ids
    ensures |Matching(run, ids)| <= |run|
    ensures Matching(run, ids) == run <==> AnswerIds(run) <= ids
    ensures forall m :: m in Matching(run, ids) ==> m in run
  {
    if run != [] {
      var rest := Matching(run[1..], ids);
      MatchingFacts(run[1..], ids);
      assert run == [run[0]] + run[1..];
      AnswerIdsCons(run[0], run[1..]);
      AnswerIdsCons(run[0], rest);
    }
  }

  lemma {:induction false} SanitizedSize(ms: seq<Message>)
    ensures |Sanitized(ms)| <= |ms|
    ensures Sanitized(ms) != [] ==> !Sanitized(ms)[0].role.Tool?
    decreases |ms|
  {
    if ms == [] {
    } else if CallIds(Stored, ms[0]) == {} {
      SanitizedSize(ms[1..]);
    } else {
      var n := 1 + ToolRun(ms[1..]);
      MatchingFacts(ms[1..n], CallIds(Stored, ms[0]));
      SanitizedSize(ms[n..]);
    }
  }

  lemma SanitizedGroup(call: Message, run: seq<Message>, rest: seq<Message>)
    requires CallIds(Stored, call) != {}
    requires forall m :: m in run ==> m.role.Tool?
    requires rest != [] ==> !rest[0].role.Tool?
    ensures Sanitized(([call] + run) + rest) == KeptGroup(call, run) + Sanitized(rest)
  {
    var ms, n := ([call] + run) + rest, 1 + |run|;
    assert ms[1..] == run + rest;
    ToolRunUnique(run + rest, |run|);
    assert ms[1..n] == run;
    assert ms[n..] == rest;
  }

  /** A second pass changes nothing, on any input. */
  lemma {:induction false} SanitizedIdempotent(ms: seq<Message>)
    ensures Sanitized(Sanitized(ms)) == Sanitized(ms)
    decreases |ms|
  {
    if ms == [] {
    } else if CallIds(Stored, ms[0]) == {} {
      SanitizedIdempotent(ms[1..]);
      assert ([ms[0]] + Sanitized(ms[1..]))[1..] == Sanitized(ms[1..]);
    } else {
      var n := 1 + ToolRun(ms[1..]);
      SanitizedIdempotent(ms[n..]);
      SanitizedSize(ms[n..]);
      KeptGroupStays(ms[0], ms[1..n], Sanitized(ms[n..]));
    }
  }

  lemma KeptGroupStays(call: Message, run: seq<Message>, rest: seq<Message>)
    requires CallIds(Stored, call) != {}
    requires forall m :: m in run ==> m.role.Tool?
    requires rest != [] ==> !rest[0].role.Tool?
    requires Sanitized(rest) == rest
    ensures Sanitized(KeptGroup(call, run) + rest) == KeptGroup(call, run) + rest
  {
    var ids := CallIds(Stored, call);
    var answers := Matching(run, ids);
    MatchingFacts(run, ids);
    if ids <= AnswerIds(answers) {
      MatchingFacts(answers, ids);
      SanitizedGroup(call, answers, rest);
    } else {
      assert [] + rest == rest;
    }
  }

  /** No tool run answers one id twice. */
  ghost predicate NoRepeatedAnswers(ms: seq<Message>) {
    forall i :: 0 <= i < |ms| ==> NoRepeats(RunAfter(ms, i))
  }

  lemma NoRepeatedAnswersRest(ms: seq<Message>, n: nat)
    requires n <= |ms|
    requires NoRepeatedAnswers(ms)
    ensures NoRepeatedAnswers(ms[n..])
  {
    forall k | 0 <= k < |ms[n..]| ensures NoRepeats(RunAfter(ms[n..], k)) {
      RunAfterShift(ms, n, k + n);
      assert NoRepeats(RunAfter(ms, k + n));
    }
  }

  lemma {:induction false} ClosedHasNoRepeats(ms: seq<Message>)
    requires Closed(ms)
    ensures NoRepeatedAnswers(ms)
  {
    ClosedMeaning(ms);
    forall i | 0 <= i < |ms| ensures NoRepeats(RunAfter(ms, i)) {
      RunOfClosed(ms, i);
    }
  }

  lemma RunStep(ms: seq<Message>, i: nat)
    requires 0 < i < |ms| && ms[i].role.Tool?
    ensures RunAfter(ms, i - 1) == [ms[i]] + RunAfter(ms, i)
  {
    assert ms[i..] == [ms[i]] + ms[i + 1..];
  }

  lemma NoRepeatsTail(m: Message, run: seq<Message>)
    requires NoRepeats([m] + run)
    ensures NoRepeats(run)
  {
    var all := [m] + run;
    assert forall k :: 0 <= k < |run| ==> all[k + 1] == run[k];
  }

  lemma RunAfterPlain(ms: seq<Message>, i: nat)
    requires i < |ms| && WellPaired(ms)
    requires !ms[i].role.Tool? && CallIds(Stored, ms[i]) == {}
    ensures RunAfter(ms, i) == []
  {
    if i + 1 < |ms| {
      assert ms[i + 1..][0] == ms[i + 1];
      assert PairedAt(ms, i + 1);
    }
  }

  /** From inside a run of a closed list, the rest of the run repeats nothing either. */
  lemma {:induction false} RunOfClosed(ms: seq<Message>, i: nat)
    requires WellPaired(ms) && i < |ms|
    ensures NoRepeats(RunAfter(ms, i))
    decreases i
  {
    assert PairedAt(ms, i);
    if ms[i].role.Tool? {
      RunOfClosed(ms, i - 1);
      RunStep(ms, i);
      NoRepeatsTail(ms[i], RunAfter(ms, i));
    } else if CallIds(Stored, ms[i]) == {} {
      RunAfterPlain(ms, i);
    }
  }

  /** The sanitizer leaves a list alone exactly when it is closed up to repeated answers. */
  lemma {:induction false} SanitizedFixedPoint(ms: seq<Message>)
    ensures Closed(ms) <==> Sanitized(ms) == ms && NoRepeatedAnswers(ms)
    decreases |ms|
  {
    if Closed(ms) {
      ClosedHasNoRepeats(ms);
      ClosedIsKept(ms);
    } else if Sanitized(ms) == ms && NoRepeatedAnswers(ms) {
      KeptIsClosed(ms);
    }
  }

  lemma {:induction false} ClosedIsKept(ms: seq<Message>)
    requires Closed(ms)
    ensures Sanitized(ms) == ms
    decreases |ms|
  {
    if ms != [] {
      var n := 1 + ToolRun(ms[1..]);
      ClosedGroup(Stored, ms);
      ClosedIsKept(ms[n..]);
      if CallIds(Stored, ms[0]) == {} {
        NoAnswers(ms[1..n]);
        assert ms == [ms[0]] + ms[1..];
      } else {
        MatchingFacts(ms[1..n], CallIds(Stored, ms[0]));
        SanitizedCall(ms, n);
        SplitHead(ms, n);
      }
    }
  }

  lemma {:induction false} KeptIsClosed(ms: seq<Message>)
    requires Sanitized(ms) == ms && NoRepeatedAnswers(ms)
    ensures Closed(ms)
    decreases |ms|
  {
    if ms != [] {
      var n := 1 + ToolRun(ms[1..]);
      KeptHead(ms, n);
      NoRepeatedAnswersRest(ms, n);
      KeptIsClosed(ms[n..]);
      ClosedGroup(Stored, ms);
      assert RunAfter(ms, 0) == ms[1..n];
    }
  }

  /** The first message of a kept list, with its tool run, is a call with its answers, and the rest is kept. */
  lemma KeptHead(ms: seq<Message>, n: nat)
    requires ms != [] && Sanitized(ms) == ms && n == 1 + ToolRun(ms[1..])
    ensures !ms[0].role.Tool? && AnswerIds(ms[1..n]) == CallIds(Stored, ms[0]) && Sanitized(ms[n..]) == ms[n..]
  {
    SanitizedSize(ms);
    if CallIds(Stored, ms[0]) == {} {
      KeptPlain(ms);
      NoAnswers(ms[1..n]);
    } else {
      SplitHead(ms, n);
      KeptCall(ms[0], ms[1..n], ms[n..]);
    }
  }

  lemma SplitHead(ms: seq<Message>, n: nat)
    requires ms != [] && n == 1 + ToolRun(ms[1..])
    ensures ms == ([ms[0]] + ms[1..n]) + ms[n..]
    ensures forall m :: m in ms[1..n] ==> m.role.Tool?
    ensures ms[n..] != [] ==> !ms[n..][0].role.Tool?
  {
  }

  lemma KeptCall(call: Message, run: seq<Message>, rest: seq<Message>)
    requires CallIds(Stored, call) != {}
    requires forall m :: m in run ==> m.role.Tool?
    requires rest != [] ==> !rest[0].role.Tool?
    requires Sanitized(([call] + run) + rest) == ([call] + run) + rest
    ensures AnswerIds(run) == CallIds(Stored, call) && Sanitized(rest) == rest
  {
    SanitizedGroup(call, run, rest);
    SanitizedSize(rest);
    KeptWholeGroup(call, run, rest);
  }

  lemma KeptPlain(ms: seq<Message>)
    requires ms != [] && Sanitized(ms) == ms && CallIds(Stored, ms[0]) == {}
    ensures ToolRun(ms[1..]) == 0 && Sanitized(ms[1..]) == ms[1..]
  {
    SanitizedSize(ms);
    SanitizedSize(ms[1..]);
    assert ms == [ms[0]] + Sanitized(ms[1..]);
    assert ms[1..] == Sanitized(ms[1..]);
  }

  /** When group and rest both keep their length, both are kept whole. */
  lemma KeptWholeGroup(call: Message, run: seq<Message>, rest: seq<Message>)
    requires CallIds(Stored, call) != {}
    requires KeptGroup(call, run) + Sanitized(rest) == ([call] + run) + rest
    requires |Sanitized(rest)| <= |rest|
    ensures AnswerIds(run) == CallIds(Stored, call)
    ensures Sanitized(rest) == rest
  {
    var kept := KeptGroup(call, run);
    MatchingFacts(run, CallIds(Stored, call));
    assert |kept| <= 1 + |run|;
    assert |kept| == 1 + |run|;
    assert kept == (kept + Sanitized(rest))[..1 + |run|];
    assert kept == [call] + run;
    assert kept[1..] == run;
    assert Sanitized(rest) == (kept + Sanitized(rest))[1 + |run|..];
  }

  // ---- When the sanitizer's output is well paired once serialized ----

  /** The call at `i` is dropped for missing answers, or it survives serialization whole and no id of
      it is answered twice. */
  ghost predicate SoundAt(ms: seq<Message>, i: nat)
    requires i < |ms|
  {
    CallIds(Stored, ms[i]) <= AnswerIds(RunAfter(ms, i)) ==>
      && CallIds(Serialized, ms[i]) == CallIds(Stored, ms[i])
      && NoRepeats(Matching(RunAfter(ms, i), CallIds(Stored, ms[i])))
  }

  ghost predicate Sound(ms: seq<Message>) {
    forall i :: 0 <= i < |ms| ==> SoundAt(ms, i)
  }

  lemma SoundRest(ms: seq<Message>, n: nat)
    requires 0 < n <= |ms|
    requires forall i :: 1 <= i < n ==> ms[i].role.Tool?
    ensures Sound(ms) <==> SoundAt(ms, 0) && Sound(ms[n..])
  {
    forall i | n <= i < |ms| ensures SoundAt(ms[n..], i - n) == SoundAt(ms, i) {
      RunAfterShift(ms, n, i);
    }
    forall i | 1 <= i < n ensures SoundAt(ms, i) {
      NoCallIsSound(ms, i);
    }
    if Sound(ms) {
      forall k | 0 <= k < |ms[n..]| ensures SoundAt(ms[n..], k) {
        assert SoundAt(ms, k + n);
      }
    }
  }

  lemma NoCallIsSound(ms: seq<Message>, i: nat)
    requires i < |ms| && CallIds(Stored, ms[i]) == {}
    ensures SoundAt(ms, i)
  {
    MatchingFacts(RunAfter(ms, i), {});
    NoAnswers(Matching(RunAfter(ms, i), {}));
  }

  lemma {:induction false} SanitizedIsSound(ms: seq<Message>)
    ensures Follows(Serialized, {}, Sanitized(ms)) <==> Sound(ms)
    decreases |ms|
  {
    if ms == [] {
    } else if CallIds(Stored, ms[0]) == {} {
      var rest := Sanitized(ms[1..]);
      NoCallIsSound(ms, 0);
      SoundRest(ms, 1);
      SanitizedSize(ms[1..]);
      SanitizedIsSound(ms[1..]);
      FollowsAppend(Serialized, {}, [ms[0]], rest);
    } else {
      var n, ids := 1 + ToolRun(ms[1..]), CallIds(Stored, ms[0]);
      SoundRest(ms, n);
      SanitizedSize(ms[n..]);
      SanitizedIsSound(ms[n..]);
      assert RunAfter(ms, 0) == ms[1..n];
      var kept := KeptGroup(ms[0], ms[1..n]);
      GroupIsSound(ms[0], ms[1..n]);
      FollowsAppend(Serialized, {}, kept, Sanitized(ms[n..]));
    }
  }

  lemma GroupIsSound(call: Message, run: seq<Message>)
    requires CallIds(Stored, call) != {}
    requires forall m :: m in run ==> m.role.Tool?
    ensures Follows(Serialized, {}, KeptGroup(call, run)) <==>
      (CallIds(Stored, call) <= AnswerIds(run) ==>
        && CallIds(Serialized, call) == CallIds(Stored, call)
        && NoRepeats(Matching(run, CallIds(Stored, call))))
  {
    var ids := CallIds(Stored, call);
    var answers := Matching(run, ids);
    MatchingFacts(run, ids);
    if ids <= AnswerIds(answers) {
      assert ([call] + answers)[1..] == answers;
      AnswersMeaning(Serialized, CallIds(Serialized, call), answers);
    }
  }
}
