/** The tool transcript protocol of the OpenAI-compatible provider. `Closed` is the property that
    sanitizer, budgeting and the check of the serialized form are all about: every assistant message with calls
    is followed at once by tool messages that answer exactly its ids, once each, and no other tool message
    occurs. */
module CallPairing {
  import opened Messages

  // ---- Ids ----

  /** Which call entries count: all entries with an id, or only those the serializer keeps. */
  datatype View = Stored | Serialized

  /** The serializer drops an entry whose name is not a string or whose arguments are not a dict. */
  predicate IsSerializable(e: CallEntry) {
    e.Call? && e.id.Some? && e.name.Some? && e.arguments.Some?
  }

  predicate HasId(view: View, e: CallEntry) {
    e.Call? && e.id.Some? && e.id.value != "" && (view.Serialized? ==> IsSerializable(e))
  }

  /** The non-empty ids an assistant message calls. */
  function CallIds(view: View, m: Message): set<string> {
    if m.role.Assistant? && m.metadata.Some? && m.metadata.value.toolCalls.CallList? then
      set e | e in m.metadata.value.toolCalls.entries && HasId(view, e) :: e.id.value
    else {}
  }

  /** The call id a tool message answers, empty when it names none. */
  function AnswerId(m: Message): string {
    if m.role.Tool? && m.metadata.Some? && m.metadata.value.toolCallId.Some?
    then m.metadata.value.toolCallId.value
    else ""
  }

  function AnswerIds(run: seq<Message>): set<string> {
    set m | m in run :: AnswerId(m)
  }

  lemma AnswerIdsAppend(run: seq<Message>, m: Message)
    ensures AnswerIds(run + [m]) == AnswerIds(run) + {AnswerId(m)}
  {
  }

  // ---- Closed transcripts ----

  /** The transcript is well paired when the calls of `pending` are still unanswered at its start. */
  predicate Follows(view: View, pending: set<string>, ms: seq<Message>)
    decreases |ms|
  {
    if ms == [] then pending == {}
    else if ms[0].role.Tool? then
      AnswerId(ms[0]) != "" && AnswerId(ms[0]) in pending
      && Follows(view, pending - {AnswerId(ms[0])}, ms[1..])
    else
      pending == {} && Follows(view, CallIds(view, ms[0]), ms[1..])
  }

  predicate Closed(ms: seq<Message>) {
    Follows(Stored, {}, ms)
  }

  lemma {:induction false} FollowsAppend(view: View, pending: set<string>, a: seq<Message>, b: seq<Message>)
    requires b != [] ==> !b[0].role.Tool?
    ensures Follows(view, pending, a + b) <==> Follows(view, pending, a) && Follows(view, {}, b)
    decreases |a|
  {
    if a == [] {
      assert a + b == b;
    } else {
      assert (a + b)[1..] == a[1..] + b;
      var next := if a[0].role.Tool? then pending - {AnswerId(a[0])} else CallIds(view, a[0]);
      FollowsAppend(view, next, a[1..], b);
    }
  }

  lemma ClosedStart(ms: seq<Message>)
    requires Closed(ms)
    ensures ms != [] ==> !ms[0].role.Tool?
  {
  }

  lemma ClosedAppend(a: seq<Message>, b: seq<Message>)
    requires Closed(a) && Closed(b)
    ensures Closed(a + b)
  {
    ClosedStart(b);
    FollowsAppend(Stored, {}, a, b);
  }

  lemma SliceOfSlice<T>(s: seq<T>, i: nat, j: nat, k: nat)
    requires i <= j <= k <= |s|
    ensures s[i..][j - i..] == s[j..]
    ensures s[i..][j - i..k - i] == s[j..k]
  {
  }

  // ---- What closed means, position by position ----

  /** The tool messages directly after position `i`. */
  function RunAfter(ms: seq<Message>, i: nat): seq<Message>
    requires i < |ms|
  {
    ms[i + 1..i + 1 + ToolRun(ms[i + 1..])]
  }

  predicate NoRepeats(run: seq<Message>) {
    forall i, j :: 0 <= i < j < |run| ==> AnswerId(run[i]) != AnswerId(run[j])
  }

  /** The call at `i`, if there is one, is answered exactly: every id once, and nothing else. */
  predicate AnsweredExactly(ms: seq<Message>, i: nat)
    requires i < |ms|
  {
    CallIds(Stored, ms[i]) != {} ==>
      NoRepeats(RunAfter(ms, i)) && AnswerIds(RunAfter(ms, i)) == CallIds(Stored, ms[i])
  }

  /** A tool message at `i` continues a tool run or directly follows a call. */
  predicate NotStray(ms: seq<Message>, i: nat)
    requires i < |ms|
  {
    ms[i].role.Tool? ==> i > 0 && (ms[i - 1].role.Tool? || CallIds(Stored, ms[i - 1]) != {})
  }

  predicate PairedAt(ms: seq<Message>, i: nat)
    requires i < |ms|
  {
    AnsweredExactly(ms, i) && NotStray(ms, i)
  }

  ghost predicate WellPaired(ms: seq<Message>) {
    forall i :: 0 <= i < |ms| ==> PairedAt(ms, i)
  }

  lemma NoAnswers(run: seq<Message>)
    ensures AnswerIds(run) == {} <==> run == []
  {
    if run != [] {
      assert AnswerId(run[0]) in AnswerIds(run);
    }
  }

  lemma {:induction false} AnswersMeaning(view: View, pending: set<string>, run: seq<Message>)
    requires forall i :: 0 <= i < |run| ==> run[i].role.Tool?
    requires "" !in pending
    ensures Follows(view, pending, run) <==> NoRepeats(run) && AnswerIds(run) == pending
    decreases |run|
  {
    if run != [] {
      var id, rest := AnswerId(run[0]), run[1..];
      AnswersMeaning(view, pending - {id}, rest);
      assert run == [run[0]] + rest;
      assert AnswerIds(run) == {id} + AnswerIds(rest);
      assert NoRepeats(run) <==> NoRepeats(rest) && id !in AnswerIds(rest);
    }
  }

  /** A call and its run, followed by a list that does not start with a tool message. */
  lemma ClosedGroup(view: View, ms: seq<Message>)
    requires ms != [] && !ms[0].role.Tool?
    ensures var n := 1 + ToolRun(ms[1..]);
      Follows(view, {}, ms) <==>
      NoRepeats(ms[1..n]) && AnswerIds(ms[1..n]) == CallIds(view, ms[0]) && Follows(view, {}, ms[n..])
  {
    var n := 1 + ToolRun(ms[1..]);
    assert ms[1..] == ms[1..n] + ms[n..];
    FollowsAppend(view, CallIds(view, ms[0]), ms[1..n], ms[n..]);
    AnswersMeaning(view, CallIds(view, ms[0]), ms[1..n]);
  }

  lemma RunAfterShift(ms: seq<Message>, n: nat, i: nat)
    requires n <= i < |ms|
    ensures ms[n..][i - n] == ms[i]
    ensures RunAfter(ms[n..], i - n) == RunAfter(ms, i)
  {
    assert ms[n..][i - n + 1..] == ms[i + 1..];
    var t := ToolRun(ms[i + 1..]);
    assert ms[n..][i - n + 1..i - n + 1 + t] == ms[i + 1..i + 1 + t];
  }

  /** Pairing beyond the first group is pairing of the rest of the list. */
  lemma WellPairedRest(ms: seq<Message>, n: nat)
    requires 0 < n <= |ms|
    requires n < |ms| ==> !ms[n].role.Tool?
    ensures WellPaired(ms[n..]) <==> forall i :: n <= i < |ms| ==> PairedAt(ms, i)
  {
    forall i | n <= i < |ms| ensures PairedAt(ms[n..], i - n) == PairedAt(ms, i) {
      RunAfterShift(ms, n, i);
      if i > n {
        assert ms[n..][i - n - 1] == ms[i - 1];
      }
    }
    if forall i :: n <= i < |ms| ==> PairedAt(ms, i) {
      forall k | 0 <= k < |ms[n..]| ensures PairedAt(ms[n..], k) {
        assert PairedAt(ms, k + n);
      }
    }
  }

  /** Inside the first group only the call itself can be wrong, or be missing. */
  lemma WellPairedHead(ms: seq<Message>, n: nat)
    requires ms != [] && !ms[0].role.Tool? && n == 1 + ToolRun(ms[1..])
    ensures (forall i :: 0 <= i < n ==> PairedAt(ms, i)) <==>
            AnsweredExactly(ms, 0) && (n > 1 ==> CallIds(Stored, ms[0]) != {})
  {
    forall i | 1 <= i < n ensures ms[i].role.Tool? {
      assert ms[i] == ms[1..][i - 1];
    }
    forall i | 1 <= i < n
      ensures PairedAt(ms, i) <==> i > 1 || CallIds(Stored, ms[0]) != {}
    {
    }
    assert PairedAt(ms, 0) <==> AnsweredExactly(ms, 0);
    if n > 1 {
      assert PairedAt(ms, 1) <==> CallIds(Stored, ms[0]) != {};
    }
  }

  /** The running definition and the position-by-position reading agree on every list. */
  lemma {:induction false} ClosedMeaning(ms: seq<Message>)
    ensures Closed(ms) <==> WellPaired(ms)
    decreases |ms|
  {
    if ms == [] {
    } else if ms[0].role.Tool? {
      assert !PairedAt(ms, 0);
    } else {
      var n := 1 + ToolRun(ms[1..]);
      ClosedGroup(Stored, ms);
      NoAnswers(ms[1..n]);
      assert RunAfter(ms, 0) == ms[1..n];
      WellPairedHead(ms, n);
      WellPairedRest(ms, n);
      ClosedMeaning(ms[n..]);
    }
  }
}
