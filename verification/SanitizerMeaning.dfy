/** Which messages the sanitizer keeps, read off their positions: everything but tool messages that answer no call
    directly before them, calls that are not answered at once and in full, and the answers to such calls. */
module SanitizerMeaning {
  import opened Messages
  import opened CallPairing
  import opened Sanitizer

  /** The last message before `i` that is no tool message. */
  function RunStart(ms: seq<Message>, i: nat): Option<nat>
    requires i <= |ms|
  {
    if i == 0 then None else if !ms[i - 1].role.Tool? then Some(i - 1) else RunStart(ms, i - 1)
  }

  /** The tool messages directly behind `i` answer everything it calls. */
  predicate IsAnswered(ms: seq<Message>, i: nat)
    requires i < |ms|
  {
    CallIds(Stored, ms[i]) <= AnswerIds(RunAfter(ms, i))
  }

  /** The tool messages in front of `i` follow no call. */
  predicate FollowsNoCall(ms: seq<Message>, i: nat)
    requires i <= |ms|
  {
    match RunStart(ms, i)
    case None => true
    case Some(call) => call < i ==> CallIds(Stored, ms[call]) == {}
  }

  predicate Stays(ms: seq<Message>, i: nat)
    requires i < |ms|
  {
    if !ms[i].role.Tool? then IsAnswered(ms, i)
    else
      match RunStart(ms, i)
      case None => false
      case Some(call) => call < i && AnswerId(ms[i]) in CallIds(Stored, ms[call]) && IsAnswered(ms, call)
  }

  /** The messages from `i` on that stay, in order. */
  function Staying(ms: seq<Message>, i: nat): seq<Message>
    requires i <= |ms|
    decreases |ms| - i
  {
    if i == |ms| then [] else if Stays(ms, i) then [ms[i]] + Staying(ms, i + 1) else Staying(ms, i + 1)
  }

  lemma {:induction false} InsideRun(ms: seq<Message>, call: nat, j: nat)
    requires call < j <= |ms| && !ms[call].role.Tool? && forall k :: call < k < j ==> ms[k].role.Tool?
    ensures RunStart(ms, j) == Some(call)
  {
    if j > call + 1 {
      InsideRun(ms, call, j - 1);
    }
  }

  predicate InRun(ms: seq<Message>, call: nat, j: nat, next: nat) {
    call < j <= next <= |ms| && !ms[call].role.Tool? && forall k :: call < k < next ==> ms[k].role.Tool?
  }

  lemma RunStaysAt(ms: seq<Message>, call: nat, j: nat, next: nat)
    requires InRun(ms, call, j, next) && j < next
    ensures Stays(ms, j) <==> AnswerId(ms[j]) in CallIds(Stored, ms[call]) && IsAnswered(ms, call)
  {
    InsideRun(ms, call, j);
  }

  lemma {:induction false} NoneStays(ms: seq<Message>, j: nat, next: nat)
    requires j <= next <= |ms| && forall k :: j <= k < next ==> !Stays(ms, k)
    ensures Staying(ms, j) == Staying(ms, next)
    decreases next - j
  {
    if j < next {
      NoneStays(ms, j + 1, next);
    }
  }

  lemma MatchingNext(ms: seq<Message>, ids: set<string>, j: nat, next: nat)
    requires j < next <= |ms|
    ensures Matching(ms[j..next], ids) ==
      if AnswerId(ms[j]) in ids then [ms[j]] + Matching(ms[j + 1..next], ids) else Matching(ms[j + 1..next], ids)
  {
    assert ms[j..next][1..] == ms[j + 1..next];
  }

  lemma {:induction false} AnswersStay(ms: seq<Message>, ids: set<string>, j: nat, next: nat)
    requires j <= next <= |ms| && forall k :: j <= k < next ==> (Stays(ms, k) <==> AnswerId(ms[k]) in ids)
    ensures Staying(ms, j) == Matching(ms[j..next], ids) + Staying(ms, next)
    decreases next - j
  {
    if j < next {
      AnswersStay(ms, ids, j + 1, next);
      MatchingNext(ms, ids, j, next);
      Assoc([ms[j]], Matching(ms[j + 1..next], ids), Staying(ms, next));
    } else {
      assert ms[j..next] == [];
      assert [] + Staying(ms, next) == Staying(ms, next);
    }
  }

  /** The run of a call: its answers stay if it is answered in full. */
  lemma RunStays(ms: seq<Message>, call: nat, next: nat)
    requires InRun(ms, call, call + 1, next)
    ensures Staying(ms, call + 1)
         == (if IsAnswered(ms, call) then Matching(ms[call + 1..next], CallIds(Stored, ms[call])) else []) + Staying(ms, next)
  {
    forall k | call < k < next
      ensures Stays(ms, k) <==> AnswerId(ms[k]) in CallIds(Stored, ms[call]) && IsAnswered(ms, call)
    {
      RunStaysAt(ms, call, k, next);
    }
    if IsAnswered(ms, call) {
      AnswersStay(ms, CallIds(Stored, ms[call]), call + 1, next);
    } else {
      NoneStays(ms, call + 1, next);
      assert [] + Staying(ms, next) == Staying(ms, next);
    }
  }

  /** A call with its run. */
  lemma GroupStays(ms: seq<Message>, i: nat, next: nat)
    requires i < |ms| && CallIds(Stored, ms[i]) != {} && next == i + 1 + ToolRun(ms[i + 1..])
    ensures Staying(ms, i) == KeptGroup(ms[i], ms[i + 1..next]) + Staying(ms, next)
  {
    var run, ids := ms[i + 1..next], CallIds(Stored, ms[i]);
    forall k | i < k < next ensures ms[k].role.Tool? {
      assert ms[k] == ms[i + 1..][k - i - 1];
    }
    RunStays(ms, i, next);
    KeptOfRun(ms[i], run);
    assert RunAfter(ms, i) == run;
    if IsAnswered(ms, i) {
      Assoc([ms[i]], Matching(run, ids), Staying(ms, next));
    }
  }

  lemma KeptOfRun(call: Message, run: seq<Message>)
    ensures KeptGroup(call, run) ==
      if CallIds(Stored, call) <= AnswerIds(run) then [call] + Matching(run, CallIds(Stored, call)) else []
  {
    MatchingFacts(run, CallIds(Stored, call));
  }

  /** A message that calls nothing. */
  lemma PlainStays(ms: seq<Message>, i: nat)
    requires i < |ms| && CallIds(Stored, ms[i]) == {} && (ms[i].role.Tool? ==> FollowsNoCall(ms, i))
    ensures Staying(ms, i) == if ms[i].role.Tool? then Staying(ms, i + 1) else [ms[i]] + Staying(ms, i + 1)
    ensures FollowsNoCall(ms, i + 1)
  {
    assert RunStart(ms, i + 1) == if ms[i].role.Tool? then RunStart(ms, i) else Some(i);
    assert Stays(ms, i) <==> !ms[i].role.Tool?;
  }

  lemma {:induction false} SanitizedIsStaying(ms: seq<Message>, i: nat)
    requires i <= |ms| && (i < |ms| && ms[i].role.Tool? ==> FollowsNoCall(ms, i))
    ensures Sanitized(ms[i..]) == Staying(ms, i)
    decreases |ms| - i, 1
  {
    if i < |ms| {
      if CallIds(Stored, ms[i]) == {} {
        PlainStays(ms, i);
        SanitizedPlain(ms, i);
        SanitizedIsStaying(ms, i + 1);
      } else {
        CallStays(ms, i);
      }
    }
  }

  lemma {:induction false} CallStays(ms: seq<Message>, i: nat)
    requires i < |ms| && CallIds(Stored, ms[i]) != {}
    ensures Sanitized(ms[i..]) == Staying(ms, i)
    decreases |ms| - i, 0
  {
    var next := i + 1 + ToolRun(ms[i + 1..]);
    assert next < |ms| ==> ms[next] == ms[i + 1..][next - i - 1];
    SanitizedFrom(ms, i, next);
    SanitizedIsStaying(ms, next);
    GroupStays(ms, i, next);
  }

  /** The sanitizer keeps exactly these messages, in their order. */
  lemma SanitizedMeaning(ms: seq<Message>)
    ensures Sanitized(ms) == Staying(ms, 0)
  {
    assert ms[0..] == ms;
    SanitizedIsStaying(ms, 0);
  }
}
