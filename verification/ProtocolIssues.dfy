/** What the check of a serialized request reports, read off the positions of the request. */
module ProtocolIssues {
  import opened Messages
  import opened ProtocolChecker

  /** The last message before `i` that is no tool message. */
  function RunStart(ws: seq<WireMessage>, i: nat): Option<nat>
    requires i <= |ws|
  {
    if i == 0 then None else if !ws[i - 1].role.Tool? then Some(i - 1) else RunStart(ws, i - 1)
  }

  predicate AnsweredBetween(ws: seq<WireMessage>, start: nat, i: nat, id: string)
    requires i <= |ws|
  {
    exists j :: start < j < i && ws[j].toolCallId == Some(id)
  }

  /** The ids called by that message that no tool message behind it has answered before `i`. */
  function Awaited(ws: seq<WireMessage>, i: nat): set<string>
    requires i <= |ws|
  {
    match RunStart(ws, i)
    case None => {}
    case Some(start) =>
      if start < i then set id | id in WireIds(ws[start]) && !AnsweredBetween(ws, start, i, id) else {}
  }

  predicate NamesCall(w: WireMessage) {
    w.toolCallId.Some? && w.toolCallId.value != ""
  }

  /** Each kind of report, and when it is due. */
  predicate IsIssue(ws: seq<WireMessage>, issue: Issue) {
    match issue
    case MissingToolMessages(start, before, missing) =>
      var i := if before.Some? then before.value else |ws|;
      && i <= |ws| && (before.Some? ==> i < |ws| && !ws[i].role.Tool?)
      && missing != {} && missing == Awaited(ws, i) && start == RunStart(ws, i)
    case MissingToolCallId(i) => i < |ws| && ws[i].role.Tool? && !NamesCall(ws[i])
    case OrphanToolMessage(i, id) =>
      i < |ws| && ws[i].role.Tool? && NamesCall(ws[i]) && ws[i].toolCallId.value == id && Awaited(ws, i) == {}
    case UnexpectedToolCallId(i, id, pending) =>
      && i < |ws| && ws[i].role.Tool? && NamesCall(ws[i]) && ws[i].toolCallId.value == id
      && pending != {} && pending == Awaited(ws, i) && id !in pending
  }

  /** The position a report is about; the end for calls still open there. */
  function Place(ws: seq<WireMessage>, issue: Issue): nat {
    match issue
    case MissingToolMessages(_, before, _) => if before.Some? then before.value else |ws|
    case MissingToolCallId(i) => i
    case OrphanToolMessage(i, _) => i
    case UnexpectedToolCallId(i, _, _) => i
  }

  /** The state of the walk in front of message `i`. */
  predicate IsWalkAt(ws: seq<WireMessage>, i: nat, walk: Pending)
    requires i <= |ws|
  {
    walk.ids == Awaited(ws, i) && (walk.ids != {} ==> walk.since == RunStart(ws, i))
  }

  lemma {:induction false} RunStartIsBefore(ws: seq<WireMessage>, i: nat)
    requires i <= |ws|
    ensures RunStart(ws, i).Some? ==> RunStart(ws, i).value < i
  {
    if i > 0 {
      RunStartIsBefore(ws, i - 1);
    }
  }

  lemma WalkStep(ws: seq<WireMessage>, i: nat, walk: Pending)
    requires i < |ws| && IsWalkAt(ws, i, walk)
    ensures IsWalkAt(ws, i + 1, Next(ws[i], i, walk))
  {
    RunStartIsBefore(ws, i);
    if ws[i].role.Tool? {
      if RunStart(ws, i).Some? {
        AwaitedStep(ws, i, RunStart(ws, i).value);
      }
    } else {
      assert Awaited(ws, i + 1) == WireIds(ws[i]);
    }
  }

  lemma AwaitedStep(ws: seq<WireMessage>, i: nat, start: nat)
    requires i < |ws| && ws[i].role.Tool? && RunStart(ws, i) == Some(start) && start < i
    ensures Awaited(ws, i + 1) == if ws[i].toolCallId.Some? then Awaited(ws, i) - {ws[i].toolCallId.value} else Awaited(ws, i)
  {
    forall id ensures AnsweredBetween(ws, start, i + 1, id) <==>
        AnsweredBetween(ws, start, i, id) || ws[i].toolCallId == Some(id)
    {
      if ws[i].toolCallId == Some(id) {
        assert start < i < i + 1;
      }
    }
  }

  lemma NoEmptyId(ws: seq<WireMessage>, i: nat)
    requires i <= |ws|
    ensures "" !in Awaited(ws, i)
  {
  }

  /** What is reported at message `i`. */
  lemma IssuesAt(ws: seq<WireMessage>, i: nat, walk: Pending)
    requires i < |ws| && IsWalkAt(ws, i, walk)
    ensures var now := Interrupted(ws[i], i, walk) + ToolIssues(ws[i], i, walk);
      |now| <= 1 && forall issue :: issue in now <==> IsIssue(ws, issue) && Place(ws, issue) == i
  {
  }

  predicate Rising(ws: seq<WireMessage>, issues: seq<Issue>, from: nat) {
    (forall k :: 0 <= k < |issues| ==> from <= Place(ws, issues[k]))
    && forall k, l :: 0 <= k < l < |issues| ==> Place(ws, issues[k]) < Place(ws, issues[l])
  }

  lemma {:induction false} IssuesFromAre(ws: seq<WireMessage>, i: nat, walk: Pending)
    requires i <= |ws| && IsWalkAt(ws, i, walk)
    ensures Rising(ws, IssuesFrom(ws, i, walk), i)
    ensures forall issue :: issue in IssuesFrom(ws, i, walk) <==> IsIssue(ws, issue) && Place(ws, issue) >= i
    decreases |ws| - i
  {
    if i < |ws| {
      WalkStep(ws, i, walk);
      IssuesAt(ws, i, walk);
      IssuesFromAre(ws, i + 1, Next(ws[i], i, walk));
    }
  }

  /** The report is exactly that: every issue that is due and no other, one for each position at most, in order. */
  lemma IssuesMeaning(ws: seq<WireMessage>)
    ensures Rising(ws, Issues(ws), 0)
    ensures forall issue :: issue in Issues(ws) <==> IsIssue(ws, issue)
  {
    IssuesFromAre(ws, 0, Pending({}, None));
  }
}
