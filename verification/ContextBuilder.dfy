/** Building the prompt: prefix, a summary of what was dropped, the surviving history and the protected
    active turn. The main results are that the outcome stays within the budget, never breaks a tool
    transcript, and keeps the active turn whenever it fits. */
module ContextBuilder {
  import opened Messages
  import opened CallPairing
  import opened ProtocolChecker
  import opened Sanitizer
  import opened ContextWindow
  import opened ContextTruncation

  // ---- The summary ----

  predicate IsToolTranscriptGroup(group: seq<Message>) {
    exists i :: 0 <= i < |group| && (group[i].role.Tool? || HasToolCalls(group[i]))
  }

  /** Make room for the summary by giving up the oldest groups, but never a tool transcript. */
  function SummaryFit(b: Builder, prefix: seq<Message>, summary: Message, groups: seq<seq<Message>>, suffix: seq<Message>)
    : Option<seq<Message>>
  {
    var candidate := ((prefix + [summary]) + Flatten(groups)) + suffix;
    if Size(b, candidate) <= Usable(b) then Some(candidate)
    else if groups == [] || IsToolTranscriptGroup(groups[0]) then None
    else SummaryFit(b, prefix, summary, groups[1..], suffix)
  }

  method FitSummaryWithWindow(b: Builder, prefix: seq<Message>, windowed: seq<Message>, summary: Message, suffix: seq<Message>)
    returns (fit: Option<seq<Message>>)
    ensures fit == SummaryFit(b, prefix, summary, Groups(windowed), suffix)
  {
    var groups := ToolTranscriptGroups(windowed);
    ghost var all := groups;
    while true
      invariant SummaryFit(b, prefix, summary, groups, suffix) == SummaryFit(b, prefix, summary, all, suffix)
      decreases |groups|
    {
      var candidate := ((prefix + [summary]) + Flatten(groups)) + suffix;
      var size := EstimateTokens(b, candidate);
      if size <= Usable(b) {
        return Some(candidate);
      }
      if groups == [] || IsToolTranscriptGroup(groups[0]) {
        return None;
      }
      groups := groups[1..];
    }
  }

  function SummaryMessage(b: Builder, dropped: seq<Message>): Message {
    TextMessage(System, "history_summary", b.summarize(dropped))
  }

  /** `windowed` with the summary placed in it, whole or else shortened to the room that is left; unchanged
      when room cannot be made for either. */
  function PlaceSummary(b: Builder, prefix: seq<Message>, groups: seq<seq<Message>>, suffix: seq<Message>,
                        windowed: seq<Message>, summary: Message): seq<Message>
  {
    var whole := SummaryFit(b, prefix, summary, groups, suffix);
    if whole.Some? then whole.value
    else
      var compact := Truncated(b, summary, Usable(b) - Size(b, windowed), "", false);
      if compact.None? then windowed
      else
        var short := SummaryFit(b, prefix, compact.value, groups, suffix);
        if short.Some? then short.value else windowed
  }

  function Summarized(b: Builder, prefix: seq<Message>, kept: seq<Message>, dropped: seq<Message>, suffix: seq<Message>)
    : seq<Message>
  {
    var windowed := (prefix + kept) + suffix;
    if dropped == [] then windowed
    else PlaceSummary(b, prefix, Groups(kept), suffix, windowed, SummaryMessage(b, dropped))
  }

  method PlaceSummaryInWindow(b: Builder, prefix: seq<Message>, kept: seq<Message>, suffix: seq<Message>,
                              windowed: seq<Message>, summary: Message)
    returns (out: seq<Message>)
    ensures out == PlaceSummary(b, prefix, Groups(kept), suffix, windowed, summary)
  {
    var withSummary := FitSummaryWithWindow(b, prefix, kept, summary, suffix);
    if withSummary.Some? {
      return withSummary.value;
    }
    var size := EstimateTokens(b, windowed);
    var compact := TruncateMessageToBudget(b, summary, Usable(b) - size, "", false);
    if compact.None? {
      return windowed;
    }
    var maybeSummarized := FitSummaryWithWindow(b, prefix, kept, compact.value, suffix);
    return if maybeSummarized.Some? then maybeSummarized.value else windowed;
  }

  method SummarizeDropped(b: Builder, prefix: seq<Message>, kept: seq<Message>, dropped: seq<Message>, suffix: seq<Message>)
    returns (out: seq<Message>)
    ensures out == Summarized(b, prefix, kept, dropped, suffix)
  {
    out := (prefix + kept) + suffix;
    if dropped != [] {
      out := PlaceSummaryInWindow(b, prefix, kept, suffix, out, SummaryMessage(b, dropped));
    }
  }

  // ---- Building the context ----

  /** The windowed history in front of a reserved suffix. */
  function Windowed(b: Builder, prefix: seq<Message>, optional: seq<Message>, suffix: seq<Message>): seq<Message> {
    var used := Size(b, prefix + suffix);
    Summarized(b, prefix, Kept(b, optional, used), Dropped(b, optional, used), suffix)
  }

  /** The reserved suffix: the fitted active turn. Without protected messages nothing is reserved. */
  function Suffix(b: Builder, prefix: seq<Message>, protected: seq<Message>): seq<Message> {
    if protected == [] then [] else ProtectedFit(b, prefix, protected)
  }

  function Context(b: Builder, prefix: seq<Message>, optional: seq<Message>, protected: seq<Message>): seq<Message> {
    if Size(b, prefix + (optional + protected)) <= Usable(b) then prefix + (optional + protected)
    else Windowed(b, prefix, optional, Suffix(b, prefix, protected))
  }

  /** `prefix` stands for the system prompt, instructions, skills and workspace memory loaded before. */
  method BuildContext(b: Builder, prefix: seq<Message>, history: seq<Message>, toolMessages: seq<Message>, protected: seq<Message>)
    returns (out: seq<Message>)
    ensures out == Context(b, prefix, history + toolMessages, protected)
  {
    var optional := history + toolMessages;
    var merged := prefix + (optional + protected);
    var mergedTokens := EstimateTokens(b, merged);
    if mergedTokens <= Usable(b) {
      return merged;
    }
    if protected != [] {
      out := BuildContextWithProtectedMessages(b, prefix, optional, protected);
      return;
    }
    assert optional + protected == optional;
    var kept, dropped := SlidingWindowWithSuffix(b, optional, prefix, []);
    out := SummarizeDropped(b, prefix, kept, dropped, []);
  }

  method BuildContextWithProtectedMessages(b: Builder, prefix: seq<Message>, optional: seq<Message>, protected: seq<Message>)
    returns (out: seq<Message>)
    ensures out == Windowed(b, prefix, optional, ProtectedFit(b, prefix, protected))
  {
    var fit := FitProtectedMessages(b, prefix, protected);
    var kept, dropped := SlidingWindowWithSuffix(b, optional, prefix, fit);
    out := SummarizeDropped(b, prefix, kept, dropped, fit);
  }

  // ---- The budget ----

  lemma KeptFits(b: Builder, dynamic: seq<Message>, used: nat)
    ensures used <= Usable(b) ==> used + Size(b, Kept(b, dynamic, used)) <= Usable(b)
    ensures used > Usable(b) ==> Kept(b, dynamic, used) == []
  {
    var groups := Groups(dynamic);
    if used <= Usable(b) {
      GreedyFits(b, groups, |groups|, used);
      WindowIsPartition(b, groups, |groups|, used, true);
      ChosenSizeMeaning(b, groups, GreedyMask(b, groups, |groups|, used));
    } else {
      NothingFits(b, groups, |groups|, used);
    }
  }

  lemma SizeOfWindow(b: Builder, prefix: seq<Message>, kept: seq<Message>, suffix: seq<Message>)
    ensures Size(b, (prefix + kept) + suffix) == Size(b, prefix + suffix) + Size(b, kept)
  {
    SizeAppend(b, prefix + kept, suffix);
    SizeAppend(b, prefix, kept);
    SizeAppend(b, prefix, suffix);
  }

  lemma {:induction false} SummaryFitFits(b: Builder, prefix: seq<Message>, summary: Message, groups: seq<seq<Message>>, suffix: seq<Message>)
    ensures var r := SummaryFit(b, prefix, summary, groups, suffix);
      r.Some? ==> Size(b, r.value) <= Usable(b)
    decreases |groups|
  {
    if groups != [] {
      SummaryFitFits(b, prefix, summary, groups[1..], suffix);
    }
  }

  lemma PlaceSummaryFits(b: Builder, prefix: seq<Message>, groups: seq<seq<Message>>, suffix: seq<Message>,
                         windowed: seq<Message>, summary: Message)
    requires Size(b, windowed) <= Usable(b)
    ensures Size(b, PlaceSummary(b, prefix, groups, suffix, windowed, summary)) <= Usable(b)
  {
    SummaryFitFits(b, prefix, summary, groups, suffix);
    var compact := Truncated(b, summary, Usable(b) - Size(b, windowed), "", false);
    if compact.Some? {
      SummaryFitFits(b, prefix, compact.value, groups, suffix);
    }
  }

  lemma WindowedFits(b: Builder, prefix: seq<Message>, optional: seq<Message>, suffix: seq<Message>)
    requires Size(b, prefix + suffix) <= Usable(b)
    ensures Size(b, Windowed(b, prefix, optional, suffix)) <= Usable(b)
  {
    var used := Size(b, prefix + suffix);
    KeptFits(b, optional, used);
    SizeOfWindow(b, prefix, Kept(b, optional, used), suffix);
    var kept, dropped := Kept(b, optional, used), Dropped(b, optional, used);
    PlaceSummaryFits(b, prefix, Groups(kept), suffix, (prefix + kept) + suffix, SummaryMessage(b, dropped));
  }

  lemma SuffixFits(b: Builder, prefix: seq<Message>, protected: seq<Message>)
    requires Size(b, prefix) <= Usable(b)
    ensures Size(b, prefix + Suffix(b, prefix, protected)) <= Usable(b)
  {
    var suffix := Suffix(b, prefix, protected);
    assert prefix + [] == prefix;
    if protected != [] {
      ProtectedFitCases(b, prefix, protected);
      KeptFits(b, protected, Size(b, prefix));
      SizeAppend(b, prefix, Kept(b, protected, Size(b, prefix)));
    }
  }

  /** When even the prefix is over budget nothing can be cut to fit, and nothing else is sent. */
  lemma OverfullPrefix(b: Builder, prefix: seq<Message>, optional: seq<Message>, protected: seq<Message>)
    requires Size(b, prefix) > Usable(b)
    ensures Context(b, prefix, optional, protected) == prefix
  {
    SizeAppend(b, prefix, optional + protected);
    SizeAppend(b, prefix, protected);
    assert prefix + [] == prefix;
    if protected != [] {
      NoCutUnderOverfullPrefix(b, prefix, protected, TruncationOrder(protected));
      KeptFits(b, protected, Size(b, prefix));
    }
    assert Suffix(b, prefix, protected) == [];
    OverfullWindow(b, prefix, optional);
  }

  lemma {:induction false} NoCutUnderOverfullPrefix(b: Builder, prefix: seq<Message>, ms: seq<Message>, order: seq<nat>)
    requires Size(b, prefix) > Usable(b) && InRange(ms, order)
    ensures FirstCut(b, prefix, ms, order) == None
  {
    if order != [] {
      SizeAppend(b, prefix, Without(ms, order[0]));
      NoCutUnderOverfullPrefix(b, prefix, ms, order[1..]);
    }
  }

  /** No summary finds room behind an overfull prefix. */
  lemma NoRoomForSummary(b: Builder, prefix: seq<Message>, summary: Message)
    requires Size(b, prefix) > Usable(b)
    ensures SummaryFit(b, prefix, summary, [], []) == None
  {
    SizeAppend(b, prefix, [summary]);
    assert ((prefix + [summary]) + []) + [] == prefix + [summary];
  }

  lemma NoSummaryPlaced(b: Builder, prefix: seq<Message>, dropped: seq<Message>)
    requires Size(b, prefix) > Usable(b)
    ensures Summarized(b, prefix, [], dropped, []) == prefix
  {
    assert (prefix + []) + [] == prefix;
    assert Groups([]) == [];
    NoRoomForSummary(b, prefix, SummaryMessage(b, dropped));
  }

  lemma OverfullWindow(b: Builder, prefix: seq<Message>, optional: seq<Message>)
    requires Size(b, prefix) > Usable(b)
    ensures Windowed(b, prefix, optional, []) == prefix
  {
    assert prefix + [] == prefix;
    KeptFits(b, optional, Size(b, prefix));
    NoSummaryPlaced(b, prefix, Dropped(b, optional, Size(b, prefix)));
  }

  /** The budget theorem: a prefix within the budget yields a context within the budget on every path, and
      an overfull prefix is sent alone. */
  lemma ContextFits(b: Builder, prefix: seq<Message>, optional: seq<Message>, protected: seq<Message>)
    ensures var out := Context(b, prefix, optional, protected);
      if Size(b, prefix) <= Usable(b) then Size(b, out) <= Usable(b) else out == prefix
  {
    if Size(b, prefix) <= Usable(b) {
      SuffixFits(b, prefix, protected);
      WindowedFits(b, prefix, optional, Suffix(b, prefix, protected));
    } else {
      OverfullPrefix(b, prefix, optional, protected);
    }
  }

  // ---- What a summarized window looks like ----

  predicate IsSummary(m: Message) {
    m.role.System? && m.metadata.None? && m.source == "history_summary"
  }

  /** `out` is the window with a summary, after the oldest `k` groups gave way to it; none of those was a
      tool transcript. */
  ghost predicate SummaryInstead(out: seq<Message>, prefix: seq<Message>, summary: Message,
                                 groups: seq<seq<Message>>, k: nat, suffix: seq<Message>)
  {
    && k <= |groups| && IsSummary(summary)
    && (forall j :: 0 <= j < k ==> !IsToolTranscriptGroup(groups[j]))
    && out == ((prefix + [summary]) + Flatten(groups[k..])) + suffix
  }

  lemma {:induction false} SummaryFitShape(b: Builder, prefix: seq<Message>, summary: Message,
                                           groups: seq<seq<Message>>, suffix: seq<Message>)
    returns (k: nat)
    requires IsSummary(summary)
    ensures var r := SummaryFit(b, prefix, summary, groups, suffix);
      r.Some? ==> SummaryInstead(r.value, prefix, summary, groups, k, suffix)
    decreases |groups|
  {
    var r := SummaryFit(b, prefix, summary, groups, suffix);
    if Size(b, ((prefix + [summary]) + Flatten(groups)) + suffix) <= Usable(b) || r.None? {
      k := 0;
      assert groups[0..] == groups;
    } else {
      var rest := SummaryFitShape(b, prefix, summary, groups[1..], suffix);
      k := rest + 1;
      assert groups[1..][rest..] == groups[k..];
      assert forall j :: 1 <= j < k ==> groups[j] == groups[1..][j - 1];
    }
  }

  lemma PlaceSummaryShape(b: Builder, prefix: seq<Message>, groups: seq<seq<Message>>, suffix: seq<Message>,
                          windowed: seq<Message>, summary: Message)
    requires IsSummary(summary)
    ensures var out := PlaceSummary(b, prefix, groups, suffix, windowed, summary);
      out == windowed || exists s, k: nat :: SummaryInstead(out, prefix, s, groups, k, suffix)
  {
    var remaining := Usable(b) - Size(b, windowed);
    var k := SummaryFitShape(b, prefix, summary, groups, suffix);
    var compact := Truncated(b, summary, remaining, "", false);
    if compact.Some? {
      TruncatedFits(b, summary, remaining, "", false);
      var short := SummaryFitShape(b, prefix, compact.value, groups, suffix);
    }
  }

  lemma SummarizedShape(b: Builder, prefix: seq<Message>, kept: seq<Message>, dropped: seq<Message>, suffix: seq<Message>)
    ensures var out := Summarized(b, prefix, kept, dropped, suffix);
      || out == (prefix + kept) + suffix
      || exists summary, k: nat :: SummaryInstead(out, prefix, summary, Groups(kept), k, suffix)
  {
    if dropped != [] {
      var windowed, summary := (prefix + kept) + suffix, SummaryMessage(b, dropped);
      PlaceSummaryShape(b, prefix, Groups(kept), suffix, windowed, summary);
      assert Summarized(b, prefix, kept, dropped, suffix)
          == PlaceSummary(b, prefix, Groups(kept), suffix, windowed, summary);
    }
  }

  // ---- Pairing survives budgeting ----

  /** The groups of a closed list are closed one by one. */
  lemma {:induction false} GroupsOfClosed(ms: seq<Message>)
    requires Closed(ms)
    ensures forall g :: g in Groups(ms) ==> Closed(g)
    decreases |ms|
  {
    if ms != [] {
      var n, size := 1 + ToolRun(ms[1..]), GroupSize(ms);
      ClosedGroup(Stored, ms);
      NoAnswers(ms[1..n]);
      assert ms == ms[..size] + ms[size..];
      assert size < |ms| ==> ms[size] == ms[1..][size - 1];
      FollowsAppend(Stored, {}, ms[..size], ms[size..]);
      GroupsOfClosed(ms[size..]);
    }
  }

  lemma {:induction false} ClosedFlatten(groups: seq<seq<Message>>)
    requires forall g :: g in groups ==> Closed(g)
    ensures Closed(Flatten(groups))
  {
    if groups != [] {
      ClosedFlatten(groups[1..]);
      ClosedAppend(groups[0], Flatten(groups[1..]));
    }
  }

  lemma {:induction false} SideMembers(b: Builder, groups: seq<seq<Message>>, n: nat, used: nat, keep: bool)
    requires n <= |groups|
    ensures forall g :: g in Side(b, groups, n, used, keep) ==> g in groups
  {
    if n > 0 {
      SideMembers(b, groups, n - 1, After(b, used, groups[n - 1]), keep);
    }
  }

  lemma KeptClosed(b: Builder, dynamic: seq<Message>, used: nat)
    requires Closed(dynamic)
    ensures Closed(Kept(b, dynamic, used))
  {
    var groups := Groups(dynamic);
    GroupsOfClosed(dynamic);
    SideMembers(b, groups, |groups|, used, true);
    ClosedFlatten(Side(b, groups, |groups|, used, true));
  }

  /** Pairing looks at roles and metadata only. */
  lemma {:induction false} PairingIgnoresContent(pending: set<string>, a: seq<Message>, c: seq<Message>)
    requires |a| == |c|
    requires forall i :: 0 <= i < |a| ==> a[i].role == c[i].role && a[i].metadata == c[i].metadata
    ensures Follows(Stored, pending, a) == Follows(Stored, pending, c)
    decreases |a|
  {
    if a != [] {
      var next := if a[0].role.Tool? then pending - {AnswerId(a[0])} else CallIds(Stored, a[0]);
      assert CallIds(Stored, a[0]) == CallIds(Stored, c[0]);
      PairingIgnoresContent(next, a[1..], c[1..]);
    }
  }

  lemma SuffixClosed(b: Builder, prefix: seq<Message>, protected: seq<Message>)
    requires Closed(protected)
    ensures Closed(Suffix(b, prefix, protected))
  {
    if protected != [] {
      ProtectedFitCases(b, prefix, protected);
      var fit := ProtectedFit(b, prefix, protected);
      if index, mid, marked :| OneMessageCut(protected, fit, index, mid, marked) {
        PairingIgnoresContent({}, protected, fit);
      }
      KeptClosed(b, protected, Size(b, prefix));
    }
  }

  lemma SummarizedClosed(b: Builder, prefix: seq<Message>, kept: seq<Message>, dropped: seq<Message>, suffix: seq<Message>)
    requires Closed(prefix) && Closed(kept) && Closed(suffix)
    ensures Closed(Summarized(b, prefix, kept, dropped, suffix))
  {
    var out := Summarized(b, prefix, kept, dropped, suffix);
    SummarizedShape(b, prefix, kept, dropped, suffix);
    if summary, k: nat :| SummaryInstead(out, prefix, summary, Groups(kept), k, suffix) {
      GroupsOfClosed(kept);
      ClosedFlatten(Groups(kept)[k..]);
      ClosedAppend(prefix, [summary]);
      ClosedAppend(prefix + [summary], Flatten(Groups(kept)[k..]));
      ClosedAppend((prefix + [summary]) + Flatten(Groups(kept)[k..]), suffix);
    } else {
      ClosedAppend(prefix, kept);
      ClosedAppend(prefix + kept, suffix);
    }
  }

  /** Whatever is dropped, truncated or summarized, a closed history and a closed active turn yield a closed
      context. */
  lemma ContextClosed(b: Builder, prefix: seq<Message>, optional: seq<Message>, protected: seq<Message>)
    requires Closed(prefix) && Closed(optional) && Closed(protected)
    ensures Closed(Context(b, prefix, optional, protected))
  {
    var suffix := Suffix(b, prefix, protected);
    var used := Size(b, prefix + suffix);
    ClosedAppend(optional, protected);
    ClosedAppend(prefix, optional + protected);
    SuffixClosed(b, prefix, protected);
    KeptClosed(b, optional, used);
    SummarizedClosed(b, prefix, Kept(b, optional, used), Dropped(b, optional, used), suffix);
  }

  // ---- What is never lost ----

  ghost predicate EndsWith(ms: seq<Message>, tail: seq<Message>) {
    |tail| <= |ms| && ms[|ms| - |tail|..] == tail
  }

  lemma SummarizedFrame(b: Builder, prefix: seq<Message>, kept: seq<Message>, dropped: seq<Message>, suffix: seq<Message>)
    ensures var out := Summarized(b, prefix, kept, dropped, suffix);
      prefix <= out && EndsWith(out, suffix)
  {
    var out := Summarized(b, prefix, kept, dropped, suffix);
    SummarizedShape(b, prefix, kept, dropped, suffix);
    if summary, k: nat :| SummaryInstead(out, prefix, summary, Groups(kept), k, suffix) {
      FramedBy(prefix, [summary] + Flatten(Groups(kept)[k..]), suffix);
      Assoc(prefix, [summary], Flatten(Groups(kept)[k..]));
    } else {
      FramedBy(prefix, kept, suffix);
    }
  }

  lemma FramedBy(prefix: seq<Message>, middle: seq<Message>, suffix: seq<Message>)
    ensures prefix <= (prefix + middle) + suffix
    ensures EndsWith((prefix + middle) + suffix, suffix)
  {
  }

  /** The prefix always opens the context, and the active turn closes it, untouched, whenever it fits next
      to the prefix. */
  lemma ActiveTurnSurvives(b: Builder, prefix: seq<Message>, optional: seq<Message>, protected: seq<Message>)
    ensures prefix <= Context(b, prefix, optional, protected)
    ensures Size(b, prefix + protected) <= Usable(b) ==> EndsWith(Context(b, prefix, optional, protected), protected)
  {
    var suffix := Suffix(b, prefix, protected);
    var used := Size(b, prefix + suffix);
    Assoc(prefix, optional, protected);
    FramedBy(prefix, optional, protected);
    SummarizedFrame(b, prefix, Kept(b, optional, used), Dropped(b, optional, used), suffix);
  }

  lemma {:induction false} FlattenMembers(groups: seq<seq<Message>>)
    ensures forall m :: m in Flatten(groups) <==> exists g :: g in groups && m in g
  {
    if groups != [] {
      FlattenMembers(groups[1..]);
      assert groups == [groups[0]] + groups[1..];
    }
  }

  lemma KeptMembers(b: Builder, dynamic: seq<Message>, used: nat)
    ensures forall m :: m in Kept(b, dynamic, used) ==> m in dynamic
  {
    var groups := Groups(dynamic);
    GroupsFlatten(dynamic);
    FlattenMembers(groups);
    SideMembers(b, groups, |groups|, used, true);
    FlattenMembers(Side(b, groups, |groups|, used, true));
  }

  lemma SuffixWellFormed(b: Builder, prefix: seq<Message>, protected: seq<Message>)
    requires WellFormedCalls(protected)
    ensures WellFormedCalls(Suffix(b, prefix, protected))
  {
    if protected != [] {
      var fit := ProtectedFit(b, prefix, protected);
      ProtectedFitCases(b, prefix, protected);
      KeptMembers(b, protected, Size(b, prefix));
      if index: nat, mid: nat, marked :| OneMessageCut(protected, fit, index, mid, marked) {
        assert forall view :: CallIds(view, fit[index]) == CallIds(view, protected[index]);
        assert forall m :: m in fit ==> m == fit[index] || m in protected;
      }
    }
  }

  lemma SummarizedWellFormed(b: Builder, prefix: seq<Message>, kept: seq<Message>, dropped: seq<Message>, suffix: seq<Message>)
    requires WellFormedCalls(prefix) && WellFormedCalls(kept) && WellFormedCalls(suffix)
    ensures WellFormedCalls(Summarized(b, prefix, kept, dropped, suffix))
  {
    var out, groups := Summarized(b, prefix, kept, dropped, suffix), Groups(kept);
    SummarizedShape(b, prefix, kept, dropped, suffix);
    if summary, k: nat :| SummaryInstead(out, prefix, summary, groups, k, suffix) {
      GroupsFlatten(kept);
      FlattenMembers(groups);
      FlattenMembers(groups[k..]);
      assert forall m :: m in Flatten(groups[k..]) ==> m in kept;
      assert forall m :: m in out ==> m in prefix || m == summary || m in kept || m in suffix;
    }
  }

  /** End to end: when history and active turn are closed and their calls are well formed, the request built
      from the budgeted context is the context itself, and the checker has nothing to report. */
  lemma RequestIsValid(b: Builder, prefix: seq<Message>, optional: seq<Message>, protected: seq<Message>)
    requires Closed(prefix) && Closed(optional) && Closed(protected)
    requires WellFormedCalls(prefix) && WellFormedCalls(optional) && WellFormedCalls(protected)
    ensures var out := Context(b, prefix, optional, protected);
      Sanitized(out) == out && Issues(Wires(Sanitized(out))) == []
  {
    var out, suffix := Context(b, prefix, optional, protected), Suffix(b, prefix, protected);
    var used := Size(b, prefix + suffix);
    ContextClosed(b, prefix, optional, protected);
    SuffixWellFormed(b, prefix, protected);
    KeptMembers(b, optional, used);
    SummarizedWellFormed(b, prefix, Kept(b, optional, used), Dropped(b, optional, used), suffix);
    assert WellFormedCalls(out);
    SanitizerAgreesWithChecker(out);
    ClosedMeaning(out);
  }
}
