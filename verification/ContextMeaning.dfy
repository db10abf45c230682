/** What a built context is, said without the steps that build it: the whole conversation when it fits, else the
    prefix, the best choice of whole groups of the history, and the fitted active turn, with a summary of what was
    left out in place of as few of the oldest groups as possible. */
module ContextMeaning {
  import opened Messages
  import opened ContextWindow
  import opened ContextTruncation
  import opened ContextBuilder

  // ---- Room for a summary ----

  /** The window with a summary in front, its oldest `k` groups given up. */
  function WithSummary(prefix: seq<Message>, summary: Message, groups: seq<seq<Message>>, suffix: seq<Message>, k: nat): seq<Message>
    requires k <= |groups|
  {
    ((prefix + [summary]) + Flatten(groups[k..])) + suffix
  }

  /** It fits, and none of the groups given up belongs to a tool transcript. */
  predicate HasRoom(b: Builder, prefix: seq<Message>, summary: Message, groups: seq<seq<Message>>, suffix: seq<Message>, k: nat) {
    && k <= |groups| && (forall i :: 0 <= i < k ==> NoTranscript(groups[i]))
    && Size(b, WithSummary(prefix, summary, groups, suffix, k)) <= Usable(b)
  }

  predicate NoTranscript(group: seq<Message>) {
    forall i :: 0 <= i < |group| ==> !group[i].role.Tool? && !HasToolCalls(group[i])
  }

  ghost predicate FindsRoom(b: Builder, prefix: seq<Message>, summary: Message, groups: seq<seq<Message>>, suffix: seq<Message>) {
    exists k :: HasRoom(b, prefix, summary, groups, suffix, k)
  }

  /** As few groups as possible gave way. */
  ghost predicate IsLeast(b: Builder, prefix: seq<Message>, summary: Message, groups: seq<seq<Message>>, suffix: seq<Message>, k: nat) {
    HasRoom(b, prefix, summary, groups, suffix, k)
    && forall i :: HasRoom(b, prefix, summary, groups, suffix, i) ==> k <= i
  }

  ghost predicate PlacedWith(b: Builder, prefix: seq<Message>, summary: Message, groups: seq<seq<Message>>, suffix: seq<Message>,
                             out: seq<Message>, k: nat)
  {
    IsLeast(b, prefix, summary, groups, suffix, k) && out == WithSummary(prefix, summary, groups, suffix, k)
  }

  /** `out` is the window with the summary, as few of the oldest groups given up as possible. */
  ghost predicate IsPlaced(b: Builder, prefix: seq<Message>, summary: Message, groups: seq<seq<Message>>, suffix: seq<Message>,
                           out: seq<Message>)
  {
    exists k :: PlacedWith(b, prefix, summary, groups, suffix, out, k)
  }

  lemma RoomShift(b: Builder, prefix: seq<Message>, summary: Message, groups: seq<seq<Message>>, suffix: seq<Message>, k: nat)
    requires groups != [] && NoTranscript(groups[0])
    ensures HasRoom(b, prefix, summary, groups, suffix, k + 1) <==> HasRoom(b, prefix, summary, groups[1..], suffix, k)
  {
    if k < |groups| {
      assert groups[1..][k..] == groups[k + 1..];
      assert forall i :: 1 <= i < k + 1 ==> groups[i] == groups[1..][i - 1];
      assert forall i :: 0 <= i < k ==> groups[1..][i] == groups[i + 1];
    }
  }

  /** The loop finds the least number of groups that have to give way, if any number will do. */
  lemma {:induction false} SummaryFitMeaning(b: Builder, prefix: seq<Message>, summary: Message, groups: seq<seq<Message>>, suffix: seq<Message>)
    returns (k: nat)
    ensures var fit := SummaryFit(b, prefix, summary, groups, suffix);
      if fit.Some? then PlacedWith(b, prefix, summary, groups, suffix, fit.value, k)
      else !FindsRoom(b, prefix, summary, groups, suffix)
    decreases |groups|
  {
    k := 0;
    assert groups[0..] == groups;
    if Size(b, WithSummary(prefix, summary, groups, suffix, 0)) > Usable(b) && groups != [] {
      if NoTranscript(groups[0]) {
        var rest := SummaryFitMeaning(b, prefix, summary, groups[1..], suffix);
        k := rest + 1;
        assert !HasRoom(b, prefix, summary, groups, suffix, 0);
        forall i: nat | i > 0 && HasRoom(b, prefix, summary, groups, suffix, i)
          ensures HasRoom(b, prefix, summary, groups[1..], suffix, i - 1)
        {
          RoomShift(b, prefix, summary, groups, suffix, i - 1);
        }
        RoomShift(b, prefix, summary, groups, suffix, rest);
        assert rest <= |groups[1..]| ==> groups[1..][rest..] == groups[k..];
      }
    }
  }

  lemma FitDecides(b: Builder, prefix: seq<Message>, summary: Message, groups: seq<seq<Message>>, suffix: seq<Message>)
    ensures var fit := SummaryFit(b, prefix, summary, groups, suffix);
      && (fit.Some? <==> FindsRoom(b, prefix, summary, groups, suffix))
      && (fit.Some? ==> IsPlaced(b, prefix, summary, groups, suffix, fit.value))
  {
    var k := SummaryFitMeaning(b, prefix, summary, groups, suffix);
  }

  // ---- The shortened summary ----

  /** The longest part of the summary that fits the room, provided that longer never costs less. */
  ghost predicate IsShortened(b: Builder, summary: Message, room: int, short: Message, n: nat) {
    && 0 < n <= |summary.content| && short == summary.(content := summary.content[..n])
    && CutFits(b, summary, room, "", n)
    && (NeverCheaper(b, summary, "") ==> forall j :: n < j <= |summary.content| ==> !CutFits(b, summary, room, "", j))
  }

  /** A summary is shortened when the room exceeds what it costs without content by more than four; then only an
      empty cut counts as none. */
  ghost predicate ShortenedTo(b: Builder, summary: Message, room: int, short: Option<Message>) {
    if room <= Cost(b, summary.(content := "")) + 4 then short.None?
    else if summary.content == "" then short == Some(summary)
    else if short.Some? then exists n :: IsShortened(b, summary, room, short.value, n)
    else NeverCheaper(b, summary, "") ==> forall j :: 0 < j <= |summary.content| ==> !CutFits(b, summary, room, "", j)
  }

  lemma SummaryIsShortened(b: Builder, summary: Message, room: int)
    ensures ShortenedTo(b, summary, room, Truncated(b, summary, room, "", false))
  {
    if room > Cost(b, summary.(content := "")) + 4 && summary.content != "" {
      assert summary.content[..0] == "";
      SearchFinds(b, summary, room, "", 0, |summary.content|, None);
      var n := BestCut(b, summary, room, "").value;
      if NeverCheaper(b, summary, "") {
        assert summary.content[..|summary.content|] == summary.content;
        MaximalWithoutMarker(b, summary, room);
      }
      if n > 0 {
        assert IsShortened(b, summary, room, Truncated(b, summary, room, "", false).value, n);
      }
    }
  }

  lemma MaximalWithoutMarker(b: Builder, m: Message, room: int)
    requires NeverCheaper(b, m, "")
    ensures IsLongestFit(b, m, room, "", BestCut(b, m, room, ""))
  {
    TruncationIsMaximal(b, m, room, "");
  }

  // ---- The context ----

  /** What a window whose groups are `groups` becomes once the dropped messages are to be summarized. */
  ghost predicate WindowOrSummary(b: Builder, prefix: seq<Message>, groups: seq<seq<Message>>, suffix: seq<Message>,
                                  window: seq<Message>, summary: Message, short: Option<Message>, out: seq<Message>)
  {
    if FindsRoom(b, prefix, summary, groups, suffix) then IsPlaced(b, prefix, summary, groups, suffix, out)
    else if short.Some? && FindsRoom(b, prefix, short.value, groups, suffix) then IsPlaced(b, prefix, short.value, groups, suffix, out)
    else out == window
  }

  /** Kept messages between prefix and suffix; what was dropped is summarized as far as there is room. */
  ghost predicate IsSummarized(b: Builder, prefix: seq<Message>, kept: seq<Message>, dropped: seq<Message>, suffix: seq<Message>,
                               out: seq<Message>)
  {
    var window := (prefix + kept) + suffix;
    var summary := TextMessage(System, "history_summary", b.summarize(dropped));
    if dropped == [] then out == window
    else exists short ::
      && ShortenedTo(b, summary, Usable(b) - Size(b, window), short)
      && WindowOrSummary(b, prefix, Groups(kept), suffix, window, summary, short, out)
  }

  ghost predicate BuiltFrom(b: Builder, prefix: seq<Message>, optional: seq<Message>, protected: seq<Message>, out: seq<Message>,
                            suffix: seq<Message>, kept: seq<Message>, dropped: seq<Message>)
  {
    && IsFitted(b, prefix, protected, suffix)
    && IsWindow(b, optional, Size(b, prefix + suffix), kept, dropped)
    && IsSummarized(b, prefix, kept, dropped, suffix, out)
  }

  ghost predicate IsContext(b: Builder, prefix: seq<Message>, optional: seq<Message>, protected: seq<Message>, out: seq<Message>) {
    if Size(b, prefix + (optional + protected)) <= Usable(b) then out == prefix + (optional + protected)
    else exists suffix, kept, dropped :: BuiltFrom(b, prefix, optional, protected, out, suffix, kept, dropped)
  }

  lemma PlaceSummaryMeaning(b: Builder, prefix: seq<Message>, groups: seq<seq<Message>>, suffix: seq<Message>,
                            window: seq<Message>, summary: Message)
    ensures WindowOrSummary(b, prefix, groups, suffix, window, summary,
                            Truncated(b, summary, Usable(b) - Size(b, window), "", false),
                            PlaceSummary(b, prefix, groups, suffix, window, summary))
  {
    var short := Truncated(b, summary, Usable(b) - Size(b, window), "", false);
    FitDecides(b, prefix, summary, groups, suffix);
    if short.Some? {
      FitDecides(b, prefix, short.value, groups, suffix);
    }
  }

  lemma SummarizedMeaning(b: Builder, prefix: seq<Message>, kept: seq<Message>, dropped: seq<Message>, suffix: seq<Message>)
    ensures IsSummarized(b, prefix, kept, dropped, suffix, Summarized(b, prefix, kept, dropped, suffix))
  {
    var window, groups := (prefix + kept) + suffix, Groups(kept);
    if dropped != [] {
      var summary := TextMessage(System, "history_summary", b.summarize(dropped));
      SummaryIsShortened(b, summary, Usable(b) - Size(b, window));
      PlaceSummaryMeaning(b, prefix, groups, suffix, window, summary);
    }
  }

  lemma SuffixMeaning(b: Builder, prefix: seq<Message>, protected: seq<Message>)
    ensures IsFitted(b, prefix, protected, Suffix(b, prefix, protected))
  {
    ProtectedFitMeaning(b, prefix, protected);
    if protected == [] {
      assert Groups([]) == [];
      WindowMeaning(b, [], Size(b, prefix));
      assert Kept(b, [], Size(b, prefix)) == [];
    }
  }

  /** Every context is built in this way, on every path. */
  lemma ContextIs(b: Builder, prefix: seq<Message>, optional: seq<Message>, protected: seq<Message>)
    ensures IsContext(b, prefix, optional, protected, Context(b, prefix, optional, protected))
  {
    var suffix := Suffix(b, prefix, protected);
    var used := Size(b, prefix + suffix);
    var kept, dropped := Kept(b, optional, used), Dropped(b, optional, used);
    SuffixMeaning(b, prefix, protected);
    WindowMeaning(b, optional, used);
    SummarizedMeaning(b, prefix, kept, dropped, suffix);
    if Size(b, prefix + (optional + protected)) > Usable(b) {
      assert BuiltFrom(b, prefix, optional, protected, Context(b, prefix, optional, protected), suffix, kept, dropped);
    }
  }

  /** History that fits beside prefix and fitted turn is never lost, not even in part. */
  lemma HistoryIsKept(b: Builder, prefix: seq<Message>, optional: seq<Message>, protected: seq<Message>)
    requires Size(b, prefix + (optional + Suffix(b, prefix, protected))) <= Usable(b)
    requires Size(b, prefix + protected) > Usable(b)
    ensures Context(b, prefix, optional, protected) == prefix + (optional + Suffix(b, prefix, protected))
  {
    var suffix := Suffix(b, prefix, protected);
    SizeAppend(b, prefix, optional + protected);
    SizeAppend(b, optional, protected);
    SizeAppend(b, prefix, protected);
    SizeAppend(b, prefix, optional + suffix);
    SizeAppend(b, optional, suffix);
    SizeAppend(b, prefix, suffix);
    NothingDropped(b, optional, Size(b, prefix + suffix));
    Assoc(prefix, optional, suffix);
  }

  /** In the terms of the configured budget: unless the context is empty or the prefix alone is too large, the reserve stays free. */
  lemma ContextLeavesReserve(b: Builder, prefix: seq<Message>, optional: seq<Message>, protected: seq<Message>)
    requires Size(b, prefix) <= Usable(b) && Size(b, Context(b, prefix, optional, protected)) > 0
    ensures var size := Size(b, Context(b, prefix, optional, protected));
      if b.budget.maxChars.Some? then size + b.budget.reservedChars <= b.budget.maxChars.value
      else size + b.budget.reservedTokens <= b.budget.maxTokens
  {
    ContextFits(b, prefix, optional, protected);
    ReserveStaysFree(b.budget, Size(b, Context(b, prefix, optional, protected)));
  }
}
