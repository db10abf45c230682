/** The context builder's budget and size estimate, its grouping of tool transcripts, and the
    newest-first window over the groups. */
module ContextWindow {
  import opened Messages
  import opened CallPairing

  datatype Budget = Budget(maxTokens: int, reservedTokens: int, maxChars: Option<int>, reservedChars: int)

  /** `tokenizer` counts the tokens of a text; `summarize` is the text of a summary of dropped messages. */
  datatype Builder = Builder(budget: Budget, tokenizer: string -> nat, summarize: seq<Message> -> string)

  function UsableTokens(b: Budget): nat {
    var usable := if b.maxChars.Some? then b.maxChars.value - b.reservedChars else b.maxTokens - b.reservedTokens;
    if usable > 0 then usable else 0
  }

  function Usable(b: Builder): nat {
    UsableTokens(b.budget)
  }

  // ---- Size ----

  function RoleName(role: Role): string {
    match role
    case System => "system"
    case User => "user"
    case Assistant => "assistant"
    case Tool => "tool"
  }

  function ReasoningText(m: Message): string {
    (if m.reasoning != "" then "reasoning:" + m.reasoning + "\n" else "")
    + (if m.reasoningSignature != "" then "reasoning_signature:" + m.reasoningSignature + "\n" else "")
    + (if m.redactedThinking then "has_redacted_thinking:true\n" else "")
  }

  /** The part of the budget text before the content. */
  function BudgetHead(m: Message): string {
    "role:" + RoleName(m.role) + "\nsource:" + m.source + "\ncontent:"
  }

  /** The part of the budget text after the content and its line break. */
  function BudgetTail(m: Message): string {
    ReasoningText(m) + "parts:" + m.partsJson + "\nmetadata:"
    + (if m.metadata.Some? then m.metadata.value.json else "")
  }

  function BudgetText(m: Message): string {
    BudgetHead(m) + m.content + ("\n" + BudgetTail(m))
  }

  function Cost(b: Builder, m: Message): nat {
    b.tokenizer(BudgetText(m))
  }

  function Size(b: Builder, ms: seq<Message>): nat {
    if ms == [] then 0 else Cost(b, ms[0]) + Size(b, ms[1..])
  }

  lemma {:induction false} SizeAppend(b: Builder, x: seq<Message>, y: seq<Message>)
    ensures Size(b, x + y) == Size(b, x) + Size(b, y)
  {
    if x == [] {
      assert x + y == y;
    } else {
      assert (x + y)[1..] == x[1..] + y;
      SizeAppend(b, x[1..], y);
    }
  }

  lemma SizeOne(b: Builder, m: Message)
    ensures Size(b, [m]) == Cost(b, m)
  {
  }

  method EstimateTokens(b: Builder, messages: seq<Message>) returns (total: nat)
    ensures total == Size(b, messages)
  {
    total := 0;
    for i := 0 to |messages|
      invariant total == Size(b, messages[..i])
    {
      assert messages[..i + 1] == messages[..i] + [messages[i]];
      SizeAppend(b, messages[..i], [messages[i]]);
      total := total + b.tokenizer(BudgetText(messages[i]));
    }
    assert messages[..|messages|] == messages;
  }

  // ---- Grouping ----

  predicate HasToolCalls(m: Message) {
    m.role.Assistant? && m.metadata.Some? && m.metadata.value.toolCalls.CallList?
    && m.metadata.value.toolCalls.entries != []
  }

  /** An assistant message with calls takes the tool messages after it into its group. */
  function GroupSize(ms: seq<Message>): (n: nat)
    requires ms != []
    ensures 1 <= n <= |ms|
  {
    if HasToolCalls(ms[0]) then 1 + ToolRun(ms[1..]) else 1
  }

  function Groups(ms: seq<Message>): seq<seq<Message>>
    decreases |ms|
  {
    if ms == [] then [] else [ms[..GroupSize(ms)]] + Groups(ms[GroupSize(ms)..])
  }

  lemma GroupsStep(messages: seq<Message>, start: nat, index: nat)
    requires start < index <= |messages|
    requires if HasToolCalls(messages[start]) then index == start + 1 + ToolRun(messages[start + 1..]) else index == start + 1
    ensures Groups(messages[start..]) == [messages[start..index]] + Groups(messages[index..])
  {
    var rest := messages[start..];
    SliceOfSlice(messages, start, start + 1, index);
    SliceOfSlice(messages, start, index, index);
    assert rest[..index - start] == messages[start..index];
  }

  method ToolTranscriptGroups(messages: seq<Message>) returns (groups: seq<seq<Message>>)
    ensures groups == Groups(messages)
  {
    groups := [];
    var index := 0;
    while index < |messages|
      invariant 0 <= index <= |messages|
      invariant groups + Groups(messages[index..]) == Groups(messages)
    {
      ghost var start := index;
      var message := messages[index];
      var group := [message];
      index := index + 1;
      assert group == messages[start..index];
      if HasToolCalls(message) {
        group, index := TakeToolRun(messages, group, index);
      }
      GroupsStep(messages, start, index);
      Assoc(groups, [group], Groups(messages[index..]));
      groups := groups + [group];
    }
  }

  /** The inner loop: the tool messages from `start` on join the group. */
  method TakeToolRun(messages: seq<Message>, call: seq<Message>, start: nat)
    returns (group: seq<Message>, index: nat)
    requires 0 < start <= |messages| && call == messages[start - 1..start]
    ensures index == start + ToolRun(messages[start..]) && group == messages[start - 1..index]
  {
    group, index := call, start;
    while index < |messages| && messages[index].role.Tool?
      invariant start <= index <= |messages|
      invariant group == messages[start - 1..index]
      invariant forall i :: start <= i < index ==> messages[i].role.Tool?
    {
      group := group + [messages[index]];
      index := index + 1;
    }
    ToolRunUnique(messages[start..], index - start);
  }

  /** Grouping loses and reorders nothing. */
  lemma {:induction false} GroupsFlatten(ms: seq<Message>)
    ensures Flatten(Groups(ms)) == ms
    decreases |ms|
  {
    if ms != [] {
      var n := GroupSize(ms);
      GroupsFlatten(ms[n..]);
      assert ms == ms[..n] + ms[n..];
    }
  }

  /** A message, or a call with tool messages. */
  predicate IsGroup(group: seq<Message>) {
    && group != [] && (!HasToolCalls(group[0]) ==> |group| == 1)
    && forall i :: 1 <= i < |group| ==> group[i].role.Tool?
  }

  /** No tool message behind a call's group could still belong to it. */
  predicate TakesItsRun(groups: seq<seq<Message>>, k: nat)
    requires k < |groups|
  {
    IsGroup(groups[k])
    && (HasToolCalls(groups[k][0]) && k + 1 < |groups| && groups[k + 1] != [] ==> !groups[k + 1][0].role.Tool?)
  }

  /** The groups are single messages, and calls with their whole tool run. */
  lemma {:induction false} GroupsMeaning(ms: seq<Message>)
    ensures forall k :: 0 <= k < |Groups(ms)| ==> TakesItsRun(Groups(ms), k)
    decreases |ms|
  {
    if ms != [] {
      var n := GroupSize(ms);
      var rest := Groups(ms[n..]);
      GroupsMeaning(ms[n..]);
      assert IsGroup(ms[..n]);
      assert HasToolCalls(ms[0]) && n < |ms| ==> !ms[n].role.Tool?;
      assert rest != [] ==> rest[0][0] == ms[n];
      forall k | 0 <= k < |Groups(ms)| ensures TakesItsRun(Groups(ms), k) {
        assert k > 0 ==> TakesItsRun(rest, k - 1);
      }
    }
  }

  // ---- The newest-first window ----

  predicate Fits(b: Builder, used: nat, group: seq<Message>) {
    used + Size(b, group) <= Usable(b)
  }

  /** The size in use after `group` was considered. */
  function After(b: Builder, used: nat, group: seq<Message>): nat {
    if Fits(b, used, group) then used + Size(b, group) else used
  }

  /** The kept (or the dropped) groups among the first `n`, walking from the last: each that still fits is
      kept, one that does not is skipped and the walk goes on to older ones. */
  function Side(b: Builder, groups: seq<seq<Message>>, n: nat, used: nat, keep: bool): seq<seq<Message>>
    requires n <= |groups|
  {
    if n == 0 then []
    else if Fits(b, used, groups[n - 1]) == keep then
      Side(b, groups, n - 1, After(b, used, groups[n - 1]), keep) + [groups[n - 1]]
    else Side(b, groups, n - 1, After(b, used, groups[n - 1]), keep)
  }

  function Kept(b: Builder, dynamic: seq<Message>, used: nat): seq<Message> {
    Flatten(Side(b, Groups(dynamic), |Groups(dynamic)|, used, true))
  }

  function Dropped(b: Builder, dynamic: seq<Message>, used: nat): seq<Message> {
    Flatten(Side(b, Groups(dynamic), |Groups(dynamic)|, used, false))
  }

  /** The window as the loop runs it, from a state with `n` groups undecided. */
  function WindowFrom(b: Builder, groups: seq<seq<Message>>, n: nat, used: nat,
                      kept: seq<seq<Message>>, dropped: seq<seq<Message>>): (seq<seq<Message>>, seq<seq<Message>>)
    requires n <= |groups|
  {
    if n == 0 then (kept, dropped)
    else if Fits(b, used, groups[n - 1]) then
      WindowFrom(b, groups, n - 1, used + Size(b, groups[n - 1]), [groups[n - 1]] + kept, dropped)
    else
      WindowFrom(b, groups, n - 1, used, kept, [groups[n - 1]] + dropped)
  }

  lemma {:induction false} WindowFromMeaning(b: Builder, groups: seq<seq<Message>>, n: nat, used: nat,
                                             kept: seq<seq<Message>>, dropped: seq<seq<Message>>)
    requires n <= |groups|
    ensures WindowFrom(b, groups, n, used, kept, dropped)
         == (Side(b, groups, n, used, true) + kept, Side(b, groups, n, used, false) + dropped)
    decreases n
  {
    if n > 0 {
      var group, left := groups[n - 1], After(b, used, groups[n - 1]);
      if Fits(b, used, group) {
        WindowFromMeaning(b, groups, n - 1, left, [group] + kept, dropped);
        Assoc(Side(b, groups, n - 1, left, true), [group], kept);
      } else {
        WindowFromMeaning(b, groups, n - 1, left, kept, [group] + dropped);
        Assoc(Side(b, groups, n - 1, left, false), [group], dropped);
      }
    } else {
      assert [] + kept == kept && [] + dropped == dropped;
    }
  }

  lemma WindowFromStart(b: Builder, groups: seq<seq<Message>>, used: nat)
    ensures var n := |groups|;
      WindowFrom(b, groups, n, used, [], []) == (Side(b, groups, n, used, true), Side(b, groups, n, used, false))
  {
    var kept, dropped := Side(b, groups, |groups|, used, true), Side(b, groups, |groups|, used, false);
    WindowFromMeaning(b, groups, |groups|, used, [], []);
    assert kept + [] == kept && dropped + [] == dropped;
  }

  /** The loop of the window over the groups, newest first. */
  method SelectGroups(b: Builder, groups: seq<seq<Message>>, used: nat)
    returns (keptGroups: seq<seq<Message>>, droppedGroups: seq<seq<Message>>)
    ensures keptGroups == Side(b, groups, |groups|, used, true)
    ensures droppedGroups == Side(b, groups, |groups|, used, false)
  {
    keptGroups, droppedGroups := [], [];
    var currentSize: nat, i := used, |groups|;
    ghost var result := WindowFrom(b, groups, |groups|, used, [], []);
    WindowFromStart(b, groups, used);
    while i > 0
      invariant 0 <= i <= |groups|
      invariant WindowFrom(b, groups, i, currentSize, keptGroups, droppedGroups) == result
    {
      i := i - 1;
      var group := groups[i];
      var groupSize := EstimateTokens(b, group);
      if currentSize + groupSize <= Usable(b) {
        keptGroups := [group] + keptGroups;
        currentSize := currentSize + groupSize;
      } else {
        droppedGroups := [group] + droppedGroups;
      }
    }
  }

  method SlidingWindowWithSuffix(b: Builder, dynamic: seq<Message>, prefix: seq<Message>, suffix: seq<Message>)
    returns (kept: seq<Message>, dropped: seq<Message>)
    ensures kept == Kept(b, dynamic, Size(b, prefix + suffix))
    ensures dropped == Dropped(b, dynamic, Size(b, prefix + suffix))
  {
    var groups := ToolTranscriptGroups(dynamic);
    var used := EstimateTokens(b, prefix + suffix);
    var keptGroups, droppedGroups := SelectGroups(b, groups, used);
    kept, dropped := Flatten(keptGroups), Flatten(droppedGroups);
  }

  // ---- The window is a partition, it fits, and it is greedy-optimal ----

  /** A choice among the first `|mask|` groups. */
  function Chosen<T>(groups: seq<T>, mask: seq<bool>, flag: bool): seq<T>
    requires |mask| <= |groups|
  {
    if mask == [] then []
    else
      var n := |mask| - 1;
      if mask[n] == flag then Chosen(groups, mask[..n], flag) + [groups[n]] else Chosen(groups, mask[..n], flag)
  }

  function ChosenSize(b: Builder, groups: seq<seq<Message>>, mask: seq<bool>): nat
    requires |mask| <= |groups|
  {
    if mask == [] then 0
    else
      var n := |mask| - 1;
      (if mask[n] then Size(b, groups[n]) else 0) + ChosenSize(b, groups, mask[..n])
  }

  function GreedyMask(b: Builder, groups: seq<seq<Message>>, n: nat, used: nat): (mask: seq<bool>)
    requires n <= |groups|
    ensures |mask| == n
  {
    if n == 0 then []
    else GreedyMask(b, groups, n - 1, After(b, used, groups[n - 1])) + [Fits(b, used, groups[n - 1])]
  }

  lemma GreedyStep(b: Builder, groups: seq<seq<Message>>, n: nat, used: nat)
    requires 0 < n <= |groups|
    ensures GreedyMask(b, groups, n, used)[n - 1] == Fits(b, used, groups[n - 1])
    ensures GreedyMask(b, groups, n, used)[..n - 1] == GreedyMask(b, groups, n - 1, After(b, used, groups[n - 1]))
  {
  }

  /** Each group is kept or dropped whole, in order: both sides are choices by one mask. */
  lemma {:induction false} WindowIsPartition(b: Builder, groups: seq<seq<Message>>, n: nat, used: nat, keep: bool)
    requires n <= |groups|
    ensures Side(b, groups, n, used, keep) == Chosen(groups, GreedyMask(b, groups, n, used), keep)
  {
    if n > 0 {
      WindowIsPartition(b, groups, n - 1, After(b, used, groups[n - 1]), keep);
      GreedyStep(b, groups, n, used);
    }
  }

  lemma {:induction false} ChosenSizeMeaning(b: Builder, groups: seq<seq<Message>>, mask: seq<bool>)
    requires |mask| <= |groups|
    ensures Size(b, Flatten(Chosen(groups, mask, true))) == ChosenSize(b, groups, mask)
    decreases |mask|
  {
    if mask != [] {
      var n := |mask| - 1;
      var rest := Chosen(groups, mask[..n], true);
      ChosenSizeMeaning(b, groups, mask[..n]);
      if mask[n] {
        FlattenAppend(rest, [groups[n]]);
        FlattenOne(groups[n]);
        SizeAppend(b, Flatten(rest), groups[n]);
      }
    }
  }

  /** What is kept fits on top of what was reserved, unless the reserve alone does not. */
  lemma {:induction false} GreedyFits(b: Builder, groups: seq<seq<Message>>, n: nat, used: nat)
    requires n <= |groups|
    requires used <= Usable(b)
    ensures used + ChosenSize(b, groups, GreedyMask(b, groups, n, used)) <= Usable(b)
  {
    if n > 0 {
      GreedyFits(b, groups, n - 1, After(b, used, groups[n - 1]));
      GreedyStep(b, groups, n, used);
    }
  }

  lemma {:induction false} NothingFits(b: Builder, groups: seq<seq<Message>>, n: nat, used: nat)
    requires n <= |groups|
    requires used > Usable(b)
    ensures Side(b, groups, n, used, true) == []
  {
    if n > 0 {
      NothingFits(b, groups, n - 1, used);
    }
  }

  /** The size in use once the walk is over. */
  function FinalSize(b: Builder, groups: seq<seq<Message>>, n: nat, used: nat): (size: nat)
    requires n <= |groups|
    ensures size >= used
  {
    if n == 0 then used else FinalSize(b, groups, n - 1, After(b, used, groups[n - 1]))
  }

  lemma {:induction false} FinalSizeMeaning(b: Builder, groups: seq<seq<Message>>, n: nat, used: nat)
    requires n <= |groups|
    ensures FinalSize(b, groups, n, used) == used + ChosenSize(b, groups, GreedyMask(b, groups, n, used))
  {
    if n > 0 {
      FinalSizeMeaning(b, groups, n - 1, After(b, used, groups[n - 1]));
      GreedyStep(b, groups, n, used);
    }
  }

  lemma {:induction false} DroppedWouldOverflow(b: Builder, groups: seq<seq<Message>>, n: nat, used: nat, i: nat)
    requires i < n <= |groups|
    requires !GreedyMask(b, groups, n, used)[i]
    ensures FinalSize(b, groups, n, used) + Size(b, groups[i]) > Usable(b)
    decreases n
  {
    GreedyStep(b, groups, n, used);
    if i < n - 1 {
      assert GreedyMask(b, groups, n, used)[..n - 1][i] == GreedyMask(b, groups, n, used)[i];
      DroppedWouldOverflow(b, groups, n - 1, After(b, used, groups[n - 1]), i);
    }
  }

  /** No dropped group could still be added. */
  lemma GreedyMaximal(b: Builder, groups: seq<seq<Message>>, used: nat, i: nat)
    requires i < |groups|
    requires !GreedyMask(b, groups, |groups|, used)[i]
    ensures used + ChosenSize(b, groups, GreedyMask(b, groups, |groups|, used)) + Size(b, groups[i]) > Usable(b)
  {
    FinalSizeMeaning(b, groups, |groups|, used);
    DroppedWouldOverflow(b, groups, |groups|, used, i);
  }

  /** Read from the newest group to the oldest, `a` keeps no more than `c` at the first difference. */
  predicate NewestFirstLeq(a: seq<bool>, c: seq<bool>)
    requires |a| == |c|
  {
    a == [] ||
    var n := |a| - 1;
    if a[n] == c[n] then NewestFirstLeq(a[..n], c[..n]) else c[n]
  }

  /** Read newest first, no other choice of groups that fits keeps a newer group instead. */
  lemma {:induction false} GreedyIsGreatest(b: Builder, groups: seq<seq<Message>>, used: nat, other: seq<bool>)
    requires |other| <= |groups|
    requires used + ChosenSize(b, groups, other) <= Usable(b)
    ensures NewestFirstLeq(other, GreedyMask(b, groups, |other|, used))
    decreases |other|
  {
    if other != [] {
      var n := |other| - 1;
      GreedyStep(b, groups, n + 1, used);
      ChosenStep(b, groups, other);
      if other[n] == Fits(b, used, groups[n]) {
        GreedyIsGreatest(b, groups, After(b, used, groups[n]), other[..n]);
      }
    }
  }

  lemma ChosenStep(b: Builder, groups: seq<seq<Message>>, mask: seq<bool>)
    requires 0 < |mask| <= |groups|
    ensures var n := |mask| - 1;
      ChosenSize(b, groups, mask) == ChosenSize(b, groups, mask[..n]) + if mask[n] then Size(b, groups[n]) else 0
  {
  }

  // ---- What the window is, without the walk ----

  /** A choice of groups that fits beside what is in use; when nothing fits, the empty choice. */
  predicate IsAffordable(b: Builder, groups: seq<seq<Message>>, used: nat, mask: seq<bool>) {
    |mask| == |groups|
    && if used <= Usable(b) then used + ChosenSize(b, groups, mask) <= Usable(b)
       else forall i :: 0 <= i < |mask| ==> !mask[i]
  }

  /** Read newest first, it is the greatest of all such choices. */
  ghost predicate IsBestChoice(b: Builder, groups: seq<seq<Message>>, used: nat, mask: seq<bool>) {
    IsAffordable(b, groups, used, mask)
    && forall other :: IsAffordable(b, groups, used, other) ==> NewestFirstLeq(other, mask)
  }

  ghost predicate ChosenBy(b: Builder, dynamic: seq<Message>, used: nat, mask: seq<bool>, kept: seq<Message>, dropped: seq<Message>) {
    IsBestChoice(b, Groups(dynamic), used, mask)
    && kept == Flatten(Chosen(Groups(dynamic), mask, true)) && dropped == Flatten(Chosen(Groups(dynamic), mask, false))
  }

  /** The two sides of the best choice of whole groups. */
  ghost predicate IsWindow(b: Builder, dynamic: seq<Message>, used: nat, kept: seq<Message>, dropped: seq<Message>) {
    exists mask :: ChosenBy(b, dynamic, used, mask, kept, dropped)
  }

  lemma {:induction false} GreedyKeepsNothing(b: Builder, groups: seq<seq<Message>>, n: nat, used: nat)
    requires n <= |groups| && used > Usable(b)
    ensures forall i :: 0 <= i < n ==> !GreedyMask(b, groups, n, used)[i]
  {
    if n > 0 {
      GreedyKeepsNothing(b, groups, n - 1, used);
      GreedyStep(b, groups, n, used);
    }
  }

  lemma {:induction false} EmptyChoice(a: seq<bool>, c: seq<bool>)
    requires |a| == |c| && forall i :: 0 <= i < |a| ==> !a[i] && !c[i]
    ensures NewestFirstLeq(a, c)
  {
    if a != [] {
      EmptyChoice(a[..|a| - 1], c[..|a| - 1]);
    }
  }

  /** What the loop keeps and drops are the two sides of the best choice. */
  lemma WindowMeaning(b: Builder, dynamic: seq<Message>, used: nat)
    ensures IsWindow(b, dynamic, used, Kept(b, dynamic, used), Dropped(b, dynamic, used))
  {
    var groups := Groups(dynamic);
    var mask := GreedyMask(b, groups, |groups|, used);
    WindowIsPartition(b, groups, |groups|, used, true);
    WindowIsPartition(b, groups, |groups|, used, false);
    if used <= Usable(b) {
      GreedyFits(b, groups, |groups|, used);
    } else {
      GreedyKeepsNothing(b, groups, |groups|, used);
    }
    forall other | IsAffordable(b, groups, used, other) ensures NewestFirstLeq(other, mask) {
      if used <= Usable(b) {
        GreedyIsGreatest(b, groups, used, other);
      } else {
        EmptyChoice(other, mask);
      }
    }
    assert ChosenBy(b, dynamic, used, mask, Kept(b, dynamic, used), Dropped(b, dynamic, used));
  }

  lemma {:induction false} GreatestIsOne(a: seq<bool>, c: seq<bool>)
    requires |a| == |c| && NewestFirstLeq(a, c) && NewestFirstLeq(c, a)
    ensures a == c
  {
    if a != [] {
      var n := |a| - 1;
      GreatestIsOne(a[..n], c[..n]);
      assert a == a[..n] + [a[n]] && c == c[..n] + [c[n]];
    }
  }

  /** There is only one best choice, so the window is determined. */
  lemma WindowIsOne(b: Builder, dynamic: seq<Message>, used: nat, kept: seq<Message>, dropped: seq<Message>)
    requires IsWindow(b, dynamic, used, kept, dropped)
    ensures kept == Kept(b, dynamic, used) && dropped == Dropped(b, dynamic, used)
  {
    WindowMeaning(b, dynamic, used);
    var mask :| ChosenBy(b, dynamic, used, mask, kept, dropped);
    var other :| ChosenBy(b, dynamic, used, other, Kept(b, dynamic, used), Dropped(b, dynamic, used));
    GreatestIsOne(mask, other);
  }

  lemma {:induction false} AllKept(b: Builder, groups: seq<seq<Message>>, n: nat, used: nat)
    requires n <= |groups| && used + Size(b, Flatten(groups[..n])) <= Usable(b)
    ensures Side(b, groups, n, used, true) == groups[..n] && Side(b, groups, n, used, false) == []
  {
    if n > 0 {
      assert groups[..n] == groups[..n - 1] + [groups[n - 1]];
      FlattenAppend(groups[..n - 1], [groups[n - 1]]);
      FlattenOne(groups[n - 1]);
      SizeAppend(b, Flatten(groups[..n - 1]), groups[n - 1]);
      AllKept(b, groups, n - 1, After(b, used, groups[n - 1]));
    }
  }

  /** When everything fits nothing is dropped. */
  lemma NothingDropped(b: Builder, dynamic: seq<Message>, used: nat)
    requires used + Size(b, dynamic) <= Usable(b)
    ensures Kept(b, dynamic, used) == dynamic && Dropped(b, dynamic, used) == []
  {
    var groups := Groups(dynamic);
    GroupsFlatten(dynamic);
    assert groups[..|groups|] == groups;
    AllKept(b, groups, |groups|, used);
  }

  // ---- The budget in its own terms ----

  /** A context within what is usable leaves the reserve free; a budget in characters takes the place of one in tokens. */
  lemma ReserveStaysFree(budget: Budget, size: nat)
    ensures size > 0 ==>
      (size <= UsableTokens(budget) <==>
        if budget.maxChars.Some? then size + budget.reservedChars <= budget.maxChars.value
        else size + budget.reservedTokens <= budget.maxTokens)
  {
  }
}
