/** Truncating one message to a budget by binary search, and fitting the protected active turn by
    truncating its largest contents first. */
module ContextTruncation {
  import opened Messages
  import opened ContextWindow

  // ---- Truncation by binary search ----

  /** The content cut to its first `mid` characters, with the marker when something was cut off. */
  function Candidate(content: string, marker: string, mid: nat): string
    requires mid <= |content|
  {
    if marker != "" && mid < |content| then content[..mid] + marker else content[..mid]
  }

  predicate CutFits(b: Builder, m: Message, remaining: int, marker: string, mid: nat)
    requires mid <= |m.content|
  {
    Cost(b, m.(content := Candidate(m.content, marker, mid))) <= remaining
  }

  /** The binary search from a state of its loop: `best` is the last cut that fitted. */
  function Search(b: Builder, m: Message, remaining: int, marker: string, low: nat, high: int, best: Option<nat>): (r: Option<nat>)
    requires high <= |m.content|
    requires best.Some? ==> best.value <= |m.content|
    ensures r.Some? ==> r.value <= |m.content|
    decreases high - low + 1
  {
    if low > high then best
    else
      var mid := (low + high) / 2;
      if CutFits(b, m, remaining, marker, mid)
      then Search(b, m, remaining, marker, mid + 1, high, Some(mid))
      else Search(b, m, remaining, marker, low, mid - 1, best)
  }

  function BestCut(b: Builder, m: Message, remaining: int, marker: string): (r: Option<nat>)
    ensures r.Some? ==> r.value <= |m.content|
  {
    Search(b, m, remaining, marker, 0, |m.content|, None)
  }

  function Truncated(b: Builder, m: Message, remaining: int, marker: string, allowEmpty: bool): Option<Message> {
    var overhead := Cost(b, m.(content := ""));
    if remaining < overhead || (!allowEmpty && remaining <= overhead + 4) then None
    else if m.content == "" then Some(m)
    else
      var best := BestCut(b, m, remaining, marker);
      if best.None? then None
      else
        var cut := Candidate(m.content, marker, best.value);
        if cut == "" && !allowEmpty then None else Some(m.(content := cut))
  }

  /** Builds the candidate cut at `mid` and measures it. */
  method MeasureCandidate(b: Builder, message: Message, remaining: int, marker: string, mid: nat)
    returns (candidate: string, fits: bool)
    requires mid <= |message.content|
    ensures candidate == Candidate(message.content, marker, mid)
    ensures fits <==> CutFits(b, message, remaining, marker, mid)
  {
    candidate := message.content[..mid];
    if marker != "" && mid < |message.content| {
      candidate := candidate + marker;
    }
    var size := EstimateTokens(b, [message.(content := candidate)]);
    fits := size <= remaining;
  }

  method TruncateMessageToBudget(b: Builder, message: Message, remaining: int, marker: string, allowEmpty: bool)
    returns (truncated: Option<Message>)
    ensures truncated == Truncated(b, message, remaining, marker, allowEmpty)
  {
    var overhead := EstimateTokens(b, [message.(content := "")]);
    if remaining < overhead {
      return None;
    }
    if !allowEmpty && remaining <= overhead + 4 {
      return None;
    }
    var content := message.content;
    if content == "" {
      return Some(message);
    }
    var low: nat, high := 0, |content|;
    var best: Option<string> := None;
    ghost var found: Option<nat> := None;
    while low <= high
      invariant high <= |content|
      invariant found.Some? ==> found.value <= |content|
      invariant best == if found.None? then None else Some(Candidate(content, marker, found.value))
      invariant Search(b, message, remaining, marker, low, high, found) == BestCut(b, message, remaining, marker)
      decreases high - low + 1
    {
      var mid := (low + high) / 2;
      var candidateContent, fits := MeasureCandidate(b, message, remaining, marker, mid);
      if fits {
        best, found := Some(candidateContent), Some(mid);
        low := mid + 1;
      } else {
        high := mid - 1;
      }
    }
    if best.None? || (best.value == "" && !allowEmpty) {
      return None;
    }
    return Some(message.(content := best.value));
  }

  /** Whatever the tokenizer: a found cut lies in the content and fits, and when none is found not even
      the shortest candidate fits. */
  lemma {:induction false} SearchFinds(b: Builder, m: Message, remaining: int, marker: string, low: nat, high: int, best: Option<nat>)
    requires high <= |m.content|
    requires best.Some? ==> best.value <= |m.content| && CutFits(b, m, remaining, marker, best.value)
    requires best.None? ==> low == 0
    requires best.None? && high < 0 ==> !CutFits(b, m, remaining, marker, 0)
    ensures var r := Search(b, m, remaining, marker, low, high, best);
      if r.Some? then r.value <= |m.content| && CutFits(b, m, remaining, marker, r.value)
      else !CutFits(b, m, remaining, marker, 0)
    decreases high - low + 1
  {
    if low <= high {
      var mid := (low + high) / 2;
      var fits := CutFits(b, m, remaining, marker, mid);
      if fits {
        SearchFinds(b, m, remaining, marker, mid + 1, high, Some(mid));
      } else {
        SearchFinds(b, m, remaining, marker, low, mid - 1, best);
      }
    }
  }

  /** Of two cuts the shorter one fits when the longer one does. */
  ghost predicate ShorterFits(b: Builder, m: Message, remaining: int, marker: string) {
    forall i, j :: 0 <= i < j <= |m.content| && CutFits(b, m, remaining, marker, j) ==> CutFits(b, m, remaining, marker, i)
  }

  /** The cuts that fit are exactly those up to `r`. */
  ghost predicate IsLongestFit(b: Builder, m: Message, remaining: int, marker: string, r: Option<nat>) {
    forall j :: 0 <= j <= |m.content| ==> (CutFits(b, m, remaining, marker, j) <==> r.Some? && j <= r.value)
  }

  /** The cut in front of `low`, if any, fits and was the last found; the cut behind `high`, if any, does not fit. */
  predicate Encloses(b: Builder, m: Message, remaining: int, marker: string, low: nat, high: int, best: Option<nat>) {
    && low <= high + 1 <= |m.content| + 1
    && (if low == 0 then best.None? else best == Some(low - 1) && CutFits(b, m, remaining, marker, low - 1))
    && (high < |m.content| ==> !CutFits(b, m, remaining, marker, high + 1))
  }

  lemma EnclosedCut(b: Builder, m: Message, remaining: int, marker: string, low: nat, best: Option<nat>)
    requires ShorterFits(b, m, remaining, marker) && Encloses(b, m, remaining, marker, low, low - 1, best)
    ensures IsLongestFit(b, m, remaining, marker, best)
  {
  }

  /** Then the search returns the longest cut that fits. */
  lemma {:induction false} SearchIsMaximal(b: Builder, m: Message, remaining: int, marker: string, low: nat, high: int, best: Option<nat>)
    requires ShorterFits(b, m, remaining, marker) && Encloses(b, m, remaining, marker, low, high, best)
    ensures IsLongestFit(b, m, remaining, marker, Search(b, m, remaining, marker, low, high, best))
    decreases high - low + 1
  {
    if low <= high {
      var mid := (low + high) / 2;
      assert low <= mid <= high;
      if CutFits(b, m, remaining, marker, mid) {
        SearchIsMaximal(b, m, remaining, marker, mid + 1, high, Some(mid));
      } else {
        SearchIsMaximal(b, m, remaining, marker, low, mid - 1, best);
      }
    } else {
      EnclosedCut(b, m, remaining, marker, low, best);
    }
  }

  /** What a truncated message is: the same message with a prefix of its content, marked when shortened,
      and it fits. */
  lemma TruncatedFits(b: Builder, m: Message, remaining: int, marker: string, allowEmpty: bool)
    ensures var r := Truncated(b, m, remaining, marker, allowEmpty);
      r.Some? ==>
        && Cost(b, r.value) <= remaining
        && exists mid :: 0 <= mid <= |m.content| && r.value == m.(content := Candidate(m.content, marker, mid))
  {
    var r := Truncated(b, m, remaining, marker, allowEmpty);
    if r.Some? {
      SearchFinds(b, m, remaining, marker, 0, |m.content|, None);
      var mid := if m.content == "" then 0 else BestCut(b, m, remaining, marker).value;
      assert m.content == "" ==> m.(content := "") == m;
      assert r.value == m.(content := Candidate(m.content, marker, mid));
    }
  }

  /** When the search runs at all, it succeeds whenever the shortest candidate fits. */
  lemma TruncationSucceeds(b: Builder, m: Message, remaining: int, marker: string)
    requires m.content != ""
    requires Cost(b, m.(content := "")) <= remaining && CutFits(b, m, remaining, marker, 0)
    ensures Truncated(b, m, remaining, marker, true).Some?
  {
    SearchFinds(b, m, remaining, marker, 0, |m.content|, None);
  }

  /** Longer candidates never cost less. */
  ghost predicate NeverCheaper(b: Builder, m: Message, marker: string) {
    forall i, j :: 0 <= i < j <= |m.content| && (marker == "" || j < |m.content|) ==>
      Cost(b, m.(content := Candidate(m.content, marker, i))) <= Cost(b, m.(content := Candidate(m.content, marker, j)))
  }

  /** When extending a candidate never makes it smaller, and either there is no marker or the whole content
      does not fit, the result is the longest candidate that fits. */
  lemma TruncationIsMaximal(b: Builder, m: Message, remaining: int, marker: string)
    requires marker == "" || !CutFits(b, m, remaining, marker, |m.content|)
    requires NeverCheaper(b, m, marker)
    ensures IsLongestFit(b, m, remaining, marker, BestCut(b, m, remaining, marker))
  {
    SearchIsMaximal(b, m, remaining, marker, 0, |m.content|, None);
  }

  // ---- Which protected message is cut first ----

  /** Tool results go first, then assistant messages with calls, other assistant messages, user messages.
      System messages and empty contents are never cut. */
  function Bucket(m: Message): nat {
    if m.content == "" || m.role.System? then 4
    else if m.role.Tool? then 0
    else if m.role.Assistant? then if HasToolCalls(m) then 1 else 2
    else 3
  }

  /** The positions from `i` on in one bucket, ascending. */
  function BucketFrom(ms: seq<Message>, bucket: nat, i: nat): (r: seq<nat>)
    requires i <= |ms|
    ensures InRange(ms, r)
    decreases |ms| - i
  {
    if i == |ms| then []
    else if Bucket(ms[i]) == bucket then [i] + BucketFrom(ms, bucket, i + 1)
    else BucketFrom(ms, bucket, i + 1)
  }

  predicate InRange(ms: seq<Message>, indices: seq<nat>) {
    forall k :: 0 <= k < |indices| ==> indices[k] < |ms|
  }

  /** Put `index` before the first position whose content is not longer. */
  function InsertLongest(ms: seq<Message>, index: nat, sorted: seq<nat>): (r: seq<nat>)
    requires index < |ms| && InRange(ms, sorted)
    ensures InRange(ms, r)
  {
    if sorted == [] || |ms[index].content| >= |ms[sorted[0]].content| then [index] + sorted
    else [sorted[0]] + InsertLongest(ms, index, sorted[1..])
  }

  /** The stable sort by content length, longest first. */
  function SortLongest(ms: seq<Message>, indices: seq<nat>): (r: seq<nat>)
    requires InRange(ms, indices)
    ensures InRange(ms, r)
  {
    if indices == [] then [] else InsertLongest(ms, indices[0], SortLongest(ms, indices[1..]))
  }

  function SortedBucket(ms: seq<Message>, bucket: nat): (r: seq<nat>)
    ensures InRange(ms, r)
  {
    SortLongest(ms, BucketFrom(ms, bucket, 0))
  }

  /** The order in which protected messages are tried for truncation. */
  function TruncationOrder(ms: seq<Message>): (r: seq<nat>)
    ensures InRange(ms, r)
  {
    (SortedBucket(ms, 0) + SortedBucket(ms, 1)) + (SortedBucket(ms, 2) + SortedBucket(ms, 3))
  }

  predicate CanBeCut(m: Message) {
    m.content != "" && !m.role.System?
  }

  /** Tool results are cut before all others, assistant messages before user messages, and among assistant
      messages those with calls before those without. */
  predicate KindFirst(x: Message, y: Message) {
    || (x.role.Tool? && !y.role.Tool?)
    || (x.role.Assistant? && y.role.User?)
    || (x.role.Assistant? && y.role.Assistant? && HasToolCalls(x) && !HasToolCalls(y))
  }

  predicate SameKind(x: Message, y: Message) {
    x.role == y.role && HasToolCalls(x) == HasToolCalls(y)
  }

  /** A message that is safer to cut: its kind comes first, then the longer content, then the older one. */
  predicate SaferToCut(ms: seq<Message>, i: nat, j: nat)
    requires i < |ms| && j < |ms|
  {
    KindFirst(ms[i], ms[j])
    || (SameKind(ms[i], ms[j])
        && (|ms[i].content| > |ms[j].content| || (|ms[i].content| == |ms[j].content| && i < j)))
  }

  lemma BucketMeaning(x: Message, y: Message)
    ensures CanBeCut(x) <==> Bucket(x) < 4
    ensures Bucket(x) < Bucket(y) < 4 ==> KindFirst(x, y)
    ensures Bucket(x) == Bucket(y) < 4 ==> SameKind(x, y)
  {
  }

  predicate InOrder(ms: seq<Message>, s: seq<nat>)
    requires InRange(ms, s)
  {
    s == [] || ((forall x :: x in s[1..] ==> x < |ms| && SaferToCut(ms, s[0], x)) && InOrder(ms, s[1..]))
  }

  lemma {:induction false} InsertKeepsOrder(ms: seq<Message>, index: nat, sorted: seq<nat>)
    requires index < |ms| && InRange(ms, sorted) && InOrder(ms, sorted)
    requires forall x :: x in sorted ==> index < x < |ms| && SameKind(ms[x], ms[index])
    ensures var r := InsertLongest(ms, index, sorted);
      InOrder(ms, r) && forall x :: x in r <==> x == index || x in sorted
  {
    if sorted == [] {
    } else if |ms[index].content| >= |ms[sorted[0]].content| {
      assert ([index] + sorted)[1..] == sorted;
      assert forall x :: x in sorted ==> x == sorted[0] || x in sorted[1..];
    } else {
      InsertKeepsOrder(ms, index, sorted[1..]);
      assert sorted == [sorted[0]] + sorted[1..];
      var rest := InsertLongest(ms, index, sorted[1..]);
      assert ([sorted[0]] + rest)[1..] == rest;
    }
  }

  lemma {:induction false} SortedBucketFrom(ms: seq<Message>, bucket: nat, i: nat)
    requires i <= |ms| && bucket < 4
    ensures var r := SortLongest(ms, BucketFrom(ms, bucket, i));
      InOrder(ms, r) && forall x :: x in r <==> i <= x < |ms| && Bucket(ms[x]) == bucket
    decreases |ms| - i
  {
    if i < |ms| {
      SortedBucketFrom(ms, bucket, i + 1);
      var rest := BucketFrom(ms, bucket, i + 1);
      if Bucket(ms[i]) == bucket {
        assert ([i] + rest)[1..] == rest;
        forall x | x in SortLongest(ms, rest) ensures SameKind(ms[x], ms[i]) {
          BucketMeaning(ms[x], ms[i]);
        }
        InsertKeepsOrder(ms, i, SortLongest(ms, rest));
      }
    }
  }

  lemma {:induction false} OrderAppend(ms: seq<Message>, a: seq<nat>, c: seq<nat>)
    requires InRange(ms, a) && InOrder(ms, a) && InRange(ms, c) && InOrder(ms, c)
    requires forall x, y :: x in a && y in c ==> x < |ms| && y < |ms| && SaferToCut(ms, x, y)
    ensures InRange(ms, a + c) && InOrder(ms, a + c)
  {
    if a == [] {
      assert a + c == c;
    } else {
      assert (a + c)[1..] == a[1..] + c;
      OrderAppend(ms, a[1..], c);
    }
  }

  /** The positions of these buckets, in order. */
  ghost predicate ListsBuckets(ms: seq<Message>, s: seq<nat>, first: nat, end: nat) {
    InRange(ms, s) && InOrder(ms, s) && forall x :: x in s <==> 0 <= x < |ms| && first <= Bucket(ms[x]) < end
  }

  lemma ListsOne(ms: seq<Message>, bucket: nat)
    requires bucket < 4
    ensures ListsBuckets(ms, SortedBucket(ms, bucket), bucket, bucket + 1)
  {
    SortedBucketFrom(ms, bucket, 0);
  }

  lemma ListsBoth(ms: seq<Message>, a: seq<nat>, c: seq<nat>, first: nat, middle: nat, end: nat)
    requires first <= middle <= end <= 4 && ListsBuckets(ms, a, first, middle) && ListsBuckets(ms, c, middle, end)
    ensures ListsBuckets(ms, a + c, first, end)
  {
    forall x, y | x in a && y in c ensures x < |ms| && y < |ms| && SaferToCut(ms, x, y) {
      BucketMeaning(ms[x], ms[y]);
    }
    OrderAppend(ms, a, c);
  }

  /** The order lists every message that may be cut, and no other, from the safest to the least safe. */
  lemma TruncationOrderMeaning(ms: seq<Message>)
    ensures InOrder(ms, TruncationOrder(ms))
    ensures forall x :: x in TruncationOrder(ms) <==> 0 <= x < |ms| && CanBeCut(ms[x])
  {
    ListsOne(ms, 0);
    ListsOne(ms, 1);
    ListsOne(ms, 2);
    ListsOne(ms, 3);
    ListsBoth(ms, SortedBucket(ms, 0), SortedBucket(ms, 1), 0, 1, 2);
    ListsBoth(ms, SortedBucket(ms, 2), SortedBucket(ms, 3), 2, 3, 4);
    ListsBoth(ms, SortedBucket(ms, 0) + SortedBucket(ms, 1), SortedBucket(ms, 2) + SortedBucket(ms, 3), 0, 2, 4);
  }

  // ---- Fitting the protected messages ----

  const TRUNCATION_MARKER := "\n[truncated due to context budget]"

  function Without(ms: seq<Message>, index: nat): seq<Message>
    requires index < |ms|
  {
    ms[..index] + ms[index + 1..]
  }

  /** What truncating the message at `index` to the room the others leave yields, if anything. */
  function CutAt(b: Builder, prefix: seq<Message>, ms: seq<Message>, index: nat): Option<Message>
    requires index < |ms|
  {
    var m := ms[index];
    var remaining := Usable(b) - Size(b, prefix + Without(ms, index));
    if remaining <= 0 || Size(b, [m]) <= remaining then None
    else
      var marked := Truncated(b, m, remaining, TRUNCATION_MARKER, true);
      var cut := if marked.None? then Truncated(b, m, remaining, "", true) else marked;
      if cut.None? || cut.value.content == m.content then None else cut
  }

  /** The first position of `order` whose truncation makes progress. */
  function FirstCut(b: Builder, prefix: seq<Message>, ms: seq<Message>, order: seq<nat>): (r: Option<nat>)
    requires InRange(ms, order)
    ensures r.Some? ==> r.value in order && r.value < |ms| && CutAt(b, prefix, ms, r.value).Some?
  {
    if order == [] then None
    else if CutAt(b, prefix, ms, order[0]).Some? then Some(order[0])
    else FirstCut(b, prefix, ms, order[1..])
  }

  function ProtectedFit(b: Builder, prefix: seq<Message>, protected: seq<Message>): seq<Message> {
    if Size(b, prefix + protected) <= Usable(b) then protected
    else
      var first := FirstCut(b, prefix, protected, TruncationOrder(protected));
      if first.Some? then protected[first.value := CutAt(b, prefix, protected, first.value).value]
      else Kept(b, protected, Size(b, prefix))
  }

  lemma SizeReplace(b: Builder, prefix: seq<Message>, ms: seq<Message>, index: nat, m: Message)
    requires index < |ms|
    ensures Size(b, prefix + ms[index := m]) == Size(b, prefix + Without(ms, index)) + Cost(b, m)
  {
    assert ms[index := m] == ms[..index] + ([m] + ms[index + 1..]);
    SizeAppend(b, prefix, ms[index := m]);
    SizeAppend(b, ms[..index], [m] + ms[index + 1..]);
    SizeAppend(b, [m], ms[index + 1..]);
    SizeAppend(b, prefix, Without(ms, index));
    SizeAppend(b, ms[..index], ms[index + 1..]);
    SizeOne(b, m);
  }

  /** A truncation that makes progress brings the whole list within the budget, so one is enough. */
  lemma CutFitsBudget(b: Builder, prefix: seq<Message>, ms: seq<Message>, index: nat)
    requires index < |ms| && CutAt(b, prefix, ms, index).Some?
    ensures Size(b, prefix + ms[index := CutAt(b, prefix, ms, index).value]) <= Usable(b)
  {
    var m := ms[index];
    var remaining := Usable(b) - Size(b, prefix + Without(ms, index));
    TruncatedFits(b, m, remaining, TRUNCATION_MARKER, true);
    TruncatedFits(b, m, remaining, "", true);
    SizeReplace(b, prefix, ms, index, CutAt(b, prefix, ms, index).value);
  }

  method TryCut(b: Builder, prefix: seq<Message>, ms: seq<Message>, index: nat) returns (cut: Option<Message>)
    requires index < |ms|
    ensures cut == CutAt(b, prefix, ms, index)
  {
    var message := ms[index];
    var messageTokens := EstimateTokens(b, [message]);
    var others := EstimateTokens(b, prefix + Without(ms, index));
    var remaining := Usable(b) - others;
    if remaining <= 0 || messageTokens <= remaining {
      return None;
    }
    cut := TruncateMessageToBudget(b, message, remaining, TRUNCATION_MARKER, true);
    if cut.None? {
      cut := TruncateMessageToBudget(b, message, remaining, "", true);
    }
    if cut.Some? && cut.value.content == message.content {
      cut := None;
    }
  }

  method FitProtectedMessages(b: Builder, prefix: seq<Message>, protected: seq<Message>) returns (fit: seq<Message>)
    ensures fit == ProtectedFit(b, prefix, protected)
  {
    var size := EstimateTokens(b, prefix + protected);
    if size <= Usable(b) {
      return protected;
    }
    var compacted := protected;
    ghost var first := FirstCut(b, prefix, protected, TruncationOrder(protected));
    while size > Usable(b)
      invariant size == Size(b, prefix + compacted)
      invariant if size > Usable(b) then compacted == protected
        else first.Some? && compacted == protected[first.value := CutAt(b, prefix, protected, first.value).value]
      decreases if size > Usable(b) then 1 else 0
    {
      var order := TruncationOrder(compacted);
      var found := FindCut(b, prefix, compacted, order);
      if found.None? {
        break;
      }
      var cut := TryCut(b, prefix, compacted, found.value);
      CutFitsBudget(b, prefix, compacted, found.value);
      compacted := compacted[found.value := cut.value];
      size := EstimateTokens(b, prefix + compacted);
    }
    if size <= Usable(b) {
      return compacted;
    }
    var dropped;
    fit, dropped := SlidingWindowWithSuffix(b, compacted, prefix, []);
    assert prefix + [] == prefix;
  }

  /** The inner loop: walk the order until a truncation makes progress. */
  method FindCut(b: Builder, prefix: seq<Message>, ms: seq<Message>, order: seq<nat>) returns (found: Option<nat>)
    requires InRange(ms, order)
    ensures found == FirstCut(b, prefix, ms, order)
  {
    for k := 0 to |order|
      invariant FirstCut(b, prefix, ms, order) == FirstCut(b, prefix, ms, order[k..])
    {
      var cut := TryCut(b, prefix, ms, order[k]);
      if cut.Some? {
        return Some(order[k]);
      }
      assert order[k..][1..] == order[k + 1..];
    }
    return None;
  }

  /** One message of `ms` lost the end of its content, and nothing else changed. */
  ghost predicate OneMessageCut(ms: seq<Message>, fit: seq<Message>, index: nat, mid: nat, marked: bool) {
    && index < |ms| && mid < |ms[index].content|
    && fit == ms[index := ms[index].(content := ms[index].content[..mid] + if marked then TRUNCATION_MARKER else "")]
  }

  /** The protected messages come out untouched, or with one message cut and the total within budget, or as
      the newest-first window over the untouched messages. */
  lemma ProtectedFitCases(b: Builder, prefix: seq<Message>, protected: seq<Message>)
    ensures var fit := ProtectedFit(b, prefix, protected);
      if Size(b, prefix + protected) <= Usable(b) then fit == protected
      else
        || (Size(b, prefix + fit) <= Usable(b)
            && exists index, mid, marked :: OneMessageCut(protected, fit, index, mid, marked))
        || fit == Kept(b, protected, Size(b, prefix))
  {
    var first := FirstCut(b, prefix, protected, TruncationOrder(protected));
    if Size(b, prefix + protected) > Usable(b) && first.Some? {
      CutFitsBudget(b, prefix, protected, first.value);
      TruncationOrderMeaning(protected);
      CutIsPrefix(b, prefix, protected, first.value);
    }
  }

  lemma CutIsPrefix(b: Builder, prefix: seq<Message>, ms: seq<Message>, index: nat)
    requires index < |ms| && CanBeCut(ms[index]) && CutAt(b, prefix, ms, index).Some?
    ensures var fit := ms[index := CutAt(b, prefix, ms, index).value];
      exists mid, marked :: OneMessageCut(ms, fit, index, mid, marked)
  {
    var mid, marker := CutAtIsCut(b, prefix, ms, index);
    assert OneMessageCut(ms, ms[index := CutAt(b, prefix, ms, index).value], index, mid, marker == TRUNCATION_MARKER);
  }

  // ---- What the fitted turn is, without the order and the search ----

  function Room(b: Builder, prefix: seq<Message>, ms: seq<Message>, i: nat): int
    requires i < |ms|
  {
    Usable(b) - Size(b, prefix + Without(ms, i))
  }

  /** The message is too large for the room the others leave, and fits it without its content. */
  predicate CanShorten(b: Builder, prefix: seq<Message>, ms: seq<Message>, i: nat) {
    i < |ms| && CanBeCut(ms[i]) && Room(b, prefix, ms, i) > 0
    && Cost(b, ms[i].(content := "")) <= Room(b, prefix, ms, i) < Cost(b, ms[i])
  }

  /** The first `mid` characters, with the marker unless not even the marker alone fits; and no longer part would fit,
      provided that longer never costs less. */
  ghost predicate CutTo(b: Builder, m: Message, room: int, cut: Message, mid: nat, marker: string) {
    && mid < |m.content| && cut == m.(content := m.content[..mid] + marker)
    && (marker == TRUNCATION_MARKER || (marker == "" && !CutFits(b, m, room, TRUNCATION_MARKER, 0)))
    && CutFits(b, m, room, marker, mid)
    && (NeverCheaper(b, m, marker) ==> forall j :: mid < j <= |m.content| ==> !CutFits(b, m, room, marker, j))
  }

  /** Message `i` is the safest to cut of all that can be shortened, and it alone is. */
  ghost predicate SafestIsCut(b: Builder, prefix: seq<Message>, ms: seq<Message>, fit: seq<Message>, i: nat) {
    && CanShorten(b, prefix, ms, i)
    && (forall j :: CanShorten(b, prefix, ms, j) && j != i ==> SaferToCut(ms, i, j))
    && |fit| == |ms| && fit == ms[i := fit[i]]
    && exists mid, marker :: CutTo(b, ms[i], Room(b, prefix, ms, i), fit[i], mid, marker)
  }

  /** The active turn untouched when it fits; else with the safest message cut when one can be shortened at all; else
      the window over it. */
  ghost predicate IsFitted(b: Builder, prefix: seq<Message>, ms: seq<Message>, fit: seq<Message>) {
    if Size(b, prefix + ms) <= Usable(b) then fit == ms
    else if exists i :: CanShorten(b, prefix, ms, i) then exists i :: SafestIsCut(b, prefix, ms, fit, i)
    else exists dropped :: IsWindow(b, ms, Size(b, prefix), fit, dropped)
  }

  /** A truncation makes progress exactly when the message can be shortened. */
  lemma CutAtMeaning(b: Builder, prefix: seq<Message>, ms: seq<Message>, i: nat)
    requires i < |ms| && CanBeCut(ms[i])
    ensures CutAt(b, prefix, ms, i).Some? <==> CanShorten(b, prefix, ms, i)
  {
    var m, room := ms[i], Room(b, prefix, ms, i);
    SizeOne(b, m);
    assert m.content[..0] == "";
    if CanShorten(b, prefix, ms, i) {
      TruncationSucceeds(b, m, room, "");
      TruncatedFits(b, m, room, TRUNCATION_MARKER, true);
      TruncatedFits(b, m, room, "", true);
      assert m.(content := m.content) == m;
    }
  }

  lemma CutAtIsCut(b: Builder, prefix: seq<Message>, ms: seq<Message>, i: nat) returns (mid: nat, marker: string)
    requires i < |ms| && CanBeCut(ms[i]) && CutAt(b, prefix, ms, i).Some?
    ensures CutTo(b, ms[i], Room(b, prefix, ms, i), CutAt(b, prefix, ms, i).value, mid, marker)
  {
    var m, room := ms[i], Room(b, prefix, ms, i);
    SizeOne(b, m);
    CutAtMeaning(b, prefix, ms, i);
    SearchFinds(b, m, room, TRUNCATION_MARKER, 0, |m.content|, None);
    SearchFinds(b, m, room, "", 0, |m.content|, None);
    marker := if Truncated(b, m, room, TRUNCATION_MARKER, true).Some? then TRUNCATION_MARKER else "";
    mid := BestCut(b, m, room, marker).value;
    assert m.content[..|m.content|] == m.content && m.(content := m.content) == m;
    assert !CutFits(b, m, room, marker, |m.content|);
    assert m.content[..mid] + "" == m.content[..mid];
    if NeverCheaper(b, m, marker) {
      TruncationIsMaximal(b, m, room, marker);
    }
  }

  lemma ReplacedByCut(b: Builder, prefix: seq<Message>, ms: seq<Message>, i: nat)
    requires i < |ms| && CanBeCut(ms[i]) && CutAt(b, prefix, ms, i).Some?
    ensures var fit := ms[i := CutAt(b, prefix, ms, i).value];
      && |fit| == |ms| && fit == ms[i := fit[i]]
      && exists mid, marker :: CutTo(b, ms[i], Room(b, prefix, ms, i), fit[i], mid, marker)
  {
    var mid, marker := CutAtIsCut(b, prefix, ms, i);
  }

  /** The first truncation in the order that makes progress is the safest one. */
  lemma {:induction false} FirstCutIsSafest(b: Builder, prefix: seq<Message>, ms: seq<Message>, order: seq<nat>)
    requires InRange(ms, order) && InOrder(ms, order)
    ensures var first := FirstCut(b, prefix, ms, order);
      && (first.None? ==> forall j :: j in order ==> CutAt(b, prefix, ms, j).None?)
      && (first.Some? ==> forall j :: j in order && j != first.value && CutAt(b, prefix, ms, j).Some? ==>
            SaferToCut(ms, first.value, j))
  {
    if order != [] {
      assert forall j :: j in order <==> j == order[0] || j in order[1..];
      FirstCutIsSafest(b, prefix, ms, order[1..]);
    }
  }

  /** The fitted turn is exactly that. */
  lemma ProtectedFitMeaning(b: Builder, prefix: seq<Message>, ms: seq<Message>)
    ensures IsFitted(b, prefix, ms, ProtectedFit(b, prefix, ms))
  {
    var order := TruncationOrder(ms);
    var first, fit := FirstCut(b, prefix, ms, order), ProtectedFit(b, prefix, ms);
    TruncationOrderMeaning(ms);
    FirstCutIsSafest(b, prefix, ms, order);
    forall j ensures CanShorten(b, prefix, ms, j) <==> j in order && CutAt(b, prefix, ms, j).Some? {
      if j in order {
        CutAtMeaning(b, prefix, ms, j);
      }
    }
    if Size(b, prefix + ms) > Usable(b) {
      if first.Some? {
        ReplacedByCut(b, prefix, ms, first.value);
        assert SafestIsCut(b, prefix, ms, fit, first.value);
      } else {
        WindowMeaning(b, ms, Size(b, prefix));
      }
    }
  }
}
