/** The two built-in token counters, and the fact budgeting needs of them: extending a message's content
    never makes the message smaller, so the truncation search returns the longest content that fits. */
module Tokenization {
  import opened Messages
  import opened ContextWindow
  import opened ContextTruncation

  // ---- The heuristic counter ----

  /** A character of an ASCII word run, a lone symbol, or one that no token covers. */
  datatype CharClass = WordChar | Symbol | Skipped

  predicate IsAsciiWord(c: char) {
    'A' <= c <= 'Z' || 'a' <= c <= 'z' || '0' <= c <= '9' || c == '_'
  }

  predicate IsAsciiSpace(c: char) {
    c == ' ' || '\t' <= c <= '\r' || '\U{1C}' <= c <= '\U{1F}'
  }

  /** `wordOrSpace` classifies the characters beyond ASCII by the Unicode tables. */
  function Classify(wordOrSpace: char -> bool, c: char): CharClass {
    if c < '\U{80}' then
      if IsAsciiWord(c) then WordChar else if IsAsciiSpace(c) then Skipped else Symbol
    else if wordOrSpace(c) then Skipped else Symbol
  }

  /** The number of maximal ASCII word runs and of symbols; `inWord` tells that a run is being continued. */
  function Matches(wordOrSpace: char -> bool, text: string, inWord: bool): nat {
    if text == "" then 0
    else
      match Classify(wordOrSpace, text[0])
      case WordChar => (if inWord then 0 else 1) + Matches(wordOrSpace, text[1..], true)
      case Symbol => 1 + Matches(wordOrSpace, text[1..], false)
      case Skipped => Matches(wordOrSpace, text[1..], false)
  }

  function CeilDiv(n: nat, d: nat): nat
    requires d > 0
  {
    (n + d - 1) / d
  }

  function AtLeastOne(n: nat): nat {
    if n < 1 then 1 else n
  }

  function HeuristicCount(wordOrSpace: char -> bool, text: string): nat {
    if text == "" then 0
    else
      var tokens := Matches(wordOrSpace, text, false);
      if tokens > 0 then tokens else AtLeastOne(CeilDiv(|text|, 4))
  }

  lemma {:induction false} MatchesPrefix(wordOrSpace: char -> bool, s: string, t: string, inWord: bool)
    ensures Matches(wordOrSpace, s, inWord) <= Matches(wordOrSpace, s + t, inWord)
  {
    if s != "" {
      assert (s + t)[1..] == s[1..] + t;
      MatchesPrefix(wordOrSpace, s[1..], t, Classify(wordOrSpace, s[0]).WordChar?);
    }
  }

  /** No run crosses a line break. */
  lemma {:induction false} MatchesSplit(wordOrSpace: char -> bool, s: string, t: string, inWord: bool)
    requires t != "" && t[0] == '\n'
    ensures Matches(wordOrSpace, s + t, inWord) == Matches(wordOrSpace, s, inWord) + Matches(wordOrSpace, t, false)
  {
    if s == "" {
      assert s + t == t;
    } else {
      assert (s + t)[1..] == s[1..] + t;
      MatchesSplit(wordOrSpace, s[1..], t, Classify(wordOrSpace, s[0]).WordChar?);
    }
  }

  /** A token starts at a symbol, and at a word character that follows no other. */
  predicate StartsToken(wordOrSpace: char -> bool, text: string, i: nat) {
    i < |text| && (Classify(wordOrSpace, text[i]).Symbol?
      || (Classify(wordOrSpace, text[i]).WordChar? && (i > 0 ==> !Classify(wordOrSpace, text[i - 1]).WordChar?)))
  }

  function TokenStarts(wordOrSpace: char -> bool, text: string, n: nat): set<nat> {
    set i | 0 <= i < n && StartsToken(wordOrSpace, text, i)
  }

  function Following(wordOrSpace: char -> bool, text: string): bool {
    text != "" && Classify(wordOrSpace, text[|text| - 1]).WordChar?
  }

  lemma {:induction false} MatchesAppend(wordOrSpace: char -> bool, text: string, c: char, inWord: bool)
    ensures Matches(wordOrSpace, text + [c], inWord) == Matches(wordOrSpace, text, inWord)
      + match Classify(wordOrSpace, c)
        case WordChar => if (if text == "" then inWord else Following(wordOrSpace, text)) then 0 else 1
        case Symbol => 1
        case Skipped => 0
  {
    if text == "" {
      assert (text + [c])[1..] == "";
    } else {
      assert (text + [c])[1..] == text[1..] + [c];
      MatchesAppend(wordOrSpace, text[1..], c, Classify(wordOrSpace, text[0]).WordChar?);
    }
  }

  /** The count is the number of positions at which a token starts. */
  lemma {:induction false} MatchesMeaning(wordOrSpace: char -> bool, text: string, n: nat)
    requires n <= |text|
    ensures Matches(wordOrSpace, text[..n], false) == |TokenStarts(wordOrSpace, text, n)|
  {
    if n > 0 {
      MatchesMeaning(wordOrSpace, text, n - 1);
      MatchesAppend(wordOrSpace, text[..n - 1], text[n - 1], false);
      assert text[..n - 1] + [text[n - 1]] == text[..n];
      var before := TokenStarts(wordOrSpace, text, n - 1);
      if StartsToken(wordOrSpace, text, n - 1) {
        assert TokenStarts(wordOrSpace, text, n) == before + {n - 1};
      } else {
        assert TokenStarts(wordOrSpace, text, n) == before;
      }
    }
  }

  /** Every budget text starts with a word, so the fallback of the heuristic never applies to it. */
  lemma HeuristicOfBudgetText(wordOrSpace: char -> bool, m: Message)
    ensures HeuristicCount(wordOrSpace, BudgetText(m)) == Matches(wordOrSpace, BudgetText(m), false)
  {
    var text := BudgetText(m);
    assert text[0] == "role:"[0] == 'r';
  }

  // ---- The character counter ----

  function CharacterCount(charsPerToken: int, text: string): nat {
    if text == "" then 0
    else
      var ratio: nat := if charsPerToken > 0 then charsPerToken else 4;
      AtLeastOne(CeilDiv(|text|, ratio))
  }

  /** So many characters to a token, rounded up. */
  predicate RoundsUp(tokens: nat, length: nat, ratio: nat) {
    (tokens - 1) * ratio < length <= tokens * ratio
  }

  /** No text counts nothing; else the heuristic counts the tokens, or four characters to a token where there is none, and
      the estimate its characters per token, four unless a positive number is set. */
  lemma CountMeaning(counter: Counter, text: string)
    ensures text == "" ==> Count(counter, text) == 0
    ensures text != "" && counter.CharacterEstimate? ==>
      RoundsUp(Count(counter, text), |text|, if counter.charsPerToken > 0 then counter.charsPerToken else 4)
    ensures text != "" && counter.Heuristic? ==>
      var starts := TokenStarts(counter.wordOrSpace, text, |text|);
      if starts != {} then Count(counter, text) == |starts| else RoundsUp(Count(counter, text), |text|, 4)
  {
    if text != "" {
      match counter
      case Heuristic(wordOrSpace) =>
        MatchesMeaning(wordOrSpace, text, |text|);
        assert text[..|text|] == text;
        CeilDivMeaning(|text|, 4);
      case CharacterEstimate(charsPerToken) =>
        CeilDivMeaning(|text|, if charsPerToken > 0 then charsPerToken else 4);
    }
  }

  lemma CeilDivMeaning(n: nat, d: nat)
    requires n > 0 && d > 0
    ensures RoundsUp(CeilDiv(n, d), n, d) && CeilDiv(n, d) >= 1
  {
    var q := CeilDiv(n, d);
    assert d * q <= n + d - 1 < d * q + d;
    assert (q - 1) * d == d * q - d && q * d == d * q;
  }

  lemma CeilDivMonotone(a: nat, c: nat, d: nat)
    requires a <= c && d > 0
    ensures CeilDiv(a, d) <= CeilDiv(c, d)
  {
    DivMonotone(a + d - 1, c + d - 1, d);
  }

  lemma {:induction false} MulMonotone(d: nat, x: nat, y: nat)
    requires x <= y
    ensures d * x <= d * y
    decreases y
  {
    if x < y {
      MulMonotone(d, x, y - 1);
      assert d * y == d * (y - 1) + d;
    }
  }

  lemma DivMonotone(x: nat, y: nat, d: nat)
    requires x <= y && d > 0
    ensures x / d <= y / d
  {
    var q, r := x / d, y / d;
    assert d * q <= x;
    assert y < d * r + d == d * (r + 1);
    if r + 1 <= q {
      MulMonotone(d, r + 1, q);
    }
  }

  // ---- Monotonicity on serialized messages ----

  /** One of the two built-in counters. */
  datatype Counter = Heuristic(wordOrSpace: char -> bool) | CharacterEstimate(charsPerToken: int)

  function Count(counter: Counter, text: string): nat {
    match counter
    case Heuristic(wordOrSpace) => HeuristicCount(wordOrSpace, text)
    case CharacterEstimate(charsPerToken) => CharacterCount(charsPerToken, text)
  }

  /** Two messages that differ in their content only; the shorter content is a prefix, or both are prefixes
      of one text followed by the same marker line. */
  lemma LongerContentCostsMore(counter: Counter, m: Message, short: string, long: string, marker: string)
    requires short <= long
    requires marker == "" || marker[0] == '\n'
    ensures Count(counter, BudgetText(m.(content := short + marker))) <= Count(counter, BudgetText(m.(content := long + marker)))
  {
    var head, tail := BudgetHead(m), marker + ("\n" + BudgetTail(m));
    TextWithContent(m, short, marker);
    TextWithContent(m, long, marker);
    match counter
    case Heuristic(wordOrSpace) =>
      HeuristicOfBudgetText(wordOrSpace, m.(content := short + marker));
      HeuristicOfBudgetText(wordOrSpace, m.(content := long + marker));
      MatchesSplit(wordOrSpace, head + short, tail, false);
      MatchesSplit(wordOrSpace, head + long, tail, false);
      assert (head + short) + long[|short|..] == head + long;
      MatchesPrefix(wordOrSpace, head + short, long[|short|..], false);
    case CharacterEstimate(charsPerToken) =>
      CeilDivMonotone(|(head + short) + tail|, |(head + long) + tail|, if charsPerToken > 0 then charsPerToken else 4);
  }

  lemma TextWithContent(m: Message, content: string, marker: string)
    ensures BudgetText(m.(content := content + marker)) == (BudgetHead(m) + content) + (marker + ("\n" + BudgetTail(m)))
  {
    var changed := m.(content := content + marker);
    assert BudgetHead(changed) == BudgetHead(m) && BudgetTail(changed) == BudgetTail(m);
    Assoc(BudgetHead(m), content, marker);
    Assoc(BudgetHead(m) + content, marker, "\n" + BudgetTail(m));
  }

  /** With either built-in counter, cutting a message that does not fit (or cutting without a marker) keeps
      the longest prefix that fits. */
  lemma TruncationKeepsTheLongestPrefix(counter: Counter, b: Builder, m: Message, remaining: int, marker: string)
    requires forall text :: b.tokenizer(text) == Count(counter, text)
    requires marker == "" || marker == TRUNCATION_MARKER
    requires marker == "" || Cost(b, m) > remaining
    ensures var r := BestCut(b, m, remaining, marker);
      forall j :: 0 <= j <= |m.content| ==> (CutFits(b, m, remaining, marker, j) <==> r.Some? && j <= r.value)
  {
    forall i, j | 0 <= i < j <= |m.content| && (marker == "" || j < |m.content|)
      ensures Cost(b, m.(content := Candidate(m.content, marker, i))) <= Cost(b, m.(content := Candidate(m.content, marker, j)))
    {
      LongerContentCostsMore(counter, m, m.content[..i], m.content[..j], marker);
      assert m.content[..i] + "" == m.content[..i] && m.content[..j] + "" == m.content[..j];
    }
    assert m.content[..|m.content|] == m.content;
    TruncationIsMaximal(b, m, remaining, marker);
  }

  // ---- What a message is measured by ----

  /** The length of a line with a label, when the field is there. */
  function LineLength(present: bool, heading: string, field: string): nat {
    if present then |heading| + |field| + 1 else 0
  }

  /** Role, source, content, reasoning, its signature, the mark of redacted thinking, parts and metadata are all counted,
      each on a line of its own. */
  lemma EveryFieldCounts(m: Message)
    ensures |BudgetText(m)| + 1
         == LineLength(true, "role:", RoleName(m.role)) + LineLength(true, "source:", m.source)
          + LineLength(true, "content:", m.content) + LineLength(m.reasoning != "", "reasoning:", m.reasoning)
          + LineLength(m.reasoningSignature != "", "reasoning_signature:", m.reasoningSignature)
          + LineLength(m.redactedThinking, "has_redacted_thinking:", "true") + LineLength(true, "parts:", m.partsJson)
          + LineLength(true, "metadata:", if m.metadata.Some? then m.metadata.value.json else "")
  {
    assert |BudgetText(m)| == |BudgetHead(m)| + |m.content| + 1 + |BudgetTail(m)|;
    assert |BudgetTail(m)| == |ReasoningText(m)| + 6 + |m.partsJson| + 10 + if m.metadata.Some? then |m.metadata.value.json| else 0;
  }
}
