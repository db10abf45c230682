/** The generated section of a workspace's MEMORY.md: it is found by its two markers and replaced as a whole,
    while the text the user wrote around it stays. */
module MemoryMarkdown {
  import opened Messages
  import opened Text

  /** The comment lines that open and close the generated section. */
  datatype Markers = Markers(start: string, end: string) {
    /** What the replacement needs of them: no line break inside, no blank at either end of the end marker, and no
        two end markers that overlap. */
    predicate Usable() {
      '\n' !in start && '\n' !in end && start != "" && end != ""
      && !IsSpace(end[0]) && !IsSpace(end[|end| - 1]) && end[0] !in end[1..]
    }
  }

  const MARKERS := Markers("<!-- nahida-memory-generated:start -->", "<!-- nahida-memory-generated:end -->")
  const DEFAULT_BODY := "# Memory\n\n" + ("<" + ("!-- User-editable long-term " + "workspace memory. -->"))

  // ---- Stripping ----

  /** The characters that stripping removes. */
  predicate IsSpace(c: char) {
    '\t' <= c <= '\r' || '\U{1C}' <= c <= ' ' || c == '\U{85}' || c == '\U{A0}' || c == '\U{1680}'
    || '\U{2000}' <= c <= '\U{200A}' || c == '\U{2028}' || c == '\U{2029}' || c == '\U{202F}' || c == '\U{205F}'
    || c == '\U{3000}'
  }

  predicate Blank(text: string) {
    forall i :: 0 <= i < |text| ==> IsSpace(text[i])
  }

  predicate EndsInText(text: string) {
    text == "" || !IsSpace(text[|text| - 1])
  }

  predicate StartsWithText(text: string) {
    text == "" || !IsSpace(text[0])
  }

  /** The first position from `i` on that is not blank. */
  function FirstText(text: string, i: nat): (n: nat)
    requires i <= |text|
    ensures i <= n <= |text| && (n < |text| ==> !IsSpace(text[n]))
    ensures forall k :: i <= k < n ==> IsSpace(text[k])
    decreases |text| - i
  {
    if i < |text| && IsSpace(text[i]) then FirstText(text, i + 1) else i
  }

  /** The end of the text before its trailing blanks, looking down from `i`. */
  function TextEnd(text: string, i: nat): (n: nat)
    requires i <= |text|
    ensures n <= i && (n > 0 ==> !IsSpace(text[n - 1]))
    ensures forall k :: n <= k < i ==> IsSpace(text[k])
  {
    if i > 0 && IsSpace(text[i - 1]) then TextEnd(text, i - 1) else i
  }

  function RStrip(text: string): (r: string)
    ensures r <= text && EndsInText(r)
  {
    text[..TextEnd(text, |text|)]
  }

  function LStrip(text: string): (r: string)
    ensures |r| <= |text| && StartsWithText(r)
  {
    text[FirstText(text, 0)..]
  }

  lemma RStripIs(front: string, space: string)
    requires EndsInText(front) && Blank(space)
    ensures RStrip(front + space) == front
  {
    var text := front + space;
    assert front != "" ==> text[|front| - 1] == front[|front| - 1];
    assert forall k :: 0 <= k < |space| ==> text[|front| + k] == space[k];
    assert text[..|front|] == front;
  }

  lemma LStripIs(space: string, back: string)
    requires StartsWithText(back) && Blank(space)
    ensures LStrip(space + back) == back
  {
    var text := space + back;
    assert back != "" ==> text[|space|] == back[0];
    assert forall k :: 0 <= k < |space| ==> text[k] == space[k];
    assert text[|space|..] == back;
  }

  // ---- Replacing the section ----

  function Body(existing: string): (body: string)
    ensures body != ""
  {
    var body := RStrip(existing);
    if body == "" then DEFAULT_BODY else body
  }

  /** Where the first start marker and the first end marker begin, if the start does not come later. */
  datatype Section = NoSection | Section(start: nat, end: nat)

  function SectionAt(m: Markers, body: string): (at: Section)
    ensures at.Section? ==> at.start <= at.end && OccursAt(body, m.start, at.start) && OccursAt(body, m.end, at.end)
  {
    var start, end := Find(body, m.start, 0), Find(body, m.end, 0);
    if start.Some? && end.Some? && end.value >= start.value then Section(start.value, end.value) else NoSection
  }

  function ReplaceGeneratedSection(m: Markers, existing: string, generated: string): string {
    var body := Body(existing);
    var at := SectionAt(m, body);
    if at.Section? then
      RStrip(RStrip(body[..at.start]) + ("\n\n" + (generated + ("\n\n" + LStrip(body[at.end + |m.end|..]))))) + "\n"
    else
      body + ("\n\n" + (generated + "\n"))
  }

  /** Something that can be written: a text that does not end in blanks. */
  predicate Writable(generated: string) {
    generated != "" && EndsInText(generated)
  }

  /** A text between a start marker and an end marker. */
  predicate Framed(m: Markers, generated: string) {
    OccursAt(generated, m.start, 0) && |m.end| <= |generated| && OccursAt(generated, m.end, |generated| - |m.end|)
  }

  /** A generated block opens with the start marker, and its only end marker closes it. */
  predicate Block(m: Markers, generated: string) {
    OccursAt(generated, m.start, 0) && var end := Find(generated, m.end, 0); end.Some? && end.value + |m.end| == |generated|
  }

  /** Neither marker, or both with the first start ahead of the first end. */
  predicate MarkersInOrder(m: Markers, body: string) {
    SectionAt(m, body).Section? || (Find(body, m.start, 0).None? && Find(body, m.end, 0).None?)
  }

  function Before(m: Markers, body: string): string {
    var at := SectionAt(m, body);
    if at.Section? then RStrip(body[..at.start]) else body
  }

  function After(m: Markers, body: string): string {
    var at := SectionAt(m, body);
    if at.Section? then LStrip(body[at.end + |m.end|..]) else ""
  }

  function Tail(after: string): string {
    if after == "" then "" else "\n\n" + after
  }

  function Layout(before: string, generated: string, after: string): string {
    before + ("\n\n" + (generated + Tail(after)))
  }

  // ---- Where the markers are found ----

  lemma NotYet(text: string, marker: string, j: nat)
    requires var at := Find(text, marker, 0); at.Some? ==> j < at.value
    ensures !OccursAt(text, marker, j)
  {
    if OccursAt(text, marker, j) {
      FindsFirst(text, marker, 0, j);
    }
  }

  /** An occurrence inside the front part is an occurrence in the whole text, and the first one stays the first. */
  lemma FindInFront(front: string, rest: string, marker: string)
    requires Find(front, marker, 0).Some?
    ensures var at := Find(front + rest, marker, 0); at.Some? && at.value == Find(front, marker, 0).value
  {
    var k := Find(front, marker, 0).value;
    var text := front + rest;
    OccursInFront(front, rest, marker, k);
    forall j: nat | j < k ensures !OccursAt(text, marker, j) {
      OccursInFront(front, rest, marker, j);
      NotYet(front, marker, j);
    }
    FindIs(text, marker, k);
  }

  predicate LineBreaks(gap: string) {
    gap != "" && forall i :: 0 <= i < |gap| ==> gap[i] == '\n'
  }

  /** A marker has no line break in it, so it cannot lie across the gap between two parts. */
  lemma OccursInHalf(front: string, gap: string, back: string, marker: string, j: nat)
    requires LineBreaks(gap) && '\n' !in marker && marker != ""
    requires Find(front, marker, 0).None?
    requires j <= |front| + |gap| + |back|
    ensures OccursAt(front + (gap + back), marker, j)
        <==> j >= |front| + |gap| && OccursAt(back, marker, j - |front| - |gap|)
  {
    if j >= |front| + |gap| {
      OccursInBack(front + gap, back, marker, j);
      Assoc(front, gap, back);
    } else if j + |marker| <= |front| {
      OccursInFront(front, gap + back, marker, j);
      NotYet(front, marker, j);
    } else {
      OccursOverGap(front, gap, back, marker, j);
    }
  }

  lemma OccursInBack(front: string, back: string, marker: string, j: nat)
    requires j >= |front|
    ensures OccursAt(front + back, marker, j) <==> OccursAt(back, marker, j - |front|)
  {
  }

  lemma OccursInFront(front: string, back: string, marker: string, j: nat)
    requires j + |marker| <= |front|
    ensures OccursAt(front + back, marker, j) <==> OccursAt(front, marker, j)
  {
  }

  lemma OccursOverGap(front: string, gap: string, back: string, marker: string, j: nat)
    requires LineBreaks(gap) && '\n' !in marker && marker != ""
    requires j < |front| + |gap| && j + |marker| > |front|
    ensures !OccursAt(front + (gap + back), marker, j)
  {
    var text := front + (gap + back);
    var at := if j <= |front| then |front| else j;
    assert text[at] == gap[at - |front|] == '\n';
    assert marker[at - j] in marker;
  }

  lemma NotBefore(front: string, gap: string, back: string, marker: string, j: nat)
    requires LineBreaks(gap) && '\n' !in marker && marker != ""
    requires Find(front, marker, 0).None? && Find(back, marker, 0).Some?
    requires j < |front| + |gap| + Find(back, marker, 0).value
    ensures !OccursAt(front + (gap + back), marker, j)
  {
    OccursInHalf(front, gap, back, marker, j);
    if j >= |front| + |gap| {
      NotYet(back, marker, j - |front| - |gap|);
    }
  }

  lemma {:induction false} FindBehind(front: string, gap: string, back: string, marker: string, i: nat)
    requires LineBreaks(gap) && '\n' !in marker && marker != ""
    requires Find(front, marker, 0).None? && Find(back, marker, 0).Some?
    requires i <= |front| + |gap| + Find(back, marker, 0).value
    ensures i <= |front + (gap + back)|
    ensures var at := Find(front + (gap + back), marker, i);
      at.Some? && at.value == |front| + |gap| + Find(back, marker, 0).value
    decreases |front| + |gap| + Find(back, marker, 0).value - i
  {
    if i == |front| + |gap| + Find(back, marker, 0).value {
      OccursInHalf(front, gap, back, marker, i);
    } else {
      NotBefore(front, gap, back, marker, i);
      FindBehind(front, gap, back, marker, i + 1);
    }
  }

  lemma NoneBehind(front: string, gap: string, back: string, marker: string)
    requires LineBreaks(gap) && '\n' !in marker && marker != ""
    requires Find(front, marker, 0).None? && Find(back, marker, 0).None?
    ensures Find(front + (gap + back), marker, 0).None?
  {
    var at := Find(front + (gap + back), marker, 0);
    if at.Some? {
      OccursInHalf(front, gap, back, marker, at.value);
      FindsFirst(back, marker, 0, at.value - |front| - |gap|);
    }
  }

  /** A front part that ends before the first occurrence has none. */
  lemma NoneInFront(text: string, n: nat, marker: string)
    requires n <= |text| && marker != ""
    requires var at := Find(text, marker, 0); at.Some? ==> n <= at.value
    ensures Find(text[..n], marker, 0).None?
  {
    var r := Find(text[..n], marker, 0);
    if r.Some? {
      assert OccursAt(text, marker, r.value);
      FindsFirst(text, marker, 0, r.value);
    }
  }

  // ---- The layout of the file ----

  lemma FramedEnds(m: Markers, generated: string)
    requires m.Usable() && Framed(m, generated)
    ensures Writable(generated) && Find(generated, m.end, 0).Some?
    ensures Find(generated, m.end, 0).value + |m.end| <= |generated|
  {
    var n := |generated| - |m.end|;
    assert generated[n + (|m.end| - 1)] == m.end[|m.end| - 1];
    FindsFirst(generated, m.end, 0, n);
  }

  lemma BlockIsFramed(m: Markers, generated: string)
    requires Block(m, generated)
    ensures Framed(m, generated)
  {
  }

  lemma BlockIsWritable(m: Markers, generated: string)
    requires m.Usable() && Block(m, generated)
    ensures Writable(generated)
  {
    BlockIsFramed(m, generated);
    FramedEnds(m, generated);
  }

  lemma BodyEnds(existing: string)
    ensures EndsInText(Body(existing))
  {
  }

  lemma LayoutEnds(before: string, generated: string, after: string)
    requires generated != "" && EndsInText(generated) && EndsInText(after)
    ensures EndsInText(Layout(before, generated, after)) && Layout(before, generated, after) != ""
  {
    var text := Layout(before, generated, after);
    assert text[|text| - 1] == if after == "" then generated[|generated| - 1] else after[|after| - 1];
  }

  lemma StrippedLayout(before: string, generated: string, after: string)
    requires generated != "" && EndsInText(generated) && EndsInText(after)
    ensures RStrip(before + ("\n\n" + (generated + ("\n\n" + after)))) == Layout(before, generated, after)
  {
    LayoutEnds(before, generated, after);
    if after == "" {
      RStripIs(Layout(before, generated, after), "\n\n");
      assert generated + ("\n\n" + after) == (generated + "") + "\n\n";
      Assoc("\n\n", generated + "", "\n\n");
      Assoc(before, "\n\n" + (generated + ""), "\n\n");
    }
  }

  lemma AfterEnds(m: Markers, body: string)
    requires EndsInText(body)
    ensures EndsInText(After(m, body))
  {
    var after := After(m, body);
    assert after != "" ==> after[|after| - 1] == body[|body| - 1];
  }

  /** Replacing puts the new text between the text before the old section and the text after it. */
  lemma ReplacedLayout(m: Markers, existing: string, generated: string)
    requires Writable(generated) && MarkersInOrder(m, Body(existing))
    ensures ReplaceGeneratedSection(m, existing, generated)
         == Layout(Before(m, Body(existing)), generated, After(m, Body(existing))) + "\n"
    ensures EndsInText(After(m, Body(existing)))
  {
    var body := Body(existing);
    BodyEnds(existing);
    AfterEnds(m, body);
    if SectionAt(m, body).Section? {
      StrippedLayout(Before(m, body), generated, After(m, body));
    } else {
      AppendedLayout(body, generated);
    }
  }

  lemma AppendedLayout(body: string, generated: string)
    ensures body + ("\n\n" + (generated + "\n")) == Layout(body, generated, "") + "\n"
  {
    assert generated + "" == generated;
    Assoc("\n\n", generated, "\n");
    Assoc(body, "\n\n" + generated, "\n");
  }

  lemma LayoutIsBody(before: string, generated: string, after: string)
    requires Writable(generated) && EndsInText(after)
    ensures Body(Layout(before, generated, after) + "\n") == Layout(before, generated, after)
  {
    LayoutEnds(before, generated, after);
    RStripIs(Layout(before, generated, after), "\n");
  }

  /** No marker lies in the text before the section. */
  lemma BeforeIsClean(m: Markers, body: string)
    requires m.Usable() && MarkersInOrder(m, body)
    ensures Find(Before(m, body), m.start, 0).None? && Find(Before(m, body), m.end, 0).None?
  {
    var at := SectionAt(m, body);
    if at.Section? {
      var before := Before(m, body);
      assert before == body[..|before|];
      NoneInFront(body, |before|, m.start);
      NoneInFront(body, |before|, m.end);
    }
  }

  lemma FindInBlock(before: string, generated: string, tail: string, marker: string)
    requires '\n' !in marker && marker != ""
    requires Find(before, marker, 0).None? && Find(generated, marker, 0).Some?
    ensures var at := Find(before + ("\n\n" + (generated + tail)), marker, 0);
      at.Some? && at.value == |before| + 2 + Find(generated, marker, 0).value
  {
    FindInFront(generated, tail, marker);
    FindBehind(before, "\n\n", generated + tail, marker, 0);
  }

  /** What of a text follows its first end marker. */
  function Rest(m: Markers, generated: string): (rest: string)
    requires m.Usable() && Framed(m, generated)
    ensures |rest| <= |generated| && rest == generated[|generated| - |rest|..]
  {
    FramedEnds(m, generated);
    generated[Find(generated, m.end, 0).value + |m.end|..]
  }

  /** In a file laid out so, the section found runs from the start of the text to its first end marker. */
  lemma SectionOfLayout(m: Markers, before: string, generated: string, after: string)
    requires m.Usable() && Framed(m, generated) && Find(before, m.start, 0).None? && Find(before, m.end, 0).None?
    ensures var at := SectionAt(m, Layout(before, generated, after));
      && at.Section? && at.start == |before| + 2
      && at.end + |m.end| == |before| + 2 + (|generated| - |Rest(m, generated)|)
  {
    FramedEnds(m, generated);
    FindInBlock(before, generated, Tail(after), m.start);
    FindInBlock(before, generated, Tail(after), m.end);
  }

  lemma CutLayout(text: string, before: string, generated: string, tail: string, start: nat, end: nat, rest: string)
    requires text == before + ("\n\n" + (generated + tail)) && start == |before| + 2
    requires |rest| <= |generated| && rest == generated[|generated| - |rest|..] && end == start + (|generated| - |rest|)
    ensures text[..start] == before + "\n\n" && text[start..end] == generated[..|generated| - |rest|]
    ensures text[end..] == rest + tail
  {
  }

  lemma LayoutCuts(m: Markers, text: string, before: string, generated: string, after: string)
    requires m.Usable() && Framed(m, generated) && Find(before, m.start, 0).None? && Find(before, m.end, 0).None?
    requires text == Layout(before, generated, after)
    ensures var at, rest := SectionAt(m, text), Rest(m, generated);
      && at.Section? && text[..at.start] == before + "\n\n"
      && text[at.start..at.end + |m.end|] == generated[..|generated| - |rest|]
      && text[at.end + |m.end|..] == rest + Tail(after)
  {
    SectionOfLayout(m, before, generated, after);
    FramedEnds(m, generated);
    var at := SectionAt(m, text);
    CutLayout(text, before, generated, Tail(after), at.start, at.end + |m.end|, Rest(m, generated));
  }

  lemma BlockHasNoRest(m: Markers, generated: string)
    requires m.Usable() && Framed(m, generated)
    ensures Block(m, generated) <==> Rest(m, generated) == ""
  {
    FramedEnds(m, generated);
    assert Rest(m, generated) == "" <==> |Rest(m, generated)| == 0;
  }

  lemma AfterTail(after: string)
    requires StartsWithText(after)
    ensures LStrip(Tail(after)) == after
  {
    if after != "" {
      LStripIs("\n\n", after);
    }
  }

  lemma BeforeGap(before: string)
    requires EndsInText(before)
    ensures RStrip(before + "\n\n") == before
  {
    RStripIs(before, "\n\n");
  }

  lemma PartsAre(m: Markers, text: string, front: string, tail: string)
    requires var at := SectionAt(m, text); at.Section? && text[..at.start] == front && text[at.end + |m.end|..] == tail
    ensures Before(m, text) == RStrip(front) && After(m, text) == LStrip(tail)
  {
  }

  lemma LayoutParts(m: Markers, text: string, before: string, generated: string, after: string)
    requires m.Usable() && Framed(m, generated) && Find(before, m.start, 0).None? && Find(before, m.end, 0).None?
    requires EndsInText(before) && text == Layout(before, generated, after)
    ensures Before(m, text) == before && After(m, text) == LStrip(Rest(m, generated) + Tail(after))
  {
    BeforeGap(before);
    LayoutCuts(m, text, before, generated, after);
    PartsAre(m, text, before + "\n\n", Rest(m, generated) + Tail(after));
  }

  /** The section a run finds, its markers included, is the given text. */
  predicate SectionIs(m: Markers, body: string, section: string) {
    var at := SectionAt(m, body);
    at.Section? && body[at.start..at.end + |m.end|] == section
  }

  /** What was written is what a later run finds between the markers, the markers included. */
  lemma WrittenBlockIsFound(m: Markers, existing: string, generated: string, written: string)
    requires m.Usable() && Block(m, generated) && MarkersInOrder(m, Body(existing))
    requires written == ReplaceGeneratedSection(m, existing, generated)
    ensures SectionIs(m, Body(written), generated)
  {
    BlockIsWritable(m, generated);
    WrittenBody(m, existing, generated);
    FoundBetween(m, Body(existing), Body(written), generated);
  }

  lemma FoundBetween(m: Markers, body: string, text: string, generated: string)
    requires m.Usable() && Block(m, generated) && MarkersInOrder(m, body)
    requires text == Layout(Before(m, body), generated, After(m, body))
    ensures SectionIs(m, text, generated)
  {
    BeforeIsClean(m, body);
    FoundBlock(m, text, Before(m, body), generated, After(m, body));
  }

  lemma WrittenBody(m: Markers, existing: string, generated: string)
    requires Writable(generated) && MarkersInOrder(m, Body(existing))
    ensures Body(ReplaceGeneratedSection(m, existing, generated))
         == Layout(Before(m, Body(existing)), generated, After(m, Body(existing)))
  {
    ReplacedLayout(m, existing, generated);
    LayoutIsBody(Before(m, Body(existing)), generated, After(m, Body(existing)));
  }

  lemma FoundBlock(m: Markers, text: string, before: string, generated: string, after: string)
    requires m.Usable() && Block(m, generated) && Find(before, m.start, 0).None? && Find(before, m.end, 0).None?
    requires text == Layout(before, generated, after)
    ensures SectionIs(m, text, generated)
  {
    BlockIsFramed(m, generated);
    BlockHasNoRest(m, generated);
    LayoutCuts(m, text, before, generated, after);
    assert generated[..|generated|] == generated;
  }

  // ---- The last writer wins ----

  /** With the markers in order, the second run keeps whatever of the first text followed its first end marker. */
  lemma SecondRun(m: Markers, existing: string, first: string, second: string)
    requires m.Usable() && Framed(m, first) && Writable(second) && MarkersInOrder(m, Body(existing))
    ensures var body := Body(existing);
      ReplaceGeneratedSection(m, ReplaceGeneratedSection(m, existing, first), second)
      == Layout(Before(m, body), second, LStrip(Rest(m, first) + Tail(After(m, body)))) + "\n"
  {
    var body := Body(existing);
    var before, after := Before(m, body), After(m, body);
    FramedEnds(m, first);
    WrittenBody(m, existing, first);
    BeforeIsClean(m, body);
    BodyEnds(existing);
    LayoutParts(m, Layout(before, first, after), before, first, after);
    SectionOfLayout(m, before, first, after);
    ReplacedLayout(m, ReplaceGeneratedSection(m, existing, first), second);
  }

  lemma LStripKeepsText(front: string, back: string)
    requires front != "" && EndsInText(front)
    ensures |LStrip(front + back)| > |back|
  {
    assert (front + back)[|front| - 1] == front[|front| - 1];
  }

  lemma LayoutSize(before: string, generated: string, after: string)
    ensures |Layout(before, generated, after) + "\n"| == |before| + |generated| + |Tail(after)| + 3
  {
  }

  /** With the markers in order, the second run undoes the first exactly when the first text was a block. */
  lemma SecondReplacesFirst(m: Markers, existing: string, first: string, second: string)
    requires m.Usable() && Framed(m, first) && Writable(second) && MarkersInOrder(m, Body(existing))
    ensures ReplaceGeneratedSection(m, ReplaceGeneratedSection(m, existing, first), second)
         == ReplaceGeneratedSection(m, existing, second)
        <==> Block(m, first)
  {
    var before, after, rest := Before(m, Body(existing)), After(m, Body(existing)), Rest(m, first);
    SecondRun(m, existing, first, second);
    ReplacedLayout(m, existing, second);
    BlockHasNoRest(m, first);
    if rest == "" {
      assert rest + Tail(after) == Tail(after);
      AfterTail(after);
    } else {
      RestEnds(m, first);
      LStripKeepsText(rest, Tail(after));
      LayoutSize(before, second, LStrip(rest + Tail(after)));
      LayoutSize(before, second, after);
    }
  }

  lemma RestEnds(m: Markers, generated: string)
    requires m.Usable() && Framed(m, generated)
    ensures EndsInText(Rest(m, generated))
  {
    FramedEnds(m, generated);
    var rest := Rest(m, generated);
    assert rest != "" ==> rest[|rest| - 1] == generated[|generated| - 1];
  }

  lemma AppendedSize(m: Markers, existing: string, generated: string)
    requires !SectionAt(m, Body(existing)).Section?
    ensures ReplaceGeneratedSection(m, existing, generated) == Layout(Body(existing), generated, "") + "\n"
    ensures |ReplaceGeneratedSection(m, existing, generated)| == |Body(existing)| + |generated| + 3
  {
    AppendedLayout(Body(existing), generated);
  }

  /** With an end marker that no start marker precedes, every run appends one more section. */
  lemma StrayEndAppends(m: Markers, existing: string, first: string, second: string)
    requires m.Usable() && Framed(m, first)
    requires var body := Body(existing); !SectionAt(m, body).Section? && Find(body, m.end, 0).Some?
    ensures |ReplaceGeneratedSection(m, ReplaceGeneratedSection(m, existing, first), second)|
         == |ReplaceGeneratedSection(m, existing, second)| + 2 + |first|
  {
    var body := Body(existing);
    FramedEnds(m, first);
    AppendedSize(m, existing, first);
    AppendedSize(m, existing, second);
    LayoutIsBody(body, first, "");
    NoSectionKept(m, body, first);
    AppendedSize(m, ReplaceGeneratedSection(m, existing, first), second);
  }

  lemma NoSectionKept(m: Markers, body: string, first: string)
    requires m.Usable() && Framed(m, first) && !SectionAt(m, body).Section? && Find(body, m.end, 0).Some?
    ensures !SectionAt(m, Layout(body, first, "")).Section?
  {
    FindInFront(body, "\n\n" + (first + Tail("")), m.end);
    if Find(body, m.start, 0).Some? {
      FindInFront(body, "\n\n" + (first + Tail("")), m.start);
    } else {
      FindInBlock(body, first, Tail(""), m.start);
    }
  }

  /** With a start marker that no end marker follows, the second run swallows the user's text behind it. */
  lemma StrayStartSwallows(m: Markers, existing: string, first: string, second: string)
    requires m.Usable() && Framed(m, first) && Writable(second)
    requires var body := Body(existing); Find(body, m.start, 0).Some? && Find(body, m.end, 0).None?
    ensures var body := Body(existing); var start := Find(body, m.start, 0).value;
      ReplaceGeneratedSection(m, ReplaceGeneratedSection(m, existing, first), second)
      == Layout(RStrip(body[..start]), second, LStrip(Rest(m, first))) + "\n"
  {
    var body := Body(existing);
    FramedEnds(m, first);
    AppendedSize(m, existing, first);
    LayoutIsBody(body, first, "");
    SwallowedSection(m, body, first);
    PartsAre(m, Layout(body, first, ""), body[..Find(body, m.start, 0).value], Rest(m, first));
    ReplacedLayout(m, ReplaceGeneratedSection(m, existing, first), second);
  }

  lemma SwallowedSection(m: Markers, body: string, first: string)
    requires m.Usable() && Framed(m, first)
    requires Find(body, m.start, 0).Some? && Find(body, m.end, 0).None?
    ensures var text := Layout(body, first, ""); var at := SectionAt(m, text);
      at.Section? && text[..at.start] == body[..Find(body, m.start, 0).value] && text[at.end + |m.end|..] == Rest(m, first)
  {
    FramedEnds(m, first);
    FindInFront(body, "\n\n" + (first + Tail("")), m.start);
    FindInBlock(body, first, Tail(""), m.end);
    SwallowedCut(Layout(body, first, ""), body, first, Rest(m, first), Find(body, m.start, 0).value,
                 SectionAt(m, Layout(body, first, "")).end + |m.end|);
  }

  lemma SwallowedCut(text: string, body: string, first: string, rest: string, start: nat, end: nat)
    requires text == Layout(body, first, "") && start <= |body|
    requires |rest| <= |first| && rest == first[|first| - |rest|..] && end == |body| + 2 + (|first| - |rest|)
    ensures text[..start] == body[..start] && text[end..] == rest
  {
    CutLayout(text, body, first, Tail(""), |body| + 2, end, rest);
    assert rest + Tail("") == rest;
  }

  // ---- Counting markers ----

  function Count(text: string, marker: string, i: nat): nat
    requires i <= |text|
    decreases |text| - i
  {
    if i == |text| then 0 else (if OccursAt(text, marker, i) then 1 else 0) + Count(text, marker, i + 1)
  }

  lemma {:induction false} CountInBack(front: string, back: string, marker: string, i: nat)
    requires i <= |back|
    ensures Count(front + back, marker, |front| + i) == Count(back, marker, i)
    decreases |back| - i
  {
    if i < |back| {
      OccursInBack(front, back, marker, |front| + i);
      CountInBack(front, back, marker, i + 1);
    }
  }

  /** No marker lies across a gap, so the counts of both sides add up. */
  lemma {:induction false} CountAround(front: string, gap: string, back: string, marker: string, i: nat)
    requires LineBreaks(gap) && '\n' !in marker && marker != "" && i <= |front| + |gap|
    ensures Count(front + (gap + back), marker, i)
         == (if i <= |front| then Count(front, marker, i) else 0) + Count(back, marker, 0)
    decreases |front| + |gap| - i
  {
    if i == |front| + |gap| {
      Assoc(front, gap, back);
      CountInBack(front + gap, back, marker, 0);
    } else {
      CountAround(front, gap, back, marker, i + 1);
      if i + |marker| <= |front| {
        OccursInFront(front, gap + back, marker, i);
      } else {
        OccursOverGap(front, gap, back, marker, i);
      }
    }
  }

  lemma {:induction false} CountNone(text: string, marker: string, i: nat)
    requires i <= |text| && Find(text, marker, 0).None?
    ensures Count(text, marker, i) == 0
    decreases |text| - i
  {
    if i < |text| {
      NotYet(text, marker, i);
      CountNone(text, marker, i + 1);
    }
  }

  lemma {:induction false} CountSome(text: string, marker: string, i: nat, j: nat)
    requires i <= j < |text| && OccursAt(text, marker, j)
    ensures Count(text, marker, i) > 0
    decreases j - i
  {
    if i < j {
      CountSome(text, marker, i + 1, j);
    }
  }

  lemma CountOfLayout(before: string, generated: string, after: string, marker: string)
    requires '\n' !in marker && marker != "" && Find(before, marker, 0).None?
    ensures Count(Layout(before, generated, after), marker, 0)
         == Count(generated, marker, 0) + (if after == "" then 0 else Count(after, marker, 0))
  {
    CountAround(before, "\n\n", generated + Tail(after), marker, 0);
    CountNone(before, marker, 0);
    if after == "" {
      assert generated + Tail(after) == generated;
    } else {
      CountAround(generated, "\n\n", after, marker, 0);
    }
  }

  lemma Suffix(text: string, n: nat, marker: string, f: nat)
    requires n <= f && OccursAt(text, marker, f)
    ensures OccursAt(text[n..], marker, f - n)
  {
  }

  lemma LStripKeepsMarker(text: string, marker: string, j: nat)
    requires marker != "" && !IsSpace(marker[0]) && OccursAt(text, marker, j)
    ensures LStrip(text) != "" && Count(LStrip(text), marker, 0) > 0
  {
    var n := FirstText(text, 0);
    OccursFirst(text, marker, j);
    Suffix(text, n, marker, j);
    CountSome(LStrip(text), marker, 0, j - n);
  }

  /** When the first end marker does not close the text, the closing one stays behind. */
  lemma RestQuotesEnd(m: Markers, generated: string)
    requires m.Usable() && Framed(m, generated) && !Block(m, generated)
    ensures LStrip(Rest(m, generated)) != "" && Count(LStrip(Rest(m, generated)), m.end, 0) > 0
  {
    FramedEnds(m, generated);
    var e, f := Find(generated, m.end, 0).value, |generated| - |m.end|;
    NoOverlap(m, generated, e, f);
    Suffix(generated, e + |m.end|, m.end, f);
    LStripKeepsMarker(Rest(m, generated), m.end, f - (e + |m.end|));
  }

  lemma NoOverlap(m: Markers, text: string, e: nat, f: nat)
    requires m.Usable() && e < f && OccursAt(text, m.end, e) && OccursAt(text, m.end, f)
    ensures e + |m.end| <= f
  {
    assert text[f + 0] == m.end[0];
    forall p | e < p < e + |m.end| ensures text[p] != m.end[0] {
      assert text[e + (p - e)] == m.end[p - e] == m.end[1..][p - e - 1];
    }
  }

  /** A stray start marker: the two results differ whatever was written. */
  lemma StrayStartDiffers(m: Markers, existing: string, first: string, second: string)
    requires m.Usable() && Framed(m, first) && Writable(second)
    requires var body := Body(existing); Find(body, m.start, 0).Some? && Find(body, m.end, 0).None?
    ensures ReplaceGeneratedSection(m, ReplaceGeneratedSection(m, existing, first), second)
         != ReplaceGeneratedSection(m, existing, second)
  {
    var body := Body(existing);
    StrayStartSwallows(m, existing, first, second);
    AppendedSize(m, existing, second);
    RestIsNothingOrQuote(m, first);
    StrippedShorter(body, Find(body, m.start, 0).value);
    DifferentLayouts(body, |RStrip(body[..Find(body, m.start, 0).value])|, second, LStrip(Rest(m, first)), m.end);
  }

  lemma StrippedShorter(body: string, n: nat)
    requires n < |body|
    ensures var before := RStrip(body[..n]); |before| < |body| && before == body[..|before|]
  {
  }

  lemma RestIsNothingOrQuote(m: Markers, generated: string)
    requires m.Usable() && Framed(m, generated)
    ensures var rest := LStrip(Rest(m, generated)); rest != "" ==> Count(rest, m.end, 0) > 0
  {
    BlockHasNoRest(m, generated);
    if !Block(m, generated) {
      RestQuotesEnd(m, generated);
    }
  }

  /** A shorter front part, and behind the text either nothing or something with a marker. */
  lemma DifferentLayouts(body: string, n: nat, text: string, rest: string, marker: string)
    requires n < |body| && Find(body, marker, 0).None? && '\n' !in marker && marker != ""
    requires rest != "" ==> Count(rest, marker, 0) > 0
    ensures Layout(body[..n], text, rest) + "\n" != Layout(body, text, "") + "\n"
  {
    LayoutSize(body[..n], text, rest);
    LayoutSize(body, text, "");
    if rest != "" {
      NoneInFront(body, n, marker);
      CountOfLayout(body[..n], text, rest, marker);
      CountOfLayout(body, text, "", marker);
      SameLine(Layout(body[..n], text, rest), Layout(body, text, ""));
    }
  }

  lemma SameLine(a: string, b: string)
    ensures a + "\n" == b + "\n" ==> a == b
  {
    assert (a + "\n")[..|a|] == a && (b + "\n")[..|b|] == b;
    assert a + "\n" == b + "\n" ==> |a| == |b|;
  }

  /** A second replacement undoes a first one exactly when the user's text has its markers in order and the
      text written first has no end marker but its last. */
  lemma LastWriterWins(m: Markers, existing: string, first: string, second: string)
    requires m.Usable() && Framed(m, first) && Writable(second)
    ensures ReplaceGeneratedSection(m, ReplaceGeneratedSection(m, existing, first), second)
         == ReplaceGeneratedSection(m, existing, second)
        <==> MarkersInOrder(m, Body(existing)) && Block(m, first)
  {
    var body := Body(existing);
    if MarkersInOrder(m, body) {
      SecondReplacesFirst(m, existing, first, second);
    } else if Find(body, m.end, 0).Some? {
      StrayEndAppends(m, existing, first, second);
    } else {
      StrayStartDiffers(m, existing, first, second);
    }
  }

  lemma RStripGap(text: string) returns (gap: string)
    ensures text == RStrip(text) + gap && Blank(gap)
  {
    gap := text[TextEnd(text, |text|)..];
  }

  lemma LStripGap(text: string) returns (gap: string)
    ensures text == gap + LStrip(text) && Blank(gap)
  {
    gap := text[..FirstText(text, 0)];
  }

  /** The texts that `ReplacedLayout` keeps are the user's text around the old section, but for the blanks next
      to it. */
  lemma SurroundingsSurvive(m: Markers, body: string) returns (gapBefore: string, gapAfter: string)
    requires SectionAt(m, body).Section?
    ensures Blank(gapBefore) && Blank(gapAfter)
    ensures body[..SectionAt(m, body).start] == Before(m, body) + gapBefore
    ensures body[SectionAt(m, body).end + |m.end|..] == gapAfter + After(m, body)
  {
    var front, back := body[..SectionAt(m, body).start], body[SectionAt(m, body).end + |m.end|..];
    PartsAre(m, body, front, back);
    gapBefore := RStripGap(front);
    gapAfter := LStripGap(back);
  }

  // ---- The block built from the durable memory items ----

  datatype Item = Item(id: string, kind: string, title: string, content: string)

  /** The groups in the order they are written. */
  datatype Heading = Preferences | ProjectContext | Decisions | Tasks | Notes

  const HEADINGS := [Preferences, ProjectContext, Decisions, Tasks, Notes]

  function Title(h: Heading): string {
    match h
    case Preferences => "### Preferences"
    case ProjectContext => "### Project Context"
    case Decisions => "### Decisions"
    case Tasks => "### Tasks"
    case Notes => "### Notes"
  }

  /** A missing kind counts as a fact. */
  function HeadingOf(kind: string): Heading {
    if kind == "preference" then Preferences
    else if kind == "decision" then Decisions
    else if kind == "task" then Tasks
    else if kind == "" || kind == "fact" || kind == "procedure" || kind == "warning" then ProjectContext
    else Notes
  }

  function Strip(text: string): string {
    LStrip(RStrip(text))
  }

  function Entry(item: Item): string {
    var prefix := if item.id != "" then "- [" + item.id + "] " else "- ";
    if Strip(item.title) != "" then prefix + Strip(item.title) + ": " + Strip(item.content)
    else prefix + Strip(item.content)
  }

  /** An entry and the heading it is written under. */
  datatype Placed = Placed(heading: Heading, entry: string)

  /** Items without content are left out. */
  function Rendered(items: seq<Item>): seq<Placed> {
    if items == [] then []
    else
      var before, item := Rendered(items[..|items| - 1]), items[|items| - 1];
      if Strip(item.content) != "" then before + [Placed(HeadingOf(item.kind), Entry(item))] else before
  }

  function Under(placed: seq<Placed>, h: Heading): seq<string> {
    if placed == [] then []
    else
      var before, last := Under(placed[..|placed| - 1], h), placed[|placed| - 1];
      if last.heading == h then before + [last.entry] else before
  }

  function Group(h: Heading, entries: seq<string>): seq<string> {
    if entries == [] then [] else ["", Title(h), ""] + entries
  }

  function Groups(placed: seq<Placed>, headings: seq<Heading>): seq<string> {
    if headings == [] then []
    else
      var n := |headings| - 1;
      Groups(placed, headings[..n]) + Group(headings[n], Under(placed, headings[n]))
  }

  const NOTICE := "This section is " + ("auto-generated " + "from durable memory items.")

  const INTRODUCTION := ["## Structured Memory", "", NOTICE]

  function ShownItems(items: seq<Item>, maxItems: int): seq<Item> {
    if maxItems < 0 then [] else if maxItems < |items| then items[..maxItems] else items
  }

  function Projection(m: Markers, items: seq<Item>): string {
    Join([m.start] + (INTRODUCTION + Groups(Rendered(items), HEADINGS)) + [m.end], "\n")
  }

  lemma UnderAppend(placed: seq<Placed>, last: Placed, h: Heading)
    ensures Under(placed + [last], h) == if last.heading == h then Under(placed, h) + [last.entry] else Under(placed, h)
  {
    assert (placed + [last])[..|placed|] == placed;
  }

  ghost predicate Grouped(groups: map<Heading, seq<string>>, placed: seq<Placed>) {
    forall h: Heading :: h in groups && groups[h] == Under(placed, h)
  }

  method AddEntry(groups: map<Heading, seq<string>>, ghost placed: seq<Placed>, last: Placed)
      returns (after: map<Heading, seq<string>>)
    requires Grouped(groups, placed)
    ensures Grouped(after, placed + [last])
  {
    forall h: Heading {
      UnderAppend(placed, last, h);
    }
    after := groups[last.heading := groups[last.heading] + [last.entry]];
  }

  method GroupEntries(items: seq<Item>) returns (groups: map<Heading, seq<string>>)
    ensures Grouped(groups, Rendered(items))
  {
    groups := map[Preferences := [], ProjectContext := [], Decisions := [], Tasks := [], Notes := []];
    forall h: Heading ensures h in groups && groups[h] == [] {
      match h
      case Preferences =>
      case ProjectContext =>
      case Decisions =>
      case Tasks =>
      case Notes =>
    }
    for i := 0 to |items|
      invariant Grouped(groups, Rendered(items[..i]))
    {
      assert items[..i + 1][..i] == items[..i];
      if Strip(items[i].content) != "" {
        var placed := Placed(HeadingOf(items[i].kind), Entry(items[i]));
        groups := AddEntry(groups, Rendered(items[..i]), placed);
      }
    }
    assert items[..|items|] == items;
  }

  method WriteGroups(items: seq<Item>, headings: seq<Heading>) returns (lines: seq<string>)
    ensures lines == Groups(Rendered(items), headings)
  {
    var groups := GroupEntries(items);
    lines := [];
    for k := 0 to |headings|
      invariant lines == Groups(Rendered(items), headings[..k])
    {
      assert headings[..k + 1][..k] == headings[..k];
      if groups[headings[k]] != [] {
        lines := lines + (["", Title(headings[k]), ""] + groups[headings[k]]);
      }
    }
    assert headings[..|headings|] == headings;
  }

  lemma ProjectionIsStripped(m: Markers, items: seq<Item>)
    requires m.Usable()
    ensures EndsInText(Projection(m, items))
  {
    LastLineEnds([m.start] + (INTRODUCTION + Groups(Rendered(items), HEADINGS)), m.end);
  }

  lemma LastLineEnds(lines: seq<string>, last: string)
    requires last != "" && EndsInText(last)
    ensures EndsInText(Join(lines + [last], "\n"))
  {
    JoinAppend(lines, last, "\n");
    SameEnd(Join(lines, "\n") + "\n", last);
    Assoc(Join(lines, "\n"), "\n", last);
  }

  lemma SameEnd(front: string, last: string)
    requires last != "" && EndsInText(last)
    ensures EndsInText(front + last)
  {
  }

  lemma EndMarkerIsSimple()
    ensures MARKERS.end[0] == '<' && '<' !in MARKERS.end[1..] && !IsSpace(MARKERS.end[|MARKERS.end| - 1])
  {
    var a, b := "!-- nahida-memory-", "generated:end -->";
    assert '<' !in a && '<' !in b;
    NotInEither(a, b, '<');
    assert MARKERS.end[1..] == a + b;
    assert (a + b)[|a + b| - 1] == '>';
  }

  lemma EndMarkerIsOneLine()
    ensures '\n' !in MARKERS.end
  {
    var a, b := "<!-- nahida-memory-", "generated:end -->";
    assert '\n' !in a && '\n' !in b;
    NotInEither(a, b, '\n');
    assert MARKERS.end == a + b;
  }

  lemma StartMarkerIsOneLine()
    ensures '\n' !in MARKERS.start && MARKERS.start != ""
  {
    var a, b := "<!-- nahida-memory-", "generated:start -->";
    assert '\n' !in a && '\n' !in b;
    NotInEither(a, b, '\n');
    assert MARKERS.start == a + b;
  }

  lemma MarkersAreUsable()
    ensures MARKERS.Usable() && MARKERS.end[0] == '<'
  {
    EndMarkerIsSimple();
    EndMarkerIsOneLine();
    StartMarkerIsOneLine();
  }

  method BuildMemoryProjection(items: seq<Item>, maxItems: int) returns (text: string)
    ensures text == Projection(MARKERS, ShownItems(items, maxItems))
  {
    var shown := ShownItems(items, maxItems);
    var lines := WriteGroups(shown, HEADINGS);
    MarkersAreUsable();
    ProjectionIsStripped(MARKERS, shown);
    text := RStrip(Join([MARKERS.start] + (INTRODUCTION + lines) + [MARKERS.end], "\n"));
  }

  // ---- What the entries say ----

  /** The items shown are the first ones, as many as allowed. */
  lemma ShownMeaning(items: seq<Item>, maxItems: int)
    ensures ShownItems(items, maxItems) <= items
    ensures |ShownItems(items, maxItems)| == if maxItems <= 0 then 0 else if |items| <= maxItems then |items| else maxItems
  {
  }

  /** Which kinds go where. */
  lemma KindsAreFiled(kind: string)
    ensures HeadingOf(kind) == Preferences <==> kind == "preference"
    ensures HeadingOf(kind) == Decisions <==> kind == "decision"
    ensures HeadingOf(kind) == Tasks <==> kind == "task"
    ensures HeadingOf(kind) == ProjectContext <==> kind in ["", "fact", "procedure", "warning"]
    ensures HeadingOf(kind) == Notes <==> kind !in ["", "fact", "procedure", "warning", "preference", "decision", "task"]
  {
  }

  predicate EndsWith(text: string, ending: string) {
    |ending| <= |text| && text[|text| - |ending|..] == ending
  }

  /** The text is head, middle and ending. */
  predicate Consists(text: string, head: string, middle: string, ending: string) {
    |text| == |head| + |middle| + |ending| && head <= text && text[|head|..|head| + |middle|] == middle
    && text[|head| + |middle|..] == ending
  }

  lemma ThreeParts(head: string, middle: string, ending: string)
    ensures Consists(head + middle + ending, head, middle, ending)
  {
  }

  /** An entry is a bullet that names the id, then the title, then the content, the last two without surrounding blanks. */
  lemma EntryMeaning(item: Item)
    ensures var head := if item.id != "" then "- [" + item.id + "] " else "- ";
      var title := if Strip(item.title) != "" then Strip(item.title) + ": " else "";
      Consists(Entry(item), head, title, Strip(item.content))
  {
    var head := if item.id != "" then "- [" + item.id + "] " else "- ";
    var title := if Strip(item.title) != "" then Strip(item.title) + ": " else "";
    ThreeParts(head, title, Strip(item.content));
    Assoc(head, Strip(item.title), ": ");
    assert head + "" == head;
  }

  lemma {:induction false} UnderMembers(placed: seq<Placed>, h: Heading, entry: string)
    ensures entry in Under(placed, h) <==> Placed(h, entry) in placed
  {
    if placed != [] {
      var n := |placed| - 1;
      assert placed == placed[..n] + [placed[n]];
      UnderMembers(placed[..n], h, entry);
    }
  }

  predicate IsPlacedFrom(p: Placed, item: Item) {
    Strip(item.content) != "" && p.heading == HeadingOf(item.kind) && p.entry == Entry(item)
  }

  lemma RenderedStep(items: seq<Item>, p: Placed)
    requires items != []
    ensures var n := |items| - 1; p in Rendered(items) <==> p in Rendered(items[..n]) || IsPlacedFrom(p, items[n])
  {
    var n := |items| - 1;
    var before, placed := Rendered(items[..n]), Placed(HeadingOf(items[n].kind), Entry(items[n]));
    assert IsPlacedFrom(p, items[n]) <==> Strip(items[n].content) != "" && p == placed;
    assert p in before + [placed] <==> p in before || p == placed;
  }

  lemma {:induction false} RenderedFrom(items: seq<Item>, p: Placed) returns (item: Item)
    requires p in Rendered(items)
    ensures item in items && IsPlacedFrom(p, item)
    decreases |items|
  {
    var n := |items| - 1;
    RenderedStep(items, p);
    if p in Rendered(items[..n]) {
      item := RenderedFrom(items[..n], p);
    } else {
      item := items[n];
    }
  }

  lemma {:induction false} ItemIsRendered(items: seq<Item>, p: Placed, item: Item)
    requires item in items && IsPlacedFrom(p, item)
    ensures p in Rendered(items)
    decreases |items|
  {
    var n := |items| - 1;
    RenderedStep(items, p);
    if item != items[n] {
      ItemIsRendered(items[..n], p, item);
    }
  }

  /** What stands under a heading: the entries of the items of its kinds that have content, and no others. */
  lemma EntriesUnder(items: seq<Item>, h: Heading, entry: string)
    ensures entry in Under(Rendered(items), h) <==> exists item :: item in items && IsPlacedFrom(Placed(h, entry), item)
  {
    UnderMembers(Rendered(items), h, entry);
    if Placed(h, entry) in Rendered(items) {
      var item := RenderedFrom(items, Placed(h, entry));
    }
    if item :| item in items && IsPlacedFrom(Placed(h, entry), item) {
      ItemIsRendered(items, Placed(h, entry), item);
    }
  }

  // ---- When the projection is a block ----

  predicate Contains(text: string, marker: string) {
    Find(text, marker, 0).Some?
  }

  predicate AnyContains(lines: seq<string>, marker: string) {
    exists i :: 0 <= i < |lines| && Contains(lines[i], marker)
  }

  lemma AnyContainsAppend(a: seq<string>, b: seq<string>, marker: string)
    ensures AnyContains(a + b, marker) <==> AnyContains(a, marker) || AnyContains(b, marker)
  {
    var all := a + b;
    if i :| 0 <= i < |a| && Contains(a[i], marker) {
      assert all[i] == a[i];
    }
    if i :| 0 <= i < |b| && Contains(b[i], marker) {
      assert all[|a| + i] == b[i];
    }
  }

  lemma {:induction false} ContainsInLines(lines: seq<string>, marker: string)
    requires '\n' !in marker && marker != ""
    ensures Contains(Join(lines, "\n"), marker) <==> AnyContains(lines, marker)
    decreases |lines|
  {
    var n := |lines| - 1;
    if n == 0 {
      assert Join(lines, "\n") == lines[0];
    } else if n > 0 {
      var front, last := Join(lines[..n], "\n"), lines[n];
      ContainsInLines(lines[..n], marker);
      assert lines == lines[..n] + [last];
      AnyContainsAppend(lines[..n], [last], marker);
      if Contains(front, marker) {
        FindInFront(front, "\n" + last, marker);
      } else if Contains(last, marker) {
        FindBehind(front, "\n", last, marker, 0);
        assert [last][0] == last;
      } else {
        NoneBehind(front, "\n", last, marker);
      }
    }
  }

  lemma JoinedBlock(m: Markers, lines: seq<string>)
    requires m.Usable()
    ensures Block(m, Join([m.start] + lines + [m.end], "\n")) <==> !AnyContains([m.start] + lines, m.end)
  {
    var front := [m.start] + lines;
    var text := Join(front + [m.end], "\n");
    JoinAppend(front, m.end, "\n");
    ContainsInLines(front, m.end);
    if AnyContains(front, m.end) {
      FindInFront(Join(front, "\n"), "\n" + m.end, m.end);
    } else {
      FindBehind(Join(front, "\n"), "\n", m.end, m.end, 0);
      assert Find(m.end, m.end, 0) == Some(0);
      StartsWithFirst(m, lines);
    }
  }

  lemma StartsWithFirst(m: Markers, lines: seq<string>)
    ensures OccursAt(Join([m.start] + lines + [m.end], "\n"), m.start, 0)
  {
    assert [m.start] + lines + [m.end] == [m.start] + (lines + [m.end]);
    JoinPrepend(m.start, lines + [m.end], "\n");
  }

  predicate AnyUnder(placed: seq<Placed>, h: Heading, marker: string) {
    exists k :: 0 <= k < |placed| && placed[k].heading == h && Contains(placed[k].entry, marker)
  }

  lemma AnyUnderAppend(placed: seq<Placed>, last: Placed, h: Heading, marker: string)
    ensures AnyUnder(placed + [last], h, marker)
        <==> AnyUnder(placed, h, marker) || (last.heading == h && Contains(last.entry, marker))
  {
    var all := placed + [last];
    assert all[|placed|] == last;
    if k :| 0 <= k < |placed| && placed[k].heading == h && Contains(placed[k].entry, marker) {
      assert all[k] == placed[k];
    }
  }

  lemma OneContains(line: string, marker: string)
    ensures AnyContains([line], marker) <==> Contains(line, marker)
  {
    assert [line][0] == line;
  }

  lemma {:induction false} UnderContains(placed: seq<Placed>, h: Heading, marker: string)
    ensures AnyContains(Under(placed, h), marker) <==> AnyUnder(placed, h, marker)
  {
    if placed != [] {
      var n := |placed| - 1;
      UnderContains(placed[..n], h, marker);
      AnyContainsAppend(Under(placed[..n], h), [placed[n].entry], marker);
      OneContains(placed[n].entry, marker);
      assert placed == placed[..n] + [placed[n]];
      AnyUnderAppend(placed[..n], placed[n], h, marker);
    }
  }

  lemma OccursFirst(text: string, marker: string, i: nat)
    requires OccursAt(text, marker, i) && marker != ""
    ensures text[i] == marker[0]
  {
    assert text[i + 0] == marker[0];
  }

  lemma PlainLine(line: string, marker: string)
    requires marker != "" && marker[0] !in line
    ensures !Contains(line, marker)
  {
    var at := Find(line, marker, 0);
    if at.Some? {
      OccursFirst(line, marker, at.value);
    }
  }

  lemma GroupContains(h: Heading, entries: seq<string>, marker: string)
    requires marker != "" && marker[0] == '<'
    ensures AnyContains(Group(h, entries), marker) <==> AnyContains(entries, marker)
  {
    var head := ["", Title(h), ""];
    TitleIsPlain(h);
    PlainLine("", marker);
    PlainLine(Title(h), marker);
    assert !AnyContains(head, marker);
    AnyContainsAppend(head, entries, marker);
  }

  lemma TitleIsPlain(h: Heading)
    ensures '<' !in Title(h)
  {
  }

  predicate AnyUnderSome(placed: seq<Placed>, headings: seq<Heading>, marker: string) {
    exists k :: 0 <= k < |headings| && AnyUnder(placed, headings[k], marker)
  }

  lemma AnyUnderSomeAppend(placed: seq<Placed>, headings: seq<Heading>, h: Heading, marker: string)
    ensures AnyUnderSome(placed, headings + [h], marker)
        <==> AnyUnderSome(placed, headings, marker) || AnyUnder(placed, h, marker)
  {
    var all := headings + [h];
    assert all[|headings|] == h;
    if k :| 0 <= k < |headings| && AnyUnder(placed, headings[k], marker) {
      assert all[k] == headings[k];
    }
  }

  lemma {:induction false} GroupsContain(placed: seq<Placed>, headings: seq<Heading>, marker: string)
    requires marker != "" && marker[0] == '<'
    ensures AnyContains(Groups(placed, headings), marker) <==> AnyUnderSome(placed, headings, marker)
  {
    if headings != [] {
      var n := |headings| - 1;
      var entries := Under(placed, headings[n]);
      GroupsContain(placed, headings[..n], marker);
      AnyContainsAppend(Groups(placed, headings[..n]), Group(headings[n], entries), marker);
      GroupContains(headings[n], entries, marker);
      UnderContains(placed, headings[n], marker);
      assert headings == headings[..n] + [headings[n]];
      AnyUnderSomeAppend(placed, headings[..n], headings[n], marker);
    }
  }

  lemma HeadingIndex(h: Heading) returns (j: nat)
    ensures j < |HEADINGS| && HEADINGS[j] == h
  {
    match h
    case Preferences => j := 0;
    case ProjectContext => j := 1;
    case Decisions => j := 2;
    case Tasks => j := 3;
    case Notes => j := 4;
  }

  predicate AnyQuotes(placed: seq<Placed>, marker: string) {
    exists k :: 0 <= k < |placed| && Contains(placed[k].entry, marker)
  }

  /** Every entry is written under some heading. */
  lemma AllHeadingsCovered(placed: seq<Placed>, marker: string)
    ensures AnyUnderSome(placed, HEADINGS, marker)
        <==> AnyQuotes(placed, marker)
  {
    if k :| 0 <= k < |placed| && Contains(placed[k].entry, marker) {
      var j := HeadingIndex(placed[k].heading);
      assert AnyUnder(placed, HEADINGS[j], marker);
    }
  }

  lemma DifferentMarkers(start: string, end: string, p: nat)
    requires |start| <= |end| + 2 && 2 < |start| && 0 < p < |end| && p < |start|
    requires start[1] != end[0] && start[2] != end[0] && start[p] != end[p]
    ensures !Contains(start, end)
  {
    assert start[0 + p] != end[p];
    var at := Find(start, end, 0);
    if at.Some? {
      OccursFirst(start, end, at.value);
    }
  }

  lemma StartIsNotEnd()
    ensures !Contains(MARKERS.start, MARKERS.end)
  {
    var start, end := MARKERS.start, MARKERS.end;
    assert |start| == 38 && |end| == 36;
    assert start[1] == '!' && start[2] == '-' && end[0] == '<';
    assert start[29] == 's' && end[29] == 'e';
    DifferentMarkers(start, end, 29);
  }

  lemma NoticeIsPlain()
    ensures '<' !in NOTICE
  {
    var a, b, c := "This section is ", "auto-generated ", "from durable memory items.";
    assert '<' !in a && '<' !in b && '<' !in c;
    assert forall x :: x in a + (b + c) <==> x in a || x in b || x in c;
    assert NOTICE == a + (b + c);
  }

  lemma IntroductionIsPlain(marker: string)
    requires marker != "" && marker[0] == '<'
    ensures !AnyContains(INTRODUCTION, marker)
  {
    PlainLine(INTRODUCTION[0], marker);
    PlainLine(INTRODUCTION[1], marker);
    NoticeIsPlain();
    PlainLine(NOTICE, marker);
  }

  lemma ProjectionContains(m: Markers, placed: seq<Placed>)
    requires m.Usable() && m.end[0] == '<' && !Contains(m.start, m.end)
    ensures AnyContains([m.start] + (INTRODUCTION + Groups(placed, HEADINGS)), m.end)
        <==> AnyQuotes(placed, m.end)
  {
    var groups := Groups(placed, HEADINGS);
    OneContains(m.start, m.end);
    AnyContainsAppend([m.start], INTRODUCTION + groups, m.end);
    IntroductionIsPlain(m.end);
    AnyContainsAppend(INTRODUCTION, groups, m.end);
    GroupsContain(placed, HEADINGS, m.end);
    AllHeadingsCovered(placed, m.end);
  }

  /** The block is well formed, so that runs replace one another, exactly when no entry quotes the end marker. */
  lemma ProjectionIsBlock(m: Markers, items: seq<Item>)
    requires m.Usable() && m.end[0] == '<' && !Contains(m.start, m.end)
    ensures Block(m, Projection(m, items))
        <==> !AnyQuotes(Rendered(items), m.end)
  {
    ProjectionContains(m, Rendered(items));
    JoinedBlock(m, INTRODUCTION + Groups(Rendered(items), HEADINGS));
  }

  lemma ProjectionIsFramed(m: Markers, items: seq<Item>)
    requires m.Usable()
    ensures Framed(m, Projection(m, items)) && Writable(Projection(m, items))
  {
    var lines := INTRODUCTION + Groups(Rendered(items), HEADINGS);
    var front := Join([m.start] + lines, "\n");
    StartsWithFirst(m, lines);
    ProjectionIsStripped(m, items);
    JoinAppend([m.start] + lines, m.end, "\n");
    Assoc(front, "\n", m.end);
    OccursInBack(front + "\n", m.end, m.end, |front + "\n"|);
    assert m.end[0..|m.end|] == m.end;
  }

  /** Refreshing MEMORY.md from the items twice leaves what the second refresh alone would have written, exactly
      when the user's text has its markers in order and no item of the first refresh quotes the end marker. */
  lemma LastRefreshWins(existing: string, first: seq<Item>, second: seq<Item>)
    ensures ReplaceGeneratedSection(MARKERS, ReplaceGeneratedSection(MARKERS, existing, Projection(MARKERS, first)),
                                    Projection(MARKERS, second))
         == ReplaceGeneratedSection(MARKERS, existing, Projection(MARKERS, second))
        <==> MarkersInOrder(MARKERS, Body(existing)) && !AnyQuotes(Rendered(first), MARKERS.end)
  {
    MarkersAreUsable();
    StartIsNotEnd();
    LastRefresh(MARKERS, existing, first, second);
  }

  lemma LastRefresh(m: Markers, existing: string, first: seq<Item>, second: seq<Item>)
    requires m.Usable() && m.end[0] == '<' && !Contains(m.start, m.end)
    ensures ReplaceGeneratedSection(m, ReplaceGeneratedSection(m, existing, Projection(m, first)), Projection(m, second))
         == ReplaceGeneratedSection(m, existing, Projection(m, second))
        <==> MarkersInOrder(m, Body(existing)) && !AnyQuotes(Rendered(first), m.end)
  {
    ProjectionIsBlock(m, first);
    ProjectionIsFramed(m, first);
    ProjectionIsFramed(m, second);
    LastWriterWins(m, existing, Projection(m, first), Projection(m, second));
  }

  lemma OneBracket(a: string, b: string, marker: string, p: nat)
    requires 0 < p < |marker| && p <= |b|
    requires marker[0] == '<' && marker[p] != b[p - 1] && '<' !in a && '<' !in b
    ensures !Contains(a + ("<" + b), marker)
  {
    var text := a + ("<" + b);
    assert text[|a| + p] == b[p - 1];
    assert forall i :: 0 <= i < |text| && i != |a| ==> text[i] in a || text[i] in b;
    var at := Find(text, marker, 0);
    if at.Some? {
      OccursFirst(text, marker, at.value);
    }
  }

  lemma DefaultLacks(marker: string)
    requires 5 < |marker| && marker[0] == '<' && marker[5] == 'n'
    ensures !Contains(DEFAULT_BODY, marker)
  {
    var a, b, c := "# Memory\n\n", "!-- User-editable long-term ", "workspace memory. -->";
    assert '<' !in a && '<' !in b && '<' !in c;
    assert (b + c)[4] == 'U';
    NotInEither(b, c, '<');
    OneBracket(a, b + c, marker, 5);
  }

  lemma NotInEither(a: string, b: string, c: char)
    requires c !in a && c !in b
    ensures c !in a + b
  {
  }

  lemma BlankBody(existing: string)
    requires Blank(existing)
    ensures Body(existing) == DEFAULT_BODY
  {
    RStripIs("", existing);
    assert "" + existing == existing;
  }

  /** A blank file is given a heading without markers, so the first run finds its markers in order. */
  lemma BlankFileIsInOrder(existing: string)
    requires Blank(existing)
    ensures MarkersInOrder(MARKERS, Body(existing))
  {
    BlankBody(existing);
    DefaultLacks(MARKERS.start);
    DefaultLacks(MARKERS.end);
  }
}
