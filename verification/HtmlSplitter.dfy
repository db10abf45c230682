/** Splitting a long HTML message for Telegram: paragraphs are packed greedily, and a paragraph that is too
    long is packed by lines, or by words, or cut hard. */
module HtmlSplitter {
  import opened Messages
  import opened Text

  // ---- Greedy packing ----

  /** Finished chunks, and the pieces of the chunk being filled. */
  datatype Packing = Packing(chunks: seq<string>, current: seq<string>)

  function Flush(current: seq<string>, sep: string): seq<string> {
    if current == [] then [] else [Join(current, sep)]
  }

  /** All chunks, the last one included. */
  function Chunks(p: Packing, sep: string): seq<string> {
    p.chunks + Flush(p.current, sep)
  }

  predicate FitsBehind(current: seq<string>, piece: string, sep: string, limit: nat) {
    |Join(current, sep)| + (if current == [] then 0 else |sep|) + |piece| <= limit
  }

  function Packed(pieces: seq<string>, sep: string, limit: nat): (p: Packing)
    ensures pieces != [] ==> p.current != []
  {
    if pieces == [] then Packing([], [])
    else
      var before, piece := Packed(pieces[..|pieces| - 1], sep, limit), pieces[|pieces| - 1];
      if FitsBehind(before.current, piece, sep, limit) then Packing(before.chunks, before.current + [piece])
      else Packing(Chunks(before, sep), [piece])
  }

  method AccumulateChunks(pieces: seq<string>, sep: string, limit: nat) returns (chunks: seq<string>)
    ensures chunks == Chunks(Packed(pieces, sep, limit), sep)
  {
    chunks := [];
    var current: seq<string> := [];
    var currentLen := 0;
    for i := 0 to |pieces|
      invariant Packing(chunks, current) == Packed(pieces[..i], sep, limit)
      invariant currentLen == |Join(current, sep)|
    {
      var piece := pieces[i];
      assert pieces[..i + 1][..i] == pieces[..i];
      JoinAppend(current, piece, sep);
      var sepLen := if current != [] then |sep| else 0;
      if currentLen + sepLen + |piece| <= limit {
        current := current + [piece];
        currentLen := currentLen + sepLen + |piece|;
      } else {
        if current != [] {
          chunks := chunks + [Join(current, sep)];
        }
        current := [piece];
        currentLen := |piece|;
      }
    }
    assert pieces[..|pieces|] == pieces;
    if current != [] {
      chunks := chunks + [Join(current, sep)];
    }
  }

  predicate AllFit(chunks: seq<string>, limit: nat) {
    forall i :: 0 <= i < |chunks| ==> |chunks[i]| <= limit
  }

  /** Packing keeps the text: the chunks rejoin with the separator they were packed by. */
  lemma {:induction false} PackedRejoins(pieces: seq<string>, sep: string, limit: nat)
    ensures Join(Chunks(Packed(pieces, sep, limit), sep), sep) == Join(pieces, sep)
  {
    if pieces != [] {
      var n := |pieces| - 1;
      var before, piece := Packed(pieces[..n], sep, limit), pieces[n];
      PackedRejoins(pieces[..n], sep, limit);
      assert pieces == pieces[..n] + [piece];
      JoinAppend(pieces[..n], piece, sep);
      JoinAppend(before.current, piece, sep);
      if FitsBehind(before.current, piece, sep, limit) && before.current != [] {
        ExtendLast(before.chunks, Join(before.current, sep), sep + piece, sep);
      } else {
        JoinAppend(Chunks(before, sep), piece, sep);
      }
      assert n == 0 ==> before == Packing([], []);
    }
  }

  lemma ExtendLast(chunks: seq<string>, last: string, more: string, sep: string)
    ensures Join(chunks + [last + more], sep) == Join(chunks + [last], sep) + more
  {
    JoinAppend(chunks, last, sep);
    JoinAppend(chunks, last + more, sep);
    Assoc(sep, last, more);
    Assoc(Join(chunks, sep), sep + last, more);
  }

  lemma AllFitAppend(a: seq<string>, b: seq<string>, limit: nat)
    ensures AllFit(a + b, limit) <==> AllFit(a, limit) && AllFit(b, limit)
  {
    assert forall i :: 0 <= i < |b| ==> (a + b)[|a| + i] == b[i];
    assert forall i :: 0 <= i < |a| ==> (a + b)[i] == a[i];
  }

  /** The chunks fit exactly when every piece does. */
  lemma {:induction false} PackedFits(pieces: seq<string>, sep: string, limit: nat)
    ensures AllFit(Chunks(Packed(pieces, sep, limit), sep), limit) <==> AllFit(pieces, limit)
  {
    if pieces != [] {
      var n := |pieces| - 1;
      var before, piece := Packed(pieces[..n], sep, limit), pieces[n];
      PackedFits(pieces[..n], sep, limit);
      assert pieces == pieces[..n] + [piece];
      AllFitAppend(pieces[..n], [piece], limit);
      JoinAppend(before.current, piece, sep);
      AllFitAppend(before.chunks, Flush(before.current, sep), limit);
      AllFitAppend(before.chunks, [Join(before.current + [piece], sep)], limit);
      AllFitAppend(Chunks(before, sep), [piece], limit);
      assert Join([piece], sep) == piece;
    }
  }

  /** Chunk `i` joins group `i`; a group of several pieces fits, and the next group's first piece would not have
      fitted behind it. */
  predicate GreedyAt(groups: seq<seq<string>>, chunks: seq<string>, sep: string, limit: nat, i: nat)
    requires i < |groups| && i < |chunks|
  {
    && groups[i] != [] && chunks[i] == Join(groups[i], sep)
    && (|groups[i]| > 1 ==> |chunks[i]| <= limit)
    && (i + 1 < |groups| && groups[i + 1] != [] ==> |chunks[i]| + |sep| + |groups[i + 1][0]| > limit)
  }

  ghost predicate Greedy(groups: seq<seq<string>>, chunks: seq<string>, sep: string, limit: nat) {
    |groups| == |chunks| && forall i :: 0 <= i < |groups| ==> GreedyAt(groups, chunks, sep, limit, i)
  }

  lemma GreedyGrows(groups: seq<seq<string>>, last: seq<string>, chunks: seq<string>, piece: string, sep: string, limit: nat)
    requires last != [] && Greedy(groups + [last], chunks + [Join(last, sep)], sep, limit)
    requires FitsBehind(last, piece, sep, limit)
    ensures Greedy(groups + [last + [piece]], chunks + [Join(last + [piece], sep)], sep, limit)
  {
    JoinAppend(last, piece, sep);
    var before, after := groups + [last], groups + [last + [piece]];
    var chunks0, chunks1 := chunks + [Join(last, sep)], chunks + [Join(last + [piece], sep)];
    forall i | 0 <= i < |after| ensures GreedyAt(after, chunks1, sep, limit, i) {
      assert GreedyAt(before, chunks0, sep, limit, i);
    }
  }

  lemma GreedyStarts(groups: seq<seq<string>>, last: seq<string>, chunks: seq<string>, piece: string, sep: string, limit: nat)
    requires last != [] && Greedy(groups + [last], chunks + [Join(last, sep)], sep, limit)
    requires !FitsBehind(last, piece, sep, limit)
    ensures Greedy((groups + [last]) + [[piece]], (chunks + [Join(last, sep)]) + [Join([piece], sep)], sep, limit)
  {
    var before, after := groups + [last], (groups + [last]) + [[piece]];
    var chunks0, chunks1 := chunks + [Join(last, sep)], (chunks + [Join(last, sep)]) + [Join([piece], sep)];
    forall i | 0 <= i < |after| ensures GreedyAt(after, chunks1, sep, limit, i) {
      assert i < |before| ==> GreedyAt(before, chunks0, sep, limit, i);
    }
  }

  /** Packing is greedy: the pieces fall into groups, in order, and no group could have taken one more. */
  lemma {:induction false} PackedIsGreedy(pieces: seq<string>, sep: string, limit: nat) returns (groups: seq<seq<string>>)
    requires pieces != []
    ensures var p := Packed(pieces, sep, limit);
      Flatten(groups + [p.current]) == pieces && Greedy(groups + [p.current], Chunks(p, sep), sep, limit)
    decreases |pieces|
  {
    var n := |pieces| - 1;
    var before, piece := Packed(pieces[..n], sep, limit), pieces[n];
    assert pieces == pieces[..n] + [piece];
    if n == 0 {
      groups := [];
      FirstGroup(piece, sep, limit);
    } else {
      groups := PackedIsGreedy(pieces[..n], sep, limit);
      FlattenAppend(groups, [before.current]);
      FlattenOne(before.current);
      if FitsBehind(before.current, piece, sep, limit) {
        GreedyGrows(groups, before.current, before.chunks, piece, sep, limit);
        FlattenAppend(groups, [before.current + [piece]]);
        FlattenOne(before.current + [piece]);
        Assoc(Flatten(groups), before.current, [piece]);
      } else {
        GreedyStarts(groups, before.current, before.chunks, piece, sep, limit);
        groups := groups + [before.current];
        FlattenAppend(groups, [[piece]]);
        FlattenOne([piece]);
      }
    }
  }

  lemma FirstGroup(piece: string, sep: string, limit: nat)
    ensures var p := Packed([piece], sep, limit);
      p == Packing([], [piece]) && Flatten([[piece]]) == [piece] && Greedy([[piece]], Chunks(p, sep), sep, limit)
  {
    assert [piece][..0] == [];
    assert [] + [piece] == [piece];
    FlattenOne([piece]);
  }

  // ---- One paragraph that is too long ----

  function HardSplit(text: string, limit: nat): (chunks: seq<string>)
    requires limit > 0
    ensures text != "" ==> chunks != []
    decreases |text|
  {
    if text == "" then [] else if |text| <= limit then [text] else [text[..limit]] + HardSplit(text[limit..], limit)
  }

  lemma {:induction false} HardSplitFacts(text: string, limit: nat)
    requires limit > 0
    ensures Join(HardSplit(text, limit), "") == text
    ensures AllFit(HardSplit(text, limit), limit)
    decreases |text|
  {
    if |text| > limit {
      HardSplitFacts(text[limit..], limit);
      JoinPrepend(text[..limit], HardSplit(text[limit..], limit), "");
      AllFitAppend([text[..limit]], HardSplit(text[limit..], limit), limit);
      assert "" + text[limit..] == text[limit..];
      assert text == text[..limit] + text[limit..];
    }
  }

  /** Lines if there are any, else words, else nothing separates the parts. */
  function PartSeparator(text: string): string {
    if '\n' in text then "\n" else if ' ' in text then " " else ""
  }

  function Large(text: string, limit: nat): (chunks: seq<string>)
    requires limit > 0
    ensures text != "" ==> chunks != []
  {
    var sep := PartSeparator(text);
    if sep != "" then Chunks(Packed(Split(text, sep), sep, limit), sep) else HardSplit(text, limit)
  }

  /** The lines, or else the words, of the text fit; text without either can always be cut. */
  predicate PartsFit(text: string, limit: nat) {
    if '\n' in text then AllFit(Split(text, "\n"), limit)
    else ' ' in text ==> AllFit(Split(text, " "), limit)
  }

  method SplitLargeSegment(text: string, limit: nat) returns (chunks: seq<string>)
    requires limit > 0
    ensures chunks == Large(text, limit)
  {
    if '\n' in text {
      chunks := AccumulateChunks(Split(text, "\n"), "\n", limit);
    } else if ' ' in text {
      chunks := AccumulateChunks(Split(text, " "), " ", limit);
    } else {
      chunks := [];
      var i := 0;
      while i < |text|
        invariant 0 <= i <= |text|
        invariant chunks + HardSplit(text[i..], limit) == HardSplit(text, limit)
        decreases |text| - i
      {
        var end := if i + limit < |text| then i + limit else |text|;
        HardSplitStep(text, i, end, limit);
        Assoc(chunks, [text[i..end]], HardSplit(text[end..], limit));
        chunks := chunks + [text[i..end]];
        i := end;
      }
    }
  }

  lemma HardSplitStep(text: string, i: nat, end: nat, limit: nat)
    requires limit > 0 && i < |text| && end == if i + limit < |text| then i + limit else |text|
    ensures HardSplit(text[i..], limit) == [text[i..end]] + HardSplit(text[end..], limit)
  {
    var rest := text[i..];
    if i + limit < |text| {
      assert rest[..limit] == text[i..end] && rest[limit..] == text[end..];
    } else {
      assert text[i..end] == rest && text[end..] == "";
      assert [rest] + [] == [rest];
    }
  }

  lemma LargeFacts(text: string, limit: nat)
    requires limit > 0 && text != ""
    ensures Join(Large(text, limit), PartSeparator(text)) == text
    ensures AllFit(Large(text, limit), limit) <==> PartsFit(text, limit)
  {
    var sep := PartSeparator(text);
    if sep != "" {
      JoinOfSplit(text, sep);
      PackedRejoins(Split(text, sep), sep, limit);
      PackedFits(Split(text, sep), sep, limit);
    } else {
      HardSplitFacts(text, limit);
    }
  }

  // ---- The whole message ----

  const PARAGRAPH := "\n\n"

  /** What becomes of a paragraph that does not fit behind the current chunk. */
  function Parts(para: string, limit: nat): (parts: seq<string>)
    requires limit > 0
    ensures parts != []
  {
    if |para| > limit then Large(para, limit) else [para]
  }

  function Add(before: Packing, para: string, limit: nat): (p: Packing)
    requires limit > 0
    ensures p.current != []
  {
    if FitsBehind(before.current, para, PARAGRAPH, limit) then Packing(before.chunks, before.current + [para])
    else
      var parts := Parts(para, limit);
      Packing(Chunks(before, PARAGRAPH) + parts[..|parts| - 1], [parts[|parts| - 1]])
  }

  function Paragraphs(paras: seq<string>, limit: nat): (p: Packing)
    requires limit > 0
    ensures paras != [] ==> p.current != []
  {
    if paras == [] then Packing([], [])
    else Add(Paragraphs(paras[..|paras| - 1], limit), paras[|paras| - 1], limit)
  }

  /** A paragraph that does not fit behind the current chunk: flush, and start anew with it or with its last part. */
  method StartParagraph(chunks: seq<string>, current: seq<string>, para: string, limit: nat)
    returns (chunks': seq<string>, first: string)
    requires limit > 0
    ensures chunks' == Chunks(Packing(chunks, current), PARAGRAPH) + Parts(para, limit)[..|Parts(para, limit)| - 1]
    ensures first == Parts(para, limit)[|Parts(para, limit)| - 1]
  {
    chunks' := chunks;
    if current != [] {
      chunks' := chunks' + [Join(current, PARAGRAPH)];
    }
    assert chunks' == Chunks(Packing(chunks, current), PARAGRAPH);
    if |para| > limit {
      var parts := SplitLargeSegment(para, limit);
      chunks', first := chunks' + parts[..|parts| - 1], parts[|parts| - 1];
    } else {
      first := para;
      assert [para][..0] == [];
    }
  }

  /** One round of the loop. */
  method PlaceParagraph(chunks: seq<string>, current: seq<string>, currentLen: nat, para: string, limit: nat)
    returns (chunks': seq<string>, current': seq<string>, currentLen': nat)
    requires limit > 0 && currentLen == |Join(current, PARAGRAPH)|
    ensures Packing(chunks', current') == Add(Packing(chunks, current), para, limit)
    ensures currentLen' == |Join(current', PARAGRAPH)|
  {
    var separatorLen := if current != [] then 2 else 0;
    if currentLen + separatorLen + |para| <= limit {
      JoinAppend(current, para, PARAGRAPH);
      chunks', current', currentLen' := chunks, current + [para], currentLen + separatorLen + |para|;
    } else {
      var first;
      chunks', first := StartParagraph(chunks, current, para, limit);
      current', currentLen' := [first], |first|;
    }
  }

  function SplitMessage(html: string, limit: nat): seq<string>
    requires limit > 0
  {
    if html == "" then []
    else if |html| <= limit then [html]
    else Chunks(Paragraphs(Split(html, PARAGRAPH), limit), PARAGRAPH)
  }

  /** The loop over the paragraphs. */
  method PackParagraphs(paragraphs: seq<string>, limit: nat) returns (chunks: seq<string>)
    requires limit > 0
    ensures chunks == Chunks(Paragraphs(paragraphs, limit), PARAGRAPH)
  {
    var current: seq<string> := [];
    var currentLen := 0;
    chunks := [];
    for i := 0 to |paragraphs|
      invariant Packing(chunks, current) == Paragraphs(paragraphs[..i], limit)
      invariant currentLen == |Join(current, PARAGRAPH)|
    {
      assert paragraphs[..i + 1][..i] == paragraphs[..i];
      chunks, current, currentLen := PlaceParagraph(chunks, current, currentLen, paragraphs[i], limit);
    }
    assert paragraphs[..|paragraphs|] == paragraphs;
    if current != [] {
      chunks := chunks + [Join(current, PARAGRAPH)];
    }
  }

  method SplitHtmlMessage(html: string, limit: nat) returns (chunks: seq<string>)
    requires limit > 0
    ensures chunks == SplitMessage(html, limit)
  {
    if html == "" {
      return [];
    }
    if |html| <= limit {
      return [html];
    }
    chunks := PackParagraphs(Split(html, PARAGRAPH), limit);
  }

  // ---- When paragraphs share a chunk ----

  /** No text gives no chunk, a text within the limit one. */
  lemma ShortMessage(html: string, limit: nat)
    requires limit > 0 && |html| <= limit
    ensures SplitMessage(html, limit) == if html == "" then [] else [html]
  {
  }

  function ParagraphChunks(paras: seq<string>, limit: nat): seq<string>
    requires limit > 0
  {
    Chunks(Paragraphs(paras, limit), PARAGRAPH)
  }

  /** The next paragraph joins the last chunk exactly when both fit with the blank line between them; else it starts a
      chunk of its own, or several when it is too long. */
  lemma NextParagraph(paras: seq<string>, limit: nat)
    requires limit > 0 && paras != []
    ensures var n := |paras| - 1;
      var before, para := ParagraphChunks(paras[..n], limit), paras[n];
      ParagraphChunks(paras, limit) ==
        if before != [] && |before[|before| - 1]| + 2 + |para| <= limit
        then before[..|before| - 1] + [before[|before| - 1] + ("\n\n" + para)]
        else if |para| <= limit then before + [para] else before + Large(para, limit)
  {
    var n := |paras| - 1;
    var p, para := Paragraphs(paras[..n], limit), paras[n];
    var before := Chunks(p, PARAGRAPH);
    JoinAppend(p.current, para, PARAGRAPH);
    if n > 0 {
      assert before[|before| - 1] == Join(p.current, PARAGRAPH) && before[..|before| - 1] == p.chunks;
    } else {
      assert before == [] && [] + [para] == [para];
    }
    if !FitsBehind(p.current, para, PARAGRAPH, limit) {
      var parts := Parts(para, limit);
      LastOf(parts);
      Assoc(before, parts[..|parts| - 1], [parts[|parts| - 1]]);
    }
  }

  /** Text without line breaks and spaces is cut into pieces of exactly the limit, but for the last. */
  lemma {:induction false} HardSplitIsFull(text: string, limit: nat)
    requires limit > 0
    ensures forall i :: 0 <= i < |HardSplit(text, limit)| - 1 ==> |HardSplit(text, limit)[i]| == limit
    decreases |text|
  {
    if |text| > limit {
      HardSplitIsFull(text[limit..], limit);
    }
  }

  // ---- Nothing is lost ----

  /** The chunks with the given text put back at each break. */
  function Woven(chunks: seq<string>, breaks: seq<string>): string
    requires chunks == [] || |chunks| == |breaks| + 1
  {
    if chunks == [] then ""
    else if breaks == [] then chunks[0]
    else Woven(chunks[..|chunks| - 1], breaks[..|breaks| - 1]) + (breaks[|breaks| - 1] + chunks[|chunks| - 1])
  }

  predicate IsBreak(text: string) {
    text == PARAGRAPH || text == "\n" || text == " " || text == ""
  }

  /** The text is the chunks with a blank line, a line break, a space or nothing at each break. */
  ghost predicate Rejoins(chunks: seq<string>, breaks: seq<string>, text: string) {
    |chunks| == |breaks| + 1 && (forall i :: 0 <= i < |breaks| ==> IsBreak(breaks[i])) && Woven(chunks, breaks) == text
  }

  lemma RejoinsAppend(chunks: seq<string>, breaks: seq<string>, text: string, br: string, chunk: string)
    requires Rejoins(chunks, breaks, text) && IsBreak(br)
    ensures Rejoins(chunks + [chunk], breaks + [br], text + (br + chunk))
  {
    assert (chunks + [chunk])[..|chunks|] == chunks && (breaks + [br])[..|breaks|] == breaks;
  }

  /** The last chunk can grow. */
  lemma RejoinsExtend(chunks: seq<string>, last: string, breaks: seq<string>, text: string, more: string)
    requires Rejoins(chunks + [last], breaks, text)
    ensures Rejoins(chunks + [last + more], breaks, text + more)
  {
    if breaks != [] {
      var n := |breaks| - 1;
      assert (chunks + [last])[..|chunks|] == chunks && (chunks + [last + more])[..|chunks|] == chunks;
      Assoc(breaks[n], last, more);
      Assoc(Woven(chunks, breaks[..n]), breaks[n] + last, more);
    } else {
      assert chunks == [];
    }
  }

  /** More chunks behind a break, joined among themselves by one separator. */
  lemma {:induction false} RejoinsAll(chunks: seq<string>, breaks: seq<string>, text: string, br: string, parts: seq<string>, sep: string)
    returns (after: seq<string>)
    requires Rejoins(chunks, breaks, text) && IsBreak(br) && IsBreak(sep) && parts != []
    ensures Rejoins(chunks + parts, after, text + (br + Join(parts, sep)))
    decreases |parts|
  {
    var n := |parts| - 1;
    if n == 0 {
      after := breaks + [br];
      RejoinsAppend(chunks, breaks, text, br, parts[0]);
      assert parts == [parts[0]];
    } else {
      var inner := RejoinsAll(chunks, breaks, text, br, parts[..n], sep);
      RejoinsAppend(chunks + parts[..n], inner, text + (br + Join(parts[..n], sep)), sep, parts[n]);
      after := inner + [sep];
      Assoc(chunks, parts[..n], [parts[n]]);
      assert parts[..n] + [parts[n]] == parts;
      Assoc(br, Join(parts[..n], sep), sep + parts[n]);
      Assoc(text, br + Join(parts[..n], sep), sep + parts[n]);
    }
  }

  lemma {:induction false} JoinRejoins(parts: seq<string>, sep: string) returns (breaks: seq<string>)
    requires parts != [] && IsBreak(sep)
    ensures Rejoins(parts, breaks, Join(parts, sep))
    decreases |parts|
  {
    var n := |parts| - 1;
    if n == 0 {
      breaks := [];
    } else {
      var inner := JoinRejoins(parts[..n], sep);
      RejoinsAppend(parts[..n], inner, Join(parts[..n], sep), sep, parts[n]);
      breaks := inner + [sep];
      assert parts[..n] + [parts[n]] == parts;
    }
  }

  lemma PartsRejoin(para: string, limit: nat) returns (sep: string)
    requires limit > 0
    ensures IsBreak(sep) && Join(Parts(para, limit), sep) == para
  {
    sep := if |para| > limit then PartSeparator(para) else "";
    if |para| > limit {
      LargeFacts(para, limit);
    }
  }

  lemma LastOf(parts: seq<string>)
    requires parts != []
    ensures parts == parts[..|parts| - 1] + [parts[|parts| - 1]]
  {
  }

  lemma AddRejoins(before: Packing, breaks: seq<string>, text: string, para: string, limit: nat) returns (after: seq<string>)
    requires limit > 0 && before.current != [] && Rejoins(Chunks(before, PARAGRAPH), breaks, text)
    ensures Rejoins(Chunks(Add(before, para, limit), PARAGRAPH), after, text + (PARAGRAPH + para))
  {
    if FitsBehind(before.current, para, PARAGRAPH, limit) {
      after := breaks;
      JoinAppend(before.current, para, PARAGRAPH);
      RejoinsExtend(before.chunks, Join(before.current, PARAGRAPH), breaks, text, PARAGRAPH + para);
    } else {
      var parts := Parts(para, limit);
      var sep := PartsRejoin(para, limit);
      after := RejoinsAll(Chunks(before, PARAGRAPH), breaks, text, PARAGRAPH, parts, sep);
      LastOf(parts);
      Assoc(Chunks(before, PARAGRAPH), parts[..|parts| - 1], [parts[|parts| - 1]]);
    }
  }

  lemma AddFirst(para: string, limit: nat) returns (breaks: seq<string>)
    requires limit > 0
    ensures Rejoins(Chunks(Add(Packing([], []), para, limit), PARAGRAPH), breaks, para)
  {
    var parts := Parts(para, limit);
    var sep := PartsRejoin(para, limit);
    breaks := JoinRejoins(parts, sep);
    LastOf(parts);
    assert [] + parts[..|parts| - 1] == parts[..|parts| - 1];
    assert [] + [para] == [para];
  }

  lemma {:induction false} ParagraphsRejoin(paras: seq<string>, limit: nat) returns (breaks: seq<string>)
    requires limit > 0 && paras != []
    ensures Rejoins(Chunks(Paragraphs(paras, limit), PARAGRAPH), breaks, Join(paras, PARAGRAPH))
    decreases |paras|
  {
    var n := |paras| - 1;
    if n == 0 {
      breaks := AddFirst(paras[0], limit);
      assert paras[..0] == [];
    } else {
      var earlier := ParagraphsRejoin(paras[..n], limit);
      breaks := AddRejoins(Paragraphs(paras[..n], limit), earlier, Join(paras[..n], PARAGRAPH), paras[n], limit);
    }
  }

  /** The original text is the chunks rejoined with a blank line, a line break, a space or nothing at each break. */
  lemma SplitLosesNothing(html: string, limit: nat)
    requires limit > 0 && html != ""
    ensures exists breaks :: Rejoins(SplitMessage(html, limit), breaks, html)
  {
    if |html| <= limit {
      var breaks: seq<string> := [];
      assert Rejoins(SplitMessage(html, limit), breaks, html);
    } else {
      var breaks := ParagraphsRejoin(Split(html, PARAGRAPH), limit);
      JoinOfSplit(html, PARAGRAPH);
      assert Rejoins(SplitMessage(html, limit), breaks, html);
    }
  }

  // ---- When every chunk is within the limit ----

  predicate Cuttable(para: string, limit: nat) {
    |para| > limit ==> PartsFit(para, limit)
  }

  lemma AddFits(before: Packing, para: string, limit: nat)
    requires limit > 0
    ensures AllFit(Chunks(Add(before, para, limit), PARAGRAPH), limit)
        <==> AllFit(Chunks(before, PARAGRAPH), limit) && Cuttable(para, limit)
  {
    if FitsBehind(before.current, para, PARAGRAPH, limit) {
      JoinAppend(before.current, para, PARAGRAPH);
      AllFitAppend(before.chunks, Flush(before.current, PARAGRAPH), limit);
      AllFitAppend(before.chunks, [Join(before.current + [para], PARAGRAPH)], limit);
    } else {
      var parts := Parts(para, limit);
      LastOf(parts);
      Assoc(Chunks(before, PARAGRAPH), parts[..|parts| - 1], [parts[|parts| - 1]]);
      AllFitAppend(Chunks(before, PARAGRAPH), parts, limit);
      if |para| > limit {
        LargeFacts(para, limit);
      }
    }
  }

  predicate AllCuttable(paras: seq<string>, limit: nat) {
    forall i :: 0 <= i < |paras| ==> Cuttable(paras[i], limit)
  }

  lemma {:induction false} ParagraphsFit(paras: seq<string>, limit: nat)
    requires limit > 0
    ensures AllFit(Chunks(Paragraphs(paras, limit), PARAGRAPH), limit) <==> AllCuttable(paras, limit)
  {
    if paras != [] {
      var n := |paras| - 1;
      ParagraphsFit(paras[..n], limit);
      AddFits(Paragraphs(paras[..n], limit), paras[n], limit);
      LastOf(paras);
    }
  }

  /** Every chunk is within the limit exactly when every over-long paragraph consists of lines, or else words, that fit. */
  lemma ChunksFit(html: string, limit: nat)
    requires limit > 0
    ensures AllFit(SplitMessage(html, limit), limit) <==> AllCuttable(Split(html, PARAGRAPH), limit)
  {
    if |html| <= limit {
      PieceLength(html, PARAGRAPH);
    } else {
      ParagraphsFit(Split(html, PARAGRAPH), limit);
    }
  }

  /** A line longer than the limit is sent whole, although it may hold spaces: "a b" behind a line break, for
      instance, with a limit of two. */
  lemma LongLineIsNotCut(line: string, limit: nat)
    requires '\n' !in line && |line| > limit > 0
    ensures !AllFit(SplitMessage(['\n'] + line, limit), limit)
  {
    var html := ['\n'] + line;
    forall i: nat | i <= |html| ensures !OccursAt(html, PARAGRAPH, i) {
      assert i < |line| ==> html[i + 1] == line[i];
      assert PARAGRAPH[1] == '\n';
    }
    assert Split(html, PARAGRAPH)[0] == html;
    ChunksFit(html, limit);
    assert OccursAt(html, "\n", 0);
    assert html[1..] == line;
    assert forall i: nat :: i <= |line| ==> !OccursAt(line, "\n", i);
    assert Split(html, "\n")[1] == line;
  }
}
