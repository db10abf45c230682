/** Reassembly of an Anthropic message stream: content blocks are started and extended per index, and the
    JSON text of a tool's input is gathered beside its block and decoded at the end. */
module AnthropicStream {
  import opened Messages
  import opened StreamIndex

  /** A content block. An absent or empty type is the empty string; `input` is the JSON text of an object. */
  datatype Block = Block(
    kind: string, text: Option<string>, thinking: Option<string>, signature: Option<string>,
    input: Option<string>, id: Option<string>, name: Option<string>)

  /** `None` stands for a text that is missing or of another type. */
  datatype Delta =
    | TextDelta(text: Option<string>)
    | ThinkingDelta(thinking: Option<string>)
    | SignatureDelta(signature: Option<string>)
    | InputJsonDelta(partial: Option<string>)
    | UnknownDelta

  /** Events without an integer index or without a dict payload have no effect; `Other` covers them and
      every event that does not concern content. */
  datatype Event = BlockStart(index: Index, block: Block) | BlockDelta(index: Index, delta: Delta) | Other

  /** What JSON decoding makes of a text: an object's text, some other value, or an error. */
  datatype Decoded = Object(text: string) | OtherValue | Invalid

  datatype Decoder = Decoder(isBlank: string -> bool, decode: string -> Decoded)

  const EMPTY_BLOCK := Block("", None, None, None, None, None, None)

  // ---- One block ----

  function Joined(text: Option<string>, piece: Option<string>): Option<string> {
    if piece.None? then text else Some(OrEmpty(text) + piece.value)
  }

  function KindOr(b: Block, kind: string): Block {
    if b.kind == "" then b.(kind := kind) else b
  }

  function Applied(b: Block, d: Delta): Block {
    match d
    case TextDelta(text) => if text.None? then b else KindOr(b, "text").(text := Joined(b.text, text))
    case ThinkingDelta(thinking) =>
      if thinking.None? then b else KindOr(b, "thinking").(thinking := Joined(b.thinking, thinking))
    case SignatureDelta(signature) => if signature.None? then b else b.(signature := signature)
    case InputJsonDelta(partial) => if partial.None? then b else KindOr(b, "tool_use")
    case UnknownDelta => b
  }

  function JsonPiece(d: Delta): Option<string> {
    if d.InputJsonDelta? then d.partial else None
  }

  /** The block and the gathered input text of one index. */
  datatype Slot = Slot(block: Option<Block>, json: Option<string>)

  function BlockOf(slot: Slot): Block {
    if slot.block.Some? then slot.block.value else EMPTY_BLOCK
  }

  /** A start replaces the block but keeps the input text gathered so far. */
  function Stepped(slot: Slot, e: Event): Slot {
    match e
    case BlockStart(_, block) => slot.(block := Some(block))
    case BlockDelta(_, d) => Slot(Some(Applied(BlockOf(slot), d)), Joined(slot.json, JsonPiece(d)))
    case Other => slot
  }

  // ---- All blocks ----

  datatype Stream = Stream(blocks: map<Index, Block>, json: map<Index, string>)

  function SlotAt(s: Stream, index: Index): Slot {
    Slot(if index in s.blocks then Some(s.blocks[index]) else None, if index in s.json then Some(s.json[index]) else None)
  }

  function WithSlot(s: Stream, index: Index, slot: Slot): Stream {
    Stream(if slot.block.Some? then s.blocks[index := slot.block.value] else s.blocks,
           if slot.json.Some? then s.json[index := slot.json.value] else s.json)
  }

  function Collected(events: seq<Event>): Stream {
    if events == [] then Stream(map[], map[])
    else
      var before, e := Collected(events[..|events| - 1]), events[|events| - 1];
      if e.Other? then before else WithSlot(before, e.index, Stepped(SlotAt(before, e.index), e))
  }

  /** The events of one index, in order. */
  function Own(events: seq<Event>, index: Index): seq<Event> {
    if events == [] then []
    else
      var before, e := Own(events[..|events| - 1], index), events[|events| - 1];
      if !e.Other? && e.index == index then before + [e] else before
  }

  function Folded(slot: Slot, own: seq<Event>): Slot {
    if own == [] then slot else Stepped(Folded(slot, own[..|own| - 1]), own[|own| - 1])
  }

  const NO_SLOT := Slot(None, None)

  /** Every index sees its own events only, whatever is interleaved with them. */
  lemma {:induction false} CollectedPerIndex(events: seq<Event>, index: Index)
    ensures SlotAt(Collected(events), index) == Folded(NO_SLOT, Own(events, index))
    decreases |events|
  {
    if events != [] {
      var e := events[|events| - 1];
      CollectedPerIndex(events[..|events| - 1], index);
      FoldedLast(NO_SLOT, Own(events[..|events| - 1], index), e);
    }
  }

  lemma FoldedLast(slot: Slot, own: seq<Event>, e: Event)
    ensures Folded(slot, own + [e]) == Stepped(Folded(slot, own), e)
  {
    assert (own + [e])[..|own|] == own;
  }

  lemma InterleavingDoesNotMatter(a: seq<Event>, b: seq<Event>)
    requires forall index :: Own(a, index) == Own(b, index)
    ensures Collected(a) == Collected(b)
  {
    forall index ensures SlotAt(Collected(a), index) == SlotAt(Collected(b), index) {
      assert Own(a, index) == Own(b, index);
      CollectedPerIndex(a, index);
      CollectedPerIndex(b, index);
    }
    SlotsDetermineStream(Collected(a), Collected(b));
  }

  lemma SlotsDetermineStream(s: Stream, t: Stream)
    requires forall index :: SlotAt(s, index) == SlotAt(t, index)
    ensures s == t
  {
    forall index
      ensures index in s.blocks <==> index in t.blocks
      ensures index in s.json <==> index in t.json
      ensures index in s.blocks ==> s.blocks[index] == t.blocks[index]
      ensures index in s.json ==> s.json[index] == t.json[index]
    {
      assert SlotAt(s, index) == SlotAt(t, index);
    }
  }

  // ---- What a block makes of its deltas ----

  /** The pieces of one kind, joined; `None` when there is none. */
  function JoinedTexts(ds: seq<Delta>): Option<string> {
    if ds == [] then None
    else
      var last := ds[|ds| - 1];
      Joined(JoinedTexts(ds[..|ds| - 1]), if last.TextDelta? then last.text else None)
  }

  function JoinedThinking(ds: seq<Delta>): Option<string> {
    if ds == [] then None
    else
      var last := ds[|ds| - 1];
      Joined(JoinedThinking(ds[..|ds| - 1]), if last.ThinkingDelta? then last.thinking else None)
  }

  function JoinedJson(ds: seq<Delta>): Option<string> {
    if ds == [] then None else Joined(JoinedJson(ds[..|ds| - 1]), JsonPiece(ds[|ds| - 1]))
  }

  function LastSignature(ds: seq<Delta>): Option<string> {
    if ds == [] then None
    else if ds[|ds| - 1].SignatureDelta? && ds[|ds| - 1].signature.Some? then ds[|ds| - 1].signature
    else LastSignature(ds[..|ds| - 1])
  }

  function AsEvents(index: Index, ds: seq<Delta>): seq<Event> {
    seq(|ds|, i requires 0 <= i < |ds| => BlockDelta(index, ds[i]))
  }

  function Started(index: Index, block: Block, ds: seq<Delta>): seq<Event> {
    [BlockStart(index, block)] + AsEvents(index, ds)
  }

  lemma JoinedAppend(text: Option<string>, a: Option<string>, b: Option<string>)
    ensures Joined(text, Joined(a, b)) == Joined(Joined(text, a), b)
  {
    if a.Some? && b.Some? {
      Assoc(OrEmpty(text), a.value, b.value);
    } else if b.Some? {
      assert "" + b.value == b.value;
    }
  }

  /** The block with the pieces of some deltas appended. */
  function Grown(block: Block, ds: seq<Delta>): Block {
    block.(text := Joined(block.text, JoinedTexts(ds)), thinking := Joined(block.thinking, JoinedThinking(ds)),
           signature := if LastSignature(ds).Some? then LastSignature(ds) else block.signature)
  }

  lemma AsEventsLast(index: Index, ds: seq<Delta>)
    requires ds != []
    ensures var events, n := AsEvents(index, ds), |ds| - 1;
      events[..|events| - 1] == AsEvents(index, ds[..n]) && events[|events| - 1] == BlockDelta(index, ds[n])
  {
  }

  /** Whatever came before, deltas behind a block with a type append their joined texts and thinking, the last
      signature, and the joined input text: cuts and the order among the kinds do not matter. */
  lemma {:induction false} DeltasGrow(slot: Slot, index: Index, ds: seq<Delta>)
    requires slot.block.Some? && slot.block.value.kind != ""
    ensures Folded(slot, AsEvents(index, ds)) == Slot(Some(Grown(slot.block.value, ds)), Joined(slot.json, JoinedJson(ds)))
    decreases |ds|
  {
    var block := slot.block.value;
    if ds != [] {
      var n, last := |ds| - 1, ds[|ds| - 1];
      DeltasGrow(slot, index, ds[..n]);
      AsEventsLast(index, ds);
      JoinedAppend(block.text, JoinedTexts(ds[..n]), if last.TextDelta? then last.text else None);
      JoinedAppend(block.thinking, JoinedThinking(ds[..n]), if last.ThinkingDelta? then last.thinking else None);
      JoinedAppend(slot.json, JoinedJson(ds[..n]), JsonPiece(last));
    }
  }

  lemma {:induction false} FoldedAppend(slot: Slot, a: seq<Event>, b: seq<Event>)
    ensures Folded(slot, a + b) == Folded(Folded(slot, a), b)
    decreases |b|
  {
    if b == [] {
      assert a + b == a;
    } else {
      assert (a + b)[..|a + b| - 1] == a + b[..|b| - 1];
      FoldedAppend(slot, a, b[..|b| - 1]);
    }
  }

  lemma FoldedOne(slot: Slot, e: Event)
    ensures Folded(slot, [e]) == Stepped(slot, e)
  {
    assert [e][..0] == [];
  }

  /** A started block with a type ends as itself with all its pieces appended, and the input text beside it. */
  lemma StartedBlock(index: Index, block: Block, ds: seq<Delta>)
    requires block.kind != ""
    ensures Folded(NO_SLOT, Started(index, block, ds)) == Slot(Some(Grown(block, ds)), JoinedJson(ds))
  {
    FoldedAppend(NO_SLOT, [BlockStart(index, block)], AsEvents(index, ds));
    FoldedOne(NO_SLOT, BlockStart(index, block));
    DeltasGrow(Slot(Some(block), None), index, ds);
    assert JoinedJson(ds).Some? ==> "" + JoinedJson(ds).value == JoinedJson(ds).value;
  }

  // ---- A block that was never started ----

  /** The type a delta gives a block that has none. */
  function KindOf(d: Delta): string {
    match d
    case TextDelta(text) => if text.Some? then "text" else ""
    case ThinkingDelta(thinking) => if thinking.Some? then "thinking" else ""
    case InputJsonDelta(partial) => if partial.Some? then "tool_use" else ""
    case SignatureDelta(_) => ""
    case UnknownDelta => ""
  }

  /** The type is given by the first delta that gives one. */
  predicate IsFirstKind(ds: seq<Delta>, kind: string) {
    if kind == "" then forall i :: 0 <= i < |ds| ==> KindOf(ds[i]) == ""
    else exists i :: 0 <= i < |ds| && KindOf(ds[i]) == kind && forall j :: 0 <= j < i ==> KindOf(ds[j]) == ""
  }

  lemma FirstKindStep(ds: seq<Delta>, kind: string, d: Delta)
    requires IsFirstKind(ds, kind)
    ensures IsFirstKind(ds + [d], if kind != "" then kind else KindOf(d))
  {
    var all := ds + [d];
    assert all[|ds|] == d;
    if kind != "" {
      var i :| 0 <= i < |ds| && KindOf(ds[i]) == kind && forall j :: 0 <= j < i ==> KindOf(ds[j]) == "";
      assert KindOf(all[i]) == kind;
    }
  }

  lemma JoinedToNothing(text: Option<string>)
    ensures Joined(None, text) == text
  {
    assert text.Some? ==> "" + text.value == text.value;
  }

  lemma GrownFromNothing(ds: seq<Delta>, kind: string)
    ensures Grown(EMPTY_BLOCK, ds).(kind := kind)
         == Block(kind, JoinedTexts(ds), JoinedThinking(ds), LastSignature(ds), None, None, None)
  {
    JoinedToNothing(JoinedTexts(ds));
    JoinedToNothing(JoinedThinking(ds));
  }

  /** Without a start the deltas make a block of their own: their joined texts and thinking, the last signature, and the type
      of the first delta that has one. */
  lemma {:induction false} UnstartedBlock(index: Index, ds: seq<Delta>) returns (kind: string)
    requires ds != []
    ensures IsFirstKind(ds, kind)
    ensures Folded(NO_SLOT, AsEvents(index, ds)) == Slot(Some(Grown(EMPTY_BLOCK, ds).(kind := kind)), JoinedJson(ds))
    decreases |ds|
  {
    var n := |ds| - 1;
    AsEventsLast(index, ds);
    assert ds == ds[..n] + [ds[n]];
    GrownFromNothing(ds, if n == 0 then KindOf(ds[0]) else "");
    if n == 0 {
      kind := KindOf(ds[0]);
      assert ds[..0] == [];
      assert AsEvents(index, ds[..0]) == [];
      FirstKindStep([], "", ds[0]);
    } else {
      var before := UnstartedBlock(index, ds[..n]);
      kind := if before != "" then before else KindOf(ds[n]);
      FirstKindStep(ds[..n], before, ds[n]);
      GrownFromNothing(ds[..n], before);
      GrownFromNothing(ds, kind);
    }
  }

  // ---- When a start comes late ----

  /** Deltas may create their block before its start arrives. */
  function LateStarted(index: Index, early: seq<Delta>, block: Block, ds: seq<Delta>): seq<Event> {
    AsEvents(index, early) + Started(index, block, ds)
  }

  lemma {:induction false} JsonGathers(slot: Slot, index: Index, ds: seq<Delta>)
    ensures Folded(slot, AsEvents(index, ds)).json == Joined(slot.json, JoinedJson(ds))
    decreases |ds|
  {
    if ds != [] {
      var n := |ds| - 1;
      JsonGathers(slot, index, ds[..n]);
      AsEventsLast(index, ds);
      JoinedAppend(slot.json, JoinedJson(ds[..n]), JsonPiece(ds[n]));
    }
  }

  lemma {:induction false} JoinedOfBoth(early: seq<Delta>, ds: seq<Delta>)
    ensures JoinedTexts(early + ds) == Joined(JoinedTexts(early), JoinedTexts(ds))
    ensures JoinedThinking(early + ds) == Joined(JoinedThinking(early), JoinedThinking(ds))
    ensures JoinedJson(early + ds) == Joined(JoinedJson(early), JoinedJson(ds))
    ensures LastSignature(early + ds) == if LastSignature(ds).Some? then LastSignature(ds) else LastSignature(early)
    decreases |ds|
  {
    if ds == [] {
      assert early + ds == early;
    } else {
      var n, last := |ds| - 1, ds[|ds| - 1];
      assert (early + ds)[..|early + ds| - 1] == early + ds[..n];
      JoinedOfBoth(early, ds[..n]);
      JoinedAppend(JoinedTexts(early), JoinedTexts(ds[..n]), if last.TextDelta? then last.text else None);
      JoinedAppend(JoinedThinking(early), JoinedThinking(ds[..n]), if last.ThinkingDelta? then last.thinking else None);
      JoinedAppend(JoinedJson(early), JoinedJson(ds[..n]), JsonPiece(last));
    }
  }

  /** A late start forgets the block its early deltas made, but not the input text they brought. */
  lemma LateStartForgets(index: Index, early: seq<Delta>, block: Block, ds: seq<Delta>)
    requires block.kind != ""
    ensures Folded(NO_SLOT, LateStarted(index, early, block, ds)) == Slot(Some(Grown(block, ds)), JoinedJson(early + ds))
  {
    var slot := Folded(NO_SLOT, AsEvents(index, early));
    FoldedAppend(NO_SLOT, AsEvents(index, early), Started(index, block, ds));
    FoldedAppend(slot, [BlockStart(index, block)], AsEvents(index, ds));
    FoldedOne(slot, BlockStart(index, block));
    JsonGathers(NO_SLOT, index, early);
    assert JoinedJson(early).Some? ==> "" + JoinedJson(early).value == JoinedJson(early).value;
    DeltasGrow(slot.(block := Some(block)), index, ds);
    JoinedOfBoth(early, ds);
  }

  /** Losing a text does no harm when there was none, or an empty one where a text exists without it. */
  predicate NothingLost(started: Option<string>, lost: Option<string>, later: Option<string>) {
    lost.None? || (lost.value == "" && (started.Some? || later.Some?))
  }

  lemma LostText(started: Option<string>, lost: Option<string>, later: Option<string>)
    ensures Joined(started, later) == Joined(started, Joined(lost, later)) <==> NothingLost(started, lost, later)
  {
    var s, x, l := OrEmpty(started), OrEmpty(lost), OrEmpty(later);
    assert |s + (x + l)| == |s| + |x| + |l| && |s + l| == |s| + |l| && |s + x| == |s| + |x|;
    assert x == "" ==> x + l == l && s + x == s;
  }

  /** A start behind some of its deltas gives the same block as one in front of them exactly when those deltas
      brought no text, no thinking and no signature that would be missed. */
  lemma LateStartIsHarmless(index: Index, early: seq<Delta>, block: Block, ds: seq<Delta>)
    requires block.kind != ""
    ensures Folded(NO_SLOT, LateStarted(index, early, block, ds)) == Folded(NO_SLOT, Started(index, block, early + ds))
        <==> && NothingLost(block.text, JoinedTexts(early), JoinedTexts(ds))
             && NothingLost(block.thinking, JoinedThinking(early), JoinedThinking(ds))
             && (LastSignature(early).None? || LastSignature(ds).Some? || LastSignature(early) == block.signature)
  {
    LateStartForgets(index, early, block, ds);
    StartedBlock(index, block, early + ds);
    JoinedOfBoth(early, ds);
    LostText(block.text, JoinedTexts(early), JoinedTexts(ds));
    LostText(block.thinking, JoinedThinking(early), JoinedThinking(ds));
  }

  /** A block start behind its only text discards it. */
  lemma LateStartDiscardsText(index: Index, block: Block, text: string)
    requires text != "" && block.text == None && block.kind != ""
    ensures Folded(NO_SLOT, LateStarted(index, [TextDelta(Some(text))], block, [])).block.value.text == None
    ensures Folded(NO_SLOT, Started(index, block, [TextDelta(Some(text))])).block.value.text == Some(text)
  {
    LateStartForgets(index, [TextDelta(Some(text))], block, []);
    StartedBlock(index, block, [TextDelta(Some(text))]);
    assert [TextDelta(Some(text))][..0] == [];
    assert "" + text == text;
  }

  // ---- The finished content ----

  /** The decoded tool input; anything but an object counts as the empty object. */
  function InputOf(d: Decoder, raw: string): string {
    if d.isBlank(raw) then "{}"
    else
      match d.decode(raw)
      case Object(text) => text
      case OtherValue => "{}"
      case Invalid => "{}"
  }

  function FinishedBlock(d: Decoder, slot: Slot): Block {
    if slot.json.None? then BlockOf(slot)
    else if slot.block.None? then EMPTY_BLOCK.(kind := "tool_use", input := Some(InputOf(d, slot.json.value)))
    else slot.block.value.(input := Some(InputOf(d, slot.json.value)))
  }

  function Indices(s: Stream): set<Index> {
    s.blocks.Keys + s.json.Keys
  }

  function Content(d: Decoder, s: Stream, keys: seq<Index>): seq<Block> {
    seq(|keys|, i requires 0 <= i < |keys| => FinishedBlock(d, SlotAt(s, keys[i])))
  }

  /** The content of the reassembled message; `None` when the stream brought no block. */
  ghost predicate IsReassembled(d: Decoder, events: seq<Event>, content: Option<seq<Block>>) {
    exists keys :: ContentBy(d, Collected(events), keys, content)
  }

  ghost predicate ContentBy(d: Decoder, s: Stream, keys: seq<Index>, content: Option<seq<Block>>) {
    Lists(keys, Indices(s)) && content == if keys == [] then None else Some(Content(d, s, keys))
  }

  method ApplyContentBlockDelta(index: Index, block: Block, delta: Delta, json: map<Index, string>)
    returns (changed: Block, json': map<Index, string>)
    ensures changed == Applied(block, delta)
    ensures json' == if JsonPiece(delta).Some?
                     then json[index := OrEmpty(if index in json then Some(json[index]) else None) + JsonPiece(delta).value]
                     else json
  {
    changed, json' := block, json;
    match delta
    case TextDelta(text) =>
      if text.Some? {
        changed := KindOr(changed, "text");
        changed := changed.(text := Some(OrEmpty(changed.text) + text.value));
      }
    case ThinkingDelta(thinking) =>
      if thinking.Some? {
        changed := KindOr(changed, "thinking");
        changed := changed.(thinking := Some(OrEmpty(changed.thinking) + thinking.value));
      }
    case SignatureDelta(signature) =>
      if signature.Some? {
        changed := changed.(signature := signature);
      }
    case InputJsonDelta(partial) =>
      if partial.Some? {
        changed := KindOr(changed, "tool_use");
        var before := if index in json then json[index] else "";
        json' := json[index := before + partial.value];
      }
    case UnknownDelta =>
  }

  method ParseStreamResponse(d: Decoder, events: seq<Event>) returns (content: Option<seq<Block>>)
    ensures IsReassembled(d, events, content)
  {
    var blocks: map<Index, Block>, json: map<Index, string> := map[], map[];
    for i := 0 to |events|
      invariant Stream(blocks, json) == Collected(events[..i])
    {
      assert events[..i + 1][..i] == events[..i];
      match events[i]
      case BlockStart(index, block) =>
        blocks := blocks[index := block];
        assert index in json ==> json[index := json[index]] == json;
      case BlockDelta(index, delta) =>
        var current := if index in blocks then blocks[index] else EMPTY_BLOCK;
        assert index in json ==> json[index := json[index]] == json;
        var changed;
        changed, json := ApplyContentBlockDelta(index, current, delta, json);
        blocks := blocks[index := changed];
      case Other =>
    }
    assert events[..|events|] == events;
    content := FinishContent(d, blocks, json);
    assert Stream(blocks, json) == Collected(events);
  }

  /** The two closing loops: decode the inputs, then list the blocks by index. */
  method FinishContent(d: Decoder, blocks: map<Index, Block>, json: map<Index, string>) returns (content: Option<seq<Block>>)
    ensures exists keys :: ContentBy(d, Stream(blocks, json), keys, content)
  {
    var s := Stream(blocks, json);
    var finished, left := blocks, json.Keys;
    while left != {}
      invariant left <= json.Keys
      invariant finished.Keys == blocks.Keys + (json.Keys - left)
      invariant forall i :: i in finished ==>
        finished[i] == if i in left then blocks[i] else FinishedBlock(d, SlotAt(s, i))
      decreases left
    {
      var index :| index in left;
      var block := if index in finished then finished[index] else EMPTY_BLOCK.(kind := "tool_use");
      finished := finished[index := block.(input := Some(InputOf(d, json[index])))];
      left := left - {index};
    }
    var keys := SortIndices(finished.Keys);
    var listed: seq<Block> := [];
    for i := 0 to |keys|
      invariant listed == Content(d, s, keys)[..i]
    {
      assert keys[i] in keys;
      listed := listed + [finished[keys[i]]];
    }
    assert listed == Content(d, s, keys);
    content := if keys == [] then None else Some(listed);
    assert ContentBy(d, s, keys, content);
  }

  /** The pieces of two started blocks join to the same. */
  predicate SamePieces(ds: seq<Delta>, es: seq<Delta>) {
    JoinedTexts(ds) == JoinedTexts(es) && JoinedThinking(ds) == JoinedThinking(es)
    && JoinedJson(ds) == JoinedJson(es) && LastSignature(ds) == LastSignature(es)
  }

  /** The index received the same started block with the same joined pieces. */
  predicate SameStarted(a: seq<Event>, b: seq<Event>, index: Index, block: Block, ds: seq<Delta>, es: seq<Delta>) {
    block.kind != "" && SamePieces(ds, es)
    && Own(a, index) == Started(index, block, ds) && Own(b, index) == Started(index, block, es)
  }

  /** The index received the same events, or the same block cut in another way. */
  ghost predicate AlikeAt(a: seq<Event>, b: seq<Event>, index: Index) {
    Own(a, index) == Own(b, index) || exists block, ds, es :: SameStarted(a, b, index, block, ds, es)
  }

  /** How a started block was cut, and in which order its kinds of pieces came, does not matter. */
  lemma CutsDoNotMatter(a: seq<Event>, b: seq<Event>, index: Index)
    requires AlikeAt(a, b, index)
    ensures SlotAt(Collected(a), index) == SlotAt(Collected(b), index)
  {
    CollectedPerIndex(a, index);
    CollectedPerIndex(b, index);
    if block, ds, es :| SameStarted(a, b, index, block, ds, es) {
      StartedBlock(index, block, ds);
      StartedBlock(index, block, es);
    }
  }

  /** Streams that agree in this sense on every index reassemble to the same content. */
  lemma SameContent(d: Decoder, a: seq<Event>, b: seq<Event>, m: Option<seq<Block>>, n: Option<seq<Block>>)
    requires IsReassembled(d, a, m) && IsReassembled(d, b, n)
    requires forall index :: AlikeAt(a, b, index)
    ensures m == n
  {
    forall index ensures SlotAt(Collected(a), index) == SlotAt(Collected(b), index) {
      CutsDoNotMatter(a, b, index);
    }
    SlotsDetermineStream(Collected(a), Collected(b));
    var k :| ContentBy(d, Collected(a), k, m);
    var l :| ContentBy(d, Collected(b), l, n);
    ListingIsUnique(k, l);
  }

  // ---- A streamed message equals the message it was cut from ----

  /** The input of a finished tool call: the decoded object, and the empty object for anything else. */
  predicate IsInput(d: Decoder, raw: string, input: string) {
    if !d.isBlank(raw) && d.decode(raw).Object? then input == d.decode(raw).text else input == "{}"
  }

  /** The block an unstreamed message would hold: all pieces appended, the input decoded if any came. */
  predicate IsWhole(d: Decoder, block: Block, ds: seq<Delta>, whole: Block) {
    && whole == Grown(block, ds).(input := whole.input)
    && match JoinedJson(ds)
       case None => whole.input == block.input
       case Some(raw) => whole.input.Some? && IsInput(d, raw, whole.input.value)
  }

  /** The stream starts block `k` under index `at[k]` and brings it the pieces `pieces[k]`, and nothing else. */
  ghost predicate Delivers(events: seq<Event>, at: seq<Index>, blocks: seq<Block>, pieces: seq<seq<Delta>>) {
    && |at| == |blocks| == |pieces| && Increasing(at)
    && (forall index :: index in at <==> Own(events, index) != [])
    && (forall k :: 0 <= k < |at| ==> DeliversAt(events, at[k], blocks[k], pieces[k]))
  }

  predicate DeliversAt(events: seq<Event>, index: Index, block: Block, ds: seq<Delta>) {
    block.kind != "" && Own(events, index) == Started(index, block, ds)
  }

  lemma SlotOfDelivered(d: Decoder, events: seq<Event>, index: Index, block: Block, ds: seq<Delta>)
    requires DeliversAt(events, index, block, ds)
    ensures IsWhole(d, block, ds, FinishedBlock(d, SlotAt(Collected(events), index)))
    ensures index in Indices(Collected(events))
  {
    CollectedPerIndex(events, index);
    StartedBlock(index, block, ds);
  }

  lemma OnlyDelivered(events: seq<Event>, at: seq<Index>, blocks: seq<Block>, pieces: seq<seq<Delta>>)
    requires Delivers(events, at, blocks, pieces)
    ensures Indices(Collected(events)) == Elements(at)
  {
    var s := Collected(events);
    forall index ensures index in Indices(s) <==> index in Elements(at) {
      CollectedPerIndex(events, index);
      if index in at {
        var k :| 0 <= k < |at| && at[k] == index;
        assert DeliversAt(events, at[k], blocks[k], pieces[k]);
        StartedBlock(index, blocks[k], pieces[k]);
      } else {
        assert Own(events, index) == [];
      }
    }
  }

  /** However its blocks were cut and interleaved, the stream yields exactly the whole blocks in index order; only
      an empty message yields none. */
  lemma StreamReturnsBlocks(d: Decoder, events: seq<Event>, content: Option<seq<Block>>,
                            at: seq<Index>, blocks: seq<Block>, pieces: seq<seq<Delta>>)
    requires IsReassembled(d, events, content) && Delivers(events, at, blocks, pieces)
    ensures at == [] ==> content == None
    ensures at != [] ==>
      && content.Some? && |content.value| == |blocks|
      && forall k :: 0 <= k < |blocks| ==> IsWhole(d, blocks[k], pieces[k], content.value[k])
  {
    var keys :| ContentBy(d, Collected(events), keys, content);
    OnlyDelivered(events, at, blocks, pieces);
    ListingIsUnique(keys, at);
    forall k | 0 <= k < |at| ensures IsWhole(d, blocks[k], pieces[k], FinishedBlock(d, SlotAt(Collected(events), at[k]))) {
      assert DeliversAt(events, at[k], blocks[k], pieces[k]);
      SlotOfDelivered(d, events, at[k], blocks[k], pieces[k]);
    }
  }
}
