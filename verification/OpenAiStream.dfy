/** Reassembly of a streamed chat completion: tool-call fragments are collected per index, texts are joined.
    When every fragment carries its index, only what each index received matters, neither how it was cut
    nor how the indices were interleaved. */
module OpenAiStream {
  import opened Messages
  import opened StreamIndex

  datatype FunctionDelta = FunctionDelta(name: Option<string>, arguments: Option<string>)

  /** One entry of a `tool_calls` delta; `None` stands for a key that is missing or of another type. */
  datatype Fragment = Malformed | Fragment(index: Option<Index>, id: Option<string>, fun: Option<FunctionDelta>)

  datatype Partial = Partial(id: string, name: string, arguments: string)

  datatype StreamedCall = StreamedCall(id: string, name: string, arguments: string)

  const EMPTY := Partial("", "", "")

  // ---- Collecting ----

  /** The effect of a fragment on the call it belongs to. */
  function Extended(p: Partial, f: Fragment): Partial
    requires f.Fragment?
  {
    var named := if f.id.Some? then p.(id := f.id.value) else p;
    if f.fun.None? then named
    else named.(name := p.name + OrEmpty(f.fun.value.name), arguments := p.arguments + OrEmpty(f.fun.value.arguments))
  }

  function PartAt(parts: map<Index, Partial>, index: Index): Partial {
    if index in parts then parts[index] else EMPTY
  }

  /** A fragment without an index is filed under the number of indices seen so far, be that index taken or not. */
  function IndexOf(parts: map<Index, Partial>, f: Fragment): Index
    requires f.Fragment?
  {
    if f.index.Some? then f.index.value else Index(|parts|)
  }

  function Collected(parts: map<Index, Partial>, fs: seq<Fragment>): map<Index, Partial>
    decreases |fs|
  {
    if fs == [] then parts
    else if fs[0].Malformed? then Collected(parts, fs[1..])
    else
      var index := IndexOf(parts, fs[0]);
      Collected(parts[index := Extended(PartAt(parts, index), fs[0])], fs[1..])
  }

  method CollectStreamToolCalls(payload: seq<Fragment>, before: map<Index, Partial>) returns (parts: map<Index, Partial>)
    ensures parts == Collected(before, payload)
  {
    parts := before;
    for i := 0 to |payload|
      invariant Collected(parts, payload[i..]) == Collected(before, payload)
    {
      var item := payload[i];
      assert payload[i..][1..] == payload[i + 1..];
      if item.Fragment? {
        var index := if item.index.Some? then item.index.value else Index(|parts|);
        var current := if index in parts then parts[index] else EMPTY;
        if item.id.Some? {
          current := current.(id := item.id.value);
        }
        if item.fun.Some? {
          if item.fun.value.name.Some? {
            current := current.(name := current.name + item.fun.value.name.value);
          }
          if item.fun.value.arguments.Some? {
            current := current.(arguments := current.arguments + item.fun.value.arguments.value);
          }
        }
        AppendNothing(PartAt(parts, index), item);
        parts := parts[index := current];
      }
    }
  }

  /** Joining a missing text changes nothing. */
  lemma AppendNothing(p: Partial, f: Fragment)
    ensures p.name + "" == p.name && p.arguments + "" == p.arguments
  {
  }

  // ---- Each index sees its own fragments only ----

  predicate AllIndexed(fs: seq<Fragment>) {
    forall k :: 0 <= k < |fs| ==> fs[k].Fragment? ==> fs[k].index.Some?
  }

  /** The fragments of one index, in order. */
  function Own(fs: seq<Fragment>, index: Index): seq<Fragment> {
    if fs == [] then []
    else if fs[0].Fragment? && fs[0].index == Some(index) then [fs[0]] + Own(fs[1..], index)
    else Own(fs[1..], index)
  }

  function Folded(p: Partial, own: seq<Fragment>): Partial
    decreases |own|
  {
    if own == [] then p
    else if own[0].Malformed? then Folded(p, own[1..])
    else Folded(Extended(p, own[0]), own[1..])
  }

  lemma {:induction false} CollectedPerIndex(parts: map<Index, Partial>, fs: seq<Fragment>, index: Index)
    requires AllIndexed(fs)
    ensures index in Collected(parts, fs) <==> index in parts || Own(fs, index) != []
    ensures index in Collected(parts, fs) ==> Collected(parts, fs)[index] == Folded(PartAt(parts, index), Own(fs, index))
    decreases |fs|
  {
    if fs != [] {
      var f, rest := fs[0], fs[1..];
      assert AllIndexed(rest);
      if f.Malformed? {
        CollectedPerIndex(parts, rest, index);
      } else {
        CollectedPerIndex(parts[f.index.value := Extended(PartAt(parts, f.index.value), f)], rest, index);
        assert ([f] + Own(rest, index))[1..] == Own(rest, index);
      }
    }
  }

  // ---- What an index received ----

  function Names(own: seq<Fragment>): string {
    if own == [] then ""
    else if own[0].Malformed? || own[0].fun.None? then Names(own[1..])
    else OrEmpty(own[0].fun.value.name) + Names(own[1..])
  }

  function Arguments(own: seq<Fragment>): string {
    if own == [] then ""
    else if own[0].Malformed? || own[0].fun.None? then Arguments(own[1..])
    else OrEmpty(own[0].fun.value.arguments) + Arguments(own[1..])
  }

  function LastId(own: seq<Fragment>, before: string): string {
    if own == [] then before
    else if own[0].Fragment? && own[0].id.Some? then LastId(own[1..], own[0].id.value)
    else LastId(own[1..], before)
  }

  /** All an index keeps of its fragments: the last id, and the joined names and arguments. */
  lemma {:induction false} FoldedMeaning(p: Partial, own: seq<Fragment>)
    ensures Folded(p, own) == Partial(LastId(own, p.id), p.name + Names(own), p.arguments + Arguments(own))
    decreases |own|
  {
    if own == [] {
      AppendNothing(p, Malformed);
    } else if own[0].Malformed? {
      FoldedMeaning(p, own[1..]);
    } else {
      var f := own[0];
      FoldedMeaning(Extended(p, f), own[1..]);
      if f.fun.Some? {
        Assoc(p.name, OrEmpty(f.fun.value.name), Names(own[1..]));
        Assoc(p.arguments, OrEmpty(f.fun.value.arguments), Arguments(own[1..]));
      }
    }
  }

  lemma NothingBefore(text: string)
    ensures "" + text == text
  {
  }

  lemma CollectedPart(fs: seq<Fragment>, index: Index)
    requires AllIndexed(fs)
    ensures index in Collected(map[], fs) <==> Own(fs, index) != []
    ensures index in Collected(map[], fs) ==>
      Collected(map[], fs)[index] == Partial(LastId(Own(fs, index), ""), Names(Own(fs, index)), Arguments(Own(fs, index)))
  {
    var own := Own(fs, index);
    CollectedPerIndex(map[], fs, index);
    FoldedMeaning(EMPTY, own);
    NothingBefore(Names(own));
    NothingBefore(Arguments(own));
  }

  /** Two streams give an index the same things, whatever their cuts. */
  predicate SameFor(fs: seq<Fragment>, gs: seq<Fragment>, index: Index) {
    var f, g := Own(fs, index), Own(gs, index);
    (f == [] <==> g == []) && LastId(f, "") == LastId(g, "") && Names(f) == Names(g) && Arguments(f) == Arguments(g)
  }

  /** Interleaving and fragmentation do not matter. */
  lemma ReassemblyIsStable(fs: seq<Fragment>, gs: seq<Fragment>)
    requires AllIndexed(fs) && AllIndexed(gs)
    requires forall index :: SameFor(fs, gs, index)
    ensures Collected(map[], fs) == Collected(map[], gs)
  {
    forall index
      ensures index in Collected(map[], fs) <==> index in Collected(map[], gs)
      ensures index in Collected(map[], fs) ==> Collected(map[], fs)[index] == Collected(map[], gs)[index]
    {
      assert SameFor(fs, gs, index);
      CollectedPart(fs, index);
      CollectedPart(gs, index);
    }
  }

  // ---- Without an index ----

  function TextFragment(index: Option<Index>, id: Option<string>, name: string, arguments: string): Fragment {
    Fragment(index, id, Some(FunctionDelta(Some(name), Some(arguments))))
  }

  lemma CollectOne(parts: map<Index, Partial>, f: Fragment)
    requires f.Fragment?
    ensures Collected(parts, [f]) == parts[IndexOf(parts, f) := Extended(PartAt(parts, IndexOf(parts, f)), f)]
  {
    assert [f][1..] == [];
  }

  lemma CollectTwo(parts: map<Index, Partial>, f: Fragment, g: Fragment)
    requires f.Fragment?
    ensures Collected(parts, [f, g]) == Collected(Collected(parts, [f]), [g])
  {
    assert [f, g] == [f] + [g];
    CollectedAppend(parts, [f], [g]);
  }

  /** A fragment without an index opens a call of its own exactly when no call sits at the number of calls. */
  lemma UnindexedOpensCall(parts: map<Index, Partial>, f: Fragment)
    requires f.Fragment? && f.index.None?
    ensures |Collected(parts, [f])| == |parts| + 1 <==> Index(|parts|) !in parts
    ensures |Collected(parts, [f])| == |parts| <==> Index(|parts|) in parts
  {
    CollectOne(parts, f);
    var next := Index(|parts|);
    var after := Collected(parts, [f]);
    if next in parts {
      assert after.Keys == parts.Keys;
      assert |after| == |after.Keys| && |parts| == |parts.Keys|;
    } else {
      assert after.Keys == parts.Keys + {next};
      assert |after| == |after.Keys| && |parts| == |parts.Keys|;
    }
  }

  lemma GrownText(a: string, b: string)
    ensures a + b == a <==> b == ""
  {
    assert |a + b| == |a| + |b|;
  }

  /** Cutting a fragment in two changes nothing exactly when both halves carry the index, or the unindexed halves
      meet in a call that was there before; or when the second half is empty and falls on a call that was there. */
  lemma CutIsHarmless(parts: map<Index, Partial>, index: Option<Index>, id: Option<string>,
                      name: string, moreName: string, arguments: string, moreArguments: string)
    ensures Collected(parts, [TextFragment(index, id, name, arguments), TextFragment(index, None, moreName, moreArguments)])
         == Collected(parts, [TextFragment(index, id, name + moreName, arguments + moreArguments)])
        <==> index.Some? || Index(|parts|) in parts
             || (moreName == "" && moreArguments == "" && Index(|parts| + 1) in parts)
  {
    var first, second := TextFragment(index, id, name, arguments), TextFragment(index, None, moreName, moreArguments);
    var whole := TextFragment(index, id, name + moreName, arguments + moreArguments);
    var at := IndexOf(parts, first);
    var one := Collected(parts, [first]);
    CollectOne(parts, first);
    CollectOne(parts, whole);
    CollectTwo(parts, first, second);
    CollectOne(one, second);
    if index.Some? || at in parts {
      if index.None? {
        UnindexedOpensCall(parts, first);
      }
      Assoc(PartAt(parts, at).name, name, moreName);
      Assoc(PartAt(parts, at).arguments, arguments, moreArguments);
    } else {
      UnindexedOpensCall(parts, first);
      var next := Index(|parts| + 1);
      assert one[next := Extended(PartAt(one, next), second)] == Collected(parts, [first, second]);
      if next in parts {
        StrayHalf(parts, at, next, first, second, whole);
      } else {
        assert next !in Collected(parts, [whole]);
      }
    }
  }

  /** The second half falls on another call. */
  lemma StrayHalf(parts: map<Index, Partial>, at: Index, next: Index, first: Fragment, second: Fragment, whole: Fragment)
    requires at !in parts && next in parts && first.Fragment? && second.Fragment? && whole.Fragment?
    requires first.fun.Some? && second.fun.Some? && whole.fun == Some(FunctionDelta(
      Some(OrEmpty(first.fun.value.name) + OrEmpty(second.fun.value.name)),
      Some(OrEmpty(first.fun.value.arguments) + OrEmpty(second.fun.value.arguments))))
    requires first.id == whole.id && second.id.None?
    ensures parts[at := Extended(EMPTY, first)][next := Extended(parts[next], second)] == parts[at := Extended(EMPTY, whole)]
        <==> OrEmpty(second.fun.value.name) == "" && OrEmpty(second.fun.value.arguments) == ""
  {
    var a, b := parts[at := Extended(EMPTY, first)][next := Extended(parts[next], second)], parts[at := Extended(EMPTY, whole)];
    GrownText(parts[next].name, OrEmpty(second.fun.value.name));
    GrownText(parts[next].arguments, OrEmpty(second.fun.value.arguments));
    assert a == b ==> a[next] == b[next];
    if OrEmpty(second.fun.value.name) == "" && OrEmpty(second.fun.value.arguments) == "" {
      GrownText(OrEmpty(first.fun.value.name), "");
      GrownText(OrEmpty(first.fun.value.arguments), "");
      assert a[at] == b[at] && a[next] == b[next];
      assert a == b;
    }
  }

  /** A harmless cut stays harmless whatever follows in the stream. */
  lemma CutInStream(before: seq<Fragment>, after: seq<Fragment>, index: Option<Index>, id: Option<string>,
                    name: string, moreName: string, arguments: string, moreArguments: string)
    requires var parts := Collected(map[], before);
      index.Some? || Index(|parts|) in parts || (moreName == "" && moreArguments == "" && Index(|parts| + 1) in parts)
    ensures Collected(map[], (before + [TextFragment(index, id, name, arguments), TextFragment(index, None, moreName, moreArguments)]) + after)
         == Collected(map[], (before + [TextFragment(index, id, name + moreName, arguments + moreArguments)]) + after)
  {
    var cut := [TextFragment(index, id, name, arguments), TextFragment(index, None, moreName, moreArguments)];
    var whole := [TextFragment(index, id, name + moreName, arguments + moreArguments)];
    CutIsHarmless(Collected(map[], before), index, id, name, moreName, arguments, moreArguments);
    CollectedAppend(map[], before + cut, after);
    CollectedAppend(map[], before, cut);
    CollectedAppend(map[], before + whole, after);
    CollectedAppend(map[], before, whole);
  }

  /** In an empty stream the second half opens a call of its own. */
  lemma UnindexedSplitIsLost(id: string, name: string, rest: string)
    ensures Collected(map[], [TextFragment(None, Some(id), name, ""), TextFragment(None, None, rest, "")])
         == map[Index(0) := Partial(id, name, ""), Index(1) := Partial("", rest, "")]
  {
    var first, second := TextFragment(None, Some(id), name, ""), TextFragment(None, None, rest, "");
    var one: map<Index, Partial> := map[Index(0) := Partial(id, name, "")];
    CollectTwo(map[], first, second);
    CollectOne(map[], first);
    assert "" + name == name && "" + rest == rest;
    assert Collected(map[], [first]) == one;
    assert |one| == 1;
    CollectOne(one, second);
  }

  /** Behind a single call at index one, a call without an index is glued to it and takes over its id. */
  lemma UnindexedCallCollides(id: string, name: string, arguments: string, other: string, rest: string, moreArguments: string)
    ensures Collected(map[], [TextFragment(Some(Index(1)), Some(id), name, arguments), TextFragment(None, Some(other), rest, moreArguments)])
         == map[Index(1) := Partial(other, name + rest, arguments + moreArguments)]
  {
    var first, second := TextFragment(Some(Index(1)), Some(id), name, arguments), TextFragment(None, Some(other), rest, moreArguments);
    var one: map<Index, Partial> := map[Index(1) := Partial(id, name, arguments)];
    CollectTwo(map[], first, second);
    CollectOne(map[], first);
    assert "" + name == name && "" + arguments == arguments;
    assert Collected(map[], [first]) == one;
    assert |one| == 1;
    CollectOne(one, second);
  }

  // ---- Building the calls ----

  /** The calls with an id and a name, by the given order of indices. */
  function Built(parts: map<Index, Partial>, keys: seq<Index>): seq<StreamedCall>
    requires forall k :: k in keys ==> k in parts
  {
    if keys == [] then []
    else
      var n := |keys| - 1;
      assert keys[n] in keys;
      var p := parts[keys[n]];
      if p.id == "" || p.name == "" then Built(parts, keys[..n])
      else Built(parts, keys[..n]) + [StreamedCall(p.id, p.name, p.arguments)]
  }

  lemma BuiltAppend(parts: map<Index, Partial>, keys: seq<Index>, index: Index)
    requires (forall k :: k in keys ==> k in parts) && index in parts
    ensures Built(parts, keys + [index])
         == if parts[index].id == "" || parts[index].name == "" then Built(parts, keys)
            else Built(parts, keys) + [StreamedCall(parts[index].id, parts[index].name, parts[index].arguments)]
  {
    assert (keys + [index])[..|keys|] == keys;
  }

  method BuildStreamToolCalls(parts: map<Index, Partial>) returns (calls: seq<StreamedCall>, keys: seq<Index>)
    ensures Lists(keys, parts.Keys)
    ensures forall k :: k in keys ==> k in parts
    ensures calls == Built(parts, keys)
  {
    keys := SortIndices(parts.Keys);
    calls := [];
    for i := 0 to |keys|
      invariant forall k :: k in keys[..i] ==> k in parts
      invariant calls == Built(parts, keys[..i])
    {
      var item := parts[keys[i]];
      assert keys[..i + 1] == keys[..i] + [keys[i]];
      BuiltAppend(parts, keys[..i], keys[i]);
      if item.id != "" && item.name != "" {
        calls := calls + [StreamedCall(item.id, item.name, item.arguments)];
      }
    }
    assert keys[..|keys|] == keys;
  }

  // ---- Which cuts can be told from the calls ----

  ghost predicate BuiltFrom(parts: map<Index, Partial>, keys: seq<Index>, calls: seq<StreamedCall>) {
    Lists(keys, parts.Keys) && (forall k :: k in keys ==> k in parts) && calls == Built(parts, keys)
  }

  /** The calls that are built from these parts. */
  ghost predicate Builds(parts: map<Index, Partial>, calls: seq<StreamedCall>) {
    exists keys :: BuiltFrom(parts, keys, calls)
  }

  ghost predicate SameCalls(p: map<Index, Partial>, q: map<Index, Partial>) {
    forall calls :: Builds(p, calls) <==> Builds(q, calls)
  }

  predicate IsCall(parts: map<Index, Partial>, k: Index, call: StreamedCall) {
    k in parts && parts[k].id != "" && parts[k].name != "" && call == StreamedCall(parts[k].id, parts[k].name, parts[k].arguments)
  }

  lemma {:induction false} BuiltCalls(parts: map<Index, Partial>, keys: seq<Index>, call: StreamedCall)
    requires forall k :: k in keys ==> k in parts
    ensures call in Built(parts, keys) <==> exists k :: k in keys && IsCall(parts, k, call)
  {
    if keys != [] {
      var n := |keys| - 1;
      assert keys == keys[..n] + [keys[n]];
      assert forall k :: k in keys <==> k in keys[..n] || k == keys[n];
      BuiltCalls(parts, keys[..n], call);
      BuiltAppend(parts, keys[..n], keys[n]);
      assert call in Built(parts, keys) <==> call in Built(parts, keys[..n]) || IsCall(parts, keys[n], call);
    }
  }

  /** A call that only one of the two holds tells them apart. */
  lemma TellsApart(p: map<Index, Partial>, q: map<Index, Partial>, k: Index, call: StreamedCall)
    requires IsCall(p, k, call) && forall j :: !IsCall(q, j, call)
    ensures !SameCalls(p, q)
  {
    var keys := ListingExists(p.Keys);
    var calls := Built(p, keys);
    assert BuiltFrom(p, keys, calls);
    assert k in Elements(keys);
    BuiltCalls(p, keys, call);
    if Builds(q, calls) {
      var others :| BuiltFrom(q, others, calls);
      BuiltCalls(q, others, call);
      assert false;
    }
  }

  lemma {:induction false} NewId(parts: map<Index, Partial>) returns (id: string)
    ensures id != "" && forall k :: k in parts ==> parts[k].id != id && |parts[k].id| < |id|
    decreases |parts|
  {
    id := "x";
    if k :| k in parts {
      var rest := parts - {k};
      assert rest.Keys == parts.Keys - {k} && |rest| == |rest.Keys| && |parts| == |parts.Keys|;
      id := NewId(rest);
      assert forall j :: j in parts ==> j == k || (j in rest && rest[j] == parts[j]);
      if |parts[k].id| >= |id| {
        id := parts[k].id + "x";
      }
    }
  }

  /** No later fragments ever make the two collect to different calls. */
  ghost predicate Unnoticed(parts: map<Index, Partial>, fs: seq<Fragment>, gs: seq<Fragment>) {
    forall after :: SameCalls(Collected(Collected(parts, fs), after), Collected(Collected(parts, gs), after))
  }

  /** A later fragment that completes the call at `at` shows that its texts differ. */
  lemma TextIsNoticed(p: map<Index, Partial>, q: map<Index, Partial>, at: Index) returns (after: seq<Fragment>)
    requires at in p && at in q && (p[at].name != q[at].name || p[at].arguments != q[at].arguments)
    ensures !SameCalls(Collected(p, after), Collected(q, after))
  {
    var id := NewId(q);
    var f := TextFragment(Some(at), Some(id), "y", "");
    after := [f];
    CollectOne(p, f);
    CollectOne(q, f);
    GrownText(p[at].arguments, "");
    GrownText(q[at].arguments, "");
    SameEnding(p[at].name, q[at].name, "y");
    TellsApart(Collected(p, after), Collected(q, after), at, StreamedCall(id, p[at].name + "y", p[at].arguments));
  }

  lemma SameEnding(a: string, b: string, ending: string)
    ensures a + ending == b + ending <==> a == b
  {
    assert (a + ending)[..|a|] == a && (b + ending)[..|b|] == b;
    assert |a + ending| == |a| + |ending| && |b + ending| == |b| + |ending|;
  }

  /** An additional part, though it yields no call itself, makes a later call without an index go elsewhere. */
  lemma PartIsNoticed(q: map<Index, Partial>, part: Partial) returns (after: seq<Fragment>)
    requires Index(|q|) !in q && part.id == ""
    ensures !SameCalls(Collected(q, after), Collected(q[Index(|q|) := part], after))
  {
    var at, p := Index(|q|), q[Index(|q|) := part];
    var id := NewId(p);
    var f, g := TextFragment(None, Some(id), "y", ""), TextFragment(Some(at), None, "z", "");
    after := [f, g];
    assert p.Keys == q.Keys + {at} && |p| == |p.Keys| && |q| == |q.Keys|;
    CollectTwo(q, f, g);
    CollectOne(q, f);
    CollectTwo(p, f, g);
    CollectOne(p, f);
    var q', p' := Collected(q, [f]), Collected(p, [f]);
    CollectOne(q', g);
    CollectOne(p', g);
    var call := StreamedCall(id, "yz", "");
    assert q'[at] == Partial(id, "" + "y", "" + "");
    assert ("" + "y") + "z" == "yz" && ("" + "") + "" == "";
    assert IsCall(Collected(q, after), at, call);
    var next := Index(|p|);
    assert p'[next].name == PartAt(p, next).name + "y";
    assert "yz"[1] == 'z' && (PartAt(p, next).name + "y")[|PartAt(p, next).name|] == 'y';
    forall j ensures !IsCall(Collected(p, after), j, call) {
    }
    TellsApart(Collected(q, after), Collected(p, after), at, call);
  }

  /** The same condition decides whether any later stream can tell the cut from the calls it builds. */
  lemma CutIsUnnoticed(parts: map<Index, Partial>, index: Option<Index>, id: Option<string>,
                       name: string, moreName: string, arguments: string, moreArguments: string)
    ensures Unnoticed(parts, [TextFragment(index, id, name, arguments), TextFragment(index, None, moreName, moreArguments)],
                      [TextFragment(index, id, name + moreName, arguments + moreArguments)])
        <==> index.Some? || Index(|parts|) in parts
             || (moreName == "" && moreArguments == "" && Index(|parts| + 1) in parts)
  {
    var first, second := TextFragment(index, id, name, arguments), TextFragment(index, None, moreName, moreArguments);
    var whole := TextFragment(index, id, name + moreName, arguments + moreArguments);
    CutIsHarmless(parts, index, id, name, moreName, arguments, moreArguments);
    if index.None? && Index(|parts|) !in parts {
      var at, one := Index(|parts|), Collected(parts, [first]);
      CollectOne(parts, first);
      CollectOne(parts, whole);
      CollectTwo(parts, first, second);
      CollectOne(one, second);
      UnindexedOpensCall(parts, first);
      UnindexedOpensCall(parts, whole);
      var p, q := Collected(parts, [first, second]), Collected(parts, [whole]);
      if moreName != "" || moreArguments != "" {
        GrownText(name, moreName);
        GrownText(arguments, moreArguments);
        NothingBefore(name);
        NothingBefore(name + moreName);
        NothingBefore(arguments);
        NothingBefore(arguments + moreArguments);
        var after := TextIsNoticed(p, q, at);
      } else if Index(|parts| + 1) !in parts {
        GrownText(name, "");
        GrownText(arguments, "");
        assert p == q[Index(|q|) := Partial("", "", "")];
        var after := PartIsNoticed(q, Partial("", "", ""));
      }
    }
  }

  // ---- A streamed message equals the message it was cut from ----

  /** The stream delivers `calls[k]` under index `at[k]`, in any number of pieces. */
  ghost predicate Delivers(fs: seq<Fragment>, at: seq<Index>, calls: seq<StreamedCall>) {
    && AllIndexed(fs) && |at| == |calls| && Increasing(at)
    && (forall index :: index in at <==> Own(fs, index) != [])
    && (forall k :: 0 <= k < |at| ==> DeliversAt(fs, at[k], calls[k]))
  }

  predicate DeliversAt(fs: seq<Fragment>, index: Index, call: StreamedCall) {
    call.id != "" && call.name != ""
    && LastId(Own(fs, index), "") == call.id && Names(Own(fs, index)) == call.name && Arguments(Own(fs, index)) == call.arguments
  }

  lemma {:induction false} BuiltDelivered(fs: seq<Fragment>, at: seq<Index>, calls: seq<StreamedCall>, n: nat)
    requires Delivers(fs, at, calls) && n <= |at|
    requires forall k :: k in at ==> k in Collected(map[], fs)
    ensures Built(Collected(map[], fs), at[..n]) == calls[..n]
    decreases n
  {
    if n > 0 {
      BuiltDelivered(fs, at, calls, n - 1);
      DeliveredPart(fs, at[n - 1], calls[n - 1]);
      BuiltAppend(Collected(map[], fs), at[..n - 1], at[n - 1]);
      assert at[..n - 1] + [at[n - 1]] == at[..n];
      assert calls[..n - 1] + [calls[n - 1]] == calls[..n];
    }
  }

  lemma DeliveredPart(fs: seq<Fragment>, index: Index, call: StreamedCall)
    requires AllIndexed(fs) && DeliversAt(fs, index, call) && index in Collected(map[], fs)
    ensures Collected(map[], fs)[index] == Partial(call.id, call.name, call.arguments) && call.id != "" && call.name != ""
  {
    CollectedPart(fs, index);
  }

  /** Reassembly returns the calls in index order, exactly as an unstreamed response would list them. */
  lemma ReassemblyReturnsCalls(fs: seq<Fragment>, at: seq<Index>, calls: seq<StreamedCall>, keys: seq<Index>)
    requires Delivers(fs, at, calls)
    requires Lists(keys, Collected(map[], fs).Keys)
    ensures Built(Collected(map[], fs), keys) == calls
  {
    var parts := Collected(map[], fs);
    forall index ensures index in parts <==> index in at {
      CollectedPerIndex(map[], fs, index);
    }
    assert parts.Keys == Elements(at);
    ListingIsUnique(keys, at);
    BuiltDelivered(fs, at, calls, |at|);
    assert at[..|at|] == at && calls[..|calls|] == calls;
  }

  // ---- The whole stream ----

  datatype Delta = Delta(content: Option<string>, reasoning: Option<string>, refusal: Option<string>, toolCalls: seq<Fragment>)

  /** A parsed chunk; usage is kept as its JSON text. */
  datatype Chunk = Chunk(usage: Option<string>, finishReason: Option<string>, delta: Option<Delta>)

  datatype StreamMessage = StreamMessage(
    content: Option<string>, reasoning: Option<string>, refusal: Option<string>, toolCalls: seq<StreamedCall>,
    finishReason: Option<string>, usage: Option<string>)

  datatype Field = Content | Reasoning | Refusal

  function Piece(chunk: Chunk, field: Field): Option<string> {
    if chunk.delta.None? then None
    else
      match field
      case Content => chunk.delta.value.content
      case Reasoning => chunk.delta.value.reasoning
      case Refusal => chunk.delta.value.refusal
  }

  /** The text of a field so far; `None` until a first piece arrives. */
  function Extend(text: Option<string>, piece: Option<string>): Option<string> {
    if piece.None? then text else Some(OrEmpty(text) + piece.value)
  }

  function Text(chunks: seq<Chunk>, field: Field): Option<string> {
    if chunks == [] then None
    else Extend(Text(chunks[..|chunks| - 1], field), Piece(chunks[|chunks| - 1], field))
  }

  function Fragments(chunks: seq<Chunk>): seq<Fragment> {
    if chunks == [] then []
    else
      var last := chunks[|chunks| - 1];
      if last.delta.None? then Fragments(chunks[..|chunks| - 1])
      else Fragments(chunks[..|chunks| - 1]) + last.delta.value.toolCalls
  }

  function CallsIn(chunk: Chunk): seq<Fragment> {
    match chunk.delta
    case None => []
    case Some(d) => d.toolCalls
  }

  /** The fragments of all chunks, one after the other. */
  lemma {:induction false} FragmentsMeaning(chunks: seq<Chunk>)
    ensures Fragments(chunks) == Flatten(seq(|chunks|, i requires 0 <= i < |chunks| => CallsIn(chunks[i])))
    decreases |chunks|
  {
    var lists := seq(|chunks|, i requires 0 <= i < |chunks| => CallsIn(chunks[i]));
    if chunks != [] {
      var n := |chunks| - 1;
      FragmentsMeaning(chunks[..n]);
      var before := seq(n, i requires 0 <= i < n => CallsIn(chunks[..n][i]));
      assert lists == before + [CallsIn(chunks[n])];
      FlattenAppend(before, [CallsIn(chunks[n])]);
      FlattenOne(CallsIn(chunks[n]));
    }
  }

  function OrElse(a: Option<string>, b: Option<string>): Option<string> {
    if a.Some? then a else b
  }

  function LastFinish(chunks: seq<Chunk>): Option<string> {
    if chunks == [] then None else OrElse(chunks[|chunks| - 1].finishReason, LastFinish(chunks[..|chunks| - 1]))
  }

  function LastUsage(chunks: seq<Chunk>): Option<string> {
    if chunks == [] then None else OrElse(chunks[|chunks| - 1].usage, LastUsage(chunks[..|chunks| - 1]))
  }

  // ---- What the fields hold ----

  function Concat(texts: seq<string>): string {
    if texts == [] then "" else Concat(texts[..|texts| - 1]) + texts[|texts| - 1]
  }

  /** The pieces of one field that arrived, in order. */
  function Contents(chunks: seq<Chunk>): seq<string> {
    if chunks == [] then []
    else
      var before, d := Contents(chunks[..|chunks| - 1]), chunks[|chunks| - 1].delta;
      if d.Some? && d.value.content.Some? then before + [d.value.content.value] else before
  }

  function Reasonings(chunks: seq<Chunk>): seq<string> {
    if chunks == [] then []
    else
      var before, d := Reasonings(chunks[..|chunks| - 1]), chunks[|chunks| - 1].delta;
      if d.Some? && d.value.reasoning.Some? then before + [d.value.reasoning.value] else before
  }

  function Refusals(chunks: seq<Chunk>): seq<string> {
    if chunks == [] then []
    else
      var before, d := Refusals(chunks[..|chunks| - 1]), chunks[|chunks| - 1].delta;
      if d.Some? && d.value.refusal.Some? then before + [d.value.refusal.value] else before
  }

  predicate JoinsTo(texts: seq<string>, text: Option<string>) {
    if texts == [] then text.None? else text == Some(Concat(texts))
  }

  lemma ConcatAppend(texts: seq<string>, last: string)
    ensures Concat(texts + [last]) == Concat(texts) + last
  {
    assert (texts + [last])[..|texts|] == texts;
  }

  /** Each text field is the concatenation of its own pieces, and absent exactly when none arrived. */
  lemma {:induction false} TextMeaning(chunks: seq<Chunk>)
    ensures JoinsTo(Contents(chunks), Text(chunks, Content))
    ensures JoinsTo(Reasonings(chunks), Text(chunks, Reasoning))
    ensures JoinsTo(Refusals(chunks), Text(chunks, Refusal))
  {
    if chunks != [] {
      var front, last := chunks[..|chunks| - 1], chunks[|chunks| - 1];
      TextMeaning(front);
      if last.delta.Some? {
        ConcatAppend(Contents(front), OrEmpty(last.delta.value.content));
        ConcatAppend(Reasonings(front), OrEmpty(last.delta.value.reasoning));
        ConcatAppend(Refusals(front), OrEmpty(last.delta.value.refusal));
      }
    }
  }

  /** The value given last, if any was given. */
  predicate IsLast(given: seq<Option<string>>, last: Option<string>) {
    if last.None? then forall i :: 0 <= i < |given| ==> given[i].None?
    else exists i :: 0 <= i < |given| && given[i] == last && forall j :: i < j < |given| ==> given[j].None?
  }

  function FinishReasons(chunks: seq<Chunk>): seq<Option<string>> {
    seq(|chunks|, i requires 0 <= i < |chunks| => chunks[i].finishReason)
  }

  function Usages(chunks: seq<Chunk>): seq<Option<string>> {
    seq(|chunks|, i requires 0 <= i < |chunks| => chunks[i].usage)
  }

  lemma LastStep(given: seq<Option<string>>, before: Option<string>, more: Option<string>)
    requires IsLast(given, before)
    ensures IsLast(given + [more], OrElse(more, before))
  {
    var all := given + [more];
    if more.Some? {
      assert all[|given|] == more;
    } else if before.Some? {
      var i :| 0 <= i < |given| && given[i] == before && forall j :: i < j < |given| ==> given[j].None?;
      assert all[i] == before;
    }
  }

  /** Finish reason and usage are the ones given last. */
  lemma {:induction false} LastMeaning(chunks: seq<Chunk>)
    ensures IsLast(FinishReasons(chunks), LastFinish(chunks)) && IsLast(Usages(chunks), LastUsage(chunks))
  {
    if chunks != [] {
      var n := |chunks| - 1;
      LastMeaning(chunks[..n]);
      LastStep(FinishReasons(chunks[..n]), LastFinish(chunks[..n]), chunks[n].finishReason);
      LastStep(Usages(chunks[..n]), LastUsage(chunks[..n]), chunks[n].usage);
      assert FinishReasons(chunks) == FinishReasons(chunks[..n]) + [chunks[n].finishReason];
      assert Usages(chunks) == Usages(chunks[..n]) + [chunks[n].usage];
    }
  }

  /** `m` is the message reassembled from the chunks. */
  ghost predicate IsReassembled(chunks: seq<Chunk>, m: StreamMessage) {
    && m.content == Text(chunks, Content) && m.reasoning == Text(chunks, Reasoning) && m.refusal == Text(chunks, Refusal)
    && m.finishReason == LastFinish(chunks) && m.usage == LastUsage(chunks)
    && Builds(Collected(map[], Fragments(chunks)), m.toolCalls)
  }

  lemma {:induction false} CollectedAppend(parts: map<Index, Partial>, a: seq<Fragment>, b: seq<Fragment>)
    ensures Collected(parts, a + b) == Collected(Collected(parts, a), b)
    decreases |a|
  {
    if a == [] {
      assert a + b == b;
    } else {
      assert (a + b)[1..] == a[1..] + b;
      if a[0].Malformed? {
        CollectedAppend(parts, a[1..], b);
      } else {
        var index := IndexOf(parts, a[0]);
        CollectedAppend(parts[index := Extended(PartAt(parts, index), a[0])], a[1..], b);
      }
    }
  }

  method ParseStreamResponse(chunks: seq<Chunk>) returns (m: StreamMessage)
    ensures IsReassembled(chunks, m)
  {
    var content, reasoning, refusal, finishReason, usage: Option<string> := None, None, None, None, None;
    var parts: map<Index, Partial> := map[];
    for i := 0 to |chunks|
      invariant content == Text(chunks[..i], Content)
      invariant reasoning == Text(chunks[..i], Reasoning)
      invariant refusal == Text(chunks[..i], Refusal)
      invariant finishReason == LastFinish(chunks[..i]) && usage == LastUsage(chunks[..i])
      invariant parts == Collected(map[], Fragments(chunks[..i]))
    {
      var chunk := chunks[i];
      assert chunks[..i + 1][..i] == chunks[..i];
      usage, finishReason := OrElse(chunk.usage, usage), OrElse(chunk.finishReason, finishReason);
      if chunk.delta.Some? {
        var delta := chunk.delta.value;
        content := Extend(content, delta.content);
        reasoning := Extend(reasoning, delta.reasoning);
        refusal := Extend(refusal, delta.refusal);
        CollectedAppend(map[], Fragments(chunks[..i]), delta.toolCalls);
        parts := CollectStreamToolCalls(delta.toolCalls, parts);
      }
    }
    assert chunks[..|chunks|] == chunks;
    var calls, keys := BuildStreamToolCalls(parts);
    m := StreamMessage(content, reasoning, refusal, calls, finishReason, usage);
    assert BuiltFrom(parts, keys, calls);
  }

  /** Two streams whose texts join to the same, whose indices received the same, and that end alike
      reassemble to the same message, however they were cut and interleaved. */
  lemma SameMessage(a: seq<Chunk>, b: seq<Chunk>, m: StreamMessage, n: StreamMessage)
    requires IsReassembled(a, m) && IsReassembled(b, n)
    requires forall field :: Text(a, field) == Text(b, field)
    requires LastFinish(a) == LastFinish(b) && LastUsage(a) == LastUsage(b)
    requires AllIndexed(Fragments(a)) && AllIndexed(Fragments(b))
    requires forall index :: SameFor(Fragments(a), Fragments(b), index)
    ensures m == n
  {
    ReassemblyIsStable(Fragments(a), Fragments(b));
    var parts := Collected(map[], Fragments(a));
    var k :| BuiltFrom(parts, k, m.toolCalls);
    var l :| BuiltFrom(parts, l, n.toolCalls);
    ListingIsUnique(k, l);
  }

  /** A stream that delivers some calls, in any pieces and any interleaving, reassembles to exactly them. */
  lemma StreamReturnsCalls(chunks: seq<Chunk>, m: StreamMessage, at: seq<Index>, calls: seq<StreamedCall>)
    requires IsReassembled(chunks, m)
    requires Delivers(Fragments(chunks), at, calls)
    ensures m.toolCalls == calls
  {
    var keys :| BuiltFrom(Collected(map[], Fragments(chunks)), keys, m.toolCalls);
    ReassemblyReturnsCalls(Fragments(chunks), at, calls, keys);
  }
}
