/** Searching, splitting and joining strings. */
module Text {
  import opened Messages

  function Join(pieces: seq<string>, sep: string): string {
    if pieces == [] then ""
    else if |pieces| == 1 then pieces[0]
    else Join(pieces[..|pieces| - 1], sep) + (sep + pieces[|pieces| - 1])
  }

  lemma JoinAppend(pieces: seq<string>, piece: string, sep: string)
    ensures Join(pieces + [piece], sep) == if pieces == [] then piece else Join(pieces, sep) + (sep + piece)
  {
    assert (pieces + [piece])[..|pieces|] == pieces;
  }

  predicate OccursAt(text: string, sep: string, i: nat) {
    i + |sep| <= |text| && forall k :: 0 <= k < |sep| ==> text[i + k] == sep[k]
  }

  /** The first occurrence of `sep` at or after `i`. */
  function Find(text: string, sep: string, i: nat): (r: Option<nat>)
    requires i <= |text|
    ensures r.Some? ==> i <= r.value && OccursAt(text, sep, r.value)
    decreases |text| - i
  {
    if OccursAt(text, sep, i) then Some(i)
    else if i == |text| then None
    else Find(text, sep, i + 1)
  }

  lemma {:induction false} FindsFirst(text: string, sep: string, i: nat, j: nat)
    requires i <= j && OccursAt(text, sep, j)
    ensures var r := Find(text, sep, i); r.Some? && r.value <= j
    decreases j - i
  {
    if !OccursAt(text, sep, i) {
      FindsFirst(text, sep, i + 1, j);
    }
  }

  lemma FindIs(text: string, sep: string, k: nat)
    requires OccursAt(text, sep, k)
    requires forall j: nat :: j < k ==> !OccursAt(text, sep, j)
    ensures var r := Find(text, sep, 0); r.Some? && r.value == k
  {
    FindsFirst(text, sep, 0, k);
  }

  /** The pieces between the occurrences of a non-empty separator, found from left to right. */
  function Split(text: string, sep: string): (pieces: seq<string>)
    requires sep != ""
    ensures pieces != []
    decreases |text|
  {
    var at := Find(text, sep, 0);
    if at.None? then [text] else [text[..at.value]] + Split(text[at.value + |sep|..], sep)
  }

  lemma {:induction false} JoinPrepend(piece: string, pieces: seq<string>, sep: string)
    requires pieces != []
    ensures Join([piece] + pieces, sep) == piece + (sep + Join(pieces, sep))
    decreases |pieces|
  {
    var n := |pieces| - 1;
    var all := [piece] + pieces;
    assert all[..|all| - 1] == [piece] + pieces[..n];
    if n == 0 {
      assert [piece] + pieces[..0] == [piece];
    } else {
      JoinPrepend(piece, pieces[..n], sep);
      Assoc(piece, sep + Join(pieces[..n], sep), sep + pieces[n]);
      Assoc(sep, Join(pieces[..n], sep), sep + pieces[n]);
    }
  }

  lemma CutAround(text: string, sep: string, i: nat)
    requires OccursAt(text, sep, i)
    ensures text == text[..i] + (sep + text[i + |sep|..])
  {
    assert text[i..i + |sep|] == sep;
    assert text == text[..i] + (text[i..i + |sep|] + text[i + |sep|..]);
  }

  lemma JoinStep(text: string, sep: string, i: nat, pieces: seq<string>)
    requires OccursAt(text, sep, i) && pieces != [] && Join(pieces, sep) == text[i + |sep|..]
    ensures Join([text[..i]] + pieces, sep) == text
  {
    JoinPrepend(text[..i], pieces, sep);
    CutAround(text, sep, i);
  }

  lemma SplitStep(text: string, sep: string)
    requires sep != "" && Find(text, sep, 0).Some?
    ensures var at := Find(text, sep, 0).value;
      Split(text, sep) == [text[..at]] + Split(text[at + |sep|..], sep)
  {
  }

  lemma {:induction false} JoinOfSplit(text: string, sep: string)
    requires sep != ""
    ensures Join(Split(text, sep), sep) == text
    decreases |text|
  {
    var at := Find(text, sep, 0);
    if at.Some? {
      var rest := text[at.value + |sep|..];
      JoinOfSplit(rest, sep);
      JoinStep(text, sep, at.value, Split(rest, sep));
      SplitStep(text, sep);
    }
  }

  lemma {:induction false} PieceLength(text: string, sep: string)
    requires sep != ""
    ensures forall p :: p in Split(text, sep) ==> |p| <= |text|
    decreases |text|
  {
    var at := Find(text, sep, 0);
    if at.Some? {
      PieceLength(text[at.value + |sep|..], sep);
    }
  }
}
