/** Positions of calls and content blocks in a streamed message, and their sorted listing. */
module StreamIndex {
  import opened Messages

  datatype Index = Index(at: int)

  function OrEmpty(text: Option<string>): string {
    if text.Some? then text.value else ""
  }

  predicate Increasing(keys: seq<Index>) {
    forall i, j :: 0 <= i < j < |keys| ==> keys[i].at < keys[j].at
  }

  function Elements(keys: seq<Index>): set<Index> {
    set k | k in keys
  }

  /** `keys` lists a finite set of indices in order. */
  ghost predicate Lists(keys: seq<Index>, indices: set<Index>) {
    Increasing(keys) && indices == Elements(keys)
  }

  lemma ElementsAppend(keys: seq<Index>, k: Index)
    ensures Elements(keys + [k]) == Elements(keys) + {k}
  {
  }

  lemma IncreasingAppend(keys: seq<Index>, index: Index)
    requires Increasing(keys) && forall k :: k in keys ==> k.at < index.at
    ensures Increasing(keys + [index])
  {
  }

  method Smallest(indices: set<Index>) returns (least: Index)
    requires indices != {}
    ensures least in indices && forall i :: i in indices ==> least.at <= i.at
  {
    least :| least in indices;
    var rest := indices - {least};
    while rest != {}
      invariant rest <= indices && least in indices
      invariant forall i :: i in indices ==> i in rest || least.at <= i.at
      decreases rest
    {
      var i :| i in rest;
      if i.at < least.at {
        least := i;
      }
      rest := rest - {i};
    }
  }

  lemma NoElements(keys: seq<Index>)
    ensures Elements(keys) == {} ==> keys == []
  {
    if keys != [] {
      assert keys[0] in Elements(keys);
    }
  }

  /** A set has only one increasing listing. */
  lemma {:induction false} ListingIsUnique(a: seq<Index>, b: seq<Index>)
    requires Increasing(a) && Increasing(b)
    requires Elements(a) == Elements(b)
    ensures a == b
    decreases |a|
  {
    if a == [] {
      NoElements(b);
    } else {
      var m, n := |a| - 1, |b| - 1;
      assert a[m] in Elements(a);
      assert b[n] in Elements(b);
      assert a[m] == b[n];
      InitElements(a);
      InitElements(b);
      ListingIsUnique(a[..m], b[..n]);
      assert a == a[..m] + [a[m]] && b == b[..n] + [b[n]];
    }
  }

  lemma InitElements(a: seq<Index>)
    requires Increasing(a) && a != []
    ensures Increasing(a[..|a| - 1])
    ensures Elements(a[..|a| - 1]) == Elements(a) - {a[|a| - 1]}
  {
    var m := |a| - 1;
    assert a == a[..m] + [a[m]];
    ElementsAppend(a[..m], a[m]);
  }

  lemma {:induction false} LargestExists(indices: set<Index>) returns (most: Index)
    requires indices != {}
    ensures most in indices && forall i :: i in indices ==> i.at <= most.at
    decreases |indices|
  {
    most :| most in indices;
    if indices != {most} {
      var other := LargestExists(indices - {most});
      most := if other.at > most.at then other else most;
    }
  }

  lemma {:induction false} ListingExists(indices: set<Index>) returns (keys: seq<Index>)
    ensures Lists(keys, indices)
    ensures forall k :: k in keys ==> k in indices
    decreases |indices|
  {
    keys := [];
    if indices != {} {
      var most := LargestExists(indices);
      var fewer := ListingExists(indices - {most});
      ElementsAppend(fewer, most);
      IncreasingAppend(fewer, most);
      keys := fewer + [most];
    }
  }

  /** The indices in ascending order. */
  method SortIndices(indices: set<Index>) returns (keys: seq<Index>)
    ensures Lists(keys, indices)
    ensures forall k :: k in keys ==> k in indices
  {
    keys := [];
    var left := indices;
    while left != {}
      invariant left <= indices && indices == left + Elements(keys)
      invariant forall k :: k in keys ==> k in indices
      invariant Increasing(keys)
      invariant forall k, l :: k in keys && l in left ==> k.at < l.at
      decreases left
    {
      var index := Smallest(left);
      ElementsAppend(keys, index);
      IncreasingAppend(keys, index);
      keys := keys + [index];
      left := left - {index};
    }
  }
}
