/** Reciprocal rank fusion of ranked id lists, over exact arithmetic. */
module RankFusion {
  import opened Messages

  type Ranking = seq<string>

  // ---- Scores ----

  /** What one ranked list contributes to an id: one over k plus its rank, for each occurrence. */
  function ListScore(ranked: Ranking, k: nat, id: string): real {
    if ranked == [] then 0.0
    else
      var n := |ranked|;
      ListScore(ranked[..n - 1], k, id) + if ranked[n - 1] == id then 1.0 / (k + n) as real else 0.0
  }

  function Score(lists: seq<Ranking>, k: nat, id: string): real {
    if lists == [] then 0.0
    else Score(lists[..|lists| - 1], k, id) + ListScore(lists[|lists| - 1], k, id)
  }

  /** The distinct ids in order of first occurrence, which is the order of the score dict. */
  function Noted(order: seq<string>, id: string): seq<string> {
    if id in order then order else order + [id]
  }

  function NotedAll(order: seq<string>, ranked: Ranking): seq<string> {
    if ranked == [] then order
    else Noted(NotedAll(order, ranked[..|ranked| - 1]), ranked[|ranked| - 1])
  }

  function Order(lists: seq<Ranking>): seq<string> {
    if lists == [] then [] else NotedAll(Order(lists[..|lists| - 1]), lists[|lists| - 1])
  }

  // ---- Sorting ----

  /** Behind everything that scores at least as much: the stable position in a descending order. */
  function Inserted(lists: seq<Ranking>, k: nat, sorted: seq<string>, id: string): seq<string> {
    if sorted == [] || Score(lists, k, id) > Score(lists, k, sorted[0]) then [id] + sorted
    else [sorted[0]] + Inserted(lists, k, sorted[1..], id)
  }

  function Sorted(lists: seq<Ranking>, k: nat, order: seq<string>): seq<string> {
    if order == [] then []
    else Inserted(lists, k, Sorted(lists, k, order[..|order| - 1]), order[|order| - 1])
  }

  /** How many of `n` items a slice up to `limit` keeps; a negative limit counts from the end. */
  function SliceLength(n: nat, limit: int): (r: nat)
    ensures r <= n
  {
    if limit < 0 then if n + limit < 0 then 0 else n + limit
    else if limit < n then limit else n
  }

  function Fused(lists: seq<Ranking>, k: nat, limit: int): seq<(string, real)> {
    var ids := Sorted(lists, k, Order(lists));
    seq(SliceLength(|ids|, limit), i requires 0 <= i < SliceLength(|ids|, limit) => (ids[i], Score(lists, k, ids[i])))
  }

  // ---- The algorithm ----

  /** The score dict after the lists of `lists` and the part `ranked` of the next one. */
  ghost predicate Tallied(scores: map<string, real>, order: seq<string>, lists: seq<Ranking>, ranked: Ranking, k: nat) {
    && order == NotedAll(Order(lists), ranked)
    && (forall id :: id in scores <==> id in order)
    && (forall id :: id in scores ==> scores[id] == Score(lists, k, id) + ListScore(ranked, k, id))
  }

  lemma {:induction false} UnlistedScoresNothing(ranked: Ranking, k: nat, id: string)
    requires id !in ranked
    ensures ListScore(ranked, k, id) == 0.0
  {
    if ranked != [] {
      UnlistedScoresNothing(ranked[..|ranked| - 1], k, id);
    }
  }

  lemma {:induction false} NotedAllIds(order: seq<string>, ranked: Ranking, id: string)
    ensures id in NotedAll(order, ranked) <==> id in order || id in ranked
  {
    if ranked != [] {
      var n := |ranked| - 1;
      NotedAllIds(order, ranked[..n], id);
      assert ranked == ranked[..n] + [ranked[n]];
    }
  }

  ghost predicate Listed(lists: seq<Ranking>, id: string) {
    exists i :: 0 <= i < |lists| && id in lists[i]
  }

  lemma {:induction false} OrderIds(lists: seq<Ranking>, id: string)
    ensures id in Order(lists) <==> Listed(lists, id)
  {
    if lists != [] {
      var n := |lists| - 1;
      OrderIds(lists[..n], id);
      NotedAllIds(Order(lists[..n]), lists[n], id);
      if i :| 0 <= i < |lists| && id in lists[i] {
        assert i < n ==> id in lists[..n][i];
      }
      if Listed(lists[..n], id) {
        var i :| 0 <= i < n && id in lists[..n][i];
        assert id in lists[i];
      }
    }
  }

  lemma {:induction false} UnlistedScore(lists: seq<Ranking>, k: nat, id: string)
    requires id !in Order(lists)
    ensures Score(lists, k, id) == 0.0
  {
    if lists != [] {
      var n := |lists| - 1;
      NotedAllIds(Order(lists[..n]), lists[n], id);
      UnlistedScore(lists[..n], k, id);
      UnlistedScoresNothing(lists[n], k, id);
    }
  }

  /** One more entry of the current list. */
  method TallyEntry(scores: map<string, real>, order: seq<string>, ghost lists: seq<Ranking>, ghost ranked: Ranking,
                    k: nat, rank: nat, id: string)
    returns (scores': map<string, real>, order': seq<string>)
    requires Tallied(scores, order, lists, ranked, k) && rank == |ranked| + 1
    ensures Tallied(scores', order', lists, ranked + [id], k)
  {
    var before := if id in scores then scores[id] else 0.0;
    scores', order' := scores[id := before + 1.0 / (k + rank) as real], Noted(order, id);
    assert (ranked + [id])[..|ranked|] == ranked;
    if id !in order {
      NotedAllIds(Order(lists), ranked, id);
      UnlistedScore(lists, k, id);
      UnlistedScoresNothing(ranked, k, id);
    }
  }

  /** The inner loop: one ranked list is added to the score dict. */
  method TallyList(scores: map<string, real>, order: seq<string>, ghost lists: seq<Ranking>, ranked: Ranking, k: nat)
    returns (scores': map<string, real>, order': seq<string>)
    requires Tallied(scores, order, lists, [], k)
    ensures Tallied(scores', order', lists, ranked, k)
  {
    scores', order' := scores, order;
    for j := 0 to |ranked|
      invariant Tallied(scores', order', lists, ranked[..j], k)
    {
      scores', order' := TallyEntry(scores', order', lists, ranked[..j], k, j + 1, ranked[j]);
      assert ranked[..j + 1] == ranked[..j] + [ranked[j]];
    }
    assert ranked[..|ranked|] == ranked;
  }

  lemma NextList(scores: map<string, real>, order: seq<string>, lists: seq<Ranking>, i: nat, k: nat)
    requires i < |lists| && Tallied(scores, order, lists[..i], lists[i], k)
    ensures Tallied(scores, order, lists[..i + 1], [], k)
  {
    assert lists[..i + 1][..i] == lists[..i];
  }

  method ReciprocalRankFusion(lists: seq<Ranking>, k: nat, limit: int) returns (fused: seq<(string, real)>)
    ensures fused == Fused(lists, k, limit)
  {
    var scores: map<string, real>, order: seq<string> := map[], [];
    for i := 0 to |lists|
      invariant Tallied(scores, order, lists[..i], [], k)
    {
      scores, order := TallyList(scores, order, lists[..i], lists[i], k);
      NextList(scores, order, lists, i, k);
    }
    assert lists[..|lists|] == lists;
    fused := SortedItems(scores, order, lists, k);
    fused := fused[..SliceLength(|fused|, limit)];
  }

  /** The items of the score dict, by a stable sort on the score, highest first. */
  method SortedItems(scores: map<string, real>, order: seq<string>, ghost lists: seq<Ranking>, ghost k: nat)
    returns (items: seq<(string, real)>)
    requires Tallied(scores, order, lists, [], k)
    ensures |items| == |Sorted(lists, k, order)|
    ensures forall i :: 0 <= i < |items| ==>
      items[i].0 == Sorted(lists, k, order)[i] && items[i].1 == Score(lists, k, items[i].0)
  {
    items := [];
    for n := 0 to |order|
      invariant |items| == |Sorted(lists, k, order[..n])|
      invariant forall i :: 0 <= i < |items| ==>
        items[i].0 == Sorted(lists, k, order[..n])[i] && items[i].1 == Score(lists, k, items[i].0)
    {
      var id := order[n];
      assert order[..n + 1][..n] == order[..n];
      items := InsertItem(items, id, scores[id], lists, k, Sorted(lists, k, order[..n]));
    }
    assert order[..|order|] == order;
  }

  method InsertItem(items: seq<(string, real)>, id: string, score: real, ghost lists: seq<Ranking>, ghost k: nat, ghost sorted: seq<string>)
    returns (r: seq<(string, real)>)
    requires score == Score(lists, k, id)
    requires |items| == |sorted|
    requires forall i :: 0 <= i < |items| ==> items[i].0 == sorted[i] && items[i].1 == Score(lists, k, sorted[i])
    ensures |r| == |Inserted(lists, k, sorted, id)|
    ensures forall i :: 0 <= i < |r| ==>
      r[i].0 == Inserted(lists, k, sorted, id)[i] && r[i].1 == Score(lists, k, r[i].0)
    decreases |items|
  {
    if items == [] || score > items[0].1 {
      r := [(id, score)] + items;
    } else {
      var rest := InsertItem(items[1..], id, score, lists, k, sorted[1..]);
      r := [items[0]] + rest;
    }
  }

  // ---- The fused order ----

  ghost predicate NoDuplicates(s: seq<string>) {
    forall i, j :: 0 <= i < j < |s| ==> s[i] != s[j]
  }

  ghost predicate Descending(lists: seq<Ranking>, k: nat, s: seq<string>) {
    forall i, j :: 0 <= i < j < |s| ==> Score(lists, k, s[i]) >= Score(lists, k, s[j])
  }

  lemma {:induction false} NotedAllDistinct(order: seq<string>, ranked: Ranking)
    requires NoDuplicates(order)
    ensures NoDuplicates(NotedAll(order, ranked))
  {
    if ranked != [] {
      NotedAllDistinct(order, ranked[..|ranked| - 1]);
    }
  }

  lemma {:induction false} OrderDistinct(lists: seq<Ranking>)
    ensures NoDuplicates(Order(lists))
  {
    if lists != [] {
      OrderDistinct(lists[..|lists| - 1]);
      NotedAllDistinct(Order(lists[..|lists| - 1]), lists[|lists| - 1]);
    }
  }

  lemma {:induction false} InsertedFacts(lists: seq<Ranking>, k: nat, sorted: seq<string>, id: string)
    requires NoDuplicates(sorted) && id !in sorted && Descending(lists, k, sorted)
    ensures var r := Inserted(lists, k, sorted, id);
      |r| == |sorted| + 1 && NoDuplicates(r) && Descending(lists, k, r) && forall x :: x in r <==> x == id || x in sorted
  {
    if sorted != [] && Score(lists, k, id) <= Score(lists, k, sorted[0]) {
      InsertedFacts(lists, k, sorted[1..], id);
      assert sorted == [sorted[0]] + sorted[1..];
      var rest := Inserted(lists, k, sorted[1..], id);
      assert forall x :: x in rest ==> Score(lists, k, x) <= Score(lists, k, sorted[0]) && x != sorted[0];
    }
  }

  lemma {:induction false} SortedFacts(lists: seq<Ranking>, k: nat, order: seq<string>)
    requires NoDuplicates(order)
    ensures var r := Sorted(lists, k, order);
      |r| == |order| && NoDuplicates(r) && Descending(lists, k, r) && forall x :: x in r <==> x in order
  {
    if order != [] {
      var n := |order| - 1;
      SortedFacts(lists, k, order[..n]);
      assert order == order[..n] + [order[n]];
      InsertedFacts(lists, k, Sorted(lists, k, order[..n]), order[n]);
    }
  }

  ghost predicate Precedes(order: seq<string>, a: string, b: string) {
    exists p, q :: 0 <= p < q < |order| && order[p] == a && order[q] == b
  }

  /** Equal scores keep the given order. */
  ghost predicate Stable(lists: seq<Ranking>, k: nat, order: seq<string>, s: seq<string>) {
    forall i, j :: 0 <= i < j < |s| && Score(lists, k, s[i]) == Score(lists, k, s[j]) ==> Precedes(order, s[i], s[j])
  }

  lemma PrecedesAppend(order: seq<string>, id: string, a: string, b: string)
    requires Precedes(order, a, b) || (a in order && b == id)
    ensures Precedes(order + [id], a, b)
  {
    var longer := order + [id];
    if Precedes(order, a, b) {
      var p, q :| 0 <= p < q < |order| && order[p] == a && order[q] == b;
      assert longer[p] == a && longer[q] == b;
    } else {
      var p :| 0 <= p < |order| && order[p] == a;
      assert longer[p] == a && longer[|order|] == b;
    }
  }

  lemma {:induction false} InsertedStable(lists: seq<Ranking>, k: nat, order: seq<string>, sorted: seq<string>, id: string)
    requires Descending(lists, k, sorted) && Stable(lists, k, order, sorted)
    requires forall x :: x in sorted ==> x in order
    ensures Stable(lists, k, order + [id], Inserted(lists, k, sorted, id))
    ensures forall x :: x in Inserted(lists, k, sorted, id) ==> x == id || x in sorted
  {
    var r, longer := Inserted(lists, k, sorted, id), order + [id];
    if sorted == [] || Score(lists, k, id) > Score(lists, k, sorted[0]) {
      forall i, j | 0 <= i < j < |r| && Score(lists, k, r[i]) == Score(lists, k, r[j]) ensures Precedes(longer, r[i], r[j]) {
        PrecedesAppend(order, id, sorted[i - 1], sorted[j - 1]);
      }
    } else {
      InsertedStable(lists, k, order, sorted[1..], id);
      var rest := Inserted(lists, k, sorted[1..], id);
      forall j | 0 <= j < |rest| && Score(lists, k, sorted[0]) == Score(lists, k, rest[j])
        ensures Precedes(longer, sorted[0], rest[j])
      {
        HeadPrecedes(lists, k, order, sorted, id, rest[j]);
      }
      forall i, j | 0 <= i < j < |r| && Score(lists, k, r[i]) == Score(lists, k, r[j]) ensures Precedes(longer, r[i], r[j]) {
        assert r[j] == rest[j - 1];
        assert i > 0 ==> r[i] == rest[i - 1];
      }
    }
  }

  lemma HeadPrecedes(lists: seq<Ranking>, k: nat, order: seq<string>, sorted: seq<string>, id: string, x: string)
    requires sorted != [] && Stable(lists, k, order, sorted)
    requires sorted[0] in order && (x == id || x in sorted[1..])
    requires Score(lists, k, sorted[0]) == Score(lists, k, x)
    ensures Precedes(order + [id], sorted[0], x)
  {
    if x != id {
      var j :| 0 <= j < |sorted[1..]| && sorted[1..][j] == x;
      assert sorted[j + 1] == x;
    }
    PrecedesAppend(order, id, sorted[0], x);
  }

  lemma {:induction false} SortedStable(lists: seq<Ranking>, k: nat, order: seq<string>)
    requires NoDuplicates(order)
    ensures Stable(lists, k, order, Sorted(lists, k, order))
  {
    if order != [] {
      var n := |order| - 1;
      SortedStable(lists, k, order[..n]);
      SortedFacts(lists, k, order[..n]);
      InsertedStable(lists, k, order[..n], Sorted(lists, k, order[..n]), order[n]);
      assert order == order[..n] + [order[n]];
    }
  }

  // ---- First occurrences ----

  /** Where an id occurs first. */
  function First(s: seq<string>, id: string): nat
    requires id in s
  {
    if s[0] == id then 0 else 1 + First(s[1..], id)
  }

  lemma {:induction false} NotedAllTwice(order: seq<string>, a: Ranking, b: Ranking)
    ensures NotedAll(order, a + b) == NotedAll(NotedAll(order, a), b)
    decreases |b|
  {
    if b == [] {
      assert a + b == a;
    } else {
      var n := |b| - 1;
      assert (a + b)[..|a + b| - 1] == a + b[..n];
      NotedAllTwice(order, a, b[..n]);
    }
  }

  lemma {:induction false} OrderOfAll(lists: seq<Ranking>)
    ensures Order(lists) == NotedAll([], Flatten(lists))
    decreases |lists|
  {
    if lists != [] {
      var n := |lists| - 1;
      OrderOfAll(lists[..n]);
      assert lists == lists[..n] + [lists[n]];
      FlattenAppend(lists[..n], [lists[n]]);
      FlattenOne(lists[n]);
      NotedAllTwice([], Flatten(lists[..n]), lists[n]);
    }
  }

  lemma {:induction false} FirstInFront(s: seq<string>, more: seq<string>, id: string)
    requires id in s
    ensures id in s + more && First(s + more, id) == First(s, id) < |s|
  {
    assert (s + more)[0] == s[0];
    if s[0] != id {
      assert (s + more)[1..] == s[1..] + more;
      FirstInFront(s[1..], more, id);
    }
  }

  lemma {:induction false} FirstBehind(s: seq<string>, id: string)
    requires id !in s
    ensures id in s + [id] && First(s + [id], id) == |s|
  {
    if s == [] {
      assert s + [id] == [id];
    } else {
      assert (s + [id])[1..] == s[1..] + [id];
      FirstBehind(s[1..], id);
    }
  }

  lemma {:induction false} NotedByFirst(s: Ranking, i: nat, j: nat)
    requires i < j < |NotedAll([], s)|
    ensures var a, b := NotedAll([], s)[i], NotedAll([], s)[j];
      a in s && b in s && First(s, a) < First(s, b)
    decreases |s|
  {
    var n := |s| - 1;
    var before, id := NotedAll([], s[..n]), s[n];
    var a, b := NotedAll([], s)[i], NotedAll([], s)[j];
    assert s == s[..n] + [id];
    NotedAllIds([], s[..n], id);
    NotedAllIds([], s[..n], a);
    if j < |before| {
      NotedByFirst(s[..n], i, j);
      FirstInFront(s[..n], [id], b);
    } else {
      FirstBehind(s[..n], id);
    }
    assert a in before;
    FirstInFront(s[..n], [id], a);
  }

  /** Among equal scores the fused order is the order of first occurrence, reading the lists one after the other. */
  lemma TiesKeepFirstOccurrence(lists: seq<Ranking>, k: nat, limit: int, i: nat, j: nat)
    requires i < j < |Fused(lists, k, limit)| && Fused(lists, k, limit)[i].1 == Fused(lists, k, limit)[j].1
    ensures var a, b := Fused(lists, k, limit)[i].0, Fused(lists, k, limit)[j].0;
      a in Flatten(lists) && b in Flatten(lists) && First(Flatten(lists), a) < First(Flatten(lists), b)
  {
    var a, b := Fused(lists, k, limit)[i].0, Fused(lists, k, limit)[j].0;
    OrderDistinct(lists);
    SortedStable(lists, k, Order(lists));
    OrderOfAll(lists);
    assert Precedes(Order(lists), a, b);
    var p, q :| 0 <= p < q < |Order(lists)| && Order(lists)[p] == a && Order(lists)[q] == b;
    NotedByFirst(Flatten(lists), p, q);
  }

  /** The fused ids: each listed id at most once, by falling score, as many as the limit allows, each with
      its score; and no id left out scores more than one that was kept. */
  lemma FusedMeaning(lists: seq<Ranking>, k: nat, limit: int)
    ensures var r := Fused(lists, k, limit);
      && (limit >= 0 ==> |r| == if |Order(lists)| <= limit then |Order(lists)| else limit)
      && (limit < 0 ==> |r| == if |Order(lists)| <= -limit then 0 else |Order(lists)| - -limit)
      && (forall i :: 0 <= i < |r| ==> Listed(lists, r[i].0) && r[i].1 == Score(lists, k, r[i].0))
      && (forall i, j :: 0 <= i < j < |r| ==> r[i].0 != r[j].0 && r[i].1 >= r[j].1)
      && (forall id, i :: Listed(lists, id) && (forall j :: 0 <= j < |r| ==> r[j].0 != id) && 0 <= i < |r| ==>
            r[i].1 >= Score(lists, k, id))
  {
    var ids, r := Sorted(lists, k, Order(lists)), Fused(lists, k, limit);
    OrderDistinct(lists);
    SortedFacts(lists, k, Order(lists));
    forall i | 0 <= i < |r| ensures Listed(lists, r[i].0) {
      assert ids[i] in ids;
      OrderIds(lists, ids[i]);
    }
    assert forall q {:trigger ids[q]} :: 0 <= q < |r| ==> r[q].0 == ids[q];
    forall id, i | Listed(lists, id) && (forall j :: 0 <= j < |r| ==> r[j].0 != id) && 0 <= i < |r|
      ensures r[i].1 >= Score(lists, k, id)
    {
      OrderIds(lists, id);
      var p :| 0 <= p < |ids| && ids[p] == id;
    }
  }

  // ---- Unanimity ----

  /** `a` stands before `b` in a list. */
  ghost predicate Before(ranked: Ranking, a: string, b: string) {
    exists i, j :: 0 <= i < j < |ranked| && ranked[i] == a && ranked[j] == b
  }

  lemma {:induction false} ListScoreAt(ranked: Ranking, k: nat, i: nat)
    requires NoDuplicates(ranked) && i < |ranked|
    ensures ListScore(ranked, k, ranked[i]) == 1.0 / (k + i + 1) as real
  {
    var n := |ranked| - 1;
    if i < n {
      ListScoreAt(ranked[..n], k, i);
    } else {
      UnlistedScoresNothing(ranked[..n], k, ranked[n]);
    }
  }

  lemma ReciprocalFalls(x: real, y: real)
    requires 0.0 < x < y
    ensures 1.0 / x > 1.0 / y > 0.0
  {
    var p, q := 1.0 / x, 1.0 / y;
    assert p * x == 1.0 && q * y == 1.0;
    assert q * (y - x) > 0.0;
    assert (p - q) * x == q * (y - x);
  }

  lemma {:induction false} ListScoreNonNegative(ranked: Ranking, k: nat, id: string)
    ensures ListScore(ranked, k, id) >= 0.0
  {
    if ranked != [] {
      ListScoreNonNegative(ranked[..|ranked| - 1], k, id);
      ReciprocalFalls((k + |ranked|) as real, (k + |ranked| + 1) as real);
    }
  }

  /** A list that prefers `a` to `b`, or does not list `b`, contributes no less to `a`; strictly more if it
      lists `b`. */
  lemma ListPrefers(ranked: Ranking, k: nat, a: string, b: string)
    requires NoDuplicates(ranked)
    requires b in ranked ==> Before(ranked, a, b)
    ensures ListScore(ranked, k, a) >= ListScore(ranked, k, b)
    ensures b in ranked ==> ListScore(ranked, k, a) > ListScore(ranked, k, b)
  {
    if b in ranked {
      var i, j :| 0 <= i < j < |ranked| && ranked[i] == a && ranked[j] == b;
      ListScoreAt(ranked, k, i);
      ListScoreAt(ranked, k, j);
      ReciprocalFalls((k + i + 1) as real, (k + j + 1) as real);
    } else {
      UnlistedScoresNothing(ranked, k, b);
      ListScoreNonNegative(ranked, k, a);
    }
  }

  ghost predicate Unanimous(lists: seq<Ranking>, a: string, b: string) {
    forall i :: 0 <= i < |lists| ==> PrefersAt(lists, i, a, b)
  }

  ghost predicate PrefersAt(lists: seq<Ranking>, i: nat, a: string, b: string)
    requires i < |lists|
  {
    NoDuplicates(lists[i]) && (b in lists[i] ==> Before(lists[i], a, b))
  }

  lemma {:induction false} UnanimousScore(lists: seq<Ranking>, k: nat, a: string, b: string)
    requires Unanimous(lists, a, b)
    ensures Score(lists, k, a) >= Score(lists, k, b)
    ensures Listed(lists, b) ==> Score(lists, k, a) > Score(lists, k, b)
  {
    if lists != [] {
      var n := |lists| - 1;
      forall i | 0 <= i < n ensures PrefersAt(lists[..n], i, a, b) {
        assert PrefersAt(lists, i, a, b);
      }
      UnanimousScore(lists[..n], k, a, b);
      assert PrefersAt(lists, n, a, b);
      ListPrefers(lists[n], k, a, b);
      if Listed(lists, b) && b !in lists[n] {
        var i :| 0 <= i < |lists| && b in lists[i];
        assert b in lists[..n][i];
      }
    }
  }

  /** When every list that contains `b` ranks `a` before it, `a` comes before `b` in the fused order: `b`
      never appears without `a` ahead of it. */
  lemma FusionRespectsUnanimity(lists: seq<Ranking>, k: nat, limit: int, a: string, b: string, j: nat)
    requires Unanimous(lists, a, b)
    requires j < |Fused(lists, k, limit)| && Fused(lists, k, limit)[j].0 == b
    ensures exists i :: 0 <= i < j && Fused(lists, k, limit)[i].0 == a
  {
    var r, ids := Fused(lists, k, limit), Sorted(lists, k, Order(lists));
    OrderDistinct(lists);
    SortedFacts(lists, k, Order(lists));
    assert b in ids;
    OrderIds(lists, b);
    UnanimousScore(lists, k, a, b);
    var l :| 0 <= l < |lists| && b in lists[l];
    assert PrefersAt(lists, l, a, b);
    OrderIds(lists, a);
    assert a in lists[l];
    assert a in ids;
    var i :| 0 <= i < |ids| && ids[i] == a;
    assert i < j;
    assert r[i].0 == a;
  }
}
