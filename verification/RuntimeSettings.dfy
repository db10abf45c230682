/** Merging nested runtime settings: an update tree is laid over the stored tree, and a null deletes. */
module RuntimeSettings {
  import opened Messages

  /** A settings value; everything that is neither null nor a dict is a scalar. */
  datatype Value = Null | Scalar(text: string) | Dict(entries: Settings)

  type Settings = map<string, Value>

  /** The nested dict under a key, empty when there is none. */
  function Nested(m: Settings, key: string): Settings {
    if key in m && m[key].Dict? then m[key].entries else map[]
  }

  // ---- The merge ----

  /** What becomes of one key; `None` means it is absent afterwards. */
  function Outcome(base: Settings, updates: Value, key: string): Option<Value>
    requires updates.Dict?
    decreases updates, 0
  {
    if key !in updates.entries then if key in base then Some(base[key]) else None
    else
      match updates.entries[key]
      case Null => None
      case Scalar(text) => Some(Scalar(text))
      case Dict(_) =>
        var child := Merged(Nested(base, key), updates.entries[key]);
        if child == map[] then None else Some(Dict(child))
  }

  function Merged(base: Settings, updates: Value): Settings
    requires updates.Dict?
    decreases updates, 1
  {
    map key | key in base.Keys + updates.entries.Keys && Outcome(base, updates, key).Some? :: Outcome(base, updates, key).value
  }

  lemma MergedAt(base: Settings, updates: Value, key: string)
    requires updates.Dict?
    ensures key in Merged(base, updates) <==> Outcome(base, updates, key).Some?
    ensures key in Merged(base, updates) ==> Merged(base, updates)[key] == Outcome(base, updates, key).value
  {
  }

  method DeepMerge(base: Settings, updates: Value) returns (merged: Settings)
    requires updates.Dict?
    ensures merged == Merged(base, updates)
    decreases updates
  {
    merged := base;
    var left := updates.entries.Keys;
    while left != {}
      invariant left <= updates.entries.Keys
      invariant forall key :: key in merged <==>
        if key in left then key in base else Outcome(base, updates, key).Some?
      invariant forall key :: key in merged ==>
        merged[key] == if key in left then base[key] else Outcome(base, updates, key).value
      decreases left
    {
      var key :| key in left;
      left := left - {key};
      match updates.entries[key]
      case Null => merged := merged - {key};
      case Scalar(text) => merged := merged[key := Scalar(text)];
      case Dict(_) =>
        var current := if key in merged && merged[key].Dict? then merged[key].entries else map[];
        var child := DeepMerge(current, updates.entries[key]);
        merged := if child == map[] then merged - {key} else merged[key := Dict(child)];
    }
  }

  /** Metadata that is missing or not a dict counts as empty. */
  method MergeRuntimeMeta(existing: Value, updates: Value) returns (merged: Settings)
    requires updates.Dict?
    ensures merged == Merged(if existing.Dict? then existing.entries else map[], updates)
  {
    merged := DeepMerge(if existing.Dict? then existing.entries else map[], updates);
  }

  // ---- The merge as an override of paths ----

  /** The scalar at the end of a path, if the path leads to one. */
  function Leaf(m: Settings, path: seq<string>): Option<string>
    decreases |path|
  {
    if path == [] || path[0] !in m then None
    else if |path| == 1 then if m[path[0]].Scalar? then Some(m[path[0]].text) else None
    else Leaf(Nested(m, path[0]), path[1..])
  }

  datatype Verdict = Keep | Drop | Put(text: string)

  /** What an update tree says about a path on its own: it may leave it alone, set it, or drop it, be it by a
      null or a scalar at or above it, or by a dict where the path ends. */
  function VerdictOn(updates: Value, path: seq<string>): Verdict
    requires updates.Dict?
    decreases |path|
  {
    if path == [] then Drop
    else if path[0] !in updates.entries then Keep
    else
      match updates.entries[path[0]]
      case Null => Drop
      case Scalar(text) => if |path| == 1 then Put(text) else Drop
      case Dict(_) => VerdictOn(updates.entries[path[0]], path[1..])
  }

  lemma LeafOfEmpty(path: seq<string>)
    ensures Leaf(map[], path) == None
  {
  }

  /** Every path of the merged settings follows the verdict of the updates. */
  lemma {:induction false} MergeIsPathOverride(base: Settings, updates: Value, path: seq<string>)
    requires updates.Dict? && path != []
    ensures Leaf(Merged(base, updates), path) ==
      match VerdictOn(updates, path)
      case Keep => Leaf(base, path)
      case Drop => None
      case Put(text) => Some(text)
    decreases |path|
  {
    var key, rest := path[0], path[1..];
    MergedAt(base, updates, key);
    if key in updates.entries && updates.entries[key].Dict? && |path| > 1 {
      var child := Merged(Nested(base, key), updates.entries[key]);
      MergeIsPathOverride(Nested(base, key), updates.entries[key], rest);
      LeafOfEmpty(rest);
      assert Nested(Merged(base, updates), key) == child;
    }
  }

  // ---- Normal form ----

  /** No null, and no empty dict below the top. */
  predicate IsNormal(v: Value) {
    match v
    case Null => false
    case Scalar(_) => true
    case Dict(m) => m != map[] && forall key :: key in m ==> IsNormal(m[key])
  }

  predicate AreNormal(m: Settings) {
    forall key :: key in m ==> IsNormal(m[key])
  }

  /** Merging keeps stored settings normal, whatever the updates look like. */
  lemma {:induction false} MergeKeepsNormal(base: Settings, updates: Value)
    requires updates.Dict? && AreNormal(base)
    ensures AreNormal(Merged(base, updates))
    decreases updates
  {
    forall key | key in Merged(base, updates) ensures IsNormal(Merged(base, updates)[key]) {
      MergedAt(base, updates, key);
      if key in updates.entries && updates.entries[key].Dict? {
        MergeKeepsNormal(Nested(base, key), updates.entries[key]);
      }
    }
  }

  /** Every normal value has a scalar somewhere below it. */
  lemma {:induction false} SomeLeaf(v: Value) returns (path: seq<string>)
    requires IsNormal(v) && v.Dict?
    ensures path != [] && Leaf(v.entries, path).Some?
    decreases v
  {
    var key :| key in v.entries;
    if v.entries[key].Scalar? {
      path := [key];
    } else {
      var rest := SomeLeaf(v.entries[key]);
      path := [key] + rest;
      assert path[1..] == rest;
    }
  }

  /** Normal settings are determined by their scalars, so the path override is the whole truth about them. */
  lemma {:induction false} LeavesDetermine(a: Value, b: Value)
    requires a.Dict? && b.Dict? && AreNormal(a.entries) && AreNormal(b.entries)
    requires forall path :: Leaf(a.entries, path) == Leaf(b.entries, path)
    ensures a == b
    decreases a
  {
    forall key ensures key in a.entries <==> key in b.entries {
      if key in a.entries {
        SameKey(a.entries, b.entries, key);
      }
      if key in b.entries {
        SameKey(b.entries, a.entries, key);
      }
    }
    forall key | key in a.entries ensures a.entries[key] == b.entries[key] {
      assert Leaf(a.entries, [key]) == Leaf(b.entries, [key]);
      SameKey(a.entries, b.entries, key);
      SameKey(b.entries, a.entries, key);
      if a.entries[key].Dict? {
        forall path ensures Leaf(a.entries[key].entries, path) == Leaf(b.entries[key].entries, path) {
          assert ([key] + path)[1..] == path;
          assert Leaf(a.entries, [key] + path) == Leaf(b.entries, [key] + path);
        }
        LeavesDetermine(a.entries[key], b.entries[key]);
      }
    }
  }

  lemma SameKey(a: Settings, b: Settings, key: string)
    requires AreNormal(a) && AreNormal(b) && key in a
    requires forall path :: Leaf(a, path) == Leaf(b, path)
    ensures key in b && (a[key].Dict? ==> b[key].Dict?)
  {
    if a[key].Scalar? {
      assert Leaf(a, [key]) == Leaf(b, [key]);
    } else {
      var rest := SomeLeaf(a[key]);
      assert ([key] + rest)[1..] == rest;
      assert Leaf(a, [key] + rest) == Leaf(b, [key] + rest);
      LeafOfEmpty(rest);
    }
  }

  // ---- Idempotence ----

  /** An update that leaves nothing of some settings leaves nothing of the empty ones. */
  lemma {:induction false} EmptiedAlways(base: Settings, updates: Value)
    requires updates.Dict? && Merged(base, updates) == map[]
    ensures Merged(map[], updates) == map[]
    decreases updates
  {
    forall key ensures key !in Merged(map[], updates) {
      MergedAt(base, updates, key);
      MergedAt(map[], updates, key);
      if key in updates.entries && updates.entries[key].Dict? {
        EmptiedAlways(Nested(base, key), updates.entries[key]);
      }
    }
  }

  /** Applying the same updates twice changes nothing more, whatever the stored settings look like. */
  lemma {:induction false} MergeIsIdempotent(base: Settings, updates: Value)
    requires updates.Dict?
    ensures Merged(Merged(base, updates), updates) == Merged(base, updates)
    decreases updates
  {
    var once := Merged(base, updates);
    forall key
      ensures key in Merged(once, updates) <==> key in once
      ensures key in once ==> Merged(once, updates)[key] == once[key]
    {
      MergedAt(base, updates, key);
      MergedAt(once, updates, key);
      if key in updates.entries && updates.entries[key].Dict? {
        var child := Merged(Nested(base, key), updates.entries[key]);
        if child == map[] {
          EmptiedAlways(Nested(base, key), updates.entries[key]);
        } else {
          MergeIsIdempotent(Nested(base, key), updates.entries[key]);
        }
      }
    }
  }
}
