/** JSON trees and lodash's deep `merge`, as their serialised form shows them. */
module Json {
  import opened Wrappers

  datatype Json =
    | Null
    | Bool(b: bool)
    | Number(n: int)
    | Text(s: string)
    | Array(items: seq<Json>)
    | Object(entries: map<string, Json>)

  /** Merges the source into the destination: dictionaries by key, arrays by index, anything else replaced. */
  function Merge(d: Json, s: Json): Json
    decreases s
  {
    match s
    case Object(entries) =>
      if d.Array? then d
      else
        var old_ := if d.Object? then d.entries else map[];
        Object(map k | k in old_.Keys + entries.Keys ::
          if k !in entries then old_[k] else if k in old_ then Merge(old_[k], entries[k]) else entries[k])
    case Array(items) =>
      var old_ := if d.Array? then d.items else [];
      Array(seq(if |old_| < |items| then |items| else |old_|,
                i requires 0 <= i < (if |old_| < |items| then |items| else |old_|) =>
                  if i >= |items| then old_[i] else if i < |old_| then Merge(old_[i], items[i]) else items[i]))
    case _ => s
  }

  /** The tree already holds everything the source would bring. */
  ghost predicate Absorbs(d: Json, s: Json)
    decreases s
  {
    match s
    case Object(entries) =>
      d.Array? || (d.Object? && forall k :: k in entries ==> k in d.entries && Absorbs(d.entries[k], entries[k]))
    case Array(items) =>
      d.Array? && |items| <= |d.items| && forall i :: 0 <= i < |items| ==> Absorbs(d.items[i], items[i])
    case _ => d == s
  }

  lemma {:induction false} AbsorbsItself(s: Json)
    ensures Absorbs(s, s)
    decreases s
  {
    match s
    case Object(entries) => forall k | k in entries ensures Absorbs(entries[k], entries[k]) { AbsorbsItself(entries[k]); }
    case Array(items) => forall i | 0 <= i < |items| ensures Absorbs(items[i], items[i]) { AbsorbsItself(items[i]); }
    case _ =>
  }

  /** Merging changes nothing exactly when the destination absorbs the source. */
  lemma {:induction false} MergeIsNoOpIff(d: Json, s: Json)
    ensures Merge(d, s) == d <==> Absorbs(d, s)
    decreases s
  {
    match s
    case Object(entries) =>
      if d.Object? {
        forall k | k in entries && k in d.entries ensures Merge(d.entries[k], entries[k]) == d.entries[k] <==> Absorbs(d.entries[k], entries[k]) {
          MergeIsNoOpIff(d.entries[k], entries[k]);
        }
        if Merge(d, s) == d {
          forall k | k in entries ensures k in d.entries && Absorbs(d.entries[k], entries[k]) {
            assert k in Merge(d, s).entries;
          }
        }
        if Absorbs(d, s) {
          assert Merge(d, s).entries == d.entries;
        }
      }
    case Array(items) =>
      if d.Array? {
        forall i | 0 <= i < |items| && i < |d.items| ensures Merge(d.items[i], items[i]) == d.items[i] <==> Absorbs(d.items[i], items[i]) {
          MergeIsNoOpIff(d.items[i], items[i]);
        }
        if Merge(d, s) == d {
          assert |Merge(d, s).items| == |d.items|;
          forall i | 0 <= i < |items| ensures Absorbs(d.items[i], items[i]) {
            assert Merge(d, s).items[i] == d.items[i];
          }
        }
        if Absorbs(d, s) {
          assert Merge(d, s).items == d.items;
        }
      }
    case _ =>
  }

  lemma {:induction false} MergeAbsorbs(d: Json, s: Json)
    ensures Absorbs(Merge(d, s), s)
    decreases s
  {
    match s
    case Object(entries) =>
      if !d.Array? {
        forall k | k in entries ensures Absorbs(Merge(d, s).entries[k], entries[k]) {
          AbsorbsItself(entries[k]);
          if d.Object? && k in d.entries { MergeAbsorbs(d.entries[k], entries[k]); }
        }
      }
    case Array(items) =>
      forall i | 0 <= i < |items| ensures Absorbs(Merge(d, s).items[i], items[i]) {
        AbsorbsItself(items[i]);
        if d.Array? && i < |d.items| { MergeAbsorbs(d.items[i], items[i]); }
      }
    case _ =>
  }

  /** Merging the same source twice is merging it once. */
  lemma MergeIsIdempotent(d: Json, s: Json)
    ensures Merge(Merge(d, s), s) == Merge(d, s)
  {
    MergeAbsorbs(d, s);
    MergeIsNoOpIff(Merge(d, s), s);
  }

  // ------------------------------------------------------------------ paths

  /** What a path of keys leads to. */
  function At(j: Json, path: seq<string>): Option<Json>
  {
    if path == [] then Some(j)
    else if j.Object? && path[0] in j.entries then At(j.entries[path[0]], path[1..])
    else None
  }

  lemma AtStep(j: Json, key: string, rest: seq<string>)
    requires j.Object? && key in j.entries
    ensures At(j, [key] + rest) == At(j.entries[key], rest)
  {
    assert ([key] + rest)[1..] == rest;
  }

  /** The path leads into an array. */
  predicate ArrayOn(j: Json, path: seq<string>)
  {
    path != [] && (j.Array? || (j.Object? && path[0] in j.entries && ArrayOn(j.entries[path[0]], path[1..])))
  }

  /** A text of the source is found in the merged tree at its path, unless the destination has an array on the way. */
  lemma {:induction false} MergeReaches(d: Json, s: Json, path: seq<string>, text: string)
    requires At(s, path) == Some(Text(text))
    ensures At(Merge(d, s), path) == Some(Text(text)) <==> !ArrayOn(d, path)
    decreases |path|
  {
    if path != [] && d.Object? && path[0] in d.entries {
      MergeReaches(d.entries[path[0]], s.entries[path[0]], path[1..], text);
    }
  }

  /** The source has nothing at the path, nor anything that replaces what the path goes through. */
  ghost predicate Spares(s: Json, path: seq<string>)
  {
    path != [] && s.Object? && (path[0] in s.entries ==> Spares(s.entries[path[0]], path[1..]))
  }

  /** What the source does not speak of is found in the merged tree as it was. */
  lemma {:induction false} MergeSpares(d: Json, s: Json, path: seq<string>)
    requires Spares(s, path) && At(d, path).Some?
    ensures At(Merge(d, s), path) == At(d, path)
    decreases |path|
  {
    if d.Object? && path[0] in s.entries && path[0] in d.entries {
      MergeSpares(d.entries[path[0]], s.entries[path[0]], path[1..]);
    }
  }
}
