/**
 * D-Bus values as JavaScript sees them, and the helpers that wrap and unwrap variants.
 * A variant is a class instance: it is neither an array nor a plain object, which is why a
 * variant directly inside a variant is not looked into.
 */
module Variants {

  datatype Value =
    | Str(s: string)
    | Num(n: int)
    | Bool(b: bool)
    | Array(items: seq<Value>)
    | Object(entries: map<string, Value>)
    | Variant(signature: string, value: Value)
  {
    /** The test is on two properties, so a dictionary holding both keys passes it as well. */
    predicate IsVariant()
    {
      Variant? || (Object? && "value" in entries && "signature" in entries)
    }

    function UnwrapVariant(): Value
      requires IsVariant()
    {
      if Variant? then value else entries["value"]
    }

  }

  function UnwrapVariantDeep(v: Value): Value
    decreases v
  {
    var obj := if v.IsVariant() then v.UnwrapVariant() else v;
    match obj
    case Array(items) => Array(seq(|items|, i requires 0 <= i < |items| => UnwrapVariantDeep(items[i])))
    case Object(entries) => Object(map k | k in entries :: UnwrapVariantDeep(entries[k]))
    case _ => obj
  }

  // ------------------------------------------------------------------ what unwrapping should mean

  /** The tree with every variant layer taken off, at any depth. */
  function Strip(v: Value): Value
    decreases v
  {
    match v
    case Variant(_, x) => Strip(x)
    case Array(items) => Array(seq(|items|, i requires 0 <= i < |items| => Strip(items[i])))
    case Object(entries) => Object(map k | k in entries :: Strip(entries[k]))
    case _ => v
  }

  ghost predicate VariantFree(v: Value)
    decreases v
  {
    match v
    case Variant(_, _) => false
    case Array(items) => forall i :: 0 <= i < |items| ==> VariantFree(items[i])
    case Object(entries) => forall k :: k in entries ==> VariantFree(entries[k])
    case _ => true
  }

  /**
   * The trees unwrapping handles: no variant directly inside a variant, and no dictionary with both
   * a `value` and a `signature` key, unless that dictionary is itself the content of a variant.
   */
  ghost predicate Proper(v: Value)
    decreases v
  {
    match v
    case Variant(_, x) => !x.Variant? && ProperChildren(x)
    case Object(_) => !v.IsVariant() && ProperChildren(v)
    case _ => ProperChildren(v)
  }

  ghost predicate ProperChildren(v: Value)
    decreases v, 0
  {
    match v
    case Array(items) => forall i :: 0 <= i < |items| ==> Proper(items[i])
    case Object(entries) => forall k :: k in entries ==> Proper(entries[k])
    case _ => true
  }

  // ------------------------------------------------------------------ height, to tell collapsed trees apart

  ghost function Max(s: set<nat>): (m: nat)
    ensures forall x :: x in s ==> x <= m
    ensures m == 0 || m in s
  {
    if s == {} then 0 else
      var x :| x in s;
      var rest := Max(s - {x});
      assert s == (s - {x}) + {x};
      if rest < x then x else rest
  }

  /** Nesting depth of arrays and dictionaries; variants do not count. */
  ghost function Height(v: Value): nat
    decreases v, 1
  {
    match v
    case Variant(_, x) => Height(x)
    case Array(_) => 1 + Max(ChildHeights(v))
    case Object(_) => 1 + Max(ChildHeights(v))
    case _ => 0
  }

  ghost function ChildHeights(v: Value): set<nat>
    decreases v, 0
  {
    match v
    case Array(items) => set i | 0 <= i < |items| :: Height(items[i])
    case Object(entries) => set k | k in entries :: Height(entries[k])
    case _ => {}
  }

  lemma {:induction false} StripKeepsHeight(v: Value)
    ensures Height(Strip(v)) == Height(v)
    decreases v
  {
    match v
    case Variant(_, x) => StripKeepsHeight(x);
    case Array(items) =>
      forall i | 0 <= i < |items| ensures Height(Strip(v).items[i]) == Height(items[i]) { StripKeepsHeight(items[i]); }
      assert ChildHeights(Strip(v)) == ChildHeights(v);
    case Object(entries) =>
      forall k | k in entries ensures Height(Strip(v).entries[k]) == Height(entries[k]) { StripKeepsHeight(entries[k]); }
      assert ChildHeights(Strip(v)) == ChildHeights(v);
    case _ =>
  }

  lemma {:induction false} StripIsVariantFree(v: Value)
    ensures VariantFree(Strip(v))
    decreases v
  {
    match v
    case Variant(_, x) => StripIsVariantFree(x);
    case Array(items) => forall i | 0 <= i < |items| ensures VariantFree(Strip(items[i])) { StripIsVariantFree(items[i]); }
    case Object(entries) => forall k | k in entries ensures VariantFree(Strip(entries[k])) { StripIsVariantFree(entries[k]); }
    case _ =>
  }

  lemma {:induction false} StripOfVariantFree(v: Value)
    requires VariantFree(v)
    ensures Strip(v) == v
    decreases v
  {
    match v
    case Array(items) => forall i | 0 <= i < |items| ensures Strip(items[i]) == items[i] { StripOfVariantFree(items[i]); }
    case Object(entries) => forall k | k in entries ensures Strip(entries[k]) == entries[k] { StripOfVariantFree(entries[k]); }
    case _ =>
  }

  lemma {:induction false} UnwrapDoesNotGrow(v: Value)
    ensures Height(UnwrapVariantDeep(v)) <= Height(v)
    decreases v, 1
  {
    if v.IsVariant() {
      var x := v.UnwrapVariant();
      assert v.Object? ==> Height(x) in ChildHeights(v);
      ChildrenDoNotGrow(x);
      assert UnwrapVariantDeep(v) == UnwrapChildren(x);
    } else {
      ChildrenDoNotGrow(v);
      assert UnwrapVariantDeep(v) == UnwrapChildren(v);
    }
  }

  /** The tree unwrapped below its root only. */
  ghost function UnwrapChildren(v: Value): Value
  {
    match v
    case Array(items) => Array(seq(|items|, i requires 0 <= i < |items| => UnwrapVariantDeep(items[i])))
    case Object(entries) => Object(map k | k in entries :: UnwrapVariantDeep(entries[k]))
    case _ => v
  }

  lemma {:induction false} ChildrenDoNotGrow(v: Value)
    ensures Height(UnwrapChildren(v)) <= Height(v)
    decreases v, 0
  {
    var out := UnwrapChildren(v);
    forall h | h in ChildHeights(out) ensures exists g :: g in ChildHeights(v) && h <= g {
      if v.Array? {
        var i :| 0 <= i < |v.items| && h == Height(out.items[i]);
        UnwrapDoesNotGrow(v.items[i]);
        assert Height(v.items[i]) in ChildHeights(v);
      } else if v.Object? {
        var k :| k in v.entries && h == Height(out.entries[k]);
        UnwrapDoesNotGrow(v.entries[k]);
        assert Height(v.entries[k]) in ChildHeights(v);
      }
    }
  }

  // ------------------------------------------------------------------ when unwrapping is right

  /** Main result: unwrapping takes off every layer for exactly the proper trees. */
  lemma {:induction false} UnwrapIsStripIffProper(v: Value)
    ensures UnwrapVariantDeep(v) == Strip(v) <==> Proper(v)
    decreases v
  {
    match v
    case Variant(_, x) =>
      if x.Variant? {
        StripIsVariantFree(v);
      } else {
        ChildrenIffProper(x);
      }
    case Object(entries) =>
      if v.IsVariant() {
        CollapsedIsNotStrip(v);
      } else {
        ChildrenIffProper(v);
      }
    case _ => ChildrenIffProper(v);
  }

  lemma {:induction false} ChildrenIffProper(v: Value)
    requires !v.Variant?
    ensures UnwrapChildren(v) == Strip(v) <==> ProperChildren(v)
    decreases v, 0
  {
    match v
    case Array(items) =>
      forall i | 0 <= i < |items| ensures UnwrapVariantDeep(items[i]) == Strip(items[i]) <==> Proper(items[i]) {
        UnwrapIsStripIffProper(items[i]);
      }
      assert forall i :: 0 <= i < |items| ==> UnwrapChildren(v).items[i] == UnwrapVariantDeep(items[i]) && Strip(v).items[i] == Strip(items[i]);
    case Object(entries) =>
      forall k | k in entries ensures UnwrapVariantDeep(entries[k]) == Strip(entries[k]) <==> Proper(entries[k]) {
        UnwrapIsStripIffProper(entries[k]);
      }
      assert forall k :: k in entries ==> UnwrapChildren(v).entries[k] == UnwrapVariantDeep(entries[k]) && Strip(v).entries[k] == Strip(entries[k]);
    case _ =>
  }

  lemma CollapsedIsNotStrip(v: Value)
    requires v.Object? && v.IsVariant()
    ensures UnwrapVariantDeep(v) != Strip(v)
  {
    var content := v.entries["value"];
    assert Height(content) in ChildHeights(v);
    StripKeepsHeight(v);
    ChildrenDoNotGrow(content);
    assert UnwrapVariantDeep(v) == UnwrapChildren(content);
  }

  /** The same arrays and dictionaries, at every depth, whatever variants lie between. */
  ghost predicate SameShape(v: Value, w: Value)
    decreases v
  {
    match v
    case Variant(_, x) => SameShape(x, w)
    case Array(items) => w.Array? && |w.items| == |items| && forall i :: 0 <= i < |items| ==> SameShape(items[i], w.items[i])
    case Object(entries) =>
      w.Object? && w.entries.Keys == entries.Keys && forall k :: k in entries ==> SameShape(entries[k], w.entries[k])
    case _ => w == v
  }

  lemma {:induction false} StripHasShape(v: Value)
    ensures SameShape(v, Strip(v))
    decreases v
  {
    match v
    case Variant(_, x) => StripHasShape(x);
    case Array(items) => forall i | 0 <= i < |items| ensures SameShape(items[i], Strip(items[i])) { StripHasShape(items[i]); }
    case Object(entries) => forall k | k in entries ensures SameShape(entries[k], Strip(entries[k])) { StripHasShape(entries[k]); }
    case _ =>
  }

  /** A proper tree comes out variant-free, with the leaves, array lengths and dictionary keys it had at every depth. */
  lemma UnwrapKeepsShape(v: Value)
    requires Proper(v)
    ensures VariantFree(UnwrapVariantDeep(v)) && SameShape(v, UnwrapVariantDeep(v))
  {
    UnwrapIsStripIffProper(v);
    StripIsVariantFree(v);
    StripHasShape(v);
  }

  // ------------------------------------------------------------------ unwrapping twice

  /** Wherever unwrapping goes, what it finds inside a variant, or inside what it takes for one, is not such a thing again. */
  ghost predicate SingleLayered(v: Value)
    decreases v, 1
  {
    if v.IsVariant() then !v.UnwrapVariant().IsVariant() && SingleLayeredChildren(v.UnwrapVariant())
    else SingleLayeredChildren(v)
  }

  ghost predicate SingleLayeredChildren(v: Value)
    decreases v, 0
  {
    match v
    case Array(items) => forall i :: 0 <= i < |items| ==> SingleLayered(items[i])
    case Object(entries) => forall k :: k in entries ==> SingleLayered(entries[k])
    case _ => true
  }

  /** The trees that unwrapping leaves alone. */
  ghost predicate Plain(v: Value)
    decreases v
  {
    && !v.IsVariant()
    && match v
       case Array(items) => forall i :: 0 <= i < |items| ==> Plain(items[i])
       case Object(entries) => forall k :: k in entries ==> Plain(entries[k])
       case _ => true
  }

  lemma {:induction false} UnchangedIffPlain(v: Value)
    ensures UnwrapVariantDeep(v) == v <==> Plain(v)
    decreases v
  {
    if v.IsVariant() {
      if v.Object? { PosedShrinks(v); }
    } else {
      match v
      case Array(items) =>
        forall i | 0 <= i < |items| ensures UnwrapVariantDeep(items[i]) == items[i] <==> Plain(items[i]) { UnchangedIffPlain(items[i]); }
        assert forall i :: 0 <= i < |items| ==> UnwrapVariantDeep(v).items[i] == UnwrapVariantDeep(items[i]);
      case Object(entries) =>
        forall k | k in entries ensures UnwrapVariantDeep(entries[k]) == entries[k] <==> Plain(entries[k]) { UnchangedIffPlain(entries[k]); }
        assert forall k :: k in entries ==> UnwrapVariantDeep(v).entries[k] == UnwrapVariantDeep(entries[k]);
      case _ =>
    }
  }

  /** A dictionary taken for a variant comes out less deep. */
  lemma PosedShrinks(v: Value)
    requires v.Object? && v.IsVariant()
    ensures UnwrapVariantDeep(v) != v
  {
    var content := v.entries["value"];
    assert Height(content) in ChildHeights(v);
    ChildrenDoNotGrow(content);
    assert UnwrapVariantDeep(v) == UnwrapChildren(content);
  }

  lemma {:induction false} PlainIffSingleLayered(v: Value)
    ensures Plain(UnwrapVariantDeep(v)) <==> SingleLayered(v)
    decreases v, 1
  {
    var x := if v.IsVariant() then v.UnwrapVariant() else v;
    ChildrenPlainIff(x);
    assert UnwrapVariantDeep(v) == UnwrapChildren(x);
  }

  lemma {:induction false} ChildrenPlainIff(v: Value)
    ensures Plain(UnwrapChildren(v)) <==> !v.IsVariant() && SingleLayeredChildren(v)
    decreases v, 0
  {
    match v
    case Array(items) =>
      forall i | 0 <= i < |items| ensures Plain(UnwrapVariantDeep(items[i])) <==> SingleLayered(items[i]) { PlainIffSingleLayered(items[i]); }
      assert forall i :: 0 <= i < |items| ==> UnwrapChildren(v).items[i] == UnwrapVariantDeep(items[i]);
    case Object(entries) =>
      forall k | k in entries ensures Plain(UnwrapVariantDeep(entries[k])) <==> SingleLayered(entries[k]) { PlainIffSingleLayered(entries[k]); }
      assert forall k :: k in entries ==> UnwrapChildren(v).entries[k] == UnwrapVariantDeep(entries[k]);
    case _ =>
  }

  /** Unwrapping a second time changes nothing for exactly the single-layered trees. */
  lemma UnwrapIdempotentIff(v: Value)
    ensures UnwrapVariantDeep(UnwrapVariantDeep(v)) == UnwrapVariantDeep(v) <==> SingleLayered(v)
  {
    UnchangedIffPlain(UnwrapVariantDeep(v));
    PlainIffSingleLayered(v);
  }

  /** A proper tree that a second unwrapping damages: a dictionary with both keys, as the content of a variant. */
  lemma SecondUnwrappingCollapses(x: string, y: string)
    ensures var v := Variant("a{ss}", Object(map["value" := Str(x), "signature" := Str(y)]));
            && Proper(v) && !SingleLayered(v)
            && UnwrapVariantDeep(v) == v.value && UnwrapVariantDeep(UnwrapVariantDeep(v)) == Str(x)
  {
    var d := Object(map["value" := Str(x), "signature" := Str(y)]);
    forall k | k in d.entries ensures UnwrapVariantDeep(d.entries[k]) == d.entries[k] && Proper(d.entries[k]) {
      assert d.entries[k].Str?;
    }
    assert UnwrapChildren(d) == d;
    assert UnwrapVariantDeep(Variant("a{ss}", d)) == UnwrapChildren(d);
    ValueSignatureDictionaryCollapses(x, y);
  }

  /** For a proper tree it is harmless for exactly those whose stripped form is proper. */
  lemma ProperIdempotentIff(v: Value)
    requires Proper(v)
    ensures UnwrapVariantDeep(UnwrapVariantDeep(v)) == UnwrapVariantDeep(v) <==> Proper(Strip(v))
  {
    UnwrapIsStripIffProper(v);
    UnwrapIsStripIffProper(Strip(v));
    StripIsVariantFree(v);
    StripOfVariantFree(Strip(v));
  }

  /** A variant directly inside a variant loses exactly one layer, whatever it holds. */
  lemma NestedVariantLosesOneLayer(outer: string, inner: string, x: Value)
    ensures UnwrapVariantDeep(Variant(outer, Variant(inner, x))) == Variant(inner, x)
  {
  }

  // ------------------------------------------------------------------ wrapping

  /** Every leaf put in a variant, with the signature `sign` gives it. */
  function WrapLeaves(v: Value, sign: Value -> string): Value
    decreases v
  {
    match v
    case Array(items) => Array(seq(|items|, i requires 0 <= i < |items| => WrapLeaves(items[i], sign)))
    case Object(entries) => Object(map k | k in entries :: WrapLeaves(entries[k], sign))
    case _ => Variant(sign(v), v)
  }

  /** The tree with the leaves under variants of their signatures, and no variant anywhere else. */
  ghost predicate LeavesUnder(v: Value, w: Value, sign: Value -> string)
    decreases v
  {
    match v
    case Array(items) => w.Array? && |w.items| == |items| && forall i :: 0 <= i < |items| ==> LeavesUnder(items[i], w.items[i], sign)
    case Object(entries) =>
      w.Object? && w.entries.Keys == entries.Keys && forall k :: k in entries ==> LeavesUnder(entries[k], w.entries[k], sign)
    case _ => w.Variant? && w.signature == sign(v) && w.value == v
  }

  lemma {:induction false} WrapCoversLeaves(v: Value, sign: Value -> string)
    ensures LeavesUnder(v, WrapLeaves(v, sign), sign)
    decreases v
  {
    match v
    case Array(items) => forall i | 0 <= i < |items| ensures LeavesUnder(items[i], WrapLeaves(items[i], sign), sign) { WrapCoversLeaves(items[i], sign); }
    case Object(entries) => forall k | k in entries ensures LeavesUnder(entries[k], WrapLeaves(entries[k], sign), sign) { WrapCoversLeaves(entries[k], sign); }
    case _ =>
  }

  lemma {:induction false} StripOfWrap(v: Value, sign: Value -> string)
    requires VariantFree(v)
    ensures Strip(WrapLeaves(v, sign)) == v
    ensures Proper(WrapLeaves(v, sign)) <==> Proper(v)
    decreases v
  {
    var w := WrapLeaves(v, sign);
    match v
    case Array(items) =>
      forall i | 0 <= i < |items|
        ensures Strip(w.items[i]) == items[i] && (Proper(w.items[i]) <==> Proper(items[i]))
      { StripOfWrap(items[i], sign); }
    case Object(entries) =>
      forall k | k in entries
        ensures Strip(w.entries[k]) == entries[k] && (Proper(w.entries[k]) <==> Proper(entries[k]))
      { StripOfWrap(entries[k], sign); }
    case _ =>
  }

  /** Unwrapping undoes wrapping for exactly the trees without a `value`/`signature` dictionary. */
  lemma UnwrapOfWrapIff(v: Value, sign: Value -> string)
    requires VariantFree(v)
    ensures UnwrapVariantDeep(WrapLeaves(v, sign)) == v <==> Proper(v)
  {
    StripOfWrap(v, sign);
    UnwrapIsStripIffProper(WrapLeaves(v, sign));
  }

  /** The smallest dictionary that breaks the round trip. */
  lemma ValueSignatureDictionaryCollapses(x: string, y: string)
    ensures UnwrapVariantDeep(Object(map["value" := Str(x), "signature" := Str(y)])) == Str(x)
  {
  }
}
