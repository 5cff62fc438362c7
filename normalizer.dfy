/**
  Deriving the editable template from the source JSON: `extractZeroIndexObject`
  shallow-copies a value into an object and cuts each array held directly under
  a top-level key whose first element is an object, an array or null down to
  that first element; `normalizeSourceJson` picks what to hand to it.
 */
module Normalizer {
  import opened JsValues

  /** Whether `extractZeroIndexObject` replaces a property value: a non-empty array whose element 0 is an object, array or null. */
  predicate IsCollapsible(v: Json) {
    v.Arr? && |v.items| > 0 && IsTypeofObject(v.items[0])
  }

  /**
    The object `extractZeroIndexObject(v)` returns: `{...v}` with every
    collapsible property value replaced by `[value[0]]`. Spreading an array or a
    string gives index keys; spreading null, a boolean or a number gives `{}`.
   */
  function ZeroIndexed(v: Json): (r: Json)
    ensures r.Obj? && Keys(r) == Keys(v)
    ensures forall i :: 0 <= i < Len(v) ==>
              if IsCollapsible(Member(v, i)) then Member(r, i) == Arr([Member(v, i).items[0]])
              else Member(r, i) == Member(v, i)
  {
    var fs := Spread(v);
    Obj(seq(|fs|, i requires 0 <= i < |fs| =>
      if IsCollapsible(fs[i].1) then (fs[i].0, Arr([fs[i].1.items[0]])) else fs[i]))
  }

  /** The loop of `extractZeroIndexObject`: copy, then overwrite collapsible properties one key at a time. */
  method ExtractZeroIndexObject(obj: Json) returns (newObj: Json)
    ensures newObj == ZeroIndexed(obj)
  {
    var fields := Spread(obj);
    var i := 0;
    while i < |fields|
      invariant 0 <= i <= |fields| == Len(obj)
      invariant forall j :: 0 <= j < i ==> fields[j] == ZeroIndexed(obj).fields[j]
      invariant forall j :: i <= j < |fields| ==> fields[j] == Spread(obj)[j]
    {
      var (key, value) := fields[i];
      if value.Arr? && |value.items| > 0 {
        if IsTypeofObject(value.items[0]) {
          fields := fields[i := (key, Arr([value.items[0]]))];
        }
      }
      i := i + 1;
    }
    newObj := Obj(fields);
  }

  /** A property value that changes was collapsible, and became a one-element array holding its own element 0. */
  lemma ZeroIndexedReplacesOnlyCollapsible(v: Json, i: nat)
    requires i < Len(v)
    ensures var before, after := Member(v, i), Member(ZeroIndexed(v), i);
      after != before ==>
        && IsCollapsible(before)
        && after.Arr? && |after.items| == 1 && after.items[0] == before.items[0]
  {
  }

  /** Applying `extractZeroIndexObject` to its own result changes nothing. */
  lemma {:induction false} ZeroIndexedIdempotent(v: Json)
    ensures ZeroIndexed(ZeroIndexed(v)) == ZeroIndexed(v)
  {
    var r := ZeroIndexed(v);
    var rr := ZeroIndexed(r);
    assert Len(rr) == Len(r);
    forall i | 0 <= i < Len(r) ensures rr.fields[i] == r.fields[i] {
      assert KeyAt(rr, i) == KeyAt(r, i);
      assert Member(rr, i) == Member(r, i);
    }
  }

  /**
    `normalizeSourceJson`: an array whose first element is an array becomes the
    array of its elements each passed through `extractZeroIndexObject`; any other
    non-empty array gives `extractZeroIndexObject` of its first element; an
    object gives `extractZeroIndexObject` of itself; everything else gives `{}`.
   */
  function Normalize(json: Json): (r: Json)
    ensures r.Obj? || (json.Arr? && |json.items| > 0 && json.items[0].Arr? && r.Arr?)
    ensures json.Arr? && |json.items| > 0 && json.items[0].Arr? ==>
              r.Arr? && |r.items| == |json.items| &&
              forall i :: 0 <= i < |json.items| ==> r.items[i] == ZeroIndexed(json.items[i])
  {
    match json
    case Arr(items) =>
      if |items| > 0 && items[0].Arr? then
        Arr(seq(|items|, i requires 0 <= i < |items| =>
          var normalized := ZeroIndexed(items[i]);
          if |Keys(normalized)| > 0 then normalized else Obj([])))
      else if |items| > 0 then ZeroIndexed(items[0])
      else Obj([])
    case Obj(_) => ZeroIndexed(json)
    case _ => Obj([])
  }

  /** The three non-nested cases of `normalizeSourceJson`. */
  lemma NormalizeCases(json: Json)
    ensures !json.Arr? && !json.Obj? ==> Normalize(json) == Obj([])
    ensures json == Arr([]) ==> Normalize(json) == Obj([])
    ensures json.Obj? ==> Normalize(json) == ZeroIndexed(json)
    ensures json.Arr? && |json.items| > 0 && !json.items[0].Arr? ==> Normalize(json) == ZeroIndexed(json.items[0])
  {
  }

  /** Normalizing a template again gives the same template, unless the source was an array of arrays. */
  lemma {:induction false} NormalizeIdempotent(json: Json)
    requires !(json.Arr? && |json.items| > 0 && json.items[0].Arr?)
    ensures Normalize(Normalize(json)) == Normalize(json)
  {
    var n := Normalize(json);
    assert n.Obj?;
    ZeroIndexedIdempotent(n);
    match json
    case Arr(items) =>
      if |items| > 0 {
        ZeroIndexedIdempotent(items[0]);
      }
    case Obj(_) =>
      ZeroIndexedIdempotent(json);
    case _ =>
  }

  /** An array of arrays is never a fixed point: it normalizes to an array, which normalizes to an object. */
  lemma NormalizeNestedArraysNotIdempotent(json: Json)
    requires json.Arr? && |json.items| > 0 && json.items[0].Arr?
    ensures Normalize(json).Arr? && Normalize(Normalize(json)).Obj?
    ensures Normalize(Normalize(json)) != Normalize(json)
  {
    var n := Normalize(json);
    assert n.items[0] == ZeroIndexed(json.items[0]);
  }

  /** The smallest case: `[[]]` normalizes to `[{}]`, which normalizes to `{}`. */
  lemma NormalizeNestedArraysExample()
    ensures Normalize(Arr([Arr([])])) == Arr([Obj([])])
    ensures Normalize(Normalize(Arr([Arr([])]))) == Obj([])
  {
    assert ZeroIndexed(Arr([])) == Obj([]);
    assert Normalize(Arr([Arr([])])).items[0] == Obj([]);
  }

  /** An array of records yields its first record with each array-of-objects property cut to one element. */
  lemma NormalizeArrayOfRecords()
    ensures
      var b := Arr([Obj([("x", Num(1))]), Obj([("x", Num(2))])]);
      var b3 := Arr([Obj([("x", Num(3))])]);
      Normalize(Arr([Obj([("a", Num(1)), ("b", b)]), Obj([("a", Num(2)), ("b", b3)])]))
        == Obj([("a", Num(1)), ("b", Arr([Obj([("x", Num(1))])]))])
  {
    var b := Arr([Obj([("x", Num(1))]), Obj([("x", Num(2))])]);
    var first := Obj([("a", Num(1)), ("b", b)]);
    var z := ZeroIndexed(first);
    assert Member(first, 0) == Num(1) && Member(first, 1) == b;
    assert Keys(first) == ["a", "b"];
    assert z.fields[0] == ("a", Num(1));
    assert z.fields[1] == ("b", Arr([Obj([("x", Num(1))])]));
  }

  /** An array of arrays yields one index-keyed object per inner array, not their first elements. */
  lemma NormalizeArrayOfArrays()
    ensures
      var a1, a2, a3 := Obj([("a", Num(1))]), Obj([("a", Num(2))]), Obj([("a", Num(3))]);
      Normalize(Arr([Arr([a1, a2]), Arr([a3])])) == Arr([Obj([("0", a1), ("1", a2)]), Obj([("0", a3)])])
  {
    var a1, a2, a3 := Obj([("a", Num(1))]), Obj([("a", Num(2))]), Obj([("a", Num(3))]);
    assert IndexKey(0) == "0" && IndexKey(1) == "1";
    var z1 := ZeroIndexed(Arr([a1, a2]));
    assert z1.fields[0] == ("0", a1) && z1.fields[1] == ("1", a2);
    assert z1 == Obj([("0", a1), ("1", a2)]);
    var z2 := ZeroIndexed(Arr([a3]));
    assert z2.fields[0] == ("0", a3);
    assert z2 == Obj([("0", a3)]);
    var n := Normalize(Arr([Arr([a1, a2]), Arr([a3])]));
    assert n.items[0] == z1 && n.items[1] == z2;
  }

  /** `extractZeroIndexObject` of valid JSON is valid JSON. */
  lemma ZeroIndexedPreservesValidJson(v: Json)
    requires ValidJson(v)
    ensures ValidJson(ZeroIndexed(v))
  {
    var r := ZeroIndexed(v);
    KeysDistinct(v);
    assert Keys(r) == FieldKeys(r.fields);
    forall i | 0 <= i < Len(v) ensures ValidJson(Member(r, i)) {
      if !v.Str? {
        MembersValid(v, i);
      }
    }
  }

  /** The template derived from valid JSON is valid JSON. */
  lemma NormalizePreservesValidJson(json: Json)
    requires ValidJson(json)
    ensures ValidJson(Normalize(json))
  {
    match json
    case Arr(items) =>
      forall i | 0 <= i < |items| ensures ValidJson(ZeroIndexed(items[i])) {
        ZeroIndexedPreservesValidJson(items[i]);
      }
    case Obj(_) =>
      ZeroIndexedPreservesValidJson(json);
    case _ =>
  }
}
