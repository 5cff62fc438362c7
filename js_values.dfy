/**
  JSON values as the schema builder sees them at run time, together with the
  few pieces of JavaScript object semantics its transforms rely on: which keys
  `for…in`, object spread and `Object.keys` enumerate, what `key in value`
  answers (and when it throws), and what `value[key]` reads.

  An object is a sequence of (key, value) fields whose order is the object's
  property-enumeration order.
 */
module JsValues {

  datatype Option<+T> = None | Some(value: T)

  /** The outcome of JavaScript code that may throw a TypeError. */
  datatype Result<+T> = Ok(value: T) | TypeError

  datatype Json =
    | Null
    | Bool(b: bool)
    | Num(n: int)
    | Str(s: string)
    | Arr(items: seq<Json>)
    | Obj(fields: seq<(string, Json)>)

  /** `typeof v === 'object'`: true for objects, arrays and null. */
  predicate IsTypeofObject(v: Json) {
    v.Null? || v.Arr? || v.Obj?
  }

  /* ---------- array index keys ("0", "1", …) ---------- */

  predicate IsDigit(c: char) {
    '0' <= c <= '9'
  }

  function DigitChar(d: nat): (c: char)
    requires d < 10
    ensures IsDigit(c)
  {
    (48 + d) as char
  }

  function DigitValue(c: char): (d: nat)
    requires IsDigit(c)
    ensures d < 10 && DigitChar(d) == c
  {
    c as int - 48
  }

  /** The canonical decimal string of n, the key under which an array holds element n. */
  function IndexKey(n: nat): (k: string)
    ensures |k| > 0 && forall c :: c in k ==> IsDigit(c)
    ensures k[0] == '0' <==> n == 0
  {
    if n < 10 then [DigitChar(n)] else IndexKey(n / 10) + [DigitChar(n % 10)]
  }

  predicate IsCanonicalIndex(k: string) {
    && |k| > 0
    && (forall c :: c in k ==> IsDigit(c))
    && (k[0] == '0' ==> |k| == 1)
  }

  function DigitsValue(k: string): nat
    requires forall c :: c in k ==> IsDigit(c)
  {
    if k == [] then 0 else 10 * DigitsValue(k[..|k| - 1]) + DigitValue(k[|k| - 1])
  }

  /** The array index a property key denotes, if it denotes one. */
  function ParseIndex(k: string): Option<nat> {
    if IsCanonicalIndex(k) then Some(DigitsValue(k)) else None
  }

  lemma {:induction false} ParseIndexKey(n: nat)
    ensures ParseIndex(IndexKey(n)) == Some(n)
  {
    var k := IndexKey(n);
    if n < 10 {
      assert k[..|k| - 1] == [];
    } else {
      ParseIndexKey(n / 10);
      assert k[..|k| - 1] == IndexKey(n / 10);
      assert k[0] == IndexKey(n / 10)[0];
      assert DigitValue(k[|k| - 1]) == n % 10;
    }
    assert DigitsValue(k) == n;
    assert IsCanonicalIndex(k);
  }

  lemma {:induction false} DigitsValueAtLeastFirst(k: string)
    requires |k| > 0 && forall c :: c in k ==> IsDigit(c)
    ensures DigitsValue(k) >= DigitValue(k[0])
  {
    if |k| > 1 {
      var p := k[..|k| - 1];
      assert forall c :: c in p ==> c in k;
      DigitsValueAtLeastFirst(p);
    }
  }

  lemma {:induction false} IndexKeyOfParse(k: string, n: nat)
    requires ParseIndex(k) == Some(n)
    ensures IndexKey(n) == k
  {
    if |k| > 1 {
      var p := k[..|k| - 1];
      assert forall c :: c in p ==> c in k;
      assert p[0] == k[0];
      var m := DigitsValue(p);
      DigitsValueAtLeastFirst(p);
      assert ParseIndex(p) == Some(m);
      IndexKeyOfParse(p, m);
      assert n == 10 * m + DigitValue(k[|k| - 1]);
      assert k == p + [k[|k| - 1]];
    }
  }

  lemma IndexKeyInjective(a: nat, b: nat)
    requires IndexKey(a) == IndexKey(b)
    ensures a == b
  {
    ParseIndexKey(a);
    ParseIndexKey(b);
  }

  /* ---------- own enumerable properties ---------- */

  /** Number of keys `for…in`, `{...v}` and `Object.keys(v)` enumerate. */
  function Len(v: Json): nat {
    match v
    case Obj(fs) => |fs|
    case Arr(items) => |items|
    case Str(s) => |s|
    case _ => 0
  }

  /** The i-th enumerated key. */
  function KeyAt(v: Json, i: nat): string
    requires i < Len(v)
  {
    match v
    case Obj(fs) => fs[i].0
    case _ => IndexKey(i)
  }

  /** The value `v[KeyAt(v, i)]`; a string's i-th property is its i-th character. */
  function Member(v: Json, i: nat): (r: Json)
    requires i < Len(v)
    ensures v.Str? ==> r.Str?
    ensures v.Str? || r < v
  {
    match v
    case Obj(fs) => assert fs[i] in fs; fs[i].1
    case Arr(items) => items[i]
    case Str(s) => Str([s[i]])
  }

  function Keys(v: Json): (ks: seq<string>)
    ensures |ks| == Len(v)
  {
    seq(Len(v), i requires 0 <= i < Len(v) => KeyAt(v, i))
  }

  /** The fields of `{...v}`. */
  function Spread(v: Json): (fs: seq<(string, Json)>)
    ensures |fs| == Len(v)
  {
    seq(Len(v), i requires 0 <= i < Len(v) => (KeyAt(v, i), Member(v, i)))
  }

  /** `Object.keys(v)`, which throws on null. */
  function ObjectKeys(v: Json): Result<seq<string>> {
    if v.Null? then TypeError else Ok(Keys(v))
  }

  predicate Distinct(ks: seq<string>) {
    forall i, j :: 0 <= i < j < |ks| ==> ks[i] != ks[j]
  }

  function FieldKeys(fs: seq<(string, Json)>): (ks: seq<string>)
    ensures |ks| == |fs|
    ensures forall i :: 0 <= i < |fs| ==> ks[i] == fs[i].0
  {
    seq(|fs|, i requires 0 <= i < |fs| => fs[i].0)
  }

  /** The value of the first field named k. */
  function Lookup(fs: seq<(string, Json)>, k: string): (r: Option<Json>)
    ensures r.None? <==> k !in FieldKeys(fs)
  {
    if fs == [] then None
    else if fs[0].0 == k then Some(fs[0].1)
    else
      assert FieldKeys(fs) == [fs[0].0] + FieldKeys(fs[1..]);
      Lookup(fs[1..], k)
  }

  /** `k in v`: own properties of objects and arrays (an array also has "length"); throws on anything else. */
  function HasProperty(v: Json, k: string): (r: Result<bool>)
    ensures r.TypeError? <==> !(v.Obj? || v.Arr?)
  {
    match v
    case Obj(fs) => Ok(Lookup(fs, k).Some?)
    case Arr(items) => Ok(k == "length" || (ParseIndex(k).Some? && ParseIndex(k).value < |items|))
    case _ => TypeError
  }

  predicate IsProperty(v: Json, k: string) {
    HasProperty(v, k) == Ok(true)
  }

  /** `v[k]` for a property k of v. */
  function Get(v: Json, k: string): Json
    requires IsProperty(v, k)
  {
    match v
    case Obj(fs) => Lookup(fs, k).value
    case Arr(items) =>
      if ParseIndex(k).Some? && ParseIndex(k).value < |items| then items[ParseIndex(k).value]
      else Num(|items|)
  }

  lemma ArrayIndexProperty(items: seq<Json>, i: nat)
    requires i < |items|
    ensures IsProperty(Arr(items), IndexKey(i)) && Get(Arr(items), IndexKey(i)) == items[i]
  {
    ParseIndexKey(i);
  }

  /** A JSON value as JSON text can denote it: no object repeats a key. */
  predicate ValidJson(v: Json) {
    match v
    case Obj(fs) => Distinct(FieldKeys(fs)) && forall i :: 0 <= i < |fs| ==> ValidJson(Member(v, i))
    case Arr(items) => forall i :: 0 <= i < |items| ==> ValidJson(items[i])
    case _ => true
  }

  /** Enumerated keys never repeat: an array's or a string's index keys are distinct by construction. */
  lemma KeysDistinct(v: Json)
    requires ValidJson(v)
    ensures Distinct(Keys(v))
  {
    if !v.Obj? {
      forall i, j | 0 <= i < j < Len(v) ensures Keys(v)[i] != Keys(v)[j] {
        if IndexKey(i) == IndexKey(j) {
          IndexKeyInjective(i, j);
        }
      }
    } else {
      assert Keys(v) == FieldKeys(v.fields);
    }
  }

  lemma MembersValid(v: Json, i: nat)
    requires ValidJson(v) && i < Len(v)
    ensures ValidJson(Member(v, i))
  {
  }
}
