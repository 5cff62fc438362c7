/**
  Replaying an edited template over data (`updateObject(template, obj)`): a
  structural projection that keeps, in the template's key order, the keys the
  data also has, recursing into nested objects and mapping the template array's
  element 0 over every element of a data array.
 */
module Replayer {
  import opened JsValues

  /**
    `updateObject(template, obj)`. The `for…in` loop enumerates the template's
    own keys (none for null, a boolean or a number; index keys for an array or a
    string); `key in obj` throws when obj is not an object or an array.
   */
  function Replay(template: Json, obj: Json): (r: Result<Json>)
    ensures r.Ok? ==> r.value.Obj?
    decreases template, 3
  {
    match ReplayUpTo(template, obj, Len(template))
    case Ok(fields) => Ok(Obj(fields))
    case TypeError => TypeError
  }

  /** The fields `updatedObj` holds after the first n iterations of the loop, or the TypeError one of them threw. */
  function ReplayUpTo(template: Json, obj: Json, n: nat): Result<seq<(string, Json)>>
    requires n <= Len(template)
    decreases template, 2, n
  {
    if n == 0 then Ok([])
    else
      match ReplayUpTo(template, obj, n - 1)
      case TypeError => TypeError
      case Ok(fields) =>
        match ReplayKey(template, obj, n - 1)
        case TypeError => TypeError
        case Ok(None) => Ok(fields)
        case Ok(Some(v)) => Ok(fields + [(KeyAt(template, n - 1), v)])
  }

  /**
    What the loop iteration for the template's i-th key stores: nothing when the
    key is not in obj, otherwise the value `ReplayValue` computes.
   */
  function ReplayKey(template: Json, obj: Json, i: nat): (r: Result<Option<Json>>)
    requires i < Len(template)
    ensures HasProperty(obj, KeyAt(template, i)).TypeError? ==> r.TypeError?
    ensures r.Ok? ==> (r.value.Some? <==> IsProperty(obj, KeyAt(template, i)))
    decreases template, 1
  {
    var key := KeyAt(template, i);
    match HasProperty(obj, key)
    case TypeError => TypeError
    case Ok(present) =>
      if !present then Ok(None)
      else
        match ReplayValue(template, i, Get(obj, key))
        case Ok(v) => Ok(Some(v))
        case TypeError => TypeError
  }

  /**
    The value stored for the template's i-th key when the data holds ov under
    it: an array template value over a data array maps its element 0 over the
    data; an object or null template value recurses; anything else keeps ov.
   */
  function ReplayValue(template: Json, i: nat, ov: Json): Result<Json>
    requires i < Len(template)
    decreases template, 0
  {
    var tv := Member(template, i);
    if tv.Arr? && ov.Arr? then
      // `template[key][0]` is undefined for an empty template array, and
      // `updateObject(undefined, item)` enumerates nothing: every item gives {}
      if tv.items == [] then Ok(Arr(seq(|ov.items|, _ => Obj([]))))
      else
        match MapReplay(tv.items[0], ov.items, |ov.items|)
        case Ok(vs) => Ok(Arr(vs))
        case TypeError => TypeError
    else if IsTypeofObject(tv) && !tv.Arr? then Replay(tv, ov)
    else Ok(ov)
  }

  /** `items.map(item => updateObject(template, item))` over the first n items. */
  function MapReplay(template: Json, items: seq<Json>, n: nat): Result<seq<Json>>
    requires n <= |items|
    decreases template, 4, n
  {
    if n == 0 then Ok([])
    else
      match MapReplay(template, items, n - 1)
      case TypeError => TypeError
      case Ok(done) =>
        match Replay(template, items[n - 1])
        case TypeError => TypeError
        case Ok(v) => Ok(done + [v])
  }

  /** The template's keys, in order, that are properties of obj. */
  function KeptKeys(ks: seq<string>, obj: Json): seq<string> {
    if ks == [] then []
    else KeptKeys(ks[..|ks| - 1], obj) + (if IsProperty(obj, ks[|ks| - 1]) then [ks[|ks| - 1]] else [])
  }

  /* ---------- the loops as the source writes them ---------- */

  /** The loop of `updateObject`: one iteration per template key, each adding at most one property. */
  method UpdateObject(template: Json, obj: Json) returns (r: Result<Json>)
    ensures r == Replay(template, obj)
    decreases template, 2
  {
    var updated: seq<(string, Json)> := [];
    var i := 0;
    while i < Len(template)
      invariant 0 <= i <= Len(template)
      invariant ReplayUpTo(template, obj, i) == Ok(updated)
    {
      var stored := UpdateKey(template, obj, i);
      if stored.TypeError? {
        ReplayUpToThrowPersists(template, obj, i + 1, Len(template));
        return TypeError;
      }
      ReplayUpToStep(template, obj, i + 1);
      if stored.value.Some? {
        updated := updated + [(KeyAt(template, i), stored.value.value)];
      }
      i := i + 1;
    }
    r := Ok(Obj(updated));
  }

  /** The body of the `for…in` loop for the template's i-th key. */
  method UpdateKey(template: Json, obj: Json, i: nat) returns (r: Result<Option<Json>>)
    requires i < Len(template)
    ensures r == ReplayKey(template, obj, i)
    decreases template, 0
  {
    var key := KeyAt(template, i);
    var present := HasProperty(obj, key);
    if present.TypeError? {
      return TypeError;
    }
    if !present.value {
      return Ok(None);
    }
    var tv, ov := Member(template, i), Get(obj, key);
    if tv.Arr? && ov.Arr? {
      if tv.items == [] {
        // each `updateObject(undefined, item)` enumerates nothing and returns {}
        r := Ok(Some(Arr(seq(|ov.items|, _ => Obj([])))));
      } else {
        var mapped := MapUpdateObject(tv.items[0], ov.items);
        r := if mapped.Ok? then Ok(Some(Arr(mapped.value))) else TypeError;
      }
    } else if IsTypeofObject(tv) && !tv.Arr? {
      var sub := UpdateObject(tv, ov);
      r := if sub.Ok? then Ok(Some(sub.value)) else TypeError;
    } else {
      r := Ok(Some(ov));
    }
  }

  /** `items.map(item => updateObject(template, item))`. */
  method MapUpdateObject(template: Json, items: seq<Json>) returns (r: Result<seq<Json>>)
    ensures r == MapReplay(template, items, |items|)
    decreases template, 3
  {
    var mapped: seq<Json> := [];
    var j := 0;
    while j < |items|
      invariant 0 <= j <= |items|
      invariant MapReplay(template, items, j) == Ok(mapped)
    {
      var item := UpdateObject(template, items[j]);
      if item.TypeError? {
        MapReplayThrowPersists(template, items, j + 1, |items|);
        return TypeError;
      }
      mapped := mapped + [item.value];
      j := j + 1;
    }
    r := Ok(mapped);
  }

  /* ---------- properties ---------- */

  /** Once an iteration has thrown, the whole call throws. */
  lemma {:induction false} ReplayUpToThrowPersists(template: Json, obj: Json, i: nat, n: nat)
    requires i <= n <= Len(template)
    requires ReplayUpTo(template, obj, i) == TypeError
    ensures ReplayUpTo(template, obj, n) == TypeError
    decreases n
  {
    if n > i {
      ReplayUpToThrowPersists(template, obj, i, n - 1);
    }
  }

  lemma {:induction false} MapReplayThrowPersists(template: Json, items: seq<Json>, i: nat, n: nat)
    requires i <= n <= |items|
    requires MapReplay(template, items, i) == TypeError
    ensures MapReplay(template, items, n) == TypeError
    decreases n
  {
    if n > i {
      MapReplayThrowPersists(template, items, i, n - 1);
    }
  }

  /** A successful `map` has one result per element, each the replay of that element. */
  lemma {:induction false} MapReplaySound(template: Json, items: seq<Json>, n: nat)
    requires n <= |items|
    requires MapReplay(template, items, n).Ok?
    ensures var rs := MapReplay(template, items, n).value;
      |rs| == n && forall j :: 0 <= j < n ==> Replay(template, items[j]) == Ok(rs[j])
  {
    if n > 0 {
      MapReplaySound(template, items, n - 1);
    }
  }

  /** If every element replays, `map` succeeds with those results. */
  lemma {:induction false} MapReplayComplete(template: Json, items: seq<Json>, rs: seq<Json>)
    requires |rs| <= |items|
    requires forall j :: 0 <= j < |rs| ==> Replay(template, items[j]) == Ok(rs[j])
    ensures MapReplay(template, items, |rs|) == Ok(rs)
  {
    if rs != [] {
      var n := |rs|;
      MapReplayComplete(template, items, rs[..n - 1]);
      assert rs == rs[..n - 1] + [rs[n - 1]];
    }
  }

  lemma {:induction false} KeptKeysMember(ks: seq<string>, obj: Json, k: string)
    ensures k in KeptKeys(ks, obj) <==> k in ks && IsProperty(obj, k)
  {
    if ks != [] {
      KeptKeysMember(ks[..|ks| - 1], obj, k);
      assert ks == ks[..|ks| - 1] + [ks[|ks| - 1]];
    }
  }

  lemma {:induction false} KeptKeysDistinct(ks: seq<string>, obj: Json)
    requires Distinct(ks)
    ensures Distinct(KeptKeys(ks, obj))
  {
    if ks != [] {
      var init := ks[..|ks| - 1];
      KeptKeysDistinct(init, obj);
      KeptKeysMember(init, obj, ks[|ks| - 1]);
    }
  }

  /** One iteration of the loop succeeds iff the earlier ones did and this one does. */
  lemma ReplayUpToStep(template: Json, obj: Json, n: nat)
    requires 0 < n <= Len(template)
    ensures ReplayUpTo(template, obj, n).Ok? <==>
              ReplayUpTo(template, obj, n - 1).Ok? && ReplayKey(template, obj, n - 1).Ok?
  {
  }

  lemma {:induction false} ReplayUpToKeys(template: Json, obj: Json, n: nat)
    requires n <= Len(template)
    requires ReplayUpTo(template, obj, n).Ok?
    ensures FieldKeys(ReplayUpTo(template, obj, n).value) == KeptKeys(Keys(template)[..n], obj)
    ensures forall i :: 0 <= i < n ==> ReplayKey(template, obj, i).Ok?
  {
    ReplayUpToAllOk(template, obj, n);
    if n > 0 {
      ReplayUpToKeys(template, obj, n - 1);
      var key := KeyAt(template, n - 1);
      var ks := Keys(template)[..n];
      assert ks[..n - 1] == Keys(template)[..n - 1];
      assert ks[n - 1] == key;
      assert KeptKeys(ks, obj) == KeptKeys(Keys(template)[..n - 1], obj) + (if IsProperty(obj, key) then [key] else []);
      var prev := ReplayUpTo(template, obj, n - 1).value;
      var stored := ReplayKey(template, obj, n - 1);
      assert stored.Ok?;
      if stored.value.Some? {
        assert ReplayUpTo(template, obj, n).value == prev + [(key, stored.value.value)];
        assert FieldKeys(prev + [(key, stored.value.value)]) == FieldKeys(prev) + [key];
      } else {
        assert ReplayUpTo(template, obj, n).value == prev;
      }
    }
  }

  /** A loop that did not throw had no iteration that threw. */
  lemma ReplayUpToAllOk(template: Json, obj: Json, n: nat)
    requires n <= Len(template)
    requires ReplayUpTo(template, obj, n).Ok?
    ensures forall i :: 0 <= i < n ==> ReplayKey(template, obj, i).Ok?
  {
    if n > 0 {
      ReplayUpToOkIff(template, obj, n);
      PrefixConformsAll(template, obj, n);
      forall i | 0 <= i < n ensures ReplayKey(template, obj, i).Ok? {
        ReplayKeyOkIff(template, obj, i);
      }
    }
  }

  lemma {:induction false} LookupAppend(fs: seq<(string, Json)>, k: string, v: Json, key: string)
    ensures Lookup(fs + [(k, v)], key) ==
              if Lookup(fs, key).Some? then Lookup(fs, key) else if k == key then Some(v) else None
  {
    if fs != [] {
      LookupAppend(fs[1..], k, v, key);
      assert (fs + [(k, v)])[1..] == fs[1..] + [(k, v)];
    }
  }

  /** With distinct template keys, the value stored for key i is the one iteration i computed. */
  lemma {:induction false} ReplayUpToLookup(template: Json, obj: Json, n: nat, i: nat)
    requires i < n <= Len(template)
    requires Distinct(Keys(template))
    requires ReplayUpTo(template, obj, n).Ok?
    requires ReplayKey(template, obj, i).Ok? && ReplayKey(template, obj, i).value.Some?
    ensures Lookup(ReplayUpTo(template, obj, n).value, KeyAt(template, i)) == ReplayKey(template, obj, i).value
  {
    var key := KeyAt(template, i);
    var fields := ReplayUpTo(template, obj, n - 1).value;
    ReplayUpToAllOk(template, obj, n);
    match ReplayKey(template, obj, n - 1).value {
      case None =>
        assert ReplayUpTo(template, obj, n).value == fields;
      case Some(v) =>
        assert ReplayUpTo(template, obj, n).value == fields + [(KeyAt(template, n - 1), v)];
        LookupAppend(fields, KeyAt(template, n - 1), v, key);
    }
    if i < n - 1 {
      ReplayUpToLookup(template, obj, n - 1, i);
    } else {
      ReplayUpToKeys(template, obj, n - 1);
      KeptKeysMember(Keys(template)[..n - 1], obj, key);
      assert Keys(template)[n - 1] == key;
      var before := Keys(template)[..n - 1];
      forall j | 0 <= j < |before| ensures before[j] != key {
        assert Keys(template)[j] != Keys(template)[n - 1];
      }
      assert key !in before;
    }
  }

  /**
    The keys of `updateObject(template, obj)` are exactly the template's keys
    that obj also has, in the template's order; they are distinct when the
    template's are.
   */
  lemma ReplayKeys(template: Json, obj: Json)
    requires Replay(template, obj).Ok?
    ensures Keys(Replay(template, obj).value) == KeptKeys(Keys(template), obj)
    ensures forall k :: k in Keys(Replay(template, obj).value) <==> k in Keys(template) && IsProperty(obj, k)
    ensures Distinct(Keys(template)) ==> Distinct(Keys(Replay(template, obj).value))
  {
    var fields := ReplayUpTo(template, obj, Len(template)).value;
    ReplayUpToKeys(template, obj, Len(template));
    assert Keys(template)[..Len(template)] == Keys(template);
    assert Keys(Obj(fields)) == FieldKeys(fields);
    forall k ensures k in Keys(Replay(template, obj).value) <==> k in Keys(template) && IsProperty(obj, k) {
      KeptKeysMember(Keys(template), obj, k);
    }
    if Distinct(Keys(template)) {
      KeptKeysDistinct(Keys(template), obj);
    }
  }

  /**
    The value stored under a kept key: for an array template over a data array,
    one replay of the template's element 0 per data element ({} each when the
    template array is empty); for an object or null template, the nested replay;
    otherwise the data value itself.
   */
  lemma ReplayValueAt(template: Json, obj: Json, i: nat)
    requires Replay(template, obj).Ok?
    requires Distinct(Keys(template))
    requires i < Len(template) && IsProperty(obj, KeyAt(template, i))
    ensures
      var r, tv, ov := Replay(template, obj).value, Member(template, i), Get(obj, KeyAt(template, i));
      var stored := Lookup(r.fields, KeyAt(template, i));
      && stored.Some?
      && (tv.Arr? && ov.Arr? ==>
            && stored.value.Arr? && |stored.value.items| == |ov.items|
            && forall j :: 0 <= j < |ov.items| ==>
                 if tv.items == [] then stored.value.items[j] == Obj([])
                 else Replay(tv.items[0], ov.items[j]) == Ok(stored.value.items[j]))
      && (tv.Obj? || tv.Null? ==> Replay(tv, ov) == Ok(stored.value))
      && (!(tv.Arr? && ov.Arr?) && !tv.Obj? && !tv.Null? ==> stored.value == ov)
  {
    var key := KeyAt(template, i);
    ReplayUpToKeys(template, obj, Len(template));
    ReplayUpToLookup(template, obj, Len(template), i);
    var tv, ov := Member(template, i), Get(obj, key);
    if tv.Arr? && ov.Arr? && tv.items != [] {
      MapReplaySound(tv.items[0], ov.items, |ov.items|);
    }
  }

  /** A template with no keys (null, a boolean, a number, "", [] or {}) gives {} whatever the data. */
  lemma ReplayKeylessTemplate(template: Json, obj: Json)
    requires Len(template) == 0
    ensures Replay(template, obj) == Ok(Obj([]))
  {
  }

  /** A template with a key over data that is neither an object nor an array throws: `key in obj` is a TypeError. */
  lemma ReplayThrowsOnPrimitive(template: Json, obj: Json)
    requires Len(template) > 0 && !obj.Obj? && !obj.Arr?
    ensures Replay(template, obj) == TypeError
  {
    assert ReplayUpTo(template, obj, 1) == TypeError;
    ReplayUpToThrowPersists(template, obj, 1, Len(template));
  }

  /* ---------- when a replay succeeds ---------- */

  /**
    The data has the shape the template expects wherever `key in obj` runs:
    if the template has keys, the data is an object or an array, and every
    shared key conforms.
   */
  predicate Conforms(template: Json, obj: Json)
    decreases template, 1
  {
    Len(template) == 0 ||
    ((obj.Obj? || obj.Arr?) && forall i: nat :: i < Len(template) ==> KeyConforms(template, obj, i))
  }

  /**
    The template's i-th key, when obj has it, leads to conforming data: every
    element of a data array conforms to the template array's element 0, and the
    value under a template object or null conforms to it.
   */
  predicate KeyConforms(template: Json, obj: Json, i: nat)
    requires i < Len(template)
    decreases template, 0
  {
    var key := KeyAt(template, i);
    IsProperty(obj, key) ==>
      var tv, ov := Member(template, i), Get(obj, key);
      if tv.Arr? && ov.Arr? then
        tv.items == [] || forall j :: 0 <= j < |ov.items| ==> Conforms(tv.items[0], ov.items[j])
      else if IsTypeofObject(tv) && !tv.Arr? then Conforms(tv, ov)
      else true
  }

  /** The template's first n keys all conform, counted one key at a time. */
  predicate PrefixConforms(template: Json, obj: Json, n: nat)
    requires n <= Len(template)
  {
    n == 0 || (PrefixConforms(template, obj, n - 1) && KeyConforms(template, obj, n - 1))
  }

  lemma {:induction false} PrefixConformsAll(template: Json, obj: Json, n: nat)
    requires n <= Len(template)
    ensures PrefixConforms(template, obj, n) ==> forall i: nat :: i < n ==> KeyConforms(template, obj, i)
    ensures (forall i: nat :: i < n ==> KeyConforms(template, obj, i)) ==> PrefixConforms(template, obj, n)
  {
    if n > 0 {
      PrefixConformsAll(template, obj, n - 1);
      if PrefixConforms(template, obj, n) {
        forall i: nat | i < n ensures KeyConforms(template, obj, i) {
          if i < n - 1 {
            assert PrefixConforms(template, obj, n - 1);
          }
        }
      }
    }
  }

  /** `updateObject` throws exactly when the data does not conform to the template. */
  lemma {:induction false} ReplayOkIffConforms(template: Json, obj: Json)
    ensures Replay(template, obj).Ok? <==> Conforms(template, obj)
    decreases template, 2
  {
    var n := Len(template);
    ReplayUpToOkIff(template, obj, n);
    PrefixConformsAll(template, obj, n);
    assert Replay(template, obj).Ok? == ReplayUpTo(template, obj, n).Ok?;
    if n > 0 && (obj.Obj? || obj.Arr?) {
      if PrefixConforms(template, obj, n) {
        assert forall i: nat :: i < n ==> KeyConforms(template, obj, i);
      }
    }
  }

  /** The first n iterations run without a throw iff obj conforms on the template's first n keys. */
  lemma {:induction false} ReplayUpToOkIff(template: Json, obj: Json, n: nat)
    requires n <= Len(template)
    ensures ReplayUpTo(template, obj, n).Ok? <==> n == 0 || ((obj.Obj? || obj.Arr?) && PrefixConforms(template, obj, n))
    decreases template, 1, n
  {
    if n > 0 {
      ReplayUpToStep(template, obj, n);
      ReplayUpToOkIff(template, obj, n - 1);
      ReplayKeyOkIff(template, obj, n - 1);
    }
  }

  lemma {:induction false} ReplayKeyOkIff(template: Json, obj: Json, i: nat)
    requires i < Len(template)
    ensures ReplayKey(template, obj, i).Ok? <==> (obj.Obj? || obj.Arr?) && KeyConforms(template, obj, i)
    decreases template, 0
  {
    var key := KeyAt(template, i);
    if IsProperty(obj, key) {
      var tv, ov := Member(template, i), Get(obj, key);
      if tv.Arr? && ov.Arr? {
        if tv.items != [] {
          MapReplayOkIff(tv.items[0], ov.items, |ov.items|);
        }
      } else if IsTypeofObject(tv) && !tv.Arr? {
        ReplayOkIffConforms(tv, ov);
      }
    }
  }

  lemma {:induction false} MapReplayOkIff(template: Json, items: seq<Json>, n: nat)
    requires n <= |items|
    ensures MapReplay(template, items, n).Ok? <==> forall j :: 0 <= j < n ==> Conforms(template, items[j])
    decreases template, 3, n
  {
    if n > 0 {
      MapReplayOkIff(template, items, n - 1);
      ReplayOkIffConforms(template, items[n - 1]);
    }
  }

  /** A record missing from the data array, e.g. `[{a:1}, 5]` under template element `{a:0}`, makes the replay throw. */
  lemma MixedArrayThrows()
    ensures Replay(Obj([("r", Arr([Obj([("a", Num(0))])]))]), Obj([("r", Arr([Obj([("a", Num(1))]), Num(5)]))])) == TypeError
  {
    var template, data := Obj([("r", Arr([Obj([("a", Num(0))])]))]), Obj([("r", Arr([Obj([("a", Num(1))]), Num(5)]))]);
    ReplayOkIffConforms(template, data);
    assert KeyAt(template, 0) == "r" && IsProperty(data, "r");
    assert !Conforms(Obj([("a", Num(0))]), Num(5));
    assert !KeyConforms(template, data, 0);
  }

  lemma {:induction false} ReplayUpToCongruent(template: Json, a: Json, b: Json, n: nat)
    requires n <= Len(template)
    requires forall i :: 0 <= i < n ==> ReplayKey(template, a, i) == ReplayKey(template, b, i)
    ensures ReplayUpTo(template, a, n) == ReplayUpTo(template, b, n)
  {
    if n > 0 {
      ReplayUpToCongruent(template, a, b, n - 1);
      assert ReplayKey(template, a, n - 1) == ReplayKey(template, b, n - 1);
    }
  }

  /**
    Replay is a projection: replaying the same template over its own result
    gives that result back, without throwing.
   */
  lemma {:induction false} ReplayIsProjection(template: Json, obj: Json)
    requires ValidJson(template)
    requires Replay(template, obj).Ok?
    ensures Replay(template, Replay(template, obj).value) == Replay(template, obj)
    decreases template
  {
    var r := Replay(template, obj).value;
    var n := Len(template);
    KeysDistinct(template);
    ReplayUpToKeys(template, obj, n);
    ReplayKeys(template, obj);
    forall i | 0 <= i < n ensures ReplayKey(template, r, i) == ReplayKey(template, obj, i) {
      ReplayKeyOnResult(template, obj, i);
    }
    ReplayUpToCongruent(template, r, obj, n);
  }

  lemma {:induction false} ReplayKeyOnResult(template: Json, obj: Json, i: nat)
    requires ValidJson(template)
    requires Replay(template, obj).Ok?
    requires i < Len(template)
    ensures ReplayKey(template, Replay(template, obj).value, i) == ReplayKey(template, obj, i)
    decreases template, 1
  {
    var r := Replay(template, obj).value;
    var key := KeyAt(template, i);
    KeysDistinct(template);
    ReplayKeys(template, obj);
    assert Keys(template)[i] == key;
    assert Keys(r) == FieldKeys(r.fields);
    if IsProperty(obj, key) {
      ReplayUpToAllOk(template, obj, Len(template));
      ReplayUpToLookup(template, obj, Len(template), i);
      ReplayValueOnResult(template, i, Get(obj, key));
    } else {
      assert !IsProperty(r, key);
    }
  }

  /** The value stored for a key, computed again from itself under the same template value, does not change. */
  lemma {:induction false} ReplayValueOnResult(template: Json, i: nat, ov: Json)
    requires ValidJson(template) && i < Len(template)
    requires ReplayValue(template, i, ov).Ok?
    ensures ReplayValue(template, i, ReplayValue(template, i, ov).value) == ReplayValue(template, i, ov)
    decreases template, 0
  {
    var tv, v := Member(template, i), ReplayValue(template, i, ov).value;
    MembersValid(template, i);
    if tv.Arr? && ov.Arr? {
      if tv.items != [] {
        var sub := tv.items[0];
        MapReplaySound(sub, ov.items, |ov.items|);
        forall j | 0 <= j < |v.items| ensures Replay(sub, v.items[j]) == Ok(v.items[j]) {
          ReplayIsProjection(sub, ov.items[j]);
        }
        MapReplayComplete(sub, v.items, v.items);
      } else {
        assert seq(|v.items|, _ => Obj([])) == v.items;
      }
    } else if tv.Obj? || tv.Null? {
      ReplayIsProjection(tv, ov);
    }
  }

  lemma {:induction false} LookupValid(fs: seq<(string, Json)>, k: string)
    requires forall i :: 0 <= i < |fs| ==> ValidJson(fs[i].1)
    requires Lookup(fs, k).Some?
    ensures ValidJson(Lookup(fs, k).value)
  {
    if fs[0].0 != k {
      LookupValid(fs[1..], k);
    }
  }

  lemma {:induction false} LookupDistinct(fs: seq<(string, Json)>, i: nat)
    requires i < |fs| && Distinct(FieldKeys(fs))
    ensures Lookup(fs, fs[i].0) == Some(fs[i].1)
  {
    if i > 0 {
      assert FieldKeys(fs[1..]) == FieldKeys(fs)[1..];
      assert fs[0].0 != fs[i].0 by { assert FieldKeys(fs)[0] != FieldKeys(fs)[i]; }
      LookupDistinct(fs[1..], i - 1);
    }
  }

  lemma GetValid(obj: Json, k: string)
    requires ValidJson(obj) && IsProperty(obj, k)
    ensures ValidJson(Get(obj, k))
  {
    if obj.Obj? {
      forall i | 0 <= i < |obj.fields| ensures ValidJson(obj.fields[i].1) {
        assert Member(obj, i) == obj.fields[i].1;
      }
      LookupValid(obj.fields, k);
    }
  }

  /** Replaying a valid template over valid data gives valid JSON: no repeated key at any depth. */
  lemma {:induction false} ReplayPreservesValidJson(template: Json, obj: Json)
    requires ValidJson(template) && ValidJson(obj)
    requires Replay(template, obj).Ok?
    ensures ValidJson(Replay(template, obj).value)
    decreases template
  {
    var r := Replay(template, obj).value;
    KeysDistinct(template);
    ReplayKeys(template, obj);
    assert Keys(r) == FieldKeys(r.fields);
    forall i | 0 <= i < |r.fields| ensures ValidJson(Member(r, i)) {
      var k := r.fields[i].0;
      assert Keys(r)[i] == k;
      assert k in Keys(template) && IsProperty(obj, k);
      var m :| 0 <= m < Len(template) && Keys(template)[m] == k;
      ReplayValueAt(template, obj, m);
      LookupDistinct(r.fields, i);
      GetValid(obj, k);
      MembersValid(template, m);
      var tv, ov := Member(template, m), Get(obj, k);
      if tv.Arr? && ov.Arr? {
        if tv.items != [] {
          forall j | 0 <= j < |ov.items| ensures ValidJson(Replay(tv.items[0], ov.items[j]).value) {
            ReplayPreservesValidJson(tv.items[0], ov.items[j]);
          }
        }
      } else if tv.Obj? || tv.Null? {
        ReplayPreservesValidJson(tv, ov);
      }
    }
  }

  /** A template array of objects is mapped over every data element, dropping keys the template lacks. */
  lemma ReplayArrayOfObjectsExample()
    ensures
      var template := Obj([("items", Arr([Obj([("id", Num(0))])]))]);
      var data := Obj([("items", Arr([Obj([("id", Num(5)), ("extra", Str("x"))]), Obj([("id", Num(6))])]))]);
      Replay(template, data) == Ok(Obj([("items", Arr([Obj([("id", Num(5))]), Obj([("id", Num(6))])]))]))
  {
    var sub := Obj([("id", Num(0))]);
    var e1, e2 := Obj([("id", Num(5)), ("extra", Str("x"))]), Obj([("id", Num(6))]);
    assert Lookup(e1.fields, "id") == Some(Num(5)) && Lookup(e2.fields, "id") == Some(Num(6));
    assert KeyAt(sub, 0) == "id" && ReplayUpTo(sub, e1, 0) == Ok([]) && ReplayUpTo(sub, e2, 0) == Ok([]);
    assert ReplayKey(sub, e1, 0) == Ok(Some(Num(5)));
    var up1 := ReplayUpTo(sub, e1, 1);
    assert up1.Ok? && up1.value == [("id", Num(5))];
    assert ReplayKey(sub, e2, 0) == Ok(Some(Num(6)));
    var up2 := ReplayUpTo(sub, e2, 1);
    assert up2.Ok? && up2.value == [("id", Num(6))];
    var rs := [Obj([("id", Num(5))]), Obj([("id", Num(6))])];
    MapReplayComplete(sub, [e1, e2], rs);
    var template := Obj([("items", Arr([sub]))]);
    var data := Obj([("items", Arr([e1, e2]))]);
    assert KeyAt(template, 0) == "items" && ReplayUpTo(template, data, 0) == Ok([]);
    assert ReplayKey(template, data, 0) == Ok(Some(Arr(rs)));
    var up := ReplayUpTo(template, data, 1);
    assert up.Ok? && up.value == [("items", Arr(rs))];
  }

  /** An array of numbers under a templated key becomes an array of {}: the number template enumerates nothing. */
  lemma ReplayArrayOfNumbersExample()
    ensures Replay(Obj([("n", Arr([Num(1)]))]), Obj([("n", Arr([Num(1), Num(2)]))]))
              == Ok(Obj([("n", Arr([Obj([]), Obj([])]))]))
  {
    MapReplayComplete(Num(1), [Num(1), Num(2)], [Obj([]), Obj([])]);
    var template, data := Obj([("n", Arr([Num(1)]))]), Obj([("n", Arr([Num(1), Num(2)]))]);
    assert KeyAt(template, 0) == "n" && ReplayUpTo(template, data, 0) == Ok([]);
    assert ReplayKey(template, data, 0) == Ok(Some(Arr([Obj([]), Obj([])])));
    var up := ReplayUpTo(template, data, 1);
    assert up.Ok? && up.value == [("n", Arr([Obj([]), Obj([])]))];
  }

  /** An array of non-empty strings under a templated key throws: the string template enumerates "0", and `"0" in "a"` is a TypeError. */
  lemma ReplayArrayOfStringsExample()
    ensures Replay(Obj([("tags", Arr([Str("x")]))]), Obj([("tags", Arr([Str("a")]))])) == TypeError
  {
    ReplayThrowsOnPrimitive(Str("x"), Str("a"));
    assert MapReplay(Str("x"), [Str("a")], 1) == TypeError;
  }
}
