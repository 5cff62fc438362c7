/**
  The two-step schema-builder screen: step 1 edits the template derived from the
  shared source JSON and replays it over that source; step 2 edits the result
  and stores it as the shared target JSON.
 */
module Workflow {
  import opened JsValues
  import opened Normalizer
  import opened Replayer

  /**
    The value "Update Source JSON" computes: an array source is replayed element
    by element, anything else once.
   */
  function ReplaySource(template: Json, source: Json): (r: Result<Json>)
    ensures r.Ok? && source.Arr? ==> r.value.Arr? && |r.value.items| == |source.items|
    ensures r.Ok? && !source.Arr? ==> r.value.Obj?
  {
    if source.Arr? then
      match MapReplay(template, source.items, |source.items|)
      case Ok(rs) =>
        MapReplaySound(template, source.items, |source.items|);
        Ok(Arr(rs))
      case TypeError => TypeError
    else Replay(template, source)
  }

  /** Element i of a replayed array source is the replay of element i; the whole call throws iff one element does. */
  lemma ReplaySourceOfArray(template: Json, items: seq<Json>)
    ensures ReplaySource(template, Arr(items)).Ok? <==> forall i :: 0 <= i < |items| ==> Replay(template, items[i]).Ok?
    ensures ReplaySource(template, Arr(items)).Ok? ==>
              forall i :: 0 <= i < |items| ==> Replay(template, items[i]) == Ok(ReplaySource(template, Arr(items)).value.items[i])
  {
    if ReplaySource(template, Arr(items)).Ok? {
      MapReplaySound(template, items, |items|);
    } else if forall i :: 0 <= i < |items| ==> Replay(template, items[i]).Ok? {
      var rs := seq(|items|, i requires 0 <= i < |items| => Replay(template, items[i]).value);
      MapReplayComplete(template, items, rs);
    }
  }

  /** A template without keys never throws, and gives {} or, for an array source, one {} per element. */
  lemma ReplaySourceKeylessTemplate(template: Json, source: Json)
    requires Len(template) == 0
    ensures ReplaySource(template, source) ==
              Ok(if source.Arr? then Arr(seq(|source.items|, _ => Obj([]))) else Obj([]))
  {
    if source.Arr? {
      var empties := seq(|source.items|, _ => Obj([]));
      forall i | 0 <= i < |empties| ensures Replay(template, source.items[i]) == Ok(empties[i]) {
        ReplayKeylessTemplate(template, source.items[i]);
      }
      MapReplayComplete(template, source.items, empties);
      assert MapReplay(template, source.items, |source.items|) == Ok(empties);
    } else {
      ReplayKeylessTemplate(template, source);
    }
  }

  /** Updating the source a second time with the same template would change nothing. */
  lemma ReplaySourceIsProjection(template: Json, source: Json)
    requires ValidJson(template)
    requires ReplaySource(template, source).Ok?
    ensures ReplaySource(template, ReplaySource(template, source).value) == ReplaySource(template, source)
  {
    var u := ReplaySource(template, source).value;
    if source.Arr? {
      ReplaySourceOfArray(template, source.items);
      forall i | 0 <= i < |u.items| ensures Replay(template, u.items[i]) == Ok(u.items[i]) {
        ReplayIsProjection(template, source.items[i]);
      }
      MapReplayComplete(template, u.items, u.items);
    } else {
      ReplayIsProjection(template, source);
    }
  }

  lemma ReplaySourcePreservesValidJson(template: Json, source: Json)
    requires ValidJson(template) && ValidJson(source)
    requires ReplaySource(template, source).Ok?
    ensures ValidJson(ReplaySource(template, source).value)
  {
    if source.Arr? {
      ReplaySourceOfArray(template, source.items);
      forall i | 0 <= i < |source.items| ensures ValidJson(ReplaySource(template, source).value.items[i]) {
        ReplayPreservesValidJson(template, source.items[i]);
      }
    } else {
      ReplayPreservesValidJson(template, source);
    }
  }

  /**
    After "Update Source JSON" on a non-empty array source, the template derived
    for step 2 is `extractZeroIndexObject` of the first replayed element only.
   */
  lemma StepTwoTemplateOfArraySource(template: Json, items: seq<Json>)
    requires |items| > 0
    requires ReplaySource(template, Arr(items)).Ok?
    ensures var u := ReplaySource(template, Arr(items)).value;
      Normalize(u) == ZeroIndexed(u.items[0])
  {
    ReplaySourceOfArray(template, items);
  }

  /** A template of one scalar key keeps only that key of every record. */
  lemma ReplaySourceExample()
    ensures
      var b1 := Arr([Obj([("x", Num(1))]), Obj([("x", Num(2))])]);
      var b2 := Arr([Obj([("x", Num(3))])]);
      var source := Arr([Obj([("a", Num(1)), ("b", b1)]), Obj([("a", Num(2)), ("b", b2)])]);
      ReplaySource(Obj([("a", Num(1))]), source) == Ok(Arr([Obj([("a", Num(1))]), Obj([("a", Num(2))])]))
  {
    var b1 := Arr([Obj([("x", Num(1))]), Obj([("x", Num(2))])]);
    var b2 := Arr([Obj([("x", Num(3))])]);
    var r1, r2 := Obj([("a", Num(1)), ("b", b1)]), Obj([("a", Num(2)), ("b", b2)]);
    var template := Obj([("a", Num(1))]);
    assert KeyAt(template, 0) == "a";
    assert ReplayUpTo(template, r1, 0) == Ok([]) && ReplayUpTo(template, r2, 0) == Ok([]);
    assert ReplayKey(template, r1, 0) == Ok(Some(Num(1)));
    assert ReplayKey(template, r2, 0) == Ok(Some(Num(2)));
    var up1, up2 := ReplayUpTo(template, r1, 1), ReplayUpTo(template, r2, 1);
    assert up1.Ok? && up1.value == [("a", Num(1))];
    assert up2.Ok? && up2.value == [("a", Num(2))];
    MapReplayComplete(template, [r1, r2], [Obj([("a", Num(1))]), Obj([("a", Num(2))])]);
  }

  /**
    On an array-of-arrays source the derived template is itself an array, which
    is replayed as a whole over each inner array: its index keys pick inner
    elements, whose own keys the template's index-keyed objects do not have, so
    "Update Source JSON" with the untouched template empties every record.
   */
  lemma ArrayOfArraysSourceWiped()
    ensures
      var source := Arr([Arr([Obj([("a", Num(1))])])]);
      Normalize(source) == Arr([Obj([("0", Obj([("a", Num(1))]))])]) &&
      ReplaySource(Normalize(source), source) == Ok(Arr([Obj([("0", Obj([]))])]))
  {
    var rec := Obj([("a", Num(1))]);
    var inner := Arr([rec]);
    assert IndexKey(0) == "0";
    var z := ZeroIndexed(inner);
    assert z.fields[0] == ("0", rec);
    assert z == Obj([("0", rec)]);
    var template := Normalize(Arr([inner]));
    assert template.items[0] == z;
    assert template == Arr([z]);
    // the template's only key "0" holds z; the data's "0" holds rec
    ParseIndexKey(0);
    assert KeyAt(template, 0) == "0" && Member(template, 0) == z;
    assert IsProperty(inner, "0") && Get(inner, "0") == rec;
    // z's only key "0" is not a key of rec
    assert KeyAt(z, 0) == "0" && !IsProperty(rec, "0");
    assert ReplayUpTo(z, rec, 0) == Ok([]);
    assert ReplayKey(z, rec, 0) == Ok(None);
    assert ReplayUpTo(z, rec, 1) == Ok([]);
    assert Replay(z, rec) == Ok(Obj([]));
    assert ReplayValue(template, 0, rec) == Ok(Obj([]));
    assert ReplayUpTo(template, inner, 0) == Ok([]);
    assert ReplayKey(template, inner, 0) == Ok(Some(Obj([])));
    var up := ReplayUpTo(template, inner, 1);
    assert up.Ok? && up.value == [("0", Obj([]))];
    MapReplayComplete(template, [inner], [Obj([("0", Obj([]))])]);
  }

  datatype Button = UpdateSourceJson | SetTargetJson

  /** What the screen shows: whether the JSON editor is rendered, and which button. */
  datatype View = View(showsEditor: bool, button: Button)

  /**
    The screen's state: the shared source and target JSON, the editor's value and
    the current step. `mounted` turns false when "Set Target JSON" navigates away.
   */
  class SchemaBuilder {
    var sourceJson: Json
    var targetJson: Json
    var editorValue: Json
    var currentStep: int
    var mounted: bool

    ghost predicate Valid()
      reads this
    {
      && (currentStep == 1 || currentStep == 2)
      && ValidJson(sourceJson) && ValidJson(targetJson) && ValidJson(editorValue)
    }

    /** Mounting the screen: step 1, and the effect derives the editor value from the source. */
    constructor (source: Json, target: Json)
      requires ValidJson(source) && ValidJson(target)
      ensures Valid() && mounted && currentStep == 1
      ensures sourceJson == source && targetJson == target && editorValue == Normalize(source)
    {
      sourceJson := source;
      targetJson := target;
      currentStep := 1;
      mounted := true;
      editorValue := Normalize(source);
      NormalizePreservesValidJson(source);
    }

    /**
      Step 1 shows the editor only when `Object.keys(editorValue)` is non-empty
      (and fails to render when the editor value is null), but always offers
      "Update Source JSON"; step 2 always shows the editor and "Set Target JSON".
     */
    function Render(): (v: Result<View>)
      reads this
      requires Valid()
      ensures currentStep == 1 ==> (v.TypeError? <==> editorValue.Null?)
      ensures currentStep == 1 && v.Ok? ==>
                v.value.button == UpdateSourceJson && (v.value.showsEditor <==> Len(editorValue) > 0)
      ensures currentStep == 2 ==> v == Ok(View(true, SetTargetJson))
    {
      if currentStep == 1 then
        match ObjectKeys(editorValue)
        case TypeError => TypeError
        case Ok(keys) => Ok(View(|keys| > 0, UpdateSourceJson))
      else Ok(View(true, SetTargetJson))
    }

    /** The editor reports an edited value, which is stored as it is. */
    method HandleEditorChange(newValue: Json)
      requires Valid() && mounted && Render().Ok? && Render().value.showsEditor
      requires ValidJson(newValue)
      modifies this`editorValue
      ensures Valid() && editorValue == newValue
    {
      editorValue := newValue;
    }

    /**
      "Update Source JSON": replay the editor value over the source, store the
      result as the source, and move to step 2; the effect keyed on the source
      then derives the editor value from the new source. When the replay throws,
      the handler stops before any state is set.
     */
    method ApplyDeletionsToSourceJson() returns (applied: bool)
      requires Valid() && mounted && Render().Ok? && Render().value.button == UpdateSourceJson
      modifies this`sourceJson, this`currentStep, this`editorValue
      ensures Valid() && currentStep >= old(currentStep)
      ensures applied <==> ReplaySource(old(editorValue), old(sourceJson)).Ok?
      ensures applied ==>
                && sourceJson == ReplaySource(old(editorValue), old(sourceJson)).value
                && currentStep == 2
                && editorValue == Normalize(sourceJson)
      ensures !applied ==>
                sourceJson == old(sourceJson) && currentStep == old(currentStep) && editorValue == old(editorValue)
    {
      var template := editorValue;
      var updated: Result<Json>;
      if sourceJson.Arr? {
        var mapped := MapUpdateObject(template, sourceJson.items);
        updated := if mapped.Ok? then Ok(Arr(mapped.value)) else TypeError;
      } else {
        updated := UpdateObject(template, sourceJson);
      }
      if updated.TypeError? {
        return false;
      }
      ReplaySourcePreservesValidJson(template, sourceJson);
      sourceJson := updated.value;
      currentStep := 2;
      editorValue := Normalize(sourceJson);
      NormalizePreservesValidJson(sourceJson);
      applied := true;
    }

    /** "Set Target JSON": the editor value becomes the target, and the screen navigates away. */
    method HandleTargetButtonClick()
      requires Valid() && mounted && Render().Ok? && Render().value.button == SetTargetJson
      modifies this`targetJson, this`mounted
      ensures Valid() && targetJson == editorValue && !mounted
    {
      targetJson := editorValue;
      mounted := false;
    }
  }
}
