# Schema builder JSON projection, modelled in Dafny

This project models the schema-builder screen of a JSON mapping UI. The user
loads a sample source JSON document. The screen derives an editable template
from it. Each array held directly under a top-level key whose first element is
an object, an array or null is cut down to that first element.
The user deletes keys from the template in a tree editor. "Update Source JSON"
then replays the edited template over the source. The replay keeps only the
keys the template still has, and the result replaces the source (step 1 → step 2).
"Set Target JSON" copies the editor value into the shared target JSON.

Modules:

- `JsValues` (`js_values.dfy`): the JSON value type and the JavaScript object
  semantics the transforms depend on:
  - the own enumerable keys that `for…in`, object spread and `Object.keys` see
    (index keys `"0"`, `"1"`, … for arrays and strings; none for booleans and
    numbers; none for null under `for…in` and spread, while `Object.keys(null)`
    throws a TypeError);
  - `key in value`, which throws a TypeError unless the value is an object or an array;
  - `value[key]`, including an array's `"length"`;
  - decimal index keys with both parse/print round trips proved.
- `Normalizer` (`normalizer.dfy`): `extractZeroIndexObject` (the function
  `ZeroIndexed`, and the source's loop as the method `ExtractZeroIndexObject`)
  and `normalizeSourceJson` (`Normalize`).
- `Replayer` (`replayer.dfy`): `updateObject`. The function `Replay` is the
  specification. The methods `UpdateObject`, `UpdateKey` and `MapUpdateObject`
  are the source's `for…in` loop, its body and the nested `map`; `ReplayValue`
  is the three-way branch that computes a present key's value. A thrown TypeError is a
  `Result` value, not a precondition. The predicate `Conforms` says, independently
  of `Replay`, which data a template replays over without a throw. Templates and data are immutable Dafny
  values, so neither input of a replay can be modified.
- `Workflow` (`workflow.dfy`): the two-step screen as the class `SchemaBuilder`.
  It holds the shared source and target, the editor value, the step, and
  whether the screen is still mounted.

Behaviour worth noting:

- An array of arrays normalizes to one index-keyed object per inner array:
  `[[{a:1},{a:2}],[{a:3}]]` gives `[{"0":{a:1},"1":{a:2}},{"0":{a:3}}]`.
  It does not give the inner arrays' first elements (`NormalizeArrayOfArrays`).
- `Normalize` is idempotent except on an array whose first element is an array
  (`NormalizeIdempotent`; `NormalizeNestedArraysNotIdempotent` for every such
  array, `NormalizeNestedArraysExample` for `[[]]`).
- An empty template array is well defined. `template[key][0]` is `undefined`,
  and replaying `undefined` gives `{}` for every data element.
- After step 1 the editor shows `Normalize` of the replayed source: the effect
  keyed on the source re-derives it. For an array source that is
  `extractZeroIndexObject` of the first replayed element only
  (`StepTwoTemplateOfArraySource`).
- A replay succeeds exactly when the data conforms to the template
  (`ReplayOkIffConforms`): wherever the template has keys, the data is an object
  or an array, and this holds again under every shared key, for every element of
  a data array under a template array. So "Update Source JSON" throws on a mixed
  array such as `[{a:1}, 5]` under a template element `{a:…}` (`MixedArrayThrows`).
- On an array-of-arrays source, "Update Source JSON" with the untouched template
  empties the records: the derived template is an array of index-keyed objects,
  and it is replayed whole over each inner array, so `[[{a:1}]]` becomes
  `[{"0":{}}]` (`ArrayOfArraysSourceWiped`).
- Under a template key holding an array, every data element is mapped through
  `updateObject` with the template array's element 0 as its template, whatever
  that element is. The template element decides the outcome, not the data:
  - a number, boolean, null or `""` template element enumerates no keys, so
    every data element becomes `{}` (`ReplayKeylessTemplate`; for example
    `{n:[1]}` over `{n:[1,2]}` gives `{n:[{},{}]}`, `ReplayArrayOfNumbersExample`);
  - a non-empty string template element enumerates `"0"`, so `"0" in item`
    throws on the first data element that is neither an object nor an array
    (`ReplayThrowsOnPrimitive`; for example `{tags:["x"]}` over `{tags:["a"]}`,
    `ReplayArrayOfStringsExample`).

## Model

| member | source | states |
|---|---|---|
| JsValues.IndexKey | src/components/SchemaBuilder.jsx:16-17 | the key of array element n is a non-empty digit string, starting with '0' only for n = 0 |
| JsValues.ParseIndexKey | src/components/SchemaBuilder.jsx:58 | parsing the key of element n gives back n |
| JsValues.IndexKeyOfParse | src/components/SchemaBuilder.jsx:58 | a key that parses to n is exactly the canonical key of n, so "01" or "1.0" is no array index |
| JsValues.IndexKeyInjective | src/components/SchemaBuilder.jsx:16 | distinct elements get distinct keys when an array is spread |
| JsValues.HasProperty | src/components/SchemaBuilder.jsx:58 | `key in obj` throws exactly when obj is neither an object nor an array |
| JsValues.ArrayIndexProperty | src/components/SchemaBuilder.jsx:58-59 | element i of a data array is a property under key i, and reading it gives element i |
| JsValues.KeysDistinct | src/components/SchemaBuilder.jsx:17 | the keys a `for…in` loop visits never repeat |
| Normalizer.ZeroIndexed | src/components/SchemaBuilder.jsx:15-26 | the result is an object with exactly the input's keys in the same order; a value is replaced by `[v[0]]` iff it is a non-empty array whose element 0 is an object, array or null, and is unchanged otherwise |
| Normalizer.ExtractZeroIndexObject | src/components/SchemaBuilder.jsx:15-26 | the copy-then-overwrite loop returns exactly `ZeroIndexed` of its input |
| Normalizer.ZeroIndexedReplacesOnlyCollapsible | src/components/SchemaBuilder.jsx:18-22 | a value that changes was collapsible and became a one-element array holding its own element 0 |
| Normalizer.ZeroIndexedIdempotent | src/components/SchemaBuilder.jsx:15-26 | applying `extractZeroIndexObject` to its own result changes nothing |
| Normalizer.ZeroIndexedPreservesValidJson | src/components/SchemaBuilder.jsx:15-26 | valid JSON in gives valid JSON out, with no repeated key |
| Normalizer.Normalize | src/components/SchemaBuilder.jsx:29-44 | the result is always an object, except for an array of arrays. That case gives an array of the same length whose entry i is `ZeroIndexed` of entry i, so the emptiness test never changes an entry |
| Normalizer.NormalizeCases | src/components/SchemaBuilder.jsx:37-43 | {} for null, scalars and []; `ZeroIndexed(json)` for an object; `ZeroIndexed(json[0])` for a non-empty array whose first element is not an array |
| Normalizer.NormalizeIdempotent | src/components/SchemaBuilder.jsx:29-44 | normalizing a derived template again changes nothing, unless the source was an array of arrays |
| Normalizer.NormalizeNestedArraysNotIdempotent | src/components/SchemaBuilder.jsx:31-38 | every array whose first element is an array normalizes to an array, which normalizes again to an object, so it is never a fixed point |
| Normalizer.NormalizeNestedArraysExample | src/components/SchemaBuilder.jsx:31-36 | `[[]]` normalizes to `[{}]`, which normalizes to `{}` |
| Normalizer.NormalizeArrayOfRecords | src/components/SchemaBuilder.jsx:38 | example: `[{a:1,b:[{x:1},{x:2}]},{a:2,b:[{x:3}]}]` gives its first record with `b` cut to `[{x:1}]` |
| Normalizer.NormalizeArrayOfArrays | src/components/SchemaBuilder.jsx:31-36 | example: `[[{a:1},{a:2}],[{a:3}]]` gives `[{"0":{a:1},"1":{a:2}},{"0":{a:3}}]`, one index-keyed object per inner array |
| Normalizer.NormalizePreservesValidJson | src/components/SchemaBuilder.jsx:29-44 | the derived template of valid JSON is valid JSON |
| Replayer.Replay | src/components/SchemaBuilder.jsx:55-72 | a replay that does not throw returns an object |
| Replayer.ReplayKey | src/components/SchemaBuilder.jsx:57-69 | an iteration throws when `key in obj` throws; when it does not throw, it stores a value exactly when the key is a property of obj |
| Replayer.UpdateObject | src/components/SchemaBuilder.jsx:55-72 | the loop returns exactly `Replay(template, obj)`, throwing exactly when it does |
| Replayer.UpdateKey | src/components/SchemaBuilder.jsx:58-69 | one loop iteration stores exactly what `ReplayKey` says, throwing exactly when it does |
| Replayer.MapUpdateObject | src/components/SchemaBuilder.jsx:61-63 | the `map` loop returns exactly the replay of every element, or throws when one of them does |
| Replayer.ReplayUpToThrowPersists | src/components/SchemaBuilder.jsx:57-58 | once an iteration throws, the whole call throws |
| Replayer.MapReplayThrowPersists | src/components/SchemaBuilder.jsx:61-63 | once an element's replay throws, the whole `map` throws |
| Replayer.MapReplaySound | src/components/SchemaBuilder.jsx:61-63 | a successful `map` has one result per element, and result j is element j's replay |
| Replayer.MapReplayComplete | src/components/SchemaBuilder.jsx:61-63 | when every element replays, `map` succeeds with exactly those results |
| Replayer.ReplayKeys | src/components/SchemaBuilder.jsx:56-58 | the result's keys are exactly the template's keys that obj has, in template order; they are distinct when the template's are |
| Replayer.ReplayValueAt | src/components/SchemaBuilder.jsx:59-68 | the value under a kept key has three cases. Template array over data array: same length as the data array, element j is the replay of `template[k][0]` over data element j, or {} when the template array is empty. Object or null template: the nested replay. Otherwise: the data value itself |
| Replayer.ReplayKeylessTemplate | src/components/SchemaBuilder.jsx:57 | a template with no keys (null, a boolean, a number, "", [] or {}) gives {} for any data and never throws |
| Replayer.ReplayThrowsOnPrimitive | src/components/SchemaBuilder.jsx:58 | a template with a key over data that is not an object or array throws |
| Replayer.ReplayOkIffConforms | src/components/SchemaBuilder.jsx:55-72 | `updateObject` returns without throwing if and only if the data conforms to the template: an object or array wherever the template has keys, recursively under every shared object/null template value and for every element under a non-empty template array |
| Replayer.ReplayUpToOkIff | src/components/SchemaBuilder.jsx:57-69 | the first n iterations of the loop run without throwing iff the data is an object or array (when n > 0) and conforms on the template's first n keys |
| Replayer.ReplayKeyOkIff | src/components/SchemaBuilder.jsx:58-68 | one iteration does not throw iff the data is an object or array and conforms under that key |
| Replayer.MapReplayOkIff | src/components/SchemaBuilder.jsx:61-63 | the nested `map` does not throw iff every data element conforms to the template's element 0 |
| Replayer.MixedArrayThrows | src/components/SchemaBuilder.jsx:58-63 | example: `{r:[{a:0}]}` over `{r:[{a:1}, 5]}` throws, because 5 does not conform to `{a:0}` |
| Replayer.ReplayIsProjection | src/components/SchemaBuilder.jsx:55-72 | replaying a valid template over its own result gives that result back |
| Replayer.ReplayPreservesValidJson | src/components/SchemaBuilder.jsx:55-72 | valid template and data give a valid result |
| Replayer.ReplayArrayOfObjectsExample | src/components/SchemaBuilder.jsx:59-63 | `{items:[{id:0}]}` over `{items:[{id:5,extra:"x"},{id:6}]}` gives `{items:[{id:5},{id:6}]}` |
| Replayer.ReplayArrayOfNumbersExample | src/components/SchemaBuilder.jsx:59-63 | `{n:[1]}` over `{n:[1,2]}` gives `{n:[{},{}]}` |
| Replayer.ReplayArrayOfStringsExample | src/components/SchemaBuilder.jsx:58-63 | `{tags:["x"]}` over `{tags:["a"]}` throws a TypeError |
| Workflow.ReplaySource | src/components/SchemaBuilder.jsx:75-78 | an array source gives an array of the same length; any other source gives an object |
| Workflow.ReplaySourceOfArray | src/components/SchemaBuilder.jsx:76-77 | an array source replays without throwing iff every element does, and element i of the result is the replay of element i |
| Workflow.ReplaySourceKeylessTemplate | src/components/SchemaBuilder.jsx:74-78 | an empty template never throws and gives {} or an array of {} of the source's length |
| Workflow.ReplaySourceIsProjection | src/components/SchemaBuilder.jsx:74-78 | updating the source again with the same template would leave it unchanged |
| Workflow.ReplaySourcePreservesValidJson | src/components/SchemaBuilder.jsx:74-80 | the new source is valid JSON when the template and old source are |
| Workflow.StepTwoTemplateOfArraySource | src/components/SchemaBuilder.jsx:30-38 | after an array source is updated, the step-2 editor value is `ZeroIndexed` of the first replayed element |
| Workflow.ArrayOfArraysSourceWiped | src/components/SchemaBuilder.jsx:74-79 | example: on source `[[{a:1}]]` the derived template is `[{"0":{a:1}}]`, and replaying it gives `[{"0":{}}]` |
| Workflow.ReplaySourceExample | src/components/SchemaBuilder.jsx:76-77 | template `{a:1}` over `[{a:1,b:[…]},{a:2,b:[…]}]` gives `[{a:1},{a:2}]` |
| Workflow.SchemaBuilder.constructor | src/components/SchemaBuilder.jsx:8-48 | mounting starts in step 1 with the editor value derived from the source by `Normalize` |
| Workflow.SchemaBuilder.Render | src/components/SchemaBuilder.jsx:96-134 | step 1 always offers "Update Source JSON", and shows the editor iff the editor value has keys; rendering fails iff the value is null. Step 2 shows the editor and "Set Target JSON" |
| Workflow.SchemaBuilder.HandleEditorChange | src/components/SchemaBuilder.jsx:50-52 | the reported value is stored verbatim and the step does not change |
| Workflow.SchemaBuilder.ApplyDeletionsToSourceJson | src/components/SchemaBuilder.jsx:74-83 | it succeeds iff the replay does not throw. On success the source becomes the replayed source, the step becomes 2 and the editor value becomes `Normalize` of the new source. On a throw nothing changes. The step never decreases |
| Workflow.SchemaBuilder.HandleTargetButtonClick | src/components/SchemaBuilder.jsx:85-89 | only offered in step 2; the target becomes the editor value verbatim and the screen unmounts |

## Left out

- `src/components/Home.jsx` is not part of this model. It holds routing and navigation-button highlighting, with no data logic.
- The JSX markup and the `jsoneditor-react` editor widget are not modelled. A change the editor reports is an arbitrary valid JSON value passed to `HandleEditorChange`.
- `alert` is not modelled. `navigate('/json-mapper')` is modelled only as the screen unmounting (`mounted` becomes false).
- React scheduling is not modelled. The effect keyed on the source runs synchronously, at mount and right after the source is replaced. The `JsonContext` provider is not modelled; the source and target are plain fields.
- A render that throws (a null editor value in step 1) is a `TypeError` result of `Render`. What React does after a render error is not modelled.
- Numbers are unbounded integers. The transforms do no arithmetic, so floating point never matters.
- An object's field sequence is its property-enumeration order. The re-ordering of integer-like keys that JavaScript applies when properties are created is therefore not modelled.
- `key in obj` is modelled as an own-property test, plus an array's `length`. Keys that name inherited members such as `toString` are not modelled. Neither are inherited enumerable properties in `for…in`, nor the special meaning of a `__proto__` key on assignment.
- Strings are sequences of characters. Spreading a string gives one key per character, so UTF-16 surrogate pairs are not modelled.
- Array indices are unbounded. JavaScript's limit of 2^32 - 2 on array indices is not modelled.
