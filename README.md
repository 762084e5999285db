# Martian core, modelled in Dafny

This project models the core of Martian, the JavaScript client library for the
MindTouch API:

- the declarative **model parser** (`lib/modelParser.js`). Its converters
  (`to.boolean`, `to.integer`, `to.json`), `isValid`, `forceArray` and the path
  lookup `getValue` are there, with its `#text` rule. So are the transform
  dispatch `transformValue`, and `parseProperty`/`createParser`, which thread
  one mutable output object through a schema of field descriptors;
- the request builders of **`Site`** (`site.js`): the search constraint string
  of `_buildSearchConstraints`, the constraint selection and query parameters
  of `Site.search`, and the XML body of `_getBatchTagsTemplate`;
- the request-independent logic of **`Page`** (`page.js`): the argument checks
  of `rate`, the parameter merge of `getInfo`, the ID-list decoding of
  `getTreeIds`, and the 404 recovery condition of `_handleVirtualPage`.

Files:

- `wrappers.dfy` holds `Option` and `Result`.
- `js.dfy` (module `Js`) holds JavaScript values and the semantics the code relies on:
  - truthiness;
  - the `in` operator on objects and arrays;
  - property access that throws on `null`/`undefined`;
  - `String(v)` and `toString()`;
  - `parseInt(s, 10)`, with leading white space, a sign and the longest digit run.
- `strings.dfy` (module `Strings`) holds `String.prototype.split` on one character, and `join`.
- `model_parser.dfy`, `site.dfy` and `page.dfy` hold the three core files.

Code that works step by step is modelled as imperative Dafny and proved equal
to a functional specification:

- `parseProperty` writes into the `ParsedObject` class, and `createParser`'s
  `forEach` is the loop of `ModelParser.Parse`.
- The `forEach`/`push` loops of `_buildSearchConstraints` are loops, and so are
  the nested string appends of `_getBatchTagsTemplate`.
- The one-by-one field assignments of `Site.search` are sequential updates.
- The key copy of `getInfo` is a loop.

These collaborators lie outside the core and are parameters of the model:

- `to.date`, `JSON.parse`, `utility.searchEscape`, `utility.escapeHTML`, `encodeURI`;
- `pageModel.parse`;
- function transforms.

Numbers are integers (`Js.Json.Num`), plus `NaN`.

Where the code and its documentation or tests disagree, the model follows the code:

- `isValid('')` and `isValid(NaN)` are false. Only `0`, `false` and truthy values are valid (lib/modelParser.js:47).
- A transform that is not a string, an array or a function is ignored. The value passes through unchanged (lib/modelParser.js:70-81); it does not throw.
- A descriptor without `field` does not throw. GetValue then shifts out `undefined`, and `in` reads that as the key `"undefined"`. The output key is also `"undefined"` (lib/modelParser.js:59-60, 98).
- A duplicate output name is only detected when the first descriptor actually wrote its value (lib/modelParser.js:99-104).
- The tests call `to.number`, including on `'3.6'`. The code has only `to.integer`, which rejects `'3.6'`; the model uses `to.integer`.
- `to.integer('NaN')` returns `NaN`, because `String(parseInt('NaN'))` is `'NaN'`.
- A schema given as `{preProcessor, model}` is not supported: the code calls `model.forEach`.
- A string payload always goes through `JSON.parse`, so the empty string goes there too.

## Model

| member | source | states |
|---|---|---|
| ModelParser.ToBoolean | lib/modelParser.js:22-24 | `to.boolean` as a function of the value; what it returns is stated by BooleanIff |
| ModelParser.BooleanIff | lib/modelParser.js:22-24 | `to.boolean` always returns a boolean, and it is true exactly for the string "true" |
| ModelParser.ToInteger | lib/modelParser.js:32-38 | `to.integer`: `parseInt(value, 10)`, rejected with 'Failed converting to integer' unless its rendering is `===` the value; IntegerAccepts states which values pass |
| ModelParser.IntegerAccepts | lib/modelParser.js:32-38 | `to.integer` succeeds exactly on "NaN" and on decimal renderings of integers; the result is the integer rendered, and is NaN exactly for "NaN" |
| ModelParser.IntegerOfCanonical | lib/modelParser.js:32-38 | the canonical rendering of every integer converts back to that integer |
| ModelParser.IntegerAcceptsFive | lib/modelParser.js:32-38 | `to.integer('5')` is 5 |
| ModelParser.IntegerRejectsTrailing | lib/modelParser.js:32-38 | an integer rendering followed by a non-digit is rejected, because `parseInt` stops early and `String` of its result differs |
| ModelParser.IntegerRejectsExamples | lib/__tests__/modelParser.test.js:54-61 | '55-55' and '5 ' fail to convert |
| ModelParser.IntegerRejectsNonStrings | lib/modelParser.js:32-38 | non-strings such as the number 5 or undefined fail, since `String(...)` is never `===` a non-string |
| ModelParser.ToJson | lib/modelParser.js:39-44 | `to.json`: a string goes through the `JSON.parse` parameter; any other value comes back unchanged |
| ModelParser.Convert | lib/modelParser.js:73 | `modelParser.to[transform](value)`: the names boolean, date, integer and json dispatch to their converters; any other name is a TypeError (TransformOtherExamples) |
| ModelParser.IsValid | lib/modelParser.js:46-48 | `isValid` as a predicate on values; ValidIff states which values it accepts |
| ModelParser.ValidIff | lib/modelParser.js:46-48 | a value is valid exactly when it is not undefined, null, '' or NaN |
| ModelParser.ForceArray | lib/modelParser.js:49-54 | the result is always an array |
| ModelParser.ForceArrayCases | lib/modelParser.js:49-54 | invalid values give [], arrays are returned as they are, other valid values are wrapped in a one-element list; forcing is idempotent |
| ModelParser.GetValue | lib/modelParser.js:55-69 | `getValue(obj, ...fields)`: undefined on a non-object or missing key, the '#text' shortcut for a string parent; its laws are GetValueCompose and TextUnwrap |
| ModelParser.GetValueCompose | lib/modelParser.js:55-69 | looking up a path p+q is looking up q inside the value at p, unless q is just '#text' |
| ModelParser.TextUnwrap | lib/modelParser.js:62-66 | a trailing '#text' returns the parent value when that is a string, and otherwise reads '#text' inside it |
| ModelParser.TextNodeEquivalence | lib/modelParser.js:62-66 | a text leaf read with a trailing '#text' gives the same string whether it is serialised as a string or as a `{'#text': …}` node |
| ModelParser.GetValueExamples | lib/__tests__/modelParser.test.js:89-117 | null and missing long paths give undefined; 'a','b' gives 5; both '#text' forms give 'text' |
| ModelParser.TransformValue | lib/modelParser.js:70-81 | `transformValue`: a converter name, a nested schema or a function is applied, anything else passes the value through; stated by TransformOtherExamples, TransformIntegerExample and TransformModelExample |
| ModelParser.PropertyStep | lib/modelParser.js:82-105 | `parseProperty` as a function from the output so far to the output after one descriptor, or its throw; PropertyStepEffect states its effect |
| ModelParser.PropertyStepEffect | lib/modelParser.js:82-105 | a non-object input is a TypeError; an output key that is already present is an error; otherwise the old keys keep their values and only the descriptor's key can be added, exactly when the value is valid |
| ModelParser.PropertyValueTransformRules | lib/modelParser.js:86-97 | for a non-array descriptor, a function transform always runs, even on a missing value; any other transform is skipped for an invalid value |
| ModelParser.MapTransformElements | lib/modelParser.js:92-93 | an array descriptor succeeds exactly when every element transforms, and yields one transformed element per element, in order |
| ModelParser.ParsedObject.constructor | lib/modelParser.js:109 | the output object starts empty |
| ModelParser.ParseProperty | lib/modelParser.js:82-105 | the in-place step leaves exactly the state the functional step computes, or throws what it throws and leaves the output unchanged |
| ModelParser.Parse | lib/modelParser.js:106-113 | the descriptor loop over one shared output object gives the same result as the recursive specification |
| ModelParser.ParseWith | lib/modelParser.js:106-113 | `createParser(model)(data)`: the descriptors applied in order to one empty object; ParseFromKeeps, ParseFromShape and ParseFromSwap state its properties |
| ModelParser.ParseFromKeeps | lib/modelParser.js:106-113 | a parse never changes or removes an existing key, adds only output keys of its descriptors, and adds only valid values |
| ModelParser.ParseFromShape | lib/modelParser.js:82-85 | an empty schema accepts any input unchanged; a non-empty schema rejects a non-object with a TypeError |
| ModelParser.ParseFromSwap | lib/modelParser.js:109-111 | swapping two descriptors with different output keys changes neither whether the parse succeeds nor the output's keys and values (key order aside) |
| ModelParser.StepsCommute | lib/modelParser.js:98-104 | two steps with different output keys give the same outcome, keys and values, in either order |
| ModelParser.DuplicateKey | lib/modelParser.js:98-101 | a repeated output key throws once the first descriptor wrote it, and is let through when the first wrote nothing |
| ModelParser.CreateParserExample | lib/__tests__/modelParser.test.js:147-162 | a nested schema is applied recursively, and a function transform returning undefined drops its key |
| ModelParser.ContextStepExample | lib/__tests__/modelParser.test.js:147-162 | the nested `context` descriptor copies `{foo: 'bar'}` |
| ModelParser.DogStepExample | lib/__tests__/modelParser.test.js:147-162 | the `dog` descriptor whose transform returns undefined writes nothing |
| ModelParser.DuplicateExamples | lib/__tests__/modelParser.test.js:164-184 | duplicate fields throw on `{id: 5}` but not on `{}`; a number input throws |
| ModelParser.MissingFieldExample | lib/__tests__/modelParser.test.js:172-177 | on the test's input `{ok: true, fail: false}`, a descriptor without `field` (which reads and writes the key "undefined") does not throw and writes nothing |
| ModelParser.TransformModelExample | lib/__tests__/modelParser.test.js:127-140 | a nested array schema with a function transform turns `{'@id': 4}` into `{ids: [5]}` |
| ModelParser.AddOneEachExample | lib/__tests__/modelParser.test.js:127-140 | mapping `val + 1` over [4] gives [5] |
| ModelParser.TransformIntegerExample | lib/__tests__/modelParser.test.js:121-125 | the converter name 'integer' turns '5' into 5 |
| ModelParser.TransformOtherExamples | lib/modelParser.js:70-81 | a transform of no known kind passes the value through; an unknown converter name is a TypeError |
| Js.ArrayIndexIff | lib/modelParser.js:60 | a key names an array element exactly when it is the decimal rendering of a natural number |
| Js.Truthy | lib/modelParser.js:47 | `Boolean(v)`: false exactly for undefined, null, false, 0, NaN and ''; objects and arrays are truthy (also the `@virtual` test at page.js:30) |
| Js.HasKey | lib/modelParser.js:60 | `key in obj`: an object's own keys; an array's `length` and its canonical in-range indices (ArrayIndexIff) |
| Js.Get | lib/modelParser.js:63-67 | `obj[key]` for a key that `in` admits: the object's entry, an array's element or its length |
| Js.Prop | page.js:30 | a property read throws exactly on null and undefined, and a missing key reads as undefined |
| Js.ToStringCall | page.js:86-87 | `toString()` throws exactly on null and undefined, and otherwise gives `String(v)` |
| Js.ParseInt | page.js:62 | `parseInt(s, 10)`: leading white space, an optional sign and the longest digit prefix, or NaN when there is none; ParseIntPrefix and ParseIntOfIntToString state it on renderings |
| Js.StringOf | lib/modelParser.js:34 | `String(v)` for the values the core converts; ToStringCall and ParseIntOfIntToString use it |
| Js.ParseIntPrefix | page.js:62 | `parseInt` of an integer's rendering followed by a non-digit gives back the integer |
| Js.ParseIntOfIntToString | lib/modelParser.js:33 | `parseInt(String(n), 10)` is n |
| Strings.Split | site.js:19-21 | `s.split(c)`: the pieces are separator-free and join back to s (SplitPiecesFree, JoinSplit); splitting a join gives back its parts (SplitJoin) |
| Strings.Join | site.js:42 | `parts.join(sep)`; JoinSplit and SplitJoin relate it to Split |
| Strings.SplitPiecesFree | site.js:19-21 | no piece of a split contains the separator |
| Strings.JoinSplit | site.js:19-21 | joining the pieces of a split with the separator gives back the string |
| Strings.SplitJoin | page.js:61 | splitting a join of separator-free, non-empty-list parts gives back the parts |
| Site.Each | site.js:22-24 | one constraint per item, prefix + escaped item + suffix, in item order |
| Site.PushEach | site.js:22-24 | the push loop appends exactly those constraints |
| Site.BuildSearchConstraints | site.js:8-43 | the imperative builder gives exactly the specified constraint string or error |
| Site.SearchConstraint | site.js:8-43 | `_buildSearchConstraints` as a function of the constraint object; SearchConstraintFails and the four constraint-list lemmas below state it |
| Site.SearchConstraintFails | site.js:17-41 | building fails exactly when tags or type is the empty string or namespaces is missing; otherwise the result is wrapped in `+(` … `)` |
| Site.ConstraintCount | site.js:10-41 | there is one constraint per tag, type and namespace, plus one for a path, and the path constraint `+path.ancestor:` with the stripped, escaped path comes first |
| Site.ConstraintTags | site.js:17-25 | right after the path constraint come the tags, the i-th being `+tag:"` + escape(tags[i]) + `"` |
| Site.ConstraintTypes | site.js:26-34 | right after the tags come the types, the i-th being `+type:` + escape(types[i]) |
| Site.ConstraintNamespaces | site.js:35-41 | the list ends with the namespaces, the i-th being `+namespace:` + escape(namespaces[i]) |
| Site.StripOneSlash | site.js:11-14 | exactly one leading slash is removed from the path |
| Site.FilterTextItems | site.js:19-21 | a non-empty comma-separated filter is split into comma-free pieces that join back to it |
| Site.SelectConstraints | site.js:138-148 | the constraint object `search` builds: path unless '' or '/', tags and type unless '', namespaces always; SelectedConstraintsBuild and Search state it |
| Site.SelectedConstraintsBuild | site.js:138-148 | the constraint object `search` selects can always be built |
| Site.Search | site.js:137-159 | the defaults apply (limit 10, offset 0, q '', recommendations true, namespaces 'main'); sortBy is '-date,-rank'; summarypath is the encoded path; the constraint is the one built from the selection, which never fails |
| Site.AppendPages | site.js:50-52 | the inner loop appends one page element per ID, in order, to the tag string |
| Site.AppendBlocks | site.js:47-55 | the nested loops append exactly one block per edit with one page element per ID |
| Site.BatchTagsDocument | site.js:45-70 | `_getBatchTagsTemplate` as a function of the batch; BatchTagsShape and PageElementsOrder state its layout |
| Site.GetBatchTagsTemplate | site.js:45-70 | the document is the header, the `tag.add` blocks, the `tag.remove` blocks and `</tags>` |
| Site.BatchTagsShape | site.js:45-70 | the document starts with the XML declaration and `<tags>` and ends with `</tags>`; between them come the add blocks, then the remove blocks; a missing or empty list adds nothing |
| Site.PageElementsOrder | site.js:50-52 | page elements follow the ID list in order, one per ID |
| Page.Rate | page.js:85-93 | `rate`'s argument checks: both are rendered with `toString()`, and each must be '1', '0' or ''; RateAccepts, RateErrors and RateNumbers state it |
| Page.RateAccepts | page.js:85-95 | a rating is sent exactly when neither argument is null and both render as '1', '0' or ''; the rendered strings are sent |
| Page.RateErrors | page.js:86-93 | null fails in `toString()` first; a bad rating is reported whatever the old rating; the old-rating error comes only after the rating passed |
| Page.RateNumbers | page.js:85-95 | numbers are accepted exactly when 0 or 1; booleans never; omitted arguments send two empty scores |
| Page.GetInfoParams | page.js:40-46 | the copy loop yields the defaults overridden by every caller key |
| Page.InfoParamsMerge | page.js:41-44 | the merged keys are the caller's keys plus `exclude`; caller values win; `exclude` is 'revision' unless given |
| Page.DecodeTreeIds | page.js:60-67 | `getTreeIds`' decoding: split at commas, `parseInt` each piece, throw on NaN; DecodeIdsIff and TreeIdsRoundTrip state it |
| Page.DecodeIdsIff | page.js:60-67 | decoding succeeds exactly when every piece has a leading integer, giving one ID per piece in order; otherwise it fails with 'Unable to parse the tree IDs.' |
| Page.TreeIdsRoundTrip | page.js:60-67 | decoding the comma-join of a non-empty list of rendered IDs gives the IDs back |
| Page.TreeIdsEmpty | page.js:60-67 | an empty response fails to decode |
| Page.TreeIdsLenient | page.js:62 | a piece is read up to its first non-digit, so '7px' decodes to 7 |
| Page.TreeIdsExample | __tests__/page.custom.test.js:19-25 | '123,456' decodes to [123, 456] |
| Page.TreeIdsInvalidExample | __tests__/page.custom.test.js:26-32 | '123,abc' fails to decode |
| Page.HandleVirtualPage | page.js:29-34 | `_handleVirtualPage` with the page parser as a parameter; HandleVirtualPageIff states when it recovers |
| Page.HandleVirtualPageIff | page.js:29-34 | an error whose `errorCode` is the number 404 and whose response object has a truthy `@virtual` is parsed from its response; any other error is rethrown unchanged; null and undefined throw a TypeError |
| Page.VirtualPageRecovers | page.js:29-34 | a 404 whose response object carries a non-empty `@virtual` string, whatever else it holds, is parsed from that response (the case of a string marker; the general condition is HandleVirtualPageIff's) |
| Page.VirtualPageStringCode | page.js:30 | an `errorCode` of the string '404' does not match the number 404, so the error is rethrown |
| Page.VirtualPageEmptyMarker | page.js:30 | an empty `@virtual` string is falsy, so the error is rethrown |

## Left out

- Networking and promises are not part of this model: `Plug`/`ProgressPlug` requests, `.then/.catch` chaining, `Settings`, `logPageView` with `document.location`, and `feedback.js`. The model keeps only the values computed before a request or after a response.
- `to.date` and `JSON.parse` are parameters (`ModelParser.Converters`), because they depend on the host's date and JSON implementations.
- `utility.searchEscape`, `utility.escapeHTML`, `encodeURI` and `pageModel.parse` are parameters, because they are defined outside the core.
- Floating-point numbers are not modelled. Numbers are integers plus NaN. Float renderings such as '3.6' are still rejected by `to.integer`, as in JavaScript.
- ModelParser.IntegerAccepts: a digit string whose value `String()` does not render back exactly is accepted here, though JavaScript throws. This covers values beyond 2^53, which lose precision, and values of 1e21 or more, which render in exponent form.
- Site.Search: `Filter`, `SearchOptions` and the search's "never fails" follow the documented argument types (strings or arrays). A `null` tags or type, which throws from `null.forEach` (site.js:22, :31), or a `null` path, which throws from `null.substr` (site.js:12), is not modelled.
- Js.HasKey: keys inherited from prototypes (such as `toString`) are not modelled in `in` and in `modelParser.to[name]`. An object only has its own keys, and an array its indices and `length`. Strings have no properties in lookups. One consequence can be observed at lib/modelParser.js:99. In JavaScript, `name in parsedObj` is true for inherited keys, so a descriptor whose output key is `constructor`, `toString` or `hasOwnProperty` throws 'Duplicate "…" in parsing model' even on its first write. Here `PropertyStep` writes it.
- ModelParser.ForceArrayCases: only equality of values is stated. That `forceArray` returns the same array reference is not modelled.
- `parseInt` and `String` are modelled on strings and on the JSON-like values above. Objects with custom `toString`/`valueOf` methods that throw are not modelled.
- Site.TagEdit: `pageids` are taken as already rendered strings. A missing `pageids` (which would throw) is not modelled.
- Page.GetInfoParams: the order of keys in the resulting object is not modelled, because maps are unordered. A `null` `params`, which makes `Object.keys` throw, is not modelled either.
- ModelParser.ParseFromSwap: the output is a map, so the insertion order of `parsedObj`'s keys (lib/modelParser.js:103) is not modelled. Swapping two descriptors does change that order in JavaScript; the lemma states only that keys, values and success are unchanged.
- ModelParser.StepsCommute: the same holds here. Two steps in either order give the same keys and values, but the JavaScript key order differs.
- ModelParser.AddOne: the tests' `(val) => val + 1` is modelled on numbers only. String concatenation is not modelled, since the tests only pass numbers.
- Page.DecodeTreeIds: the rejection value `{message}` is modelled as its message string. Errors other than a NaN piece cannot arise from a string response.
- The `Page` and `Site` constructors and their other request methods are not part of this model. They only build requests.
