# corezoid-test data generator, in Dafny

This project models `generateData(schema)` from `dataGenerator.js`. That
function produces a random JSON value conforming to a JSON schema. Its
inner functions are modelled one by one:

- `resolveRef` follows local `#/a/b` references.
- `getRandomInt`, `getRandomString`, `generateStringFromPattern` and
  `getRandomBoolean` are the primitive synthesizers.
- `generateValue` is the recursive dispatcher. It runs the falsy check
  first, then handles `$ref`, `anyOf` and `enum`, and only then switches
  on `type`. The array and object cases are its loops.

Schema and data are one `Json` datatype. An object is its list of
(name, value) pairs in insertion order, which is the order `for..in`
visits.

`Math.random()` becomes an explicit oracle `draws: nat -> nat`, plus the
position `pos` of the next draw. Every random call consumes one position:
- `getRandomInt(lo, hi)` is `lo + draws(pos) % (hi - lo + 1)`;
- `getRandomBoolean()` is `draws(pos) % 2 == 0`.

Every operation therefore says which value it returns and how many draws
it uses. The properties are stated for all oracles ("every generated value
…"). Where a property is about reachability, a particular oracle witnesses
each admissible outcome.

The source is modelled as it is written.
- Pure parts are functions: the primitives, the property access, the
  path walk and the dispatch.
- Each loop is a method, proved equal to the function:
  - the path walk of `resolveRef`;
  - the character loop of `getRandomString`;
  - the array `push` loop;
  - the object `for..in` loop.
- `generateValue` nests ordinary calls, and its only depth bound in the
  source is the call stack: too deep a nesting, as on a cyclic `$ref` or
  `anyOf`, throws a `RangeError` that leaves `generateData` like any
  `throw`. The model bounds the nesting by a `fuel` parameter, and running
  out of fuel gives `OutOfFuel`, which stands for that `RangeError`.
  `GenFuelMonotone` proves that more fuel never changes any other outcome.

Modules, one per file:

| file | module | contents |
|---|---|---|
| outcomes.dfy | Outcomes | `Option`, `Result` and the error kinds: the six the generator throws, the `TypeError` JavaScript throws inside it, `OutOfFuel` for the stack-overflow `RangeError`, and two bound errors that only the model has |
| text.dfy | Text | character classes, decimal rendering of numbers, `split` on `/`, `includes` on strings |
| json.dfy | JsonValues | `Json`, truthiness, property access (`v[key]`, `key in v`), what `for..in` visits |
| primitives.dfy | Primitives | `getRandomInt`, `getRandomBoolean`, `getRandomString`, `generateStringFromPattern`, and a recogniser for the URL pattern the tests assert |
| resolver.dfy | Resolver | `resolveRef` |
| generator.dfy | Generator | `generateValue`: the specification `Gen` and the methods proved to compute it |
| conformance.dfy | Conformance | `Accepts`, what a node admits without reference to draws, and the soundness theorem `GenSound` |
| properties.dfy | GeneratorProperties | the dispatch order, the error cases and each type's guarantees |
| data_generator.dfy | DataGenerator | `generateData` |
| scenarios.dfy | Scenarios | four small schemas worked through end to end: a fixed `id` object, a list of nulls, and two unresolvable references |

## Model

| member | source | states |
|---|---|---|
| Primitives.Draw | dataGenerator.js:36-38 | for `lo <= hi` the drawn integer lies in `[lo, hi]` |
| Primitives.DrawCovers | dataGenerator.js:36-38 | every integer of `[lo, hi]` is drawn by some oracle: the range is exact, not just bounded |
| Primitives.Coin | dataGenerator.js:74-76 | `getRandomBoolean()` is decided by one draw; `CoinCovers` states what it promises |
| Primitives.CoinCovers | dataGenerator.js:74-76 | both `true` and `false` occur: some oracle yields each |
| Primitives.AlphabetAt | dataGenerator.js:46 | `chars.charAt(k)` is a letter or digit: lower-case for `k < 26`, a digit for `k >= 52` |
| Primitives.AlphabetAscends | dataGenerator.js:46 | within each run of `chars` (lower-case, upper-case, digits) the characters ascend with the position |
| Primitives.AlphabetComplete | dataGenerator.js:46 | every ASCII letter and digit occurs in the alphabet, so the alphabet is exactly `[a-zA-Z0-9]` |
| Primitives.RandomString | dataGenerator.js:45-52 | the string built from `n` draws has length `n` and only alphanumeric characters |
| Primitives.GetRandomString | dataGenerator.js:45-52 | the `for` loop returns the string `RandomString` defines and consumes `length` draws; length exactly `length`, all characters alphanumeric |
| Primitives.Url | dataGenerator.js:67 | the template literal `https://${subdomain}.corezoid.com/api/1/json/public/${digits}/${alphanum}`; `ParseUrlOfUrl` and `UrlOfParseUrl` state that the recogniser accepts exactly its values |
| Primitives.SubdomainLower | dataGenerator.js:63 | every entry of `subdomains` is a non-empty lower-case word, so it matches `[a-z]+` |
| Primitives.PatternUrl | dataGenerator.js:60-68 | the URL `generateStringFromPattern` returns: a subdomain from the list, a number in `[1000, 9999]` and eight random characters, in that draw order; `PatternUrlShape` proves its shape |
| Primitives.GenerateStringFromPattern | dataGenerator.js:60-68 | returns the URL `PatternUrl` defines, using ten draws: subdomain, number, then eight characters |
| Primitives.ParseUrl | dataGenerator.test.js:86 | a successful match of `^https://[a-z]+\.corezoid\.com/api/1/json/public/\d+/[0-9a-zA-Z]+$` has a non-empty lower-case subdomain and a non-empty alphanumeric suffix; with `UrlOfParseUrl` and `ParseUrlOfUrl` it accepts exactly the values of `Url` |
| Primitives.ParseHostPart | dataGenerator.test.js:86 | the `[a-z]+` + host part of the match: the parts it returns are of the right classes |
| Primitives.ParsePathPart | dataGenerator.test.js:86 | the `\d+/[0-9a-zA-Z]+` tail of the match: the suffix returned is non-empty and alphanumeric |
| Primitives.ParsePathPartOf | dataGenerator.js:67 | the tail of a URL built from digits and an alphanumeric suffix parses back to that number and suffix |
| Primitives.ParseHostPartOf | dataGenerator.js:67 | a lower-case subdomain followed by the host text is taken apart exactly |
| Primitives.PathPartSound | dataGenerator.test.js:86 | what the `\d+/[0-9a-zA-Z]+` tail accepts is a non-empty digit string denoting the returned number, `/`, and the returned suffix |
| Primitives.HostPartSound | dataGenerator.test.js:86 | what the `[a-z]+` + host part accepts is the returned subdomain, the host text, and a tail the path part accepts |
| Primitives.UrlOfParseUrl | dataGenerator.test.js:86 | the recogniser accepts nothing else: every text it parses is `Url` of the subdomain and suffix it returns, with a decimal numeral denoting the number it returns |
| Primitives.ParseUrlOfUrl | dataGenerator.js:67 | the recogniser inverts the template literal: `ParseUrl(Url(s, d, a))` gives back `s`, the value of `d` and `a` |
| Primitives.PatternUrlShape | dataGenerator.js:60-68 | every pattern string matches the test's regular expression, with a subdomain from `api`/`service`/`data`/`auth`, a number in `[1000, 9999]` and an eight-character alphanumeric suffix; the number is written with four characters |
| Text.NatToDecimal | dataGenerator.js:67 | `${digits}` renders a non-negative integer as non-empty decimal digits with no leading zero |
| Text.DecimalOfNat | dataGenerator.js:67 | the rendered digits denote the number rendered |
| Text.NatOfDecimal | dataGenerator.js:19 | a canonical numeral is the rendering of the number it denotes |
| Text.FourDigits | dataGenerator.js:65-67 | a number in `[1000, 9999]` renders as four characters |
| Text.ParseIndex | dataGenerator.js:19 | the array index a property name denotes: only a canonical decimal numeral names one; `ParseIndexInverse` states the correspondence |
| Text.ParseIndexInverse | dataGenerator.js:19 | a property name denotes array index `n` exactly when it is `n`'s decimal text (both directions) |
| Text.Split | dataGenerator.js:16 | `split('/')`: always at least one part; `SplitHasNoSep`, `JoinOfSplit` and `SplitOfJoin` state what the parts are |
| Text.Contains | dataGenerator.js:140 | `includes` on a string `required`: `key` occurs somewhere in it as a substring |
| Text.SplitHasNoSep | dataGenerator.js:16 | no part produced by `split('/')` contains `/` |
| Text.JoinOfSplit | dataGenerator.js:16 | `split('/')` loses nothing: joining its parts with `/` gives back the text |
| Text.SplitOfJoin | dataGenerator.js:16 | separator-free segments joined with `/` split back into exactly those segments |
| JsonValues.Truthy | dataGenerator.js:84 | JavaScript truthiness: `null`, `false`, `0` and `""` are falsy, every array and object is truthy |
| JsonValues.IsObjectLike | dataGenerator.js:88 | `'$ref' in currentSchema` throws a `TypeError` unless the node is an object or an array |
| JsonValues.Lookup | dataGenerator.js:19 | a read of an object's own field, the first pair with that name; `LookupFound` and `LookupDistinct` state what it finds |
| JsonValues.Get | dataGenerator.js:19 | `current[part]`: a value is found only on an object, an array or a string; an array yields one of its elements, a string a one-character string |
| JsonValues.Field | dataGenerator.js:88-93 | `node.key` for a schema keyword: found only on an object, and then paired with that name among its fields |
| JsonValues.HasField | dataGenerator.js:88 | `key in currentSchema` for the keywords tested at lines 88, 93, 102 and 112: the object has a field of that name |
| JsonValues.Entries | dataGenerator.js:139 | what `for..in` visits: an object's pairs; for an array or a string one pair per position, named by the position's decimal text in ascending order |
| JsonValues.LookupFound | dataGenerator.js:19 | an object property read finds a value exactly when some pair carries the name, and what it finds is paired with that name |
| JsonValues.LookupDistinct | dataGenerator.js:19 | in an object with distinct names, the read of a stored name gives the value stored with it |
| JsonValues.FieldIsGet | dataGenerator.js:88-93 | for a keyword that does not start with a digit, `key in node` and `node.key` see only the object's own fields |
| JsonValues.EntriesAreProperties | dataGenerator.js:139-141 | every name `for..in` visits reads back (`props[key]`) as the value paired with it |
| JsonValues.FalsyHasNoEntries | dataGenerator.js:137 | a falsy `properties` is visited like `{}`: `props \|\| {}` and `props` enumerate alike |
| Resolver.IsLocal | dataGenerator.js:15 | `ref.startsWith("#/")` |
| Resolver.Step | dataGenerator.js:19-22 | one iteration: on success the next node is `current[part]`; it fails with `TypeError` on `null` and with an unresolved reference when the read is `undefined` |
| Resolver.Walk | dataGenerator.js:18-23 | a walk fails only with an unresolved reference or a `TypeError` |
| Resolver.Resolve | dataGenerator.js:14-28 | a reference not starting with `#/` fails as non-local; no other error kinds than the walk's |
| Resolver.ResolveRef | dataGenerator.js:14-28 | the loop that reassigns `current` once per segment returns exactly `Resolve`: the same node or the same error |
| Resolver.WalkAppend | dataGenerator.js:18-23 | walking a path in two pieces is walking it whole |
| Resolver.WalkOne | dataGenerator.js:18-23 | a one-segment walk is a single property read |
| Resolver.AbsentSegment | dataGenerator.js:18-21 | the walk fails with the unresolved-reference error as soon as any one segment is absent where it is reached, whatever follows it |
| Resolver.ResolvePath | dataGenerator.js:15-23 | `#/` followed by `/`-free names joined with `/` resolves to exactly the node at that path |
| Resolver.ResolvedPrefix | dataGenerator.js:18-23 | a resolved reference names a real chain: every prefix of its path resolves too |
| Generator.ResolveValue | dataGenerator.js:89 | a `$ref` that is not a string fails with `TypeError` (it has no `startsWith`) |
| Generator.Includes | dataGenerator.js:138-140 | `(required \|\| []).includes(key)`: a `TypeError` exactly for a truthy `required` that is neither an array nor a string; only a truthy `required` includes anything |
| Generator.PropertyEntries | dataGenerator.js:137-139 | `for (key in props \|\| {})` visits something only when `properties` is present and truthy |
| Generator.Gen | dataGenerator.js:83-108 | the specification of one `generateValue` call: the falsy check, then `$ref`, `anyOf` and `enum` in that order, then the switch; its properties are `GenSound`, `GenFuelMonotone` and the lemmas of GeneratorProperties |
| Generator.GenRef | dataGenerator.js:88-91 | the `$ref` case: whatever the resolved node generates, or the resolution error; see `RefTransparency` |
| Generator.GenAnyOf | dataGenerator.js:93-100 | the `anyOf` case: one draw picks the option generated from; see `AnyOfChoice`, `AnyOfReachable` |
| Generator.GenEnum | dataGenerator.js:102-108 | the `enum` case: one draw picks the member returned; see `EnumChoice`, `EnumReachable` |
| Generator.GenByType | dataGenerator.js:110-147 | the `switch (currentSchema.type)`, `default` giving `null`; see `GenByTypeSound`, `NullByDefault` |
| Generator.KindOf | dataGenerator.js:110-146 | the `case` that `currentSchema.type` selects by strict equality with one of six strings; anything else is `default` |
| Generator.GenString | dataGenerator.js:111-115 | the `string` case; see `StringGenerated`, `StringLengthReachable` |
| Generator.GenInteger | dataGenerator.js:116-119 | the `integer` case; see `IntegerGenerated`, `IntegerReachable`, `IntegerFixed` |
| Generator.GenArray | dataGenerator.js:124-134 | the `array` case, the length drawn before `items` is checked; see `ArrayGenerated` |
| Generator.GenObject | dataGenerator.js:135-144 | the `object` case; see `ObjectGenerated` |
| Generator.GenItems | dataGenerator.js:130-133 | the `length` calls of the array loop, in order; see `GenItemsSound`, `GenItemsGenerated` |
| Generator.GenFields | dataGenerator.js:139-143 | the object loop: a required property always generated, any other after a coin flip drawn for it; see `GenFieldsSound`, `NoneTaken` |
| Generator.IntegerBounds | dataGenerator.js:117-118 | returned bounds are ordered, `lo <= hi` |
| Generator.GenerateValue | dataGenerator.js:83-148 | the code of `generateValue` (checks, reference resolution through the `resolveRef` loop, then the switch) returns exactly `Gen`: the same value, draws used and error |
| Generator.GenerateByType | dataGenerator.js:110-147 | the `switch (currentSchema.type)` returns exactly `GenByType` |
| Generator.GenerateString | dataGenerator.js:111-115 | the `string` case returns exactly `GenString` |
| Generator.GenerateArray | dataGenerator.js:124-134 | the `array` case (length drawn, then the `items` check) returns exactly `GenArray` |
| Generator.GenerateItems | dataGenerator.js:130-133 | the `push` loop returns exactly the list `GenItems` defines, drawing as it does |
| Generator.GenerateObject | dataGenerator.js:135-144 | the `object` case returns exactly `GenObject` |
| Generator.GenerateFields | dataGenerator.js:136-143 | the `for..in` loop filling `obj` returns exactly the pairs `GenFields` defines |
| Generator.GenerateField | dataGenerator.js:139-142 | one iteration adds at most one pair, and the rest of the loop continues from where it stopped; its error is the loop's error |
| Conformance.GenSound | dataGenerator.js:83-148 | every value `generateValue` returns is admitted by its node (`Accepts`): a target of a `$ref`, one of the `anyOf` options, an `enum` member, or a value of the `type` |
| Conformance.GenByTypeSound | dataGenerator.js:110-147 | each case of the switch yields a value of that type: a pattern URL or 5 to 15 alphanumeric characters, an integer in its bounds, a boolean, `null`, a list of at most 5 admitted items, an object whose fields match `properties` |
| Conformance.GenItemsSound | dataGenerator.js:130-133 | the array loop yields exactly `count` elements, each admitted by `items` |
| Conformance.GenFieldsSound | dataGenerator.js:139-143 | the object loop yields fields that take properties in order, skip none that is required, and hold admitted values |
| Conformance.FieldsMatchKeys | dataGenerator.js:139 | the keys of a matching object are a subsequence of the keys of `properties` |
| Conformance.FieldsMatchRequired | dataGenerator.js:138-141 | every property that `required.includes` is present in a matching object |
| GeneratorProperties.GenFuelMonotone | dataGenerator.js:83-148 | a call that does not run out of fuel returns the same outcome with any larger bound |
| GeneratorProperties.GenRefFuelMonotone | dataGenerator.js:88-91 | the same for the `$ref` case |
| GeneratorProperties.GenAnyOfFuelMonotone | dataGenerator.js:93-100 | the same for the `anyOf` case |
| GeneratorProperties.GenByTypeFuelMonotone | dataGenerator.js:110-147 | the same for the switch |
| GeneratorProperties.GenItemsFuelMonotone | dataGenerator.js:130-133 | the same for the array loop |
| GeneratorProperties.GenFieldsFuelMonotone | dataGenerator.js:139-143 | the same for the object loop |
| GeneratorProperties.FalsyNodeFails | dataGenerator.js:84-86 | a falsy node is an error, whatever else holds |
| GeneratorProperties.RefTransparency | dataGenerator.js:88-91 | a node with `$ref` generates exactly what the referenced node generates, with the same draws, ignoring its other keys; an unresolvable reference is that error |
| GeneratorProperties.RefToMissingName | dataGenerator.js:19-20 | `#/name` for a name the root lacks is the unresolved-reference error |
| GeneratorProperties.RefToAbsentSegment | dataGenerator.js:14-21 | a reference `#/a/b/…` whose segment at any depth is absent where the walk reaches it is the unresolved-reference error |
| GeneratorProperties.AnyOfChoice | dataGenerator.js:93-100 | without `$ref`, an `anyOf` that is not a non-empty array is an error; otherwise the node generates what one of its options generates, with the draws after the choice |
| GeneratorProperties.AnyOfReachable | dataGenerator.js:98 | every option of `anyOf` is chosen by some draw |
| GeneratorProperties.EnumChoice | dataGenerator.js:102-108 | without `$ref` and `anyOf`, an `enum` that is not a non-empty array is an error; otherwise the result is one of its members, as it stands, from one draw |
| GeneratorProperties.EnumReachable | dataGenerator.js:107 | every `enum` member is returned by some draw |
| GeneratorProperties.NullByDefault | dataGenerator.js:122-123 | `type: "null"`, an absent `type` and any unknown `type` (lines 145-146) each yield `null` and draw nothing |
| GeneratorProperties.BooleanGenerated | dataGenerator.js:120-121 | a `boolean` is one draw, and both `true` and `false` occur |
| GeneratorProperties.StringGenerated | dataGenerator.js:111-115 | with `pattern`, the result is the pattern URL whatever the pattern says, and it matches the test's regular expression; without, it is 5 to 15 alphanumeric characters after one length draw |
| GeneratorProperties.StringLengthReachable | dataGenerator.js:115 | every length from 5 to 15 occurs |
| GeneratorProperties.IntegerBoundsDefaults | dataGenerator.js:117-118 | bounds are `minimum` or 0, and `maximum` or that minimum plus 1000 |
| GeneratorProperties.IntegerGenerated | dataGenerator.js:116-119 | an `integer` lies within its bounds and takes one draw |
| GeneratorProperties.IntegerReachable | dataGenerator.js:119 | every integer within the bounds occurs |
| GeneratorProperties.IntegerFixed | dataGenerator.js:116-119 | `minimum = maximum = n` always yields `n` |
| GeneratorProperties.GenItemsGenerated | dataGenerator.js:131-132 | each element of a generated list is what some call on `items` returns |
| GeneratorProperties.ArrayGenerated | dataGenerator.js:124-134 | an `array` with missing or falsy `items` is an error; otherwise it has as many elements as the first draw says, at most 5, each admitted by and generated from `items` |
| GeneratorProperties.ObjectGenerated | dataGenerator.js:135-144 | an `object` takes its keys from `properties` in their order and includes every required one; with no `properties` it is `{}` and draws nothing |
| GeneratorProperties.NoneTaken | dataGenerator.js:140 | a coin is drawn for each optional property: with no property required and every coin saying no, the object is empty after one draw per property |
| DataGenerator.GenerateDataSpec | dataGenerator.js:150 | `generateData(schema)` is one `generateValue` call with the schema as both root and node |
| DataGenerator.GenerateData | dataGenerator.js:8-151 | `generateData(schema)` generates from the schema as the root, and what it returns is admitted by the schema |
| Scenarios.IdSchemaIsOne | dataGenerator.js:116-119 | `{"type":"integer","minimum":1,"maximum":1}` yields 1 |
| Scenarios.FixedIdFields | dataGenerator.js:139-142 | the required `id` is generated without a coin flip |
| Scenarios.FixedIdObject | dataGenerator.js:135-144 | the object case of the sample schema yields `{"id": 1}` |
| Scenarios.FixedIdGenerated | dataGenerator.test.js:32-35 | the object schema with required `id` yields `{"id": 1}` whatever the draws, using one draw |
| Scenarios.MissingPathFails | dataGenerator.js:18-21 | `{"$ref": "#/missing/path"}` is the unresolved-reference error, failing at `missing` |
| Scenarios.DeepMissingPathFails | dataGenerator.js:18-21 | `{"$ref": "#/defs/absent", "defs": {}}` resolves `defs` and is the unresolved-reference error at `absent` |
| Scenarios.NullItems | dataGenerator.js:130-133 | a list of `null` items of any count is all `null`s and draws nothing |
| Scenarios.NullListArray | dataGenerator.js:124-134 | an array of `null` items is that many `null`s after the length draw |
| Scenarios.NullListGenerated | dataGenerator.js:124-134 | `{"type":"array","items":{"type":"null"}}` yields at most 5 `null`s |

## Left out

- `generate.js` is not part of this model. It is a command-line wrapper that reads files, parses JSON and prints.
- `dataGenerator.test.js` is only used as the statement of the properties above. `schema.json`, which it reads, is not part of this model.
- Floating point: `Math.floor(Math.random() * …)` and `Math.random() < 0.5` are replaced by the integer oracle. Nothing about distribution or uniformity is modelled.
- Generator.IntegerBounds: a `minimum` greater than the `maximum` is the model's error `InvertedBounds`. The source does not check this. With `max < min`, `Math.floor(Math.random() * (max - min + 1)) + min` yields a value in `[max + 1, min]`, above the maximum; for `minimum = maximum + 1` it is always the minimum. The model does not give that value.
- Generator.IntegerBounds: a `minimum` or `maximum` that is not a number (a string, a boolean, `null`, an array or an object) is the model's error `UnsupportedBound`. The source computes with it under JavaScript's coercions instead. A string `minimum` makes `min + 1000` (line 118) and `… + min` (line 37) concatenate, so the source returns a string. A string `maximum` with a numeric or absent `minimum` is only subtracted from (line 37), so the source returns a number, or `NaN` for text that is not numeric. `null` and booleans act as numbers.
- JSON numbers are integers only: `Json` has no fractional number, so a bound, an `enum` member or any other value such as `1.5` is not representable.
- Strings are sequences of characters, taken as Unicode scalar values. JavaScript indexes strings by UTF-16 code units, so `current[part]` on a string (line 19) and `for..in` over a string `properties` (line 139) differ from the model for characters outside the Basic Multilingual Plane.
- Generator.Gen: the `fuel` bound. The source nests calls until the engine's call stack overflows, for instance on `{"$ref": "#/a", "a": {"$ref": "#/a"}}`, and then throws a `RangeError`. The model reports `OutOfFuel` at the depth its `fuel` sets; the depth at which the engine gives up is not modelled.
- Error message texts: each `throw` is an error kind, and the message is not kept.
- JsonValues.Entries: `for..in` visits an object's own keys in insertion order. JavaScript first visits integer-like keys in numeric order; that reordering is not modelled.
- JsonValues.Get: inherited properties are left out. These are the members of `Object.prototype`, `Array.prototype`, `String.prototype`, `Number.prototype` and `Boolean.prototype`, and the `length` of arrays and strings. So a path segment such as `length`, `toString`, `map`, `charAt` or `toFixed` is unresolved in the model; JavaScript would find a value.
- Generator.GenFields: a property named `__proto__` is added as an ordinary pair. In JavaScript, `obj["__proto__"] = …` (line 141) sets the prototype of `obj` and adds no key, so the source's object lacks that property even when it is required.
- JsonValues.Field: `in` and `.key` on the keywords `$ref`, `anyOf`, `enum`, `type`, `pattern`, `minimum`, `maximum`, `items`, `properties` and `required` see only an object's own fields. An array node has no such field in the model, as in JavaScript without a polluted prototype.
- JsonValues.Json: objects with a name repeated are representable; the lemmas that need distinct names ask for it. JSON parsing, which keeps the last duplicate, is not modelled.
- The pattern text is not used: `generateStringFromPattern` ignores its argument, and so does the model.
- The character alphabet is given by position (`AlphabetAt`) instead of as a string constant. `AlphabetAt` gives each position its class, `AlphabetComplete` shows every letter and digit occurs, and `AlphabetAscends` shows each run ascends; together these fix the 62 characters in the source's order.
- The `module.exports` guard at the end of the file is not modelled.
