# koa-graphql-rest-api: configuration resolution and GraphQL spec naming, in Dafny

This project models the two self-contained pieces of logic in a small Koa/GraphQL
todo-list backend and proves their properties.

* **Configuration resolution** (`src/server/config/index.ts`). The server port is read from
  the `PORT` environment variable with `parseInt(PORT, 10)`, falling back to 3000. The
  `NODE_ENV` switch picks one of three environment overlays (development, production, test),
  with production as the default. The chosen overlay is then deep-merged into the base settings
  with `lodash.merge`, and the overlay wins. Modules `NumberParsing` (`parseInt` as section
  19.2.5 of ECMA-262 defines it, plus the decimal rendering of an integer), `Json` (JavaScript
  values), `DeepMerge` (the merge) and `Config` (the module itself). The module's top-level
  code is the method `Config.LoadConfig`. It is proved equal to the function
  `Config.ResolvedConfig`, and the lemmas are stated about that function.
* **The GraphQL spec factory** (`src/tests/graphQLSpec.ts`), module `GraphQLSpec`. It covers
  the fail-fast guards on the two sample payloads, the capitalised resource name, the
  operation and input-type names built from it, the fields the list query selects, and the
  in-place write of the seeded id into the update payload. That write uses the class
  `GraphQLSpec.Payload`, whose fields the method changes.

JavaScript objects are `Json.Obj(keys, fields)`. `keys` is the insertion order that
`Object.keys` reports, and `fields` maps each key to its value. `Json.WellFormed` says the two
agree. This is what lets the model say which key is "the first key" of `resourceToCreate`,
and where `lodash.merge` puts the keys it adds. An unset environment variable or a missing
argument is `None`.

Two consequences of the code that are easy to miss:

* A `PORT` that is not a number does not always fall back to 3000. `parseInt` reads the
  leading digits, so `"8080abc"` gives 8080. Only a value with no digit after the white space
  and the optional sign falls back.
* The guard's message asks for "an object". The code checks truthiness and
  `Object.keys(...).length`, so a non-empty string or a non-empty array also passes.
  `GraphQLSpec.HasPropertiesCases` states this case by case.

All three overlay files are parameters (`Config.Overlays`). Their contents are not shown.
The environment variables are parameters too.

## Model

| member | source | states |
|---|---|---|
| `NumberParsing.IsStrWhiteSpace` | src/server/config/index.ts:20 | no contract of its own: the StrWhiteSpaceChar code points of ECMA-262 (tab, line feed, vertical tab, form feed, carriage return, space, no-break space, U+1680, U+2000 to U+200A, U+2028, U+2029, U+202F, U+205F, U+3000 and U+FEFF), the set parseInt's trimming skips; `NumberParsing.LeadingWhiteSpace` is stated through it |
| `NumberParsing.LeadingWhiteSpace` | src/server/config/index.ts:20 | parseInt's first step: the number of characters it trims is the longest prefix that is all white space (the input ends there or a non-white character follows) |
| `NumberParsing.LeadingWhiteSpaceOf` | src/server/config/index.ts:20 | white space followed by a non-white character or nothing: exactly the white space is trimmed |
| `NumberParsing.DigitCount` | src/server/config/index.ts:20 | the digit run parseInt reads: the longest prefix that is all radix-10 digits |
| `NumberParsing.DigitCountOf` | src/server/config/index.ts:20 | digits followed by a non-digit or nothing: exactly those digits are read |
| `NumberParsing.DigitsValue` | src/server/config/index.ts:20-21 | the value parseInt gives a digit run, read most significant digit first, is below 10 to the power of the run's length |
| `NumberParsing.DropSign` | src/server/config/index.ts:20-21 | no contract of its own: parseInt's sign step removes one leading `+` or `-`; `NumberParsing.ParseTrimmedDigits` and `NumberParsing.ParseTrimmedNoDigits` state its effect |
| `NumberParsing.SignOf` | src/server/config/index.ts:20-21 | no contract of its own: the sign is -1 exactly when the trimmed text starts with `-`; `NumberParsing.ParseTrimmedDigits` states its effect |
| `NumberParsing.ParseTrimmed` | src/server/config/index.ts:20-21 | after trimming, parseInt gives a number only if the text contains a digit |
| `NumberParsing.ParseIntSkipsWhiteSpace` | src/server/config/index.ts:20 | leading white space is skipped: parseInt of white space and then text not starting with white space reads that text |
| `NumberParsing.ParseTrimmedDigits` | src/server/config/index.ts:20-21 | an optional sign, a non-empty digit run and then a non-digit (or nothing) give the signed value of the digits |
| `NumberParsing.ParseTrimmedNoDigits` | src/server/config/index.ts:20 | a sign followed by a non-digit or nothing gives NaN; so does a text with no sign that starts with neither a digit nor `+` or `-`, and the empty text |
| `NumberParsing.ParseInt` | src/server/config/index.ts:20-21 | `parseInt(s, 10)` gives a number only if `s` contains a digit |
| `NumberParsing.ParseIntLeadingDigits` | src/server/config/index.ts:20-21 | white space, an optional sign, a non-empty digit run, then anything not starting with a digit parses to the signed value of the digits (trailing junk is ignored) |
| `NumberParsing.ParseIntNoDigits` | src/server/config/index.ts:20 | when no digit follows the white space and the optional sign, parseInt is NaN |
| `NumberParsing.NatDecimal` | src/server/config/index.ts:20-21 | the decimal rendering of a natural number is a non-empty digit string with no leading zero |
| `NumberParsing.Decimal` | src/server/config/index.ts:20-21 | the decimal rendering of an integer is non-empty; `NumberParsing.ParseIntDecimal` is its round trip with parseInt, and `Json.IndexKeys` uses it for the index keys `Object.keys` gives a string or array |
| `NumberParsing.DigitsValueOfNatDecimal` | src/server/config/index.ts:20-21 | reading the decimal digits of a natural number gives the number back |
| `NumberParsing.DecimalParts` | src/server/config/index.ts:20-21 | an integer's decimal rendering is '-' for a negative, then a digit string whose value is the magnitude |
| `NumberParsing.ParseIntDecimal` | src/server/config/index.ts:20-21 | round trip: parsing the decimal rendering of any integer, with or without non-digit junk after it, gives that integer back |
| `Config.ResolvePort` | src/server/config/index.ts:19-22 | PORT unset, or parseInt of it NaN (the empty string included), gives 3000; otherwise the port is parseInt's value, so the `PORT &&` test adds nothing |
| `Config.PortFromLeadingDigits` | src/server/config/index.ts:19-22 | the port is the signed value of the leading digit run after white space and an optional sign |
| `Config.PortOfDecimal` | src/server/config/index.ts:19-22 | every integer written in decimal becomes the port: there is no range check |
| `Config.PortFallbackExamples` | src/server/config/index.ts:19-22 | unset, `""` and `"abc"` give 3000 |
| `Config.PortIgnoresTrailingJunk` | src/server/config/index.ts:20-21 | `"8080abc"` gives 8080 |
| `Config.PortMayBeNegative` | src/server/config/index.ts:19-22 | `"-1"` gives the port -1: nothing checks the sign |
| `Config.PortMayExceedRange` | src/server/config/index.ts:19-22 | `"70000"` gives the port 70000: nothing checks the range |
| `Config.SelectEnvironment` | src/server/config/index.ts:54-70 | exactly one overlay: testing iff NODE_ENV is 'test' or 'testing'; development iff 'development' or 'dev'; production for 'prod', 'production' and every other value, unset included |
| `Config.UnknownEnvironmentIsProduction` | src/server/config/index.ts:67-70 | for any other NODE_ENV, the resolved configuration is the one for 'production', the base merged with the production overlay |
| `Config.Overlays.For` | src/server/config/index.ts:53-70 | the overlay chosen for an environment is a well-formed object when all three are |
| `Config.Overlays.Valid` | src/server/config/index.ts:5-53 | no contract of its own: each of the three overlays typed `EnvironnementConfig` is a well-formed object; `Config.LoadConfig` requires it and `Config.Overlays.For` relies on it |
| `Config.PoolDefaults` | src/server/config/index.ts:29-33 | the pool settings (max 5, min 0, idle 10000) form a well-formed object |
| `Config.DefaultScope` | src/server/config/index.ts:43-45 | the default scope, excluding `createdAt` and `updatedAt`, forms a well-formed object |
| `Config.DefineDefaults` | src/server/config/index.ts:38-46 | the model-definition defaults (`underscored` and the default scope) form a well-formed object |
| `Config.DatabaseOptions` | src/server/config/index.ts:27-47 | the database options (dialect, pool, quoteIdentifiers, define) form a well-formed object |
| `Config.BaseConfig` | src/server/config/index.ts:15-48 | the base settings form a well-formed object |
| `Config.ResolvedConfig` | src/server/config/index.ts:15-77 | the exported configuration, the base settings merged with the selected overlay, is a well-formed object whenever the three overlays are |
| `Config.LoadConfig` | src/server/config/index.ts:53-77 | the switch followed by `merge(config, environmentSettings)` yields the resolved configuration, a well-formed object |
| `Config.OverlaySettingsWin` | src/server/config/index.ts:72-75 | every leaf the selected overlay sets appears in the resolved configuration with the overlay's value |
| `Config.DefaultsSurvive` | src/server/config/index.ts:75 | at every path the selected overlay does not reach, the resolved configuration holds the base value |
| `Config.PortSurvives` | src/server/config/index.ts:19-22 | the port resolved from PORT stays unless the overlay sets `port` |
| `Config.BasePort` | src/server/config/index.ts:19-22 | the base settings hold the resolved port at `port` |
| `Config.BasePoolMin` | src/server/config/index.ts:27-33 | the base settings hold 0 at `databaseOptions.pool.min` |
| `Config.BaseDialect` | src/server/config/index.ts:27-28 | the base settings hold 'postgres' at `databaseOptions.dialect` |
| `Config.PoolMinSurvives` | src/server/config/index.ts:31 | `databaseOptions.pool.min` stays 0 unless the overlay sets it |
| `Config.DialectSurvives` | src/server/config/index.ts:28 | `databaseOptions.dialect` stays 'postgres' unless the overlay sets it |
| `DeepMerge.NewKeys` | src/server/config/index.ts:75 | the keys the merge adds are exactly the overlay's keys missing from the base, each once, and none when the base has them all (their order is stated by `DeepMerge.NewKeysConcat`) |
| `DeepMerge.NewKeysOne` | src/server/config/index.ts:75 | one overlay key is added exactly when the base lacks it |
| `DeepMerge.NewKeysConcat` | src/server/config/index.ts:75 | the keys added for two runs of overlay keys are those added for the first run and then those for the second, so the added keys follow the overlay's order |
| `DeepMerge.Merge` | src/server/config/index.ts:75 | two objects merge to an object with the keys of both; any other overlay value replaces the base value |
| `DeepMerge.AbsentHasNoValue` | src/server/config/index.ts:75 | a path the overlay does not reach has no value in the overlay |
| `DeepMerge.MergeLookup` | src/server/config/index.ts:75 | the merged value at every path: where the overlay has a value, that value merged into the base's (or the overlay's own value if the base has none); where the overlay does not reach, the base's value; nothing where a non-object overlay value cuts the path short |
| `DeepMerge.OverlayLeafWins` | src/server/config/index.ts:75 | every non-object value the overlay sets is in the result unchanged |
| `DeepMerge.BaseSurvives` | src/server/config/index.ts:75 | what the overlay does not reach keeps the base's value |
| `DeepMerge.NestedObjectsMerge` | src/server/config/index.ts:75 | objects at the same path are merged key by key, keeping the keys of both, not replaced |
| `DeepMerge.MergeWellFormed` | src/server/config/index.ts:75 | the merge keeps values well formed, and the base's keys keep their order ahead of the added ones |
| `DeepMerge.MergedKeys` | src/server/config/index.ts:75 | two well-formed objects merge to a key list with each key once, naming exactly the merged object's properties |
| `DeepMerge.MergeSelf` | src/server/config/index.ts:75 | merging a value into itself changes nothing |
| `DeepMerge.MergeAgain` | src/server/config/index.ts:75 | merging the same overlay a second time changes nothing |
| `DeepMerge.MergeAgainFields` | src/server/config/index.ts:75 | for two objects, merging the same overlay a second time changes nothing |
| `DeepMerge.MergeAgainKeys` | src/server/config/index.ts:75 | merging the same overlay a second time adds no key and keeps the key order |
| `DeepMerge.MergeEmptyOverlay` | src/server/config/index.ts:75 | an overlay with no properties leaves the base object unchanged |
| `Json.Truthy` | src/tests/graphQLSpec.ts:26-30 | the `!x` test: exactly undefined, null, false, 0 and the empty string are falsy |
| `Json.ObjectKeys` | src/tests/graphQLSpec.ts:26 | `Object.keys`: an object's own keys in order; a string or an array yields one key per index; null, numbers and booleans yield none |
| `Json.IndexKeys` | src/tests/graphQLSpec.ts:26 | a string or an array of length n has n index keys |
| `Json.Lookup` | src/server/config/index.ts:75 | no contract of its own: reading a property path such as `config.databaseOptions.pool.min` through nested objects; the merge, survival and overlay rows are stated through it, and `Json.LookupStep` states one step of it |
| `Json.LookupStep` | src/server/config/index.ts:75 | looking up `[k] + rest` in an object is looking up `rest` in its property `k` |
| `Json.SetField` | src/tests/graphQLSpec.ts:137 | property assignment: the key holds the new value, every other key keeps its value, an existing key keeps its place and a new key goes last |
| `Json.SetFieldWellFormed` | src/tests/graphQLSpec.ts:137 | an assignment keeps an object well formed |
| `Json.SetFieldTwice` | src/tests/graphQLSpec.ts:137 | assigning a property twice is assigning it once with the later value |
| `GraphQLSpec.SpecError.Message` | src/tests/graphQLSpec.ts:27-31 | no contract of its own: the text thrown for each refused payload, as the source writes it; `GraphQLSpec.MessagesDiffer` proves the two differ |
| `GraphQLSpec.MessagesDiffer` | src/tests/graphQLSpec.ts:27-31 | the create error and the update error have different messages |
| `GraphQLSpec.HasProperties` | src/tests/graphQLSpec.ts:26-30 | the guard expression: a payload that passes is present and not null |
| `GraphQLSpec.CreateGraphQLSpec` | src/tests/graphQLSpec.ts:19-35 | fails iff a payload lacks properties, and with the create error exactly when the create payload does (it is checked first); on success it derives the capitalised name, the operation names and the list fields `id` plus the create payload's first key |
| `GraphQLSpec.HasPropertiesCases` | src/tests/graphQLSpec.ts:26-32 | the guard: undefined, null, numbers and booleans never pass; an object passes iff it has a property; a string or array passes iff it is not empty |
| `GraphQLSpec.GuardExamples` | src/tests/graphQLSpec.ts:26-32 | `{}` to create is refused with the create error; both missing gives the create error; a missing update payload gives the update error |
| `GraphQLSpec.ToUpperAscii` | src/tests/graphQLSpec.ts:35 | lower-case ASCII letters map to their upper-case letter; every other character is unchanged |
| `GraphQLSpec.Capitalize` | src/tests/graphQLSpec.ts:35 | same length as the name; the first character upper-cased, the others unchanged; empty for an empty name |
| `GraphQLSpec.CapitalizeConcat` | src/tests/graphQLSpec.ts:35 | capitalising a name with a non-empty prefix changes only the prefix |
| `GraphQLSpec.CapitalizedVerbs` | src/tests/graphQLSpec.ts:117-164 | `new`, `update` and `remove` capitalise to `New`, `Update` and `Remove`, the prefixes of the GraphQL operation names |
| `GraphQLSpec.OperationsFor` | src/tests/graphQLSpec.ts:66-164 | each GraphQL operation name (`New…`, `Update…`, `Remove…`) is its mutation's field name with the first letter upper-cased, and the create input type is the create operation's name plus `Input` |
| `GraphQLSpec.CapitalizeIdempotent` | src/tests/graphQLSpec.ts:35 | capitalising twice is capitalising once, and the result starts with no lower-case ASCII letter |
| `GraphQLSpec.ListFields` | src/tests/graphQLSpec.ts:72 | the list query selects two fields: `id` and a key Object.keys reports for the create payload |
| `GraphQLSpec.ListFieldIsCreateKey` | src/tests/graphQLSpec.ts:72 | after a successful guard on an object payload, the list query's second field is a key of `resourceToCreate` |
| `GraphQLSpec.OperationNamesDecompose` | src/tests/graphQLSpec.ts:66-164 | the names are exactly `"all"+U+"s"`, `resourceName`, `"new"+U`, `"update"+U`, `"remove"+U`, `"New"+U`, `"Update"+U`, `"Remove"+U`, `"New"+U+"Input"` and `"Updated"+U+"Input"`, with U the capitalised name |
| `GraphQLSpec.OperationNamesDistinct` | src/tests/graphQLSpec.ts:66-161 | the five operation names are pairwise different |
| `GraphQLSpec.OperationNamesIgnoreFirstLetterCase` | src/tests/graphQLSpec.ts:35-161 | resource names that differ only in the case of the first letter get the same names except the get query |
| `GraphQLSpec.Payload.SetProperty` | src/tests/graphQLSpec.ts:137 | the object is changed in place to the result of the property assignment |
| `GraphQLSpec.InjectSeededId` | src/tests/graphQLSpec.ts:137 | afterwards the update payload's `id` is the seeded id, every other property is unchanged, the key order is kept (`id` is added last if it was new), and well-formedness is kept |

## Left out

- `NumberParsing.ParseInt`: the result is an exact integer. JavaScript returns a double, so
  digit runs above 2^53 are rounded there and `"-0"` gives -0. The model has neither.
- `DeepMerge.Merge`: arrays are merged as leaves, so the overlay's array replaces the base's.
  `lodash.merge` merges two arrays index by index, and merges an object overlay into a base
  array. Also left out: skipping `undefined` source values, prototype handling, and a
  non-object top-level source. The environment overlays are objects by their type, as
  `Config.Overlays.Valid` requires.
- `Json.Value`: numbers are integers (`Num(n: int)`). JavaScript numbers are doubles, so a
  fractional overlay or payload value cannot be written. The merge and the guards only pass
  numbers along, so their behaviour does not depend on this.
- `Json.IndexKeys`: a string is a sequence of Unicode scalar values. JavaScript strings are
  UTF-16 code units, so a character outside the Basic Multilingual Plane gives two index keys
  there and one here. Whether the guard passes does not change, and neither does
  `GraphQLSpec.Capitalize` under ASCII-only upper-casing.
- `Json.ObjectKeys`: every object key is listed in insertion order. JavaScript lists
  integer-like keys (`"0"`, `"42"`) first, in ascending order.
- `GraphQLSpec.ToUpperAscii`: only ASCII letters are upper-cased. Full Unicode case mapping in
  `toUpperCase` can change the length (for example `"ß"` becomes `"SS"`).
- `GraphQLSpec.InjectSeededId`: covered for object payloads only. A non-empty string or array
  passes the guard, but the assignment on it is not modelled.
- The contents of `development.js`, `production.js` and `test.js` are not shown. They are
  parameters.
- Reading `process.env` is not modelled. `PORT` and `NODE_ENV` are parameters.
- The Jest side of `createGraphQLSpec` is input/output and is not modelled. This covers the
  `describe`/`it`/`expect` registration, the async `beforeEach` and `afterAll` bodies
  (including the drop/sync/create loop over `testDependents`), `runQuery`, `syncDb`,
  `User.create`, `signToken`, and the text of the GraphQL documents.
- `src/server/db/db-connection.ts` is not part of this model. It is a mongoose network
  connection with a log-and-rethrow, and it depends on overlay fields that are not shown. Its
  `mongodb://` scheme disagrees with the `dialect: 'postgres'` setting. That mismatch is
  recorded here and not changed.
- `src/server/api/todos/todo.model.ts` is not part of this model. It is a declarative Sequelize
  schema; id generation and persistence happen inside the ORM.
