# PSI client core, modelled in Dafny

This project models the computational core of the PSI (Protocols and
Structures for Inference) JavaScript client and proves properties of it:

- **The JSON Schema validator** (`js/tv4_as_jsv.js`, an adapted tv4 for
  draft 4). A `ValidatorContext` holds a URL-to-schema registry and a
  `missing` list. `getSchema` resolves `#` fragments as JSON Pointers
  (RFC 6901, sections 3 and 4). `validateAll` runs six groups of keyword
  checks: basic, numeric, string, array, object and combinations. Errors
  are `ValidationError` trees whose paths `prefixWith` builds.
- **The PSI schema compiler** (`js/psi.schema.js`). It rewrites PSI
  notation into JSON Schema: `$name` references, `@media/type` shorthands,
  `#name` local definitions, `/key` and `?key` properties, a trailing `=`
  for fixed values, `allItems`, and the draft 3 or draft 4 form of
  `required`. It also holds `SchemaContext` (local definitions, URI
  building and a cache), `args2Query`, `query2Args`/`convert`,
  `getMediaTypes`, the schema-version setting and
  `addTitlesToProperties`.
- **Form builders** (`js/psi.forms.js`): fixed-value schemas, request
  schemas, jsonform field lists, draft 4 `required` lists and
  "(optional)" descriptions.
- **Table layout** (`js/psi.table.js`): the column tree, header rows,
  widths, the cached table definition and the cells of a row.
- **The integer parts of evaluation** (`js/psi.evaluation.js`): the loss
  sum over zipped values, the classification loss, the memoised loss of a
  result, label indexing, the confusion matrix, the choice of result class,
  the comparator's argument check and the attribute-values URI.
- **Small helpers**: `queryAsNote`, `makeViewableURI` and `ppHeader` of
  `js/psi.templates.js`, and the `working` flag and compiler registry of
  `js/psi.client.js`.

## How the model is built

- JSON values are the datatype `Json.JSON`:
  `Null | Bool | Num(int) | Str | Arr | Obj`. Objects are member lists in
  insertion order, so `required` lists and errors keep their order.
  `undefined` is `None` of an `Option<JSON>`.
- Thrown JavaScript exceptions are `Failure` values of
  `Json.Exception`: `TypeError`, `RangeError` (stack exhausted),
  `URIError` and `SyntaxError`.
- Recursion that JavaScript bounds only by its stack carries a `fuel`
  parameter. Running out of fuel is the `RangeError` of a stack overflow in
  the validator and `StackOverflow` in the compiler.
- Foreign functions are parameters, not axioms:
  - `decodeURIComponent` (`Decoder`);
  - `RegExp.test` (`Regex`);
  - `encodeURIComponent` and `JSON.stringify` (`Codec`);
  - `parseInt` and `parseFloat` (`Parsers`);
  - the server behind `$.getJSON`, a `remote: map<string, JSON>`.
- Code that changes state in place is a class with `modifies` clauses:
  - `Tv4Context.ValidatorContext` (`schemas`, `missing`);
  - `PsiSchema.SchemaContext` (`local`, `cache`);
  - `PsiSchema.Compiler` and `PsiSchema.SchemaSettings`;
  - `PsiTable.TableLayout` (`colsByDepth`), `PsiTable.Emitter` (the cached
    definition) and `PsiTable.TableRow` (the cells);
  - `PsiEvaluation.EvaluationResult` and
    `PsiEvaluation.ClassificationResult`;
  - `PsiClient.Client` (`working`, `schemaCompilers`).
- Each method is proved equal to a pure specification function:
  `Tv4Validate.ValidateAll`, `PsiCompile.CompileValue`, `PsiTable.Tree`,
  `PsiEvaluation.Confusion` and the others. The properties are then proved
  about those functions as lemmas.
- Where the code behaves differently from what its design description
  promises, the model follows the code:
  - An unresolved `$ref` inside `oneOf`, `not`, `properties`,
    `patternProperties`, `additionalProperties` or a schema dependency
    throws a `TypeError`, because the code reads `.length` of the `null`
    that `validateAll` returns (`js/tv4_as_jsv.js:64-79`). So does one in
    an `anyOf` alternative before any alternative has passed. So does one
    at the top level: `validate` reads `errors.length` of the `null`
    (`js/tv4_as_jsv.js:666-667`). An unresolved reference degrades to "no
    errors" in exactly three places. Two are `allOf` and
    `items`/`additionalItems`, whose loops run `for (var e in subErrors)`
    over the `null`. The third is an `anyOf` alternative after a passing
    one, because `isValid ||` never reads the `null`
    (`js/tv4_as_jsv.js:463`).
  - The fetch cache lives in the `SchemaContext` that each `compile` call
    creates (`js/psi.schema.js:142`). It is therefore per compile, not per
    compiler.
  - A missing required property's error has the data path `/key`, not the
    empty path (`js/tv4_as_jsv.js:354`).
  - `recursiveCompare` finds `null` equal to `{}`, and comparing `null`
    with an object that has members throws.
  - `prefixWith` escapes only the first `~` and the first `/` of a
    segment. `getSchema` unescapes only the first `~1` and `~0`.
  - A string-length error's code is its message text: the source builds
    the code with a comma expression.
  - The `/*` branch of `_compileObject` is unreachable, since the `/` rule
    is tried first.

## Model

| member | source | states |
|---|---|---|
| Tv4Errors.CodeNumber | js/tv4_as_jsv.js:575-603 | The error codes fall into the documented bands: type and enum below 10, combinations 10-99, numbers 100-199, strings 200-299, objects 300-399, arrays 400 and up. |
| Tv4Errors.CodeNumberInjective | js/tv4_as_jsv.js:575-603 | No two error codes share a number. |
| Tv4Errors.NewError | js/tv4_as_jsv.js:605-614 | A new error has its code, empty data and schema paths, and no sub-errors. |
| Tv4Errors.PrefixWith | js/tv4_as_jsv.js:616-631 | `prefixWith` keeps the code and the number of sub-errors. A given data or schema prefix is escaped and put in front of that path as `/` plus the segment; an absent prefix leaves the path alone. Each sub-error is the old sub-error prefixed in turn with the escaped segments. |
| Tv4Errors.EscapeFirstIs | js/tv4_as_jsv.js:616-631 | The escaping is exactly the two first-occurrence replacements `~` to `~0` and `/` to `~1`. |
| Tv4Errors.EscapePlain | js/tv4_as_jsv.js:616-631 | A segment without `~` or `/` goes into a path unchanged. |
| Tv4Errors.PlainSchemaPrefix | js/tv4_as_jsv.js:616-631 | Prefixing with a plain keyword puts `/keyword` in front of the schema path. |
| Tv4Errors.PrefixAll | js/tv4_as_jsv.js:622-629 | The sub-errors are prefixed one for one, each with the segments given, and keep their codes. |
| Tv4Errors.SubErrorsEscapedTwice | js/tv4_as_jsv.js:616-628 | Sub-errors receive the already escaped segment, so it is escaped twice: the prefix `a/b` becomes `/a~1b` on the error and `/a~01b` on its first sub-error. |
| Tv4Errors.PrefixEach | js/tv4_as_jsv.js:441-453 | A loop that pushes `prefixWith` of every error gives one prefixed error per error, in order. |
| Tv4Compare.KeysDefinedIn | js/tv4_as_jsv.js:98-107 | The key loop throws exactly when it has a key to read and the other value is `null`. |
| Tv4Compare.KeysDefinedInIs | js/tv4_as_jsv.js:98-107 | Against an object, the key loop decides whether every key is defined in it. |
| Tv4Compare.NullEqualsEmptyObject | js/tv4_as_jsv.js:81-117 | `null` and `{}` compare equal, both ways round. |
| Tv4Compare.NullAgainstObjectThrows | js/tv4_as_jsv.js:81-117 | Comparing `null` with an object that has members throws a TypeError, both ways round. |
| Tv4Compare.ArrayNeverEqualsNonArray | js/tv4_as_jsv.js:86-87 | An array never equals a non-array. |
| Tv4Compare.CompareReflexive | js/tv4_as_jsv.js:81-117 | Every value equals itself, and comparing it with itself cannot throw. |
| Tv4Compare.CompareIsSameValue | js/tv4_as_jsv.js:81-117 | On values without `null`, the comparison never throws and decides exactly structural equality: equal primitives, arrays equal element by element, objects with the same defined keys and equal values. |
| Tv4Compare.CompareItemsIsSameValue | js/tv4_as_jsv.js:92-96 | The element loop decides element-wise equality from its position on. |
| Tv4Compare.CompareMembersIsSameValue | js/tv4_as_jsv.js:108-112 | The member loop decides member-wise equality from its position on. |
| Tv4Registry.Stored | js/tv4_as_jsv.js:17-19 | A registered schema is found exactly when its entry exists and is not `null`. |
| Tv4Registry.SplitAtHash | js/tv4_as_jsv.js:21-26 | A URL splits at its first `#` into a base without `#` and the fragment; without a `#` the fragment is empty. |
| Tv4Registry.SplitAtHashOf | js/tv4_as_jsv.js:21-26 | A base without `#`, then `#` and a fragment, splits back into the two. |
| Tv4Registry.Walk | js/tv4_as_jsv.js:35-43 | Following no segments gives the document itself; the value reached is never `null`. |
| Tv4Registry.Locate | js/tv4_as_jsv.js:16-47 | A stored URL is an exact hit; whatever is found is never `null`. |
| Tv4Registry.Record | js/tv4_as_jsv.js:48-51 | The base URL is appended to `missing` only when it is not there yet. |
| Tv4Registry.GetSchema | js/tv4_as_jsv.js:16-52 | A lookup either leaves `missing` alone or appends the base URL once. A hit and a thrown error record nothing. |
| Tv4Registry.GetSchemaKeepsMissing | js/tv4_as_jsv.js:48-51 | `missing` stays free of duplicates and only ever grows at its end. |
| Tv4Registry.ExactHit | js/tv4_as_jsv.js:17-20 | An exact hit returns the stored schema and records nothing. |
| Tv4Registry.EmptyPointerGivesBase | js/tv4_as_jsv.js:27-31 | An empty pointer after the `#` gives the whole base document. |
| Tv4Registry.RelativePointerNotRecorded | js/tv4_as_jsv.js:32-33 | A pointer not starting with `/` gives `undefined` and records nothing. |
| Tv4Registry.UnknownBaseRecorded | js/tv4_as_jsv.js:48-51 | When neither the URL nor its base is registered, the result is `undefined` and the base is recorded once. |
| Tv4Registry.PointerWalksSegments | js/tv4_as_jsv.js:35-51 | A `/`-pointer walks its segments in order. A walk that reaches a value returns it; one that breaks off gives `undefined` and records the base. |
| Tv4Registry.UnescapeOnlyFirst | js/tv4_as_jsv.js:37 | Only the first `~1` of a segment is unescaped: `~1~1` reads as `/~1`. |
| Tv4Registry.Children | js/tv4_as_jsv.js:647-653 | The values the trusted-schema search descends into are strictly smaller than the value. |
| Tv4Registry.TrustedKeepsEntries | js/tv4_as_jsv.js:634-655 | The trusted-schema search never replaces an entry: the first schema found for an `id` wins. |
| Tv4Registry.TrustedSucceedsWithoutNull | js/tv4_as_jsv.js:634-655 | A schema without `null` in it is always searched without throwing. |
| Tv4Registry.AddSchemaRegistersUrl | js/tv4_as_jsv.js:53-62 | `addSchema(url, schema)` registers the schema under `url`. |
| Tv4Registry.AddNullSchemaThrows | js/tv4_as_jsv.js:53-62 | Adding a `null` schema throws a TypeError. |
| Tv4Checks.KeywordError | js/tv4_as_jsv.js:616-631 | A fresh error prefixed with a keyword keeps its code, the empty data path and no sub-errors. |
| Tv4Checks.RequiredError | js/tv4_as_jsv.js:354 | The error for a missing required name is built exactly when the name is a string or `null`, and has code OBJECT_REQUIRED. |
| Tv4CheckLemmas.TypeNamed | js/tv4_as_jsv.js:128-150 | A single type name admits exactly the data of that type, and "integer" admits every number. A mismatch is one INVALID_TYPE error. |
| Tv4CheckLemmas.NumberTypeName | js/tv4_as_jsv.js:128-150 | Only numbers have the type name "number". |
| Tv4CheckLemmas.TypeListed | js/tv4_as_jsv.js:128-150 | A list of type names admits the data exactly when one of them does. |
| Tv4CheckLemmas.TypeObjectAdmitsNothing | js/tv4_as_jsv.js:128-150 | An object given as `type` has no length and admits nothing. |
| Tv4CheckLemmas.EnumMatchIs | js/tv4_as_jsv.js:152-163 | The enum loop finds a match exactly when some remaining value equals the data. |
| Tv4CheckLemmas.EnumOfNullFreeValues | js/tv4_as_jsv.js:152-163 | Without `null` on either side, `enum` accepts exactly the data equal to a listed value and otherwise reports ENUM_MISMATCH. |
| Tv4CheckLemmas.EnumNullAgainstObjectThrows | js/tv4_as_jsv.js:152-163 | `enum: [null]` against an object with members throws. |
| Tv4CheckLemmas.MinMaxOfNumbers | js/tv4_as_jsv.js:187-208 | With numeric bounds a number passes exactly when it lies within them, each bound exclusive when its flag is set. Too small is NUMBER_MINIMUM first; equal to an exclusive maximum is NUMBER_MAXIMUM_EXCLUSIVE. |
| Tv4CheckLemmas.MultipleOfNumber | js/tv4_as_jsv.js:174-185 | A non-zero `multipleOf` accepts exactly its multiples. |
| Tv4CheckLemmas.DivisibleByFallback | js/tv4_as_jsv.js:174-185 | Without a truthy `multipleOf`, the draft 3 `divisibleBy` is used and accepts exactly its multiples. |
| Tv4CheckLemmas.ZeroDivisors | js/tv4_as_jsv.js:174-185 | `multipleOf: 0` alone checks nothing; `divisibleBy: 0` rejects every number. |
| Tv4CheckLemmas.StringLengthOfNumbers | js/tv4_as_jsv.js:219-234 | A string passes numeric length bounds exactly when its length lies within them. The error's code is its message text. |
| Tv4CheckLemmas.DuplicateFromIs | js/tv4_as_jsv.js:274-285 | The pair loop finds a duplicate exactly when two elements are equal. |
| Tv4CheckLemmas.UniqueItemsOfNullFree | js/tv4_as_jsv.js:274-285 | Without `null` elements, `uniqueItems` reports ARRAY_UNIQUE exactly when two elements are equal. |
| Tv4CheckLemmas.ArrayLengthOfNumbers | js/tv4_as_jsv.js:260-272 | An array passes numeric `minItems`/`maxItems` exactly when its length lies within them. |
| Tv4CheckLemmas.MissingFromZero | js/tv4_as_jsv.js:351-356 | No name is missing from some position on exactly when every later name is present. |
| Tv4CheckLemmas.RequiredFromCounts | js/tv4_as_jsv.js:351-356 | The required loop never throws on string names and adds one OBJECT_REQUIRED error per missing name. |
| Tv4CheckLemmas.RequiredOfNames | js/tv4_as_jsv.js:348-359 | `required` reports one OBJECT_REQUIRED error per missing name, and none exactly when every name is present. |
| Tv4CheckLemmas.RequiredErrorPaths | js/tv4_as_jsv.js:354 | The error for a missing plain name `k` at position `i` has data path `/k` and schema path `/k/required/i`. |
| Tv4CheckLemmas.RequiredNumberThrows | js/tv4_as_jsv.js:354 | A missing required name that is a number throws, because `prefixWith` calls `replace` on it. |
| Tv4Validate.Resolve | js/tv4_as_jsv.js:14-70 | A schema without `$ref` is used as it is. A `$ref` that is not a string and is not a stored URL is unresolved (nothing to check) when it is an array without a `"#"` element, and throws otherwise. |
| Tv4Validate.ResolveByGetSchema | js/tv4_as_jsv.js:65-70 | A string `$ref` resolves through `getSchema`: a throw is passed on, and a falsy result means "not resolved". |
| Tv4Validate.ValidateAllResolved | js/tv4_as_jsv.js:64-79 | `validateAll` throws what resolving throws, returns `null` for an unresolved reference, and otherwise returns the errors of the six groups of checks. |
| Tv4Validate.AdditionalItemError | js/tv4_as_jsv.js:301 | An element beyond a closed tuple gets ARRAY_ADDITIONAL_ITEMS at `/additionalItems`. |
| Tv4Validate.PropertyErrorsOfParts | js/tv4_as_jsv.js:361-398 | A member's errors are those of `properties`, then `patternProperties`, then `additionalProperties` when neither applied. |
| Tv4Validate.DeclaredThrows | js/tv4_as_jsv.js:365-371 | A member's check throws what its `properties` part throws. |
| Tv4Validate.PatternsThrow | js/tv4_as_jsv.js:372-383 | A member's check throws what its pattern loop throws. |
| Tv4Validate.AdditionalThrows | js/tv4_as_jsv.js:384-395 | A member's check throws what its `additionalProperties` part throws. |
| Tv4Validate.DependencyError | js/tv4_as_jsv.js:406-409 | A string dependency that is missing gives OBJECT_DEPENDENCY_KEY with the empty data path. |
| Tv4Validate.Wrapped | js/tv4_as_jsv.js:662-664 | `validate` reads a string schema as `{"$ref": schema}` and any other schema as it is. |
| Tv4ValidateLemmas.RefIgnoresSiblings | js/tv4_as_jsv.js:65-70 | Two schemas with the same string `$ref` validate alike, whatever their other members. |
| Tv4ValidateLemmas.UnresolvedRefIsNull | js/tv4_as_jsv.js:65-69 | A `$ref` that does not resolve makes `validateAll` return `null`. |
| Tv4ValidateLemmas.ArrayOfEmptySchema | js/tv4_as_jsv.js:247-258 | The array checks of `{}` report nothing. |
| Tv4ValidateLemmas.ObjectOfEmptySchema | js/tv4_as_jsv.js:320-331 | The object checks of `{}` report nothing. |
| Tv4ValidateLemmas.CombinationsOfEmptySchema | js/tv4_as_jsv.js:429-439 | The combination checks of `{}` report nothing. |
| Tv4ValidateLemmas.EmptySchemaAcceptsAll | js/tv4_as_jsv.js:64-79 | `{}` accepts every document with no error. |
| Tv4ValidateLemmas.TupleFromClosed | js/tv4_as_jsv.js:292-309 | With `additionalItems: false` and passing tuple entries, the tuple loop adds one error per element beyond the tuple. |
| Tv4ValidateLemmas.ClosedTuple | js/tv4_as_jsv.js:287-318 | With `additionalItems: false` and a tuple every element passes, there is exactly one ARRAY_ADDITIONAL_ITEMS error per element beyond the tuple. |
| Tv4ValidateLemmas.PropertiesClosed | js/tv4_as_jsv.js:361-398 | With only `additionalProperties: false`, the member loop reports every remaining member. |
| Tv4ValidateLemmas.ClosedObject | js/tv4_as_jsv.js:384-395 | With only `additionalProperties: false`, every member of the object is reported, in order. |
| Tv4ValidateLemmas.PropertiesDeclared | js/tv4_as_jsv.js:365-371 | Declared members that pass their schemas add no errors to the member loop. |
| Tv4ValidateLemmas.DeclaredObject | js/tv4_as_jsv.js:361-398 | Members that are all declared and pass raise no error, whatever `additionalProperties` says. |
| Tv4ValidateLemmas.DependencyOnKey | js/tv4_as_jsv.js:400-427 | A string dependency reports one error exactly when the object has the key and lacks the other. |
| Tv4ValidateLemmas.AllOfFromSucceeds | js/tv4_as_jsv.js:441-453 | The `allOf` loop succeeds exactly when no remaining alternative throws. |
| Tv4ValidateLemmas.AllOfFromEmpty | js/tv4_as_jsv.js:441-453 | The `allOf` loop ends without errors exactly when it started without any and no remaining alternative reports one. |
| Tv4ValidateLemmas.AllOfIs | js/tv4_as_jsv.js:441-453 | `allOf` succeeds exactly when no alternative throws. Its errors are then exactly the gathered errors: each alternative's own errors, in order, prefixed with its index and `allOf`. They are empty exactly when no alternative reports one. |
| Tv4ValidateLemmas.AllOfFromGathers | js/tv4_as_jsv.js:441-453 | The `allOf` loop appends to what it holds exactly the gathered errors of the remaining alternatives. |
| Tv4ValidateLemmas.AnyOfFromIs | js/tv4_as_jsv.js:455-468 | The `anyOf` loop ends valid exactly when it was already valid or some remaining alternative passes. |
| Tv4ValidateLemmas.AnyOfIs | js/tv4_as_jsv.js:455-468 | When `anyOf` does not throw, it reports nothing exactly when some alternative passes. Otherwise it reports ANY_OF_MISSING at `/anyOf` carrying the gathered errors of all alternatives, each prefixed with its index and `anyOf`. |
| Tv4ValidateLemmas.AnyOfFromGathers | js/tv4_as_jsv.js:455-468 | The `anyOf` loop appends to what it holds exactly the gathered errors of the remaining alternatives. |
| Tv4ValidateLemmas.AnyOfUnresolvedAlternative | js/tv4_as_jsv.js:455-468 | An unresolved alternative throws only while no earlier alternative has passed. |
| Tv4ValidateLemmas.OneOfFromIs | js/tv4_as_jsv.js:470-493 | From any point where the loop's bookkeeping is right, the `oneOf` loop ends without error only when exactly one alternative passes, with ONE_OF_MULTIPLE only when two pass, with ONE_OF_MISSING only when none does, and with no other error. |
| Tv4ValidateLemmas.OneOfIs | js/tv4_as_jsv.js:470-493 | When `oneOf` does not throw, each of these holds in both directions: no error exactly when one alternative passes; ONE_OF_MULTIPLE exactly when two do; ONE_OF_MISSING exactly when none does. ONE_OF_MULTIPLE carries no sub-errors. ONE_OF_MISSING carries the gathered errors of all alternatives, each prefixed with its index and `oneOf`. |
| Tv4ValidateLemmas.OneOfFromGathers | js/tv4_as_jsv.js:470-493 | The `oneOf` loop reports nothing, ONE_OF_MULTIPLE with no sub-errors, or ONE_OF_MISSING carrying what it held plus the gathered errors of the remaining alternatives. |
| Tv4OneOf.OneOfIsMultiple | js/tv4_as_jsv.js:477-480 | A second passing alternative, after a first one, is rightly reported as ONE_OF_MULTIPLE: two alternatives pass. |
| Tv4OneOf.OneOfIsAtEnd | js/tv4_as_jsv.js:489-492 | At the end of the loop, no passing alternative gives ONE_OF_MISSING, which is right because none passes; one passing alternative gives no error, which is right because exactly one passes. |
| Tv4OneOf.OneOfSoFarStep | js/tv4_as_jsv.js:474-487 | The loop's bookkeeping (no earlier alternative passes except the one it remembers) carries over one alternative. |
| Tv4OneOf.OneOfVerdictReported | js/tv4_as_jsv.js:470-493 | A result that is right about which alternatives pass, and is one of the two errors the loop builds, decides the outcome in both directions and its sub-errors. |
| Tv4ValidateLemmas.NotIs | js/tv4_as_jsv.js:495-503 | `not` reports NOT_PASSED exactly when its schema passes, and throws when that schema is an unresolved `$ref`. |
| Tv4ValidateLemmas.PublicEmptySchema | js/tv4_as_jsv.js:660-672 | The empty schema accepts every value through the public API. |
| Tv4ValidateLemmas.PublicUnknownUrlThrows | js/tv4_as_jsv.js:660-672 | A schema URL the registry cannot resolve makes `validate` throw, as it reads `length` of `null`. |
| Tv4Context.PatternSkipped | js/tv4_as_jsv.js:372-383 | A pattern the key does not match changes nothing. |
| Tv4Context.PatternApplied | js/tv4_as_jsv.js:372-383 | A matching pattern whose schema resolves adds its errors, prefixed with the key, the pattern and `patternProperties`. |
| Tv4Context.PatternThrows | js/tv4_as_jsv.js:372-383 | A pattern that does not compile throws a SyntaxError; a matching pattern with a missing or unresolved schema throws a TypeError. |
| Tv4Context.ValidatorContext.constructor | js/tv4_as_jsv.js:11-14 | A new context has no missing URL and the parent's schemas, if there is a parent. |
| Tv4Context.ValidatorContext.GetSchema | js/tv4_as_jsv.js:16-52 | The schema found and the new `missing` are exactly those of the lookup function. |
| Tv4Context.ValidatorContext.AddSchema | js/tv4_as_jsv.js:53-62 | On success, every schema the search found is registered over the old registry; a throw leaves the registry alone. |
| Tv4Context.ValidatorContext.ValidateType | js/tv4_as_jsv.js:128-150 | The type loop gives the type check's result. |
| Tv4Context.ValidatorContext.ValidateEnum | js/tv4_as_jsv.js:152-163 | The enum loop gives the enum check's result. |
| Tv4Context.ValidatorContext.ValidateBasic | js/tv4_as_jsv.js:119-126 | The type error, then the enum error, each under `/type`. |
| Tv4Context.ValidatorContext.ValidateArrayUniqueItems | js/tv4_as_jsv.js:274-285 | The pair loop gives the uniqueness check's result. |
| Tv4Context.ValidatorContext.ValidateObjectRequiredProperties | js/tv4_as_jsv.js:348-359 | The required loop gives the required check's errors, in the order listed. |
| Tv4Context.ValidatorContext.ValidateAll | js/tv4_as_jsv.js:64-79 | The result is that of the `validateAll` function; `missing` only grows. |
| Tv4Context.ValidatorContext.ValidateTarget | js/tv4_as_jsv.js:67-78 | After resolving, a `null` target is not checked and any other goes through the six groups. |
| Tv4Context.ValidatorContext.ResolveReference | js/tv4_as_jsv.js:65-70 | Resolving the reference gives the resolution function's result. |
| Tv4Context.ValidatorContext.Categories | js/tv4_as_jsv.js:71-78 | The six groups run in order with no early exit. |
| Tv4Context.ValidatorContext.StructureCategories | js/tv4_as_jsv.js:75-77 | The array, object and combination groups follow the checks on the value itself. |
| Tv4Context.ValidatorContext.ValidateArray | js/tv4_as_jsv.js:247-258 | The length error, the uniqueness error, then the errors of the elements. |
| Tv4Context.ValidatorContext.ValidateArrayItems | js/tv4_as_jsv.js:287-318 | Each element against its tuple entry (then `additionalItems`), or every element against the one `items` schema. |
| Tv4Context.ValidatorContext.TupleStep | js/tv4_as_jsv.js:292-309 | One element of the tuple loop advances the loop function by one position. |
| Tv4Context.ValidatorContext.ValidateObject | js/tv4_as_jsv.js:320-331 | The property-count error, then the errors of `required`, of the members and of `dependencies`. |
| Tv4Context.ValidatorContext.ValidateObjectProperties | js/tv4_as_jsv.js:361-398 | The member loop gives the errors of each member in turn. |
| Tv4Context.ValidatorContext.ValidateProperty | js/tv4_as_jsv.js:364-396 | One member's errors are those of the member function. |
| Tv4Context.ValidatorContext.PropertyRest | js/tv4_as_jsv.js:372-395 | After the declared part, the pattern and additional parts complete the member's errors. |
| Tv4Context.ValidatorContext.DeclaredProperty | js/tv4_as_jsv.js:365-371 | Whether the key is declared, and the errors against the declared schema, which must resolve. |
| Tv4Context.ValidatorContext.PatternProperties | js/tv4_as_jsv.js:372-383 | Every matching pattern applies its schema, which must resolve. |
| Tv4Context.ValidatorContext.PatternStep | js/tv4_as_jsv.js:373-382 | One pattern advances the pattern-loop function by one pattern. |
| Tv4Context.ValidatorContext.AdditionalProperty | js/tv4_as_jsv.js:384-395 | For a member nothing else matched, `false` forbids it and a schema must resolve and is applied. |
| Tv4Context.ValidatorContext.ValidateObjectDependencies | js/tv4_as_jsv.js:400-427 | The errors of each dependency whose key the object has. |
| Tv4Context.ValidatorContext.DependencyStep | js/tv4_as_jsv.js:403-425 | One key of the dependency loop advances the loop function by one key. |
| Tv4Context.ValidatorContext.ValidateDependency | js/tv4_as_jsv.js:404-424 | A string names one key that must be present, an array lists several, and any other value is a schema the whole object must pass. |
| Tv4Context.ValidatorContext.ValidateCombinations | js/tv4_as_jsv.js:429-439 | The errors of `allOf`, then the `anyOf`, `oneOf` and `not` errors. |
| Tv4Context.ValidatorContext.LaterCombinations | js/tv4_as_jsv.js:435-437 | The `oneOf` and `not` checks follow `allOf` and `anyOf`. |
| Tv4Context.ValidatorContext.ValidateAllOf | js/tv4_as_jsv.js:441-453 | Returns what the function `Tv4Validate.ValidateAllOf` gives, and only adds to `missing`. By `Tv4ValidateLemmas.AllOfIs` that is a throw exactly when an alternative throws, and otherwise every alternative's errors, in order, prefixed with its index and `allOf`. |
| Tv4Context.ValidatorContext.ValidateAnyOf | js/tv4_as_jsv.js:455-468 | Returns what the function `Tv4Validate.ValidateAnyOf` gives, and only adds to `missing`. By `Tv4ValidateLemmas.AnyOfIs` that is no error exactly when some alternative passes, and otherwise ANY_OF_MISSING carrying every alternative's prefixed errors. |
| Tv4Context.ValidatorContext.AnyOfStep | js/tv4_as_jsv.js:458-465 | One alternative advances the `anyOf` loop function by one alternative. |
| Tv4Context.ValidatorContext.ValidateOneOf | js/tv4_as_jsv.js:470-493 | Returns what the function `Tv4Validate.ValidateOneOf` gives, and only adds to `missing`. By `Tv4ValidateLemmas.OneOfIs` that is no error exactly when one alternative passes. Two passing alternatives give ONE_OF_MULTIPLE with no sub-errors. No passing alternative gives ONE_OF_MISSING with every alternative's prefixed errors. |
| Tv4Context.ValidatorContext.OneOfAlternative | js/tv4_as_jsv.js:474-488 | One alternative either ends the loop with ONE_OF_MULTIPLE or advances it by one alternative. |
| Tv4Context.ValidatorContext.ValidateNot | js/tv4_as_jsv.js:495-503 | NOT_PASSED when the data passes the schema under `not`. |
| Tv4Context.Validate | js/tv4_as_jsv.js:660-672 | `validate` throws what the validation throws. Otherwise it reports the errors, is valid exactly when there are none, and names the first as `error`. |
| PsiQuery.Pieces | js/psi.schema.js:43-45 | One `key=value` piece per argument, in order. |
| PsiQuery.KeyLength | js/psi.schema.js:59 | The key of a match is the longest run without `?`, `=` or `&`. |
| PsiQuery.ValueLength | js/psi.schema.js:59 | The value of a match is the longest run without `&`. |
| PsiQuery.Scan | js/psi.schema.js:59 | Every match has a non-empty key free of delimiters and a value free of `&`. |
| PsiQuery.ScanAt | js/psi.schema.js:59 | A `key=value` piece at the head of a query scans to its pair. |
| PsiQuery.ScanJoin | js/psi.schema.js:59 | Scanning `key=value` pieces joined by `&` gives the pairs back when keys are non-empty and delimiter-free and values free of `&`. |
| PsiQuery.ReplaceAllAbsent | js/psi.schema.js:46 | The `%20` replacement leaves a query without `%` alone. |
| PsiQuery.EncodedPairs | js/psi.schema.js:42-47 | Each argument is written as its encoded key and its encoded JSON text. |
| PsiQuery.PlusJoin | js/psi.schema.js:46 | Turning `%20` into `+` in the joined query is the same as turning it into `+` in every encoded key and value, since no `%20` can span an `=` or an `&`. |
| PsiQuery.PlusScannable | js/psi.schema.js:46 | The `+` replacement keeps keys non-empty and free of `?`, `=`, `&`, and values free of `&`. |
| PsiQuery.Args2QueryScans | js/psi.schema.js:42-66 | Parsing what `args2Query` wrote gives back every encoded key and encoded JSON value, in order, with `%20` turned into `+`, whatever characters were encoded. This holds when the encoder leaves keys non-empty and free of `?`, `=`, `&` and values free of `&`, as `encodeURIComponent` does. An encoding without `%` comes back unchanged. |
| PsiQuery.PutArg | js/psi.schema.js:59 | `args[k] = v`: an existing key keeps its place, a new one goes last, and no other key changes. |
| PsiQuery.ConvertFromValues | js/psi.schema.js:62-63 | The conversion loop converts every argument that the schema types. |
| PsiQuery.ConvertStep | js/psi.schema.js:62-63 | One turn of the loop converts one more key. |
| PsiQuery.Query2ArgsConverts | js/psi.schema.js:55-66 | With a schema, `query2Args` keeps the parsed keys, converts each typed argument and leaves the others as raw text or `undefined`. |
| PsiQuery.BooleanArgument | js/psi.schema.js:88 | A converted boolean is true exactly for the text `true`. |
| PsiQuery.JustMediaType | js/psi.schema.js:70 | A leading `@` is removed and nothing else. |
| PsiQuery.Elements | js/psi.schema.js:76 | The filter visits the elements of an array. |
| PsiQuery.MediaTypeOfString | js/psi.schema.js:71-72 | An `@`-string names exactly its media type; another string names none. |
| PsiQuery.MediaTypesFromStrings | js/psi.schema.js:76 | The filtered media types are exactly the `@`-members, stripped. |
| PsiQuery.MediaTypesOfAlternatives | js/psi.schema.js:74-76 | The media types of an `anyOf` list of strings are exactly its `@`-members, stripped. |
| PsiQuery.MediaTypeOfKey | js/psi.schema.js:77-79 | A one-key object names the media type of its key. |
| PsiCompile.RootOf | js/psi.schema.js:96 | The context root always ends in `/`, and a root that already does is kept. |
| PsiCompile.Resolve | js/psi.schema.js:105-121 | Resolving only adds to the cache and never changes the local definitions. |
| PsiCompile.CompileValue | js/psi.schema.js:152-168 | Compiling only adds to the context. |
| PsiCompile.ResolveAndCompile | js/psi.schema.js:170-180 | Resolving then compiling only adds to the context. |
| PsiCompile.CompileItems | js/psi.schema.js:182-188 | Compiling the elements only adds to the context. |
| PsiCompile.AddLocals | js/psi.schema.js:192-193 | Adding the `#` definitions keeps every earlier definition's name. |
| PsiCompile.WithoutLocals | js/psi.schema.js:194 | The members left are exactly those that are not `#` definitions. |
| PsiCompile.FirstReference | js/psi.schema.js:196 | The position of the first `$` member, if there is one. |
| PsiCompile.CompileObject | js/psi.schema.js:190-227 | Compiling an object only adds to the context. |
| PsiCompile.BuildFrom | js/psi.schema.js:203-220 | The member loop only adds to the context. |
| PsiCompile.FlagRequired | js/psi.schema.js:247 | `required: true` is set on an object; any other value is left as it is. |
| PsiCompile.AddObjectProperty | js/psi.schema.js:231-256 | Adding a property only adds to the context. |
| PsiCompile.Tagged | js/psi.schema.js:145 | An object result is tagged with `$schema`; anything else is left as it is. |
| PsiCompile.TitleOne | js/psi.schema.js:268-271 | A `null` property schema throws. An object keeps its type; a title it already has is kept, and an object without one gets its key. Anything else is unchanged. |
| PsiCompile.AddTitlesOf | js/psi.schema.js:265-275 | Only `properties` changes. |
| PsiCompileLemmas.NoLocals | js/psi.schema.js:192-194 | An object without `#` members adds no definitions and loses no members. |
| PsiCompileLemmas.PlainIsFixed | js/psi.schema.js:152-227 | Compiling plain JSON Schema, which has no PSI notation, gives it back and leaves the context alone. |
| PsiCompileLemmas.PlainItemsFixed | js/psi.schema.js:182-188 | A plain array compiles to itself. |
| PsiCompileLemmas.PlainMembersFixed | js/psi.schema.js:203-220 | The members of a plain object compile to themselves. |
| PsiCompileLemmas.CompilePlain | js/psi.schema.js:139-150 | A plain schema compiles to itself, tagged with the compiler's version. |
| PsiCompileLemmas.CompileScalars | js/psi.schema.js:152-167 | Numbers and booleans are kept. `@type` becomes the media-type schema. `null` is refused. `$name` with no fuel overflows, and otherwise compiles what it finds locally. |
| PsiCompileLemmas.CompileOtherString | js/psi.schema.js:155-160 | A string that starts with neither `$` nor `@` is kept. |
| PsiCompileLemmas.CompileItemsShape | js/psi.schema.js:182-188 | Arrays compile element by element, in order, to an array of the same length. |
| PsiCompileLemmas.KeyByFirst | js/psi.schema.js:192-204 | Which rule a member name falls under is decided by its first character. |
| PsiCompileLemmas.LocalsAreFlat | js/psi.schema.js:190-220 | Definitions are not scoped: `#a` defined inside one member is what `$a` resolves to in a later sibling. |
| PsiCompileLemmas.FlatDefines | js/psi.schema.js:192-194 | A member holding only `#a` compiles to `{}` and adds `a`. |
| PsiCompileLemmas.FlatResolves | js/psi.schema.js:156-157 | A later `$a` finds that definition. |
| PsiCompileLemmas.ObjectWithoutNotation | js/psi.schema.js:190-220 | An object without definitions or references compiles member by member in the context it is given. |
| PsiCompileLemmas.DefinitionOnly | js/psi.schema.js:192-194 | An object holding only `#a` compiles to `{}` and adds `a`. |
| PsiCompileLemmas.BuildFromMember | js/psi.schema.js:206-218 | A member that is not a property is compiled and stored under its target name. |
| PsiCompileLemmas.ReferenceKeyReplacesObject | js/psi.schema.js:196-198 | The first `$` member replaces the whole object, and its value becomes the arguments of the resolution. |
| PsiCompileLemmas.ObjectWithReference | js/psi.schema.js:196-198 | An object whose first reference is its `i`-th member compiles to what that reference resolves to. |
| PsiCompileLemmas.FirstReferenceAt | js/psi.schema.js:196 | The first reference is the first `$` member. |
| PsiCompileLemmas.PropertyMember | js/psi.schema.js:204-205 | `{K: V}` for a property key `K` compiles to the single-property schema. |
| PsiCompileLemmas.AddPropertyToEmpty | js/psi.schema.js:231-256 | One property added to an empty result gives the single-property schema. |
| PsiCompileLemmas.AddListedToEmpty | js/psi.schema.js:245-251 | A `/` property under draft 4 gives the single-property schema with its name in `required`. |
| PsiCompileLemmas.AddUnlistedToEmpty | js/psi.schema.js:245-248 | A `?` property, or a `/` property under draft 3, gives the single-property schema without a `required` list. |
| PsiCompileLemmas.AddListed | js/psi.schema.js:240-255 | A draft 4 `/` property pushes its name onto `required` and stores its value, wrapped in `enum` for `=`. |
| PsiCompileLemmas.AddUnlisted | js/psi.schema.js:240-255 | Otherwise the value is stored, flagged `required: true` under draft 3 for `/`. |
| PsiCompileLemmas.PushFresh | js/psi.schema.js:249-250 | The first required name starts the `required` list. |
| PsiCompileLemmas.SetPropertyFresh | js/psi.schema.js:253-254 | The first property starts the `properties` object. |
| PsiCompileLemmas.StarIsRequiredProperty | js/psi.schema.js:204-212 | `/*` is read as a required property named `*`; the `additionalProperties` rule never applies. |
| PsiCompileLemmas.RequiredInOrder | js/psi.schema.js:203-251 | Under draft 4 the `required` list holds the `/` properties in member order; under draft 3 it is never built. |
| PsiCompileLemmas.RequiredFrom | js/psi.schema.js:203-220 | The member loop extends the `required` list in member order. |
| PsiCompileLemmas.BuildFromPropertyStep | js/psi.schema.js:204-205 | A property member goes through `_addObjectProperty`, and a throw there ends the loop. |
| PsiCompileLemmas.AddPropertyRequired | js/psi.schema.js:245-251 | One property extends `required` by its name when it is a draft 4 `/` member, and leaves it alone otherwise. |
| PsiCompileLemmas.AddObjectPropertyIs | js/psi.schema.js:231-256 | `_addObjectProperty` sets the type to object, pushes onto `required` when it should, and stores the compiled value. |
| PsiCompileLemmas.PushRequiredAppends | js/psi.schema.js:249-250 | Pushing a name appends it to the existing list. |
| PsiCompileLemmas.SetPropertyKeepsOthers | js/psi.schema.js:253-254 | Storing a property changes no member but `properties`. |
| PsiCompileLemmas.AllItemsRenamed | js/psi.schema.js:208-209 | `allItems` is stored as `items`. |
| PsiCompileLemmas.ResolveTwice | js/psi.schema.js:105-121 | Resolving again what was just resolved gives the same document and needs no fetch. |
| PsiCompileLemmas.SchemaURISplits | js/psi.schema.js:110-111 | The URI splits into a base and a query: an `http://` id is the base as it is, any other id goes under the root; the query is empty without arguments and is `?` followed by the query text otherwise. |
| PsiTitles.TitleOneFixed | js/psi.schema.js:268-271 | A property schema that is already titled throughout is unchanged. |
| PsiTitles.AddTitlesOfFixed | js/psi.schema.js:265-275 | A schema whose properties are titled throughout is unchanged. |
| PsiTitles.TitleMembersFixed | js/psi.schema.js:267-272 | The loop over titled properties changes nothing. |
| PsiTitles.TitleItemsFixed | js/psi.schema.js:267-272 | The loop over titled array properties changes nothing. |
| PsiTitles.AddTitlesFixed | js/psi.schema.js:265-275 | A schema whose property schemas all have titles comes back unchanged. |
| PsiTitles.TitleOneTitles | js/psi.schema.js:268-271 | Titling one property schema leaves it titled throughout. |
| PsiTitles.AddTitlesOfTitles | js/psi.schema.js:265-275 | After titling, every property schema has a title. |
| PsiTitles.TitleMembersTitles | js/psi.schema.js:267-272 | The loop leaves every property titled. |
| PsiTitles.TitleItemsTitles | js/psi.schema.js:267-272 | The loop leaves every array property titled. |
| PsiTitles.AddTitlesTitles | js/psi.schema.js:265-275 | After `addTitlesToProperties`, every property schema at every level of nested object schemas has a title. |
| PsiTitles.AddTitlesIdempotent | js/psi.schema.js:265-275 | A second `addTitlesToProperties` changes nothing. |
| PsiSchema.SchemaSettings.constructor | js/psi.schema.js:22 | The default version is draft 4. |
| PsiSchema.SchemaSettings.GetJSONSchemaVersion | js/psi.schema.js:24 | The version is always draft 3 or draft 4. |
| PsiSchema.SchemaSettings.SetJSONSchemaVersion | js/psi.schema.js:31-35 | Setting succeeds exactly for one of the two version URIs. Anything else throws and leaves the default as it was. |
| PsiSchema.SchemaContext.constructor | js/psi.schema.js:93-98 | The root gets a trailing `/`, and both maps start empty. |
| PsiSchema.SchemaContext.Add | js/psi.schema.js:99 | A later definition of the same id wins, and the cache is untouched. |
| PsiSchema.SchemaContext.Resolve | js/psi.schema.js:105-121 | The document and the new local and cache state are those of the resolution function; a failed request caches nothing. |
| PsiSchema.Compiler.constructor | js/psi.schema.js:124-129 | An unsupported or missing version falls back to the current default, so the version is always draft 3 or draft 4. |
| PsiSchema.Compiler.Compile | js/psi.schema.js:139-150 | Compiles in a fresh context rooted at the compiler's URI, then tags with the compiler's version. |
| PsiSchema.Compiler.CompileValue | js/psi.schema.js:152-168 | The result and the context agree with `_compile` as a function. |
| PsiSchema.Compiler.ResolveAndCompile | js/psi.schema.js:170-180 | The result and the context agree with `_resolveAndCompile` as a function. |
| PsiSchema.Compiler.CompileArray | js/psi.schema.js:182-188 | The elements are compiled in order, through one context. |
| PsiSchema.Compiler.CompileObject | js/psi.schema.js:190-227 | The result and the context agree with `_compileObject` as a function. |
| PsiSchema.Compiler.CompileMembers | js/psi.schema.js:203-220 | The member loop agrees with its function. |
| PsiSchema.Compiler.AddObjectProperty | js/psi.schema.js:231-256 | The new members of `result` and the context agree with `_addObjectProperty` as a function. |
| PsiForms.Values | js/psi.forms.js:56 | The values `_.each` visits, one per entry. |
| PsiForms.PutAll | js/psi.forms.js:49 | `_.extend` keeps every name not assigned and gives every assigned name a value. |
| PsiForms.FixedValueSchema | js/psi.forms.js:15-19 | A fixed-value schema is a string schema whose default is the value. |
| PsiForms.IsObjectSchema | js/psi.forms.js:150 | `_isObjectSchema` throws exactly on `null`; when it holds, the schema is typed `object` and has object `properties`. |
| PsiForms.ExtractFieldNames | js/psi.forms.js:152-154 | The names are the property names of an object schema and otherwise the schema's own member names; `null` throws. |
| PsiForms.BaseRequestForm | js/psi.forms.js:36-40 | The form starts with a hidden `uri` field and has a hidden `psiType` field exactly when a request type is given. |
| PsiForms.GetBaseRequestForm | js/psi.forms.js:36-40 | The pushes build exactly that form. |
| PsiForms.AsArray | js/psi.forms.js:96 | An array is kept and any other value becomes a one-element array. |
| PsiForms.Retyped | js/psi.forms.js:98-105 | Retyping keeps the length and every field's name, and leaves object entries untouched. |
| PsiForms.ApplyTypeToFields | js/psi.forms.js:98-105 | The loop rewrites the array in place to the retyped list. |
| PsiForms.AssembleFields | js/psi.forms.js:84-94 | The list is the start, then the help entry, the field names and the submit entry, with the options applied. |
| PsiForms.ApplyOptions | js/psi.forms.js:89-92 | Text areas are applied first, then fixed fields. |
| PsiForms.MakeFields | js/psi.forms.js:76-78 | `makeFields` assembles from an empty start. |
| PsiForms.MakeRequestFields | js/psi.forms.js:72-74 | `makeRequestFields` assembles from the base request form. |
| PsiForms.MakeSchema | js/psi.forms.js:42-50 | `makeSchema` throws exactly on `null` and otherwise gives an object. |
| PsiForms.GetSchemaWithURI | js/psi.forms.js:186-194 | `getSchemaWithURI` throws exactly on `null` and otherwise gives an object. |
| PsiForms.RequiredKeys | js/psi.forms.js:170 | The filter throws exactly when some field schema is `null`, and keeps exactly the names whose schema has a truthy `required`. |
| PsiForms.GetV4CompliantSchema | js/psi.forms.js:166-174 | Under draft 3 the input is returned. Under draft 4 it is wrapped as the properties of an object schema, with a `required` list exactly when some field is flagged, listing exactly those names. |
| PsiForms.DescribeLeaf | js/psi.forms.js:60-65 | Only the description changes. An exempt field keeps its description; any other ends in "(optional)" after its old description. |
| PsiForms.AddOptionalDescriptions | js/psi.forms.js:52-70 | Descriptions keep the kind of every value and the member names of an object. Which descriptions gain "(optional)" is proved in `PsiFormsLemmas.OptionalLeafNoted` and `PsiFormsLemmas.NestedOptionalLeafNoted`. |
| PsiForms.DescribeProperties | js/psi.forms.js:53-54 | Describing an object schema's properties keeps its member names and gives an object. That `properties` becomes the recursive result and nothing else changes is proved in `PsiFormsLemmas.PropertiesDescribed`. |
| PsiForms.DescribeField | js/psi.forms.js:57-66 | Describing one field keeps its kind. A leaf object schema becomes the described leaf. A primitive field schema succeeds exactly when it is not `null` and its name is in the required list. |
| PsiForms.DescribeMembers | js/psi.forms.js:56-67 | The member loop gives one member per field from `i` on, each under the field's name and of the field's kind. |
| PsiForms.DescribeItems | js/psi.forms.js:56-67 | The element loop keeps the length and the kind of each element. |
| PsiForms.MakeRequestFormData | js/psi.forms.js:177-179 | The request form data holds the described request schema, the request fields built from the schema's field names, and the options' JSON fields; `null` throws. |
| PsiForms.MakeFormData | js/psi.forms.js:182-184 | The form data holds the described schema, the fields built from its field names, and the options' JSON fields. |
| PsiForms.NamesSurviveDescriptions | js/psi.forms.js:177-184 | Adding descriptions leaves the field names a form is built from as they were. |
| PsiFormsLemmas.RetypedIdempotent | js/psi.forms.js:98-105 | A second retyping with the same targets changes nothing, whatever type it applies. |
| PsiFormsLemmas.TextareaWins | js/psi.forms.js:89-92 | A field listed as a text area stays one even when it is also listed as fixed. |
| PsiFormsLemmas.FieldsLayout | js/psi.forms.js:84-94 | The list has the start, the optional help, the names and the optional submit, in that order; options change how a named field is shown, never which field it is. |
| PsiFormsLemmas.AssembledLayout | js/psi.forms.js:85-87 | Before the options, the entries are exactly the start, the help entry, the names and the submit entry. |
| PsiFormsLemmas.RequestFieldsStartHidden | js/psi.forms.js:72-74 | A request form starts with the hidden `uri` field and, for a request type, the hidden `psiType` field, whatever the options say. |
| PsiFormsLemmas.LeafTwice | js/psi.forms.js:60-65 | A described field is described already. |
| PsiFormsLemmas.DescribeTwice | js/psi.forms.js:52-70 | Describing what was described changes nothing. |
| PsiFormsLemmas.MembersDescribedTwice | js/psi.forms.js:56-67 | Every described member is described already. |
| PsiFormsLemmas.ItemsDescribedTwice | js/psi.forms.js:56-67 | Every described element is described already. |
| PsiFormsLemmas.PropertiesTwice | js/psi.forms.js:53-54 | Described properties are described already and still form an object schema. |
| PsiFormsLemmas.FieldTwice | js/psi.forms.js:57-66 | A described field, described again under its name, is unchanged. |
| PsiFormsLemmas.MembersTwice | js/psi.forms.js:56-67 | Each member the loop produced is unchanged by being described again. |
| PsiFormsLemmas.ItemsTwice | js/psi.forms.js:56-67 | Each element the loop produced is unchanged by being described again at its position. |
| PsiFormsLemmas.AddOptionalDescriptionsIdempotent | js/psi.forms.js:52-70 | `addOptionalDescriptions` is idempotent: a second pass finds every optional field already noted. |
| PsiFormsLemmas.MemberAt | js/psi.forms.js:56-67 | The member described at any position sits at that position, under its own name, and is that field described under its name. |
| PsiFormsLemmas.PropertiesDescribed | js/psi.forms.js:53-54 | An object schema is described by describing its `properties` against its own `required` list; every other member stays as it was. |
| PsiFormsLemmas.OptionalLeafNoted | js/psi.forms.js:56-66 | In a schema given as its properties, every leaf field keeps its name and place and becomes the described leaf, so an optional one ends its description in "(optional)". |
| PsiFormsLemmas.NestedOptionalLeafNoted | js/psi.forms.js:52-66 | One level down: each leaf property of an object schema keeps its name and place and is described against that schema's own `required` list. |
| PsiFormsLemmas.PutAllWins | js/psi.forms.js:49 | With distinct member names, every assigned member ends up with its own value. |
| PsiFormsLemmas.MakeSchemaFieldsWin | js/psi.forms.js:49 | For a properties-only schema, its own members win over the added `psiType`, and `psiType` is the fixed-value schema otherwise. |
| PsiFormsLemmas.MakeSchemaOfObjectSchema | js/psi.forms.js:43-47 | For an object schema, only `properties` changes: a copy gains the `psiType` field when a request type is given. |
| PsiFormsLemmas.SchemaWithURIWins | js/psi.forms.js:187-190 | The properties gain a fixed `uri` field unless they already have one, and every other member stays. |
| PsiTable.Grow | js/psi.table.js:44 | `colsByDepth` gains a row only when it is too short, and keeps every row it had. |
| PsiTable.AppendAt | js/psi.table.js:60 | A column is appended to one row and no other row changes. |
| PsiTable.Tree | js/psi.table.js:43-62 | Laying out a value leaves at least `depth + 1` rows and never drops one. |
| PsiTable.TreeRows | js/psi.table.js:43-62 | Every column of a laid-out subtree is appended to the header row of its own depth, in the order the recursion meets it, a composite after its children; nothing else is added to any row. |
| PsiTable.ChildrenRows | js/psi.table.js:51-55 | The member loop appends the columns of each child's subtree, child after child, to the rows of their depths, and only adds children to the list it has built. |
| PsiTable.TableDefinitionRows | js/psi.table.js:36-62 | Each header row of a definition is the instance header (top row only) followed by the parse tree's columns at that depth; an atomic first value is the top row's one leaf. |
| PsiTable.TreeChildren | js/psi.table.js:51-55 | The member loop never drops a row. |
| PsiTable.ChildrenStep | js/psi.table.js:51-55 | One turn of the loop lays out member `i` at the next depth and goes on. |
| PsiTable.ChildrenDone | js/psi.table.js:51-55 | Past the last member the loop has nothing left to lay out. |
| PsiTable.ChildrenAdvance | js/psi.table.js:51-55 | The loop's bookkeeping after laying out member `i`. |
| PsiTable.FirstValue | js/psi.table.js:37 | The first value throws exactly when `value` is falsy and there is no `valueList`. |
| PsiTable.TableDefinitionOf | js/psi.table.js:36-41 | The top row starts with the label or `Instance` header, and every column spans exactly its leaves. |
| PsiTable.TopRowKept | js/psi.table.js:38-39 | Laying out from the root only appends to the top row. |
| PsiTable.ChildrenKeepRows | js/psi.table.js:51-55 | The loop only appends to the rows at or above its depth. |
| PsiTable.TreeKeepsRows | js/psi.table.js:43-62 | Laying out a column only appends to the existing rows. |
| PsiTable.TreeSpans | js/psi.table.js:46-55 | A leaf spans 1 and a composite spans the sum of its children's widths, so an empty one spans 0. |
| PsiTable.ChildrenSpan | js/psi.table.js:51-55 | Every child column the loop makes spans its leaves. |
| PsiTable.GenerateTableDefinition | js/psi.table.js:36-41 | The definition built is that of the definition function. |
| PsiTable.TableLayout.constructor | js/psi.table.js:38 | The layout starts with the given rows. |
| PsiTable.TableLayout.MakeColumnTree | js/psi.table.js:43-62 | The column and the new rows are those of the layout function. |
| PsiTable.TableLayout.MakeChildColumns | js/psi.table.js:47-55 | The children's columns are those of the loop function, and the width is the sum of theirs. |
| PsiTable.TableLayout.MakeChildColumn | js/psi.table.js:52-54 | One turn advances the loop function by one member. |
| PsiTable.Emitter.constructor | js/psi.table.js:26 | A new emitter has no cached definition. |
| PsiTable.Emitter.GetTableDefinition | js/psi.table.js:25-29 | The definition is computed once and cached; later calls return the cached one, whatever value they are given. |
| PsiTable.CellText | js/psi.table.js:111 | A `null` leaf shows as the empty string, a missing one as "undefined", any other as its text. |
| PsiTable.NullAndMissingLeaves | js/psi.table.js:107-133 | A `null` leaf fills an empty cell and a missing member a cell reading "undefined". |
| PsiTable.RowCells | js/psi.table.js:107-113 | A row gets exactly one cell per leaf of the column tree. |
| PsiTable.ChildCells | js/psi.table.js:109 | The first `n` children give exactly their leaves' cells. |
| PsiTable.ChildCellsFailureSticks | js/psi.table.js:109 | Once a child throws, the whole row throws. |
| PsiTable.ChildFails | js/psi.table.js:109 | A child that throws, or a value whose members cannot be read, makes the row throw. |
| PsiTable.ChildCellsStep | js/psi.table.js:109 | One more child appends that child's cells. |
| PsiTable.LeafCountIsWidth | js/psi.table.js:46-55 | A column that spans its leaves has exactly `width` leaves. |
| PsiTable.RowMatchesDefinition | js/psi.table.js:36-113 | Every row filled against a generated definition has one cell per leaf column, as many as the root spans. |
| PsiTable.TableRow.constructor | js/psi.table.js:77 | A new row has no cells. |
| PsiTable.TableRow.AddValueToRow | js/psi.table.js:107-113 | On success the row has gained exactly the cells of the value, in order. |
| PsiTable.TableRow.AddChildCells | js/psi.table.js:109 | The children's loop appends exactly their cells. |
| PsiTable.PresentValue | js/psi.table.js:125-133 | An encoded `http`/`data` value is decoded first, and a malformed escape throws a URIError. Then an `http://` value becomes a link, a `data:image/` value an image, and anything else is returned unchanged. |
| PsiEvaluation.NewLoss | js/psi.evaluation.js:36-45 | A loss keeps its name and function; an omitted summarizer is the identity. |
| PsiEvaluation.Zip | js/psi.evaluation.js:42 | Zipping is as long as the longer input and pairs the values at each position, `undefined` past an end. |
| PsiEvaluation.Classification | js/psi.evaluation.js:47 | The classification loss is 0 for identical values and 1 otherwise, named "error", with no summarizer. |
| PsiEvaluation.SumCountsMismatches | js/psi.evaluation.js:41-43 | The sum over the first `n` positions counts the mismatches among them. |
| PsiEvaluation.ClassificationCountsMismatches | js/psi.evaluation.js:41-47 | The classification loss counts the mismatched positions, so it never exceeds the longer length. |
| PsiEvaluation.ClassificationZeroIff | js/psi.evaluation.js:41-47 | The classification loss is 0 exactly when the inputs have the same length and are identical position by position. |
| PsiEvaluation.EvaluationResult.constructor | js/psi.evaluation.js:19-24 | A new result keeps its loss and its name and has no loss value yet. |
| PsiEvaluation.EvaluationResult.ReviseLoss | js/psi.evaluation.js:25-28 | The loss is computed once; every later call returns the stored value, whatever the arguments. |
| PsiEvaluation.FirstIndex | js/psi.evaluation.js:57 | The position where a value first occurs. |
| PsiEvaluation.UniqElements | js/psi.evaluation.js:57 | The labels are the test values, each once. |
| PsiEvaluation.UniqFirstOccurrenceOrder | js/psi.evaluation.js:57 | The labels keep the order in which the test values first occur. |
| PsiEvaluation.IndexMapInverse | js/psi.evaluation.js:58-60 | With distinct labels, `labelToIndex` is the exact inverse of `labels`. |
| PsiEvaluation.IndexLabels | js/psi.evaluation.js:58-60 | The loop builds exactly that index. |
| PsiEvaluation.Zeros | js/psi.evaluation.js:62 | The matrix starts as labels-by-labels zeros. |
| PsiEvaluation.Confusion | js/psi.evaluation.js:62-64 | The confusion matrix is labels by labels. |
| PsiEvaluation.ConfusionCounts | js/psi.evaluation.js:63-64 | Cell `[t][p]` counts the items whose value is label `t` and whose prediction is label `p`. |
| PsiEvaluation.ConfusionCell | js/psi.evaluation.js:64 | One test item moves only the cell of its value and its prediction. |
| PsiEvaluation.ConfusionTotal | js/psi.evaluation.js:62-64 | The cells add up to the number of items whose prediction is a label; when every prediction is one, to the number of test items. |
| PsiEvaluation.CountConfusions | js/psi.evaluation.js:63-64 | The loop fills exactly the confusion matrix. |
| PsiEvaluation.ClassificationResult.constructor | js/psi.evaluation.js:53-64 | A classification result holds the loss of its data, the distinct labels, their index and the confusion matrix. |
| PsiEvaluation.EmittedType | js/psi.evaluation.js:165-167 | The type is an object's first key, nothing for an object without keys, and `emits` itself otherwise. |
| PsiEvaluation.DetermineResultClass | js/psi.evaluation.js:163-173 | Each outcome holds exactly under its condition. The emitted type `$number` gives regression. `$string` with a truthy `enum` gives classification. Any other emitted type, or `$string` without a truthy `enum`, gives `null`. A `TypeError` is thrown for a `null` attribute or for `$string` whose schema is undefined. |
| PsiEvaluation.CheckComparatorOptions | js/psi.evaluation.js:148-153 | The check passes exactly with truthy source and target attributes and a non-empty array of predictors; `null` options throw. |
| PsiEvaluation.AttributeValuesQuery | js/psi.evaluation.js:200-202 | `instance=all` is added at the end; the first `?` stays where it was, or is the one added after a URI without a query. |
| PsiTemplates.LineEnd | js/psi.templates.js:51 | `.*` stops at the first line terminator. |
| PsiTemplates.NoteQueryWraps | js/psi.templates.js:51 | A label without `?` is unchanged. Otherwise the note holds exactly the text from the first `?` to the end of its line, and everything else is kept. In a one-line label the note runs from the first `?` to the end. |
| PsiTemplates.Truncated | js/psi.templates.js:50 | A label of 50 characters or more is cut to its first 50 plus `...`; a shorter one is unchanged. |
| PsiTemplates.QueryAsNote | js/psi.templates.js:49-52 | A short label without `?` is unchanged, and no result is longer than 66 characters. |
| PsiTemplates.StripQuery | js/psi.templates.js:44 | The text is cut exactly at the first `?` whose line runs to the end of the text, and kept whole when there is no such `?`. |
| PsiTemplates.StripQueryFrom | js/psi.templates.js:44 | The search from a position on finds the first such `?` after it. |
| PsiTemplates.StripQueryOneLine | js/psi.templates.js:44 | A one-line `hideThis` is cut exactly at its first `?`. |
| PsiTemplates.MakeViewableURI | js/psi.templates.js:43-46 | With nothing to hide, only the query is wrapped. |
| PsiTemplates.MakeViewableURIHides | js/psi.templates.js:43-46 | A URI that starts with a query-free `hideThis` and a slash loses exactly that prefix before its query is wrapped. |
| PsiTemplates.MakeViewableURIRemovesFirst | js/psi.templates.js:45 | Wherever `hideThis/` first occurs in the URI, exactly that occurrence is removed before the query is wrapped. |
| PsiTemplates.MakeViewableURIHidesNothing | js/psi.templates.js:45 | A URI in which `hideThis/` never occurs only has its query wrapped. |
| PsiTemplates.MakeViewableURIIgnoresQuery | js/psi.templates.js:44 | `hideThis?query` hides exactly what `hideThis` hides, when the query is on one line. |
| PsiTemplates.HeaderLines | js/psi.templates.js:35 | One `key: value` line per top-level property, in order. |
| PsiTemplates.PpHeaderLines | js/psi.templates.js:34-36 | Splitting the printed header at its newlines gives back one line per property, as long as no key or value holds a newline. |
| PsiClient.SchemaRootFor | js/psi.client.js:38 | A missing or empty URI gives the default root; any other is kept. |
| PsiClient.MessageOr | js/psi.client.js:17 | The message, or the fallback when it is missing or empty. |
| PsiClient.PpJSON | js/psi.client.js:48 | A string is returned unchanged; anything else is printed. |
| PsiClient.ErrorText | js/psi.client.js:21 | The message, followed by the printed details when they are truthy. |
| PsiClient.Client.constructor | js/psi.client.js:10-13 | A new client is not working and has no compiler. It keeps the settings, the schema server, the codec and the printer it is given. |
| PsiClient.Client.StartWorking | js/psi.client.js:15-18 | The flag goes up, the registry is untouched, and the line logged is the message or "Working". |
| PsiClient.Client.StopWorking | js/psi.client.js:19 | The flag goes down. |
| PsiClient.Client.ShowSuccess | js/psi.client.js:20 | The flag goes down, and the line logged is the message or "Last action successful". |
| PsiClient.Client.ShowError | js/psi.client.js:21-48 | The flag goes down, the registry is untouched, and the line logged is the message followed, when the details are truthy, by the details printed with the client's indented printer (`JSON.stringify(obj, null, 2)`). |
| PsiClient.Client.ShowMessageDialog | js/psi.client.js:25 | The flag goes down and the message is logged; the title and type are ignored. |
| PsiClient.Client.GetSchemaCompiler | js/psi.client.js:37-45 | A known root returns its compiler and changes nothing. An unknown root gets a new compiler, and no other entry changes. |
| PsiClient.Client.GetSchemaCompilerTwice | js/psi.client.js:37-45 | Asking twice for the same root gives the same compiler, and the second request registers nothing. |

## Left out

- Floating point is not modelled; numbers are integers. This leaves out:
  - precision and recall, their rounding and averages
    (`js/psi.evaluation.js:66-82`);
  - the regression loss `Math.pow` and `meanLoss`;
  - the `parseInt`/`parseFloat` of `convert`, which are parameters;
  - non-integer `%` in `multipleOf` and in the `integer` type check.
- `getSimpleMetrics`, the chart accessors, `ConfusionMatrixDisplay` and the
  Highcharts code are presentation only.
- `PredictionTester` and `PredictorComparator` network steps are left out,
  because they are I/O: `_getResource`, `postRequest`, `run`, `testOne`,
  `createPredictingAttribute`, and the `superInit` option trimming. Only
  the argument check, `determineResultClass` and the attribute-values URI
  are modelled.
- jQuery Deferred chaining in the compiler is modelled sequentially. The
  server behind `$.getJSON` is a map from URI to document, and a URI not
  in it is a failed request. Concurrent in-flight fetches and "pending"
  cache entries are not modelled.
- `compileFromText` and `postprocessJSONFields` use `eval` and are left
  out.
- Regular expressions are the `Regex` parameter wherever the pattern comes
  from the data (`pattern`, `patternProperties`). The fixed patterns of
  the PSI code are written out as string functions.
- `parseURI`, `resolveUrl` and `normSchema` (RFC 3986, section 5.2) are
  left out. `addSchema` registers schemas without normalising their `id`
  and `$ref` URLs.
- The DOM side of the table and form code is left out: `makeHeader`,
  `_valueToTable`, `_th`, `FormData.displayErrors`, `insertTextAtCaret`,
  `DialogSettings`, `JSONValidatingOnSubmit`.
- The templates cache `get`, `getSchemaForViewing` and `template` need
  the HTML templates and are left out.
- The JSV-like wrapper (`js/tv4_as_jsv.js:693-709`) only copies
  `dataPath` into `uri` and is left out.
- Console output is modelled as the line a method returns.
- Json.StringToNumber reads only the empty string and optionally signed
  decimal digits. JavaScript's `Number` also trims white space and reads
  fractions, exponents, `Infinity` and `0x`, `0o` and `0b` forms; the model
  gives NaN for those, since the model's numbers are integers.
- Object identity and aliasing are not modelled; documents are values.
  - `makeSchema`'s shallow clone shares nested property schemas with its
    input. `addOptionalDescriptions` then rewrites them in place, and the
    model does not show that sharing.
  - `prefixWith` rewrites an error in place; the model returns a new
    error.
  - A child `ValidatorContext` reaches its parent's schemas through the
    prototype chain; the model copies the parent's map when the child is
    made.
- `Tv4Registry.Record`: `missing` is checked as a list. The code checks
  `missing[baseUrl]`, so a base URL such as `length` or `0` can collide
  with the array's own keys; that quirk is not modelled.
- Labels and predictions in the confusion matrix are strings. String
  lengths are counted in characters, not UTF-16 code units.
- Recursion is bounded by a `fuel` parameter standing for the JavaScript
  stack. Running out of fuel is a stack-overflow error, as in the engine.
  The depth at which a real engine overflows is not modelled.
- Tv4Context.ValidatorContext.ValidateAll promises only that `missing`
  grows and stays free of duplicates, not which URLs it gains. The same
  holds for the other `validate*` methods, `Categories` and
  `ResolveReference`. `Tv4Context.ValidatorContext.GetSchema` states
  `missing` exactly.
- Tv4Context.Validate promises only that the reported `missing` has no
  duplicates, not its exact contents.
- PsiForms.MakeSchema and PsiForms.GetSchemaWithURI promise only success
  and an object result in their own contracts. The member-by-member
  content is proved in `PsiFormsLemmas.MakeSchemaFieldsWin`,
  `PsiFormsLemmas.MakeSchemaOfObjectSchema` and
  `PsiFormsLemmas.SchemaWithURIWins` under distinct member names.
- The `message` text of a `ValidationError` is not modelled; an error is
  its code, its two paths and its sub-errors. This drops the pair of
  indices that ONE_OF_MULTIPLE's message names
  (`js/tv4_as_jsv.js:482`), the value printed in ENUM_MISMATCH's message
  (`js/tv4_as_jsv.js:162`) and the actual and limit values in the number,
  string, array and object limit messages. The one exception is the
  string-length error, whose code is its message text (see above).
- Objects are member lists, and JavaScript's own object semantics are not
  modelled:
  - a JSON text with the same member name twice keeps one member in
    JavaScript; the model's `Json.Keys`, `Json.Entries` and
    `Json.ForInKeys` list every occurrence;
  - a `for (k in v)` loop visits integer-like keys first, in ascending
    order, and then the other keys in insertion order; the model visits
    them all in insertion order;
  - names inherited from `Object.prototype` are not members: in
    JavaScript `required: ["constructor"]` passes for `{}`, because
    `data[key] === undefined` (`js/tv4_as_jsv.js:353`) finds the inherited
    function, while the model reports OBJECT_REQUIRED;
  - underscore's `_.each`, `_.map` and `_.keys` treat an object with a
    numeric `length` member as array-like; the model treats every object
    by its members.
- Tv4Context.ValidatorContext.ResolveReference: an array `$ref` with no
  `"#"` element whose text is not a stored URL is recorded in `missing`
  under its text (`String(array)`). The code pushes the array object
  itself and keys the duplicate check by its text
  (`js/tv4_as_jsv.js:48-51`); `missing` is a list of strings here.
- ValidateAllOf: the contract of `Tv4Context.ValidatorContext.ValidateAllOf`
  says only that `missing` grows at its end and stays free of duplicates,
  not which URLs the alternatives' unresolved references add. What one
  lookup adds is stated by `Tv4Registry.GetSchema` (`js/tv4_as_jsv.js:48-51`).
- ValidateAnyOf: the same holds for `missing` in
  `Tv4Context.ValidatorContext.ValidateAnyOf`.
- ValidateOneOf: the same holds for `missing` in
  `Tv4Context.ValidatorContext.ValidateOneOf`.
