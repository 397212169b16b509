/** The keyword checks of tv4 that do not validate sub-schemas: `type`,
    `enum`, `multipleOf`/`divisibleBy`, `minimum`/`maximum`, string length and
    `pattern`, array length and `uniqueItems`, property counts and `required`
    (draft-fge-json-schema-validation-00, sections 5.1 to 5.5, as tv4 reads them). */
module Tv4Checks {
  import opened Wrappers
  import opened Text
  import opened Json
  import opened Tv4Errors
  import opened Tv4Compare

  /** `new RegExp(pattern).test(subject)`; `None` is the SyntaxError thrown for
      a pattern that does not compile. */
  type Regex = (string, string) -> Option<bool>

  /** The error `e.prefixWith(null, keyword)` of a fresh error. */
  function KeywordError(c: ErrorCode, keyword: string): (e: VError)
    ensures e.code == Known(c) && e.dataPath == "" && e.subErrors == []
  {
    PrefixWith(NewError(c), None, Some(keyword))
  }

  // ---- type and enum -------------------------------------------------------

  /** The type name `validateType` computes for `data`. */
  function DataType(data: JSON): string
  {
    match data
    case Null => "null"
    case Arr(_) => "array"
    case _ => TypeOf(data)
  }

  /** The list of allowed types: a `type` that is not an object stands for
      itself; an array lists them; an object has no length and allows none. */
  function AllowedTypes(t: JSON): seq<JSON>
  {
    if TypeOf(t) != "object" then [t] else Indexed(t)
  }

  /** Whether one entry of the type list admits `data` (`type == dataType`,
      or `"integer"` for a number; numbers are integers, so `data % 1 == 0`). */
  predicate TypeAdmits(t: JSON, data: JSON)
  {
    LooseEqualsString(t, DataType(data)) || (LooseEqualsString(t, "integer") && DataType(data) == "number")
  }

  /** `validateType(data, schema)`. */
  function ValidateType(data: JSON, schema: JSON): Option<VError>
  {
    var t := Member(schema, "type");
    if !Defined(t) then None
    else
      var allowed := AllowedTypes(t.value);
      if exists i :: 0 <= i < |allowed| && TypeAdmits(allowed[i], data) then None
      else Some(NewError(INVALID_TYPE))
  }

  /** `validateEnum(data, schema)`: `recursiveCompare(data, v)` against each
      listed value in turn; the comparison may throw. */
  function ValidateEnum(data: JSON, schema: JSON): Result<Option<VError>, Exception>
  {
    var e := Member(schema, "enum");
    if !Defined(e) then Success(None)
    else match EnumMatch(data, Indexed(e.value), 0)
      case Failure(x) => Failure(x)
      case Success(found) => Success(if found then None else Some(NewError(ENUM_MISMATCH)))
  }

  /** The loop of `validateEnum` from position `i` on: whether some value matches. */
  function EnumMatch(data: JSON, values: seq<JSON>, i: nat): Result<bool, Exception>
    requires i <= |values|
    decreases |values| - i
  {
    if i == |values| then Success(false)
    else match RecursiveCompare(data, values[i])
      case Failure(x) => Failure(x)
      case Success(true) => Success(true)
      case Success(false) => EnumMatch(data, values, i + 1)
  }

  /** `validateBasic`: the type error, then the enum error, both prefixed
      with the schema path `/type`. */
  function ValidateBasic(data: JSON, schema: JSON): Result<seq<VError>, Exception>
  {
    var t := ValidateType(data, schema);
    match ValidateEnum(data, schema)
    case Failure(x) => Failure(x)
    case Success(en) =>
      Success((if t.Some? then [PrefixWith(t.value, None, Some("type"))] else [])
              + (if en.Some? then [PrefixWith(en.value, None, Some("type"))] else []))
  }

  // ---- numbers -------------------------------------------------------------

  /** `validateMultipleOf`: the divisor is `schema.multipleOf || schema.divisibleBy`;
      a divisor that is not a number or is zero makes `data % divisor` NaN,
      which is never 0. The error carries no schema path. */
  function ValidateMultipleOf(data: JSON, schema: JSON): Option<VError>
  {
    var m := Member(schema, "multipleOf");
    var divisor := if m.Some? && Truthy(m.value) then m else Member(schema, "divisibleBy");
    if !Defined(divisor) || !data.Num? then None
    else
      var d := ToNumber(divisor.value);
      if d.None? || d.value == 0 || data.n % d.value != 0 then Some(NewError(NUMBER_MULTIPLE_OF))
      else None
  }

  /** `validateMinMax`: the minimum block (inclusive bound, then the exclusive
      flag on equality), then the maximum block; the first failing test wins. */
  function ValidateMinMax(data: JSON, schema: JSON): Option<VError>
  {
    if !data.Num? then None
    else
      var x := data.n;
      var min := Member(schema, "minimum");
      var max := Member(schema, "maximum");
      var exMin := Member(schema, "exclusiveMinimum");
      var exMax := Member(schema, "exclusiveMaximum");
      if Defined(min) && LessThan(x, min.value) then Some(KeywordError(NUMBER_MINIMUM, "minimum"))
      else if Defined(min) && exMin.Some? && Truthy(exMin.value) && LooseEqualsNumber(x, min.value) then
        Some(KeywordError(NUMBER_MINIMUM_EXCLUSIVE, "exclusiveMinimum"))
      else if Defined(max) && GreaterThan(x, max.value) then Some(KeywordError(NUMBER_MAXIMUM, "maximum"))
      else if Defined(max) && exMax.Some? && Truthy(exMax.value) && LooseEqualsNumber(x, max.value) then
        Some(KeywordError(NUMBER_MAXIMUM_EXCLUSIVE, "exclusiveMaximum"))
      else None
  }

  /** `validateNumeric`. */
  function ValidateNumeric(data: JSON, schema: JSON): seq<VError>
  {
    var m := ValidateMultipleOf(data, schema);
    var b := ValidateMinMax(data, schema);
    (if m.Some? then [m.value] else []) + (if b.Some? then [b.value] else [])
  }

  // ---- strings -------------------------------------------------------------

  /** The text that `validateStringLength` passes where the code belongs. */
  function LengthMessage(tooShort: bool, length: nat, bound: JSON): string
  {
    (if tooShort then "String is too short (" else "String is too long (")
    + NatToString(length) + " chars), "
    + (if tooShort then "minimum " else "maximum ") + ToText(bound)
  }

  /** `validateStringLength`. Each error is built as
      `(CODE, new ValidationError(message))`: the comma operator drops the code,
      so the error's code is the message text. */
  function ValidateStringLength(data: JSON, schema: JSON): Option<VError>
  {
    if !data.Str? then None
    else
      var n := |data.s|;
      var min := Member(schema, "minLength");
      var max := Member(schema, "maxLength");
      if Defined(min) && LessThan(n, min.value) then
        Some(PrefixWith(VError(Text(LengthMessage(true, n, min.value)), "", "", []), None, Some("minLength")))
      else if Defined(max) && GreaterThan(n, max.value) then
        Some(PrefixWith(VError(Text(LengthMessage(false, n, max.value)), "", "", []), None, Some("maxLength")))
      else None
  }

  /** `validateStringPattern`; the pattern is the text of `schema.pattern`. */
  function ValidateStringPattern(test: Regex, data: JSON, schema: JSON): Result<Option<VError>, Exception>
  {
    var p := Member(schema, "pattern");
    if !data.Str? || !Defined(p) then Success(None)
    else match test(ToText(p.value), data.s)
      case None => Failure(SyntaxError)
      case Some(true) => Success(None)
      case Some(false) => Success(Some(KeywordError(STRING_PATTERN, "pattern")))
  }

  /** `validateString`. */
  function ValidateString(test: Regex, data: JSON, schema: JSON): Result<seq<VError>, Exception>
  {
    var l := ValidateStringLength(data, schema);
    match ValidateStringPattern(test, data, schema)
    case Failure(x) => Failure(x)
    case Success(p) => Success((if l.Some? then [l.value] else []) + (if p.Some? then [p.value] else []))
  }

  // ---- arrays --------------------------------------------------------------

  /** `validateArrayLength` for an array with the given elements. */
  function ValidateArrayLength(items: seq<JSON>, schema: JSON): Option<VError>
  {
    var min := Member(schema, "minItems");
    var max := Member(schema, "maxItems");
    if Defined(min) && LessThan(|items|, min.value) then Some(KeywordError(ARRAY_LENGTH_SHORT, "minItems"))
    else if Defined(max) && GreaterThan(|items|, max.value) then Some(KeywordError(ARRAY_LENGTH_LONG, "maxItems"))
    else None
  }

  /** The nested loops of `validateArrayUniqueItems` from the pair `(i, j)` on,
      pairs taken in order `(0,1), (0,2), ..., (1,2), ...`: whether some pair
      compares equal. */
  function DuplicateFrom(items: seq<JSON>, i: nat, j: nat): Result<bool, Exception>
    requires i <= |items| && i < j
    decreases |items| - i, |items| + 1 - j
  {
    if i == |items| then Success(false)
    else if j >= |items| then DuplicateFrom(items, i + 1, i + 2)
    else match RecursiveCompare(items[i], items[j])
      case Failure(x) => Failure(x)
      case Success(true) => Success(true)
      case Success(false) => DuplicateFrom(items, i, j + 1)
  }

  /** `validateArrayUniqueItems`: one error at the first equal pair. */
  function ValidateArrayUniqueItems(items: seq<JSON>, schema: JSON): Result<Option<VError>, Exception>
  {
    var u := Member(schema, "uniqueItems");
    if u.None? || !Truthy(u.value) then Success(None)
    else match DuplicateFrom(items, 0, 1)
      case Failure(x) => Failure(x)
      case Success(dup) => Success(if dup then Some(KeywordError(ARRAY_UNIQUE, "uniqueItems")) else None)
  }

  // ---- objects -------------------------------------------------------------

  /** `validateObjectMinMaxProperties` for an object with the given members. */
  function ValidateObjectMinMaxProperties(fields: seq<(string, JSON)>, schema: JSON): Option<VError>
  {
    var min := Member(schema, "minProperties");
    var max := Member(schema, "maxProperties");
    if Defined(min) && LessThan(|fields|, min.value) then Some(KeywordError(OBJECT_PROPERTIES_MINIMUM, "minProperties"))
    else if Defined(max) && GreaterThan(|fields|, max.value) then Some(KeywordError(OBJECT_PROPERTIES_MAXIMUM, "maxProperties"))
    else None
  }

  /** The error for the `i`-th required name when it is missing:
      `prefixWith(null, i)`, `prefixWith(null, "required")`, then
      `prefixWith(key, key)`, which throws for a key that is neither a string
      nor `null` (it has no `replace`) and does nothing for `null`. */
  function RequiredError(key: JSON, i: nat): (r: Result<VError, Exception>)
    ensures r.Success? <==> key.Null? || key.Str?
    ensures r.Success? ==> r.value.code == Known(OBJECT_REQUIRED)
  {
    var e := PrefixWith(PrefixWith(NewError(OBJECT_REQUIRED), None, Some(Index(i))), None, Some("required"));
    match key
    case Null => Success(e)
    case Str(k) => Success(PrefixWith(e, Some(k), Some(k)))
    case _ => Failure(TypeError)
  }

  /** The loop of `validateObjectRequiredProperties` from position `i` on. */
  function RequiredFrom(fields: seq<(string, JSON)>, names: seq<JSON>, i: nat, acc: seq<VError>)
    : Result<seq<VError>, Exception>
    requires i <= |names|
    decreases |names| - i
  {
    if i == |names| then Success(acc)
    else if Get(fields, ToText(names[i])).Some? then RequiredFrom(fields, names, i + 1, acc)
    else match RequiredError(names[i], i)
      case Failure(x) => Failure(x)
      case Success(e) => RequiredFrom(fields, names, i + 1, acc + [e])
  }

  /** `validateObjectRequiredProperties`. */
  function ValidateObjectRequiredProperties(fields: seq<(string, JSON)>, schema: JSON): Result<seq<VError>, Exception>
  {
    var r := Member(schema, "required");
    if !Defined(r) then Success([]) else RequiredFrom(fields, Indexed(r.value), 0, [])
  }

  /** The inner loop of `validateObjectDependencies` for an array of keys that
      `depKey` depends on, from position `i` on. */
  function DependencyKeysFrom(fields: seq<(string, JSON)>, depKey: string, keys: seq<JSON>, i: nat, acc: seq<VError>)
    : seq<VError>
    requires i <= |keys|
    decreases |keys| - i
  {
    if i == |keys| then acc
    else if Get(fields, ToText(keys[i])).Some? then DependencyKeysFrom(fields, depKey, keys, i + 1, acc)
    else
      var e := PrefixWith(PrefixWith(PrefixWith(NewError(OBJECT_DEPENDENCY_KEY), None, Some(Index(i))),
                                     None, Some(depKey)), None, Some("dependencies"));
      DependencyKeysFrom(fields, depKey, keys, i + 1, acc + [e])
  }
}
