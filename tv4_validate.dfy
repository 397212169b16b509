/** `validateAll` and the keyword checks that validate sub-schemas, as pure
    functions of the data, the schema and the registry. The loops of the
    JavaScript are written as tail-recursive functions over the loop index and
    the errors gathered so far; `ValidatorContext` proves its methods equal to
    them. `fuel` is the stack depth left: running out of it is the RangeError
    a `$ref` cycle ends in. */
module Tv4Validate {
  import opened Wrappers
  import opened Text
  import opened Json
  import opened Tv4Errors
  import opened Tv4Registry
  import opened Tv4Checks

  /** What validation consults besides data and schema: the registry, the URI
      decoder that `getSchema` uses and `RegExp.prototype.test`. */
  datatype Env = Env(schemas: map<string, JSON>, decode: Decoder, test: Regex)

  /** What `validateAll` returns: the errors, or `None` for the `null` it
      returns when a `$ref` does not resolve. */
  type Outcome = Result<Option<seq<VError>>, Exception>

  /** `for (var e in subErrors)` visits nothing when `subErrors` is `null`. */
  function Errors(sub: Option<seq<VError>>): seq<VError>
  {
    sub.GetOr([])
  }

  /** The `i`-th entry of an error list `r`, or nothing. */
  function Listed(r: Option<VError>): seq<VError>
  {
    if r.Some? then [r.value] else []
  }

  /** The `$ref` step of `validateAll`: the schema to validate against, or
      `None` when the reference does not resolve to a truthy value. A `$ref`
      that is not a string is looked up under its text. When it is not
      stored, `getSchema` calls `url.indexOf('#')`: an array has that method,
      finds no `"#"` element in the usual case, is recorded as missing and
      gives `undefined`, or throws at `url.substring` when it holds `"#"`; a
      number, boolean or object has no `indexOf` and throws. */
  function Resolve(env: Env, schema: JSON): (r: Result<Option<JSON>, Exception>)
    ensures !Defined(Member(schema, "$ref")) ==> r == Success(Some(schema))
    ensures var ref := Member(schema, "$ref");
      Defined(ref) && !ref.value.Str? && Stored(env.schemas, ToText(ref.value)).None? ==>
        r == if ref.value.Arr? && Str("#") !in ref.value.items then Success(None) else Failure(TypeError)
  {
    var ref := Member(schema, "$ref");
    if !Defined(ref) then Success(Some(schema))
    else
      var target :-
        if ref.value.Str? then
          match Locate(env.schemas, env.decode, ref.value.s)
          case Failure(e) => Failure(e)
          case Success(Hit(t)) => Success(Some(t))
          case Success(Miss(_)) => Success(None)
        else if Stored(env.schemas, ToText(ref.value)).Some? then Success(Some(env.schemas[ToText(ref.value)]))
        else if ref.value.Arr? && Str("#") !in ref.value.items then Success(None)
        else Failure(TypeError);
      Success(if target.Some? && Truthy(target.value) then target else None)
  }

  /** A `$ref` that is a string resolves through `getSchema`, whatever the
      `missing` list it is looked up with. */
  lemma ResolveByGetSchema(env: Env, schema: JSON, missing: seq<string>)
    requires Defined(Member(schema, "$ref")) && Member(schema, "$ref").value.Str?
    ensures var g := GetSchema(env.schemas, env.decode, missing, Member(schema, "$ref").value.s).0;
      Resolve(env, schema)
      == if g.Failure? then Failure(g.error)
         else Success(if g.value.Some? && Truthy(g.value.value) then g.value else None)
  {
  }

  /** `validateAll` once the schema is resolved: nothing is checked when the
      reference does not resolve, otherwise the six groups of checks run. */
  lemma ValidateAllResolved(env: Env, fuel: nat, data: JSON, schema: JSON)
    requires fuel > 0 && !schema.Null?
    ensures var t := Resolve(env, schema);
      t.Failure? ==> ValidateAll(env, fuel, data, schema) == Failure(t.error)
    ensures var t := Resolve(env, schema);
      t.Success? && t.value.None? ==> ValidateAll(env, fuel, data, schema) == Success(None)
    ensures var t := Resolve(env, schema);
      t.Success? && t.value.Some? ==>
        var c := Categories(env, fuel - 1, data, t.value.value);
        ValidateAll(env, fuel, data, schema) == if c.Failure? then Failure(c.error) else Success(Some(c.value))
  {
  }

  /** `validateAll(data, schema)`. */
  function ValidateAll(env: Env, fuel: nat, data: JSON, schema: JSON): Outcome
    decreases fuel, 0, 0
  {
    if fuel == 0 then Failure(RangeError)
    else if schema.Null? then Failure(TypeError)
    else
      var target :- Resolve(env, schema);
      if target.None? then Success(None)
      else
        var errs :- Categories(env, fuel - 1, data, target.value);
        Success(Some(errs))
  }

  /** The six groups of checks in the order `validateAll` runs them. */
  function Categories(env: Env, fuel: nat, data: JSON, schema: JSON): Result<seq<VError>, Exception>
    decreases fuel, 5, 0
  {
    var basic :- ValidateBasic(data, schema);
    var numeric := ValidateNumeric(data, schema);
    var str :- ValidateString(env.test, data, schema);
    var arr :- ValidateArray(env, fuel, data, schema);
    var obj :- ValidateObject(env, fuel, data, schema);
    var comb :- ValidateCombinations(env, fuel, data, schema);
    Success(basic + numeric + str + arr + obj + comb)
  }

  // ---- arrays --------------------------------------------------------------

  /** `validateArray`. */
  function ValidateArray(env: Env, fuel: nat, data: JSON, schema: JSON): Result<seq<VError>, Exception>
    decreases fuel, 4, 0
  {
    if !data.Arr? then Success([])
    else
      var len := ValidateArrayLength(data.items, schema);
      var unique :- ValidateArrayUniqueItems(data.items, schema);
      var items :- ValidateArrayItems(env, fuel, data.items, schema);
      Success(Listed(len) + Listed(unique) + items)
  }

  /** `validateArrayItems`: a tuple of schemas or one schema for every element. */
  function ValidateArrayItems(env: Env, fuel: nat, data: seq<JSON>, schema: JSON): Result<seq<VError>, Exception>
    decreases fuel, 3, 0
  {
    var items := Member(schema, "items");
    if !Defined(items) then Success([])
    else if items.value.Arr? then TupleFrom(env, fuel, data, items.value.items, Member(schema, "additionalItems"), 0, [])
    else EachItemFrom(env, fuel, data, items.value, 0, [])
  }

  /** The error for an element beyond a tuple when `additionalItems` is false. */
  function AdditionalItemError(i: nat): (e: VError)
    ensures e.code == Known(ARRAY_ADDITIONAL_ITEMS) && e.schemaPath == "/" + "additionalItems" && e.subErrors == []
  {
    PlainSchemaPrefix(NewError(ARRAY_ADDITIONAL_ITEMS), Some(Index(i)), "additionalItems");
    PrefixWith(NewError(ARRAY_ADDITIONAL_ITEMS), Some(Index(i)), Some("additionalItems"))
  }

  /** The tuple loop of `validateArrayItems` from element `i` on. */
  function TupleFrom(env: Env, fuel: nat, data: seq<JSON>, tuple: seq<JSON>, additional: Option<JSON>,
                     i: nat, acc: seq<VError>): Result<seq<VError>, Exception>
    requires i <= |data|
    decreases fuel, 2, |data| - i
  {
    if i == |data| then Success(acc)
    else if i < |tuple| then
      var sub :- ValidateAll(env, fuel, data[i], tuple[i]);
      var errs := PrefixEach(PrefixEach(Errors(sub), None, Some(Index(i))), Some(Index(i)), Some("items"));
      TupleFrom(env, fuel, data, tuple, additional, i + 1, acc + errs)
    else if !Defined(additional) then TupleFrom(env, fuel, data, tuple, additional, i + 1, acc)
    else if additional.value.Bool? then
      var errs := if additional.value.b then [] else [AdditionalItemError(i)];
      TupleFrom(env, fuel, data, tuple, additional, i + 1, acc + errs)
    else
      var sub :- ValidateAll(env, fuel, data[i], additional.value);
      var errs := PrefixEach(Errors(sub), Some(Index(i)), Some("additionalItems"));
      TupleFrom(env, fuel, data, tuple, additional, i + 1, acc + errs)
  }

  /** The single-schema loop of `validateArrayItems` from element `i` on. */
  function EachItemFrom(env: Env, fuel: nat, data: seq<JSON>, item: JSON, i: nat, acc: seq<VError>)
    : Result<seq<VError>, Exception>
    requires i <= |data|
    decreases fuel, 2, |data| - i
  {
    if i == |data| then Success(acc)
    else
      var sub :- ValidateAll(env, fuel, data[i], item);
      EachItemFrom(env, fuel, data, item, i + 1, acc + PrefixEach(Errors(sub), Some(Index(i)), Some("items")))
  }

  // ---- objects -------------------------------------------------------------

  /** `validateObject`. */
  function ValidateObject(env: Env, fuel: nat, data: JSON, schema: JSON): Result<seq<VError>, Exception>
    decreases fuel, 4, 0
  {
    if !data.Obj? then Success([])
    else
      var count := ValidateObjectMinMaxProperties(data.fields, schema);
      var required :- ValidateObjectRequiredProperties(data.fields, schema);
      var props :- PropertiesFrom(env, fuel, data.fields, schema, 0, []);
      var deps :- ValidateObjectDependencies(env, fuel, data.fields, schema);
      Success(Listed(count) + required + props + deps)
  }

  /** A sub-result whose `.length` is read: `null` throws. */
  function Counted(sub: Option<seq<VError>>): Result<seq<VError>, Exception>
  {
    if sub.None? then Failure(TypeError) else Success(sub.value)
  }

  /** The loop of `validateObjectProperties` from the `k`-th member of the
      data on. */
  function PropertiesFrom(env: Env, fuel: nat, fields: seq<(string, JSON)>, schema: JSON, k: nat, acc: seq<VError>)
    : Result<seq<VError>, Exception>
    requires k <= |fields|
    decreases fuel, 3, |fields| - k
  {
    if k == |fields| then Success(acc)
    else
      var key := fields[k].0;
      var errs :- PropertyErrors(env, fuel, key, fields[Lookup(fields, key).value].1, schema);
      PropertiesFrom(env, fuel, fields, schema, k + 1, acc + errs)
  }

  /** One turn of that loop, for the member `key` with value `value`: the
      declared property, then every matching pattern, then
      `additionalProperties` when neither matched. */
  function PropertyErrors(env: Env, fuel: nat, key: string, value: JSON, schema: JSON): Result<seq<VError>, Exception>
    decreases fuel, 2, 0
  {
    var (found1, errs1) :- DeclaredErrors(env, fuel, key, value, schema);
    var patterns := Member(schema, "patternProperties");
    var (found2, errs2) :-
      if Defined(patterns) then PatternsFrom(env, fuel, key, value, patterns.value, ForInKeys(patterns.value), 0, found1, [])
      else Success((found1, []));
    var errs3 :- if found2 then Success([]) else AdditionalErrors(env, fuel, key, value, schema);
    Success(errs1 + errs2 + errs3)
  }

  /** `PropertyErrors` assembled from its three parts. */
  lemma PropertyErrorsOfParts(env: Env, fuel: nat, key: string, value: JSON, schema: JSON,
                              f1: bool, e1: seq<VError>, f2: bool, e2: seq<VError>, e3: seq<VError>)
    requires DeclaredErrors(env, fuel, key, value, schema) == Success((f1, e1))
    requires var patterns := Member(schema, "patternProperties");
      Defined(patterns) ==> PatternsFrom(env, fuel, key, value, patterns.value, ForInKeys(patterns.value), 0, f1, []) == Success((f2, e2))
    requires !Defined(Member(schema, "patternProperties")) ==> f2 == f1 && e2 == []
    requires !f2 ==> AdditionalErrors(env, fuel, key, value, schema) == Success(e3)
    requires f2 ==> e3 == []
    ensures var r := PropertyErrors(env, fuel, key, value, schema); r.Success? && r.value == e1 + e2 + e3
  {
  }

  /** `PropertyErrors` throws what its first part throws. */
  lemma DeclaredThrows(env: Env, fuel: nat, key: string, value: JSON, schema: JSON)
    requires DeclaredErrors(env, fuel, key, value, schema).Failure?
    ensures PropertyErrors(env, fuel, key, value, schema) == Failure(DeclaredErrors(env, fuel, key, value, schema).error)
  {
  }

  /** `PropertyErrors` throws what the pattern loop throws. */
  lemma PatternsThrow(env: Env, fuel: nat, key: string, value: JSON, schema: JSON, f1: bool, e1: seq<VError>)
    requires DeclaredErrors(env, fuel, key, value, schema) == Success((f1, e1))
    requires var patterns := Member(schema, "patternProperties");
      Defined(patterns) && PatternsFrom(env, fuel, key, value, patterns.value, ForInKeys(patterns.value), 0, f1, []).Failure?
    ensures var patterns := Member(schema, "patternProperties");
      PropertyErrors(env, fuel, key, value, schema)
      == Failure(PatternsFrom(env, fuel, key, value, patterns.value, ForInKeys(patterns.value), 0, f1, []).error)
  {
  }

  /** `PropertyErrors` throws what its `additionalProperties` part throws. */
  lemma AdditionalThrows(env: Env, fuel: nat, key: string, value: JSON, schema: JSON, f1: bool, e1: seq<VError>, e2: seq<VError>)
    requires DeclaredErrors(env, fuel, key, value, schema) == Success((f1, e1))
    requires var patterns := Member(schema, "patternProperties");
      Defined(patterns) ==> PatternsFrom(env, fuel, key, value, patterns.value, ForInKeys(patterns.value), 0, f1, []) == Success((false, e2))
    requires !Defined(Member(schema, "patternProperties")) ==> !f1
    requires AdditionalErrors(env, fuel, key, value, schema).Failure?
    ensures PropertyErrors(env, fuel, key, value, schema) == Failure(AdditionalErrors(env, fuel, key, value, schema).error)
  {
  }

  /** The `properties` part of that turn: whether `key` is declared, and the
      errors of its value against the declared schema. */
  function DeclaredErrors(env: Env, fuel: nat, key: string, value: JSON, schema: JSON)
    : Result<(bool, seq<VError>), Exception>
    decreases fuel, 1, 0
  {
    var props := Member(schema, "properties");
    var declared := if Defined(props) then Member(props.value, key) else None;
    if !Defined(declared) then Success((false, []))
    else
      var sub :- ValidateAll(env, fuel, value, declared.value);
      var subErrs :- Counted(sub);
      Success((true, PrefixEach(PrefixEach(subErrs, Some(key), Some(key)), None, Some("properties"))))
  }

  /** The `additionalProperties` part of that turn, for a member that neither
      a declaration nor a pattern matched. */
  function AdditionalErrors(env: Env, fuel: nat, key: string, value: JSON, schema: JSON): Result<seq<VError>, Exception>
    decreases fuel, 1, 0
  {
    var extra := Member(schema, "additionalProperties");
    if !Defined(extra) then Success([])
    else if extra.value.Bool? then
      Success(if extra.value.b then [] else
        [PrefixWith(NewError(OBJECT_ADDITIONAL_PROPERTIES), Some(key), Some("additionalProperties"))])
    else
      var sub :- ValidateAll(env, fuel, value, extra.value);
      var subErrs :- Counted(sub);
      Success(PrefixEach(subErrs, Some(key), Some("additionalProperties")))
  }

  /** The `patternProperties` loop for one member `key` of the data, from the
      `j`-th pattern on: whether some pattern matched, and the errors. */
  function PatternsFrom(env: Env, fuel: nat, key: string, value: JSON, patterns: JSON, names: seq<string>,
                        j: nat, found: bool, acc: seq<VError>): Result<(bool, seq<VError>), Exception>
    requires j <= |names|
    decreases fuel, 1, |names| - j
  {
    if j == |names| then Success((found, acc))
    else
      var matched :- match env.test(names[j], key)
        case None => Failure(SyntaxError)
        case Some(b) => Success(b);
      if !matched then PatternsFrom(env, fuel, key, value, patterns, names, j + 1, found, acc)
      else
        var sub := Member(patterns, names[j]);
        var outcome :- if sub.None? then Failure(TypeError) else ValidateAll(env, fuel, value, sub.value);
        var subErrs :- Counted(outcome);
        var errs := PrefixEach(PrefixEach(subErrs, Some(key), Some(names[j])), None, Some("patternProperties"));
        PatternsFrom(env, fuel, key, value, patterns, names, j + 1, true, acc + errs)
  }

  /** `validateObjectDependencies`. */
  function ValidateObjectDependencies(env: Env, fuel: nat, fields: seq<(string, JSON)>, schema: JSON)
    : Result<seq<VError>, Exception>
    decreases fuel, 3, 0
  {
    var deps := Member(schema, "dependencies");
    if !Defined(deps) then Success([])
    else DependenciesFrom(env, fuel, fields, deps.value, ForInKeys(deps.value), 0, [])
  }

  /** The error for a missing key that `depKey` depends on, given as a string. */
  function DependencyError(depKey: string): (e: VError)
    ensures e.code == Known(OBJECT_DEPENDENCY_KEY) && e.dataPath == ""
  {
    PrefixWith(PrefixWith(NewError(OBJECT_DEPENDENCY_KEY), None, Some(depKey)), None, Some("dependencies"))
  }

  /** The loop of `validateObjectDependencies` from the `k`-th key on: a
      dependency applies when the data has its key. */
  function DependenciesFrom(env: Env, fuel: nat, fields: seq<(string, JSON)>, deps: JSON, keys: seq<string>,
                            k: nat, acc: seq<VError>): Result<seq<VError>, Exception>
    requires k <= |keys|
    decreases fuel, 2, |keys| - k
  {
    if k == |keys| then Success(acc)
    else if Get(fields, keys[k]).None? then DependenciesFrom(env, fuel, fields, deps, keys, k + 1, acc)
    else
      var errs :- DependencyErrors(env, fuel, fields, deps, keys[k]);
      DependenciesFrom(env, fuel, fields, deps, keys, k + 1, acc + errs)
  }

  /** One dependency that applies: a string names one key that must exist, an
      array several, anything else is a schema for the whole object. */
  function DependencyErrors(env: Env, fuel: nat, fields: seq<(string, JSON)>, deps: JSON, depKey: string)
    : Result<seq<VError>, Exception>
    decreases fuel, 1, 0
  {
    var dep := Member(deps, depKey);
    if dep.Some? && dep.value.Str? then
      Success(if Get(fields, dep.value.s).None? then [DependencyError(depKey)] else [])
    else if dep.Some? && dep.value.Arr? then
      Success(DependencyKeysFrom(fields, depKey, dep.value.items, 0, []))
    else
      var outcome :- if dep.None? then Failure(TypeError) else ValidateAll(env, fuel, Obj(fields), dep.value);
      var subErrs :- Counted(outcome);
      Success(PrefixEach(PrefixEach(subErrs, None, Some(depKey)), None, Some("dependencies")))
  }

  // ---- combinations --------------------------------------------------------

  /** `validateCombinations`. */
  function ValidateCombinations(env: Env, fuel: nat, data: JSON, schema: JSON): Result<seq<VError>, Exception>
    decreases fuel, 4, 0
  {
    var all :- ValidateAllOf(env, fuel, data, schema);
    var any :- ValidateAnyOf(env, fuel, data, schema);
    var one :- ValidateOneOf(env, fuel, data, schema);
    var not :- ValidateNot(env, fuel, data, schema);
    Success(all + Listed(any) + Listed(one) + Listed(not))
  }

  /** `validateAllOf`. */
  function ValidateAllOf(env: Env, fuel: nat, data: JSON, schema: JSON): Result<seq<VError>, Exception>
    decreases fuel, 3, 0
  {
    var alts := Member(schema, "allOf");
    if !Defined(alts) then Success([]) else AllOfFrom(env, fuel, data, Indexed(alts.value), 0, [])
  }

  /** The loop of `validateAllOf` from alternative `i` on. */
  function AllOfFrom(env: Env, fuel: nat, data: JSON, alts: seq<JSON>, i: nat, acc: seq<VError>)
    : Result<seq<VError>, Exception>
    requires i <= |alts|
    decreases fuel, 2, |alts| - i
  {
    if i == |alts| then Success(acc)
    else
      var sub :- ValidateAll(env, fuel, data, alts[i]);
      AllOfFrom(env, fuel, data, alts, i + 1, acc + PrefixEach(PrefixEach(Errors(sub), None, Some(Index(i))), None, Some("allOf")))
  }

  /** `validateAnyOf`. */
  function ValidateAnyOf(env: Env, fuel: nat, data: JSON, schema: JSON): Result<Option<VError>, Exception>
    decreases fuel, 3, 0
  {
    var alts := Member(schema, "anyOf");
    if !Defined(alts) then Success(None)
    else
      var (valid, errs) :- AnyOfFrom(env, fuel, data, Indexed(alts.value), 0, false, []);
      Success(if valid then None else Some(VError(Known(ANY_OF_MISSING), "", "/anyOf", errs)))
  }

  /** The loop of `validateAnyOf` from alternative `i` on: every alternative is
      validated; `isValid || subErrors.length == 0` reads the length of a
      `null` result only while no alternative has passed. */
  function AnyOfFrom(env: Env, fuel: nat, data: JSON, alts: seq<JSON>, i: nat, valid: bool, acc: seq<VError>)
    : Result<(bool, seq<VError>), Exception>
    requires i <= |alts|
    decreases fuel, 2, |alts| - i
  {
    if i == |alts| then Success((valid, acc))
    else
      var sub :- ValidateAll(env, fuel, data, alts[i]);
      var valid' :- if valid then Success(true) else if sub.None? then Failure(TypeError) else Success(sub.value == []);
      AnyOfFrom(env, fuel, data, alts, i + 1, valid',
                acc + PrefixEach(PrefixEach(Errors(sub), None, Some(Index(i))), None, Some("anyOf")))
  }

  /** `validateOneOf`. */
  function ValidateOneOf(env: Env, fuel: nat, data: JSON, schema: JSON): Result<Option<VError>, Exception>
    decreases fuel, 3, 0
  {
    var alts := Member(schema, "oneOf");
    if !Defined(alts) then Success(None) else OneOfFrom(env, fuel, data, Indexed(alts.value), 0, None, [])
  }

  /** The error `validateOneOf` reports when a second alternative passes. */
  function OneOfMultiple(): VError
  {
    VError(Known(ONE_OF_MULTIPLE), "", "/oneOf", [])
  }

  /** The error `validateOneOf` reports when no alternative passes, carrying
      the errors of all of them. */
  function OneOfMissing(errors: seq<VError>): VError
  {
    VError(Known(ONE_OF_MISSING), "", "/oneOf", errors)
  }

  /** The loop of `validateOneOf` from alternative `i` on; `validIndex` is the
      first alternative that passed. A second one ends the loop at once. */
  function OneOfFrom(env: Env, fuel: nat, data: JSON, alts: seq<JSON>, i: nat, validIndex: Option<nat>, acc: seq<VError>)
    : Result<Option<VError>, Exception>
    requires i <= |alts|
    decreases fuel, 2, |alts| - i
  {
    if i == |alts| then
      Success(if validIndex.None? then Some(OneOfMissing(acc)) else None)
    else
      var outcome :- ValidateAll(env, fuel, data, alts[i]);
      var sub :- Counted(outcome);
      if sub == [] then
        if validIndex.None? then OneOfFrom(env, fuel, data, alts, i + 1, Some(i), acc)
        else Success(Some(OneOfMultiple()))
      else
        OneOfFrom(env, fuel, data, alts, i + 1, validIndex,
                  acc + PrefixEach(PrefixEach(sub, None, Some(Index(i))), None, Some("oneOf")))
  }

  /** `validateNot`. */
  function ValidateNot(env: Env, fuel: nat, data: JSON, schema: JSON): Result<Option<VError>, Exception>
    decreases fuel, 3, 0
  {
    var not := Member(schema, "not");
    if !Defined(not) then Success(None)
    else
      var outcome :- ValidateAll(env, fuel, data, not.value);
      var sub :- Counted(outcome);
      Success(if sub == [] then Some(VError(Known(NOT_PASSED), "", "/not", [])) else None)
  }

  // ---- publicApi.validate ----------------------------------------------------

  /** `validate` reads a string schema as `{"$ref": schema}`. */
  function Wrapped(schema: JSON): (w: JSON)
    ensures schema.Str? ==> w.Obj? && Member(w, "$ref") == Some(schema)
    ensures !schema.Str? ==> w == schema
  {
    if schema.Str? then Obj([("$ref", schema)]) else schema
  }

  /** The errors `publicApi.validate(data, schema)` reports: the (wrapped)
      schema is registered under the empty URL over the global registry and
      validated against; a `null` from `validateAll` throws when its `length`
      is read. */
  function PublicErrors(global: map<string, JSON>, decode: Decoder, test: Regex, fuel: nat, data: JSON, schema: JSON)
    : Result<seq<VError>, Exception>
  {
    var s := Wrapped(schema);
    var added :- SchemasToAdd("", s);
    var out :- ValidateAll(Env(global + added, decode, test), fuel, data, s);
    Counted(out)
  }
}
