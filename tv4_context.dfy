/** tv4's `ValidatorContext`: a registry of schemas and a list of the base
    URLs that could not be found, with the methods that look schemas up,
    register them and validate data. Each method is proved to compute what
    the functions of `Tv4Registry`, `Tv4Checks` and `Tv4Validate` say. */
module Tv4Context {
  import opened Wrappers
  import opened Text
  import opened Json
  import opened Tv4Errors
  import opened Tv4Compare
  import opened Tv4Registry
  import Tv4Checks
  import Tv4Validate

  /** `missing` only ever gains URLs at its end, and never one twice. */
  predicate Grows(before: seq<string>, after: seq<string>)
  {
    |before| <= |after| && after[..|before|] == before && NoDuplicates(after)
  }

  lemma GrowsTransitive(a: seq<string>, b: seq<string>, c: seq<string>)
    requires Grows(a, b) && Grows(b, c)
    ensures Grows(a, c)
  {
    assert c[..|a|] == c[..|b|][..|a|];
  }

  /** One turn of the `patternProperties` loop for a pattern `key` does not match. */
  lemma PatternSkipped(env: Tv4Validate.Env, fuel: nat, key: string, value: JSON, patterns: JSON, names: seq<string>,
                       j: nat, found: bool, acc: seq<VError>)
    requires j < |names| && env.test(names[j], key) == Some(false)
    ensures Tv4Validate.PatternsFrom(env, fuel, key, value, patterns, names, j, found, acc)
         == Tv4Validate.PatternsFrom(env, fuel, key, value, patterns, names, j + 1, found, acc)
  {
  }

  /** One turn of the `patternProperties` loop for a matching pattern whose
      schema resolves: its errors, prefixed, are collected. */
  lemma PatternApplied(env: Tv4Validate.Env, fuel: nat, key: string, value: JSON, patterns: JSON, names: seq<string>,
                       j: nat, found: bool, acc: seq<VError>, errs: seq<VError>)
    requires j < |names| && env.test(names[j], key) == Some(true)
    requires Member(patterns, names[j]).Some?
    requires Tv4Validate.ValidateAll(env, fuel, value, Member(patterns, names[j]).value) == Success(Some(errs))
    ensures Tv4Validate.PatternsFrom(env, fuel, key, value, patterns, names, j, found, acc)
         == Tv4Validate.PatternsFrom(env, fuel, key, value, patterns, names, j + 1, true,
              acc + PrefixEach(PrefixEach(errs, Some(key), Some(names[j])), None, Some("patternProperties")))
  {
  }

  /** The ways one turn of the `patternProperties` loop throws: an invalid
      pattern, a matching pattern without a schema, a schema that throws or
      does not resolve. */
  lemma PatternThrows(env: Tv4Validate.Env, fuel: nat, key: string, value: JSON, patterns: JSON, names: seq<string>,
                      j: nat, found: bool, acc: seq<VError>)
    requires j < |names|
    ensures env.test(names[j], key).None? ==>
              Tv4Validate.PatternsFrom(env, fuel, key, value, patterns, names, j, found, acc) == Failure(SyntaxError)
    ensures env.test(names[j], key) == Some(true) && Member(patterns, names[j]).None? ==>
              Tv4Validate.PatternsFrom(env, fuel, key, value, patterns, names, j, found, acc) == Failure(TypeError)
    ensures env.test(names[j], key) == Some(true) && Member(patterns, names[j]).Some? ==>
              var o := Tv4Validate.ValidateAll(env, fuel, value, Member(patterns, names[j]).value);
              (o.Failure? ==> Tv4Validate.PatternsFrom(env, fuel, key, value, patterns, names, j, found, acc) == Failure(o.error))
              && (o == Success(None) ==> Tv4Validate.PatternsFrom(env, fuel, key, value, patterns, names, j, found, acc) == Failure(TypeError))
  {
  }

  class ValidatorContext {
    /** The registered schemas by URL. */
    var schemas: map<string, JSON>
    /** The base URLs `getSchema` could not find, in the order first met. */
    var missing: seq<string>
    /** `decodeURIComponent`. */
    const decode: Decoder
    /** `RegExp.prototype.test`. */
    const test: Tv4Checks.Regex

    /** What the validation functions consult. */
    function EnvOf(): Tv4Validate.Env
      reads this`schemas
    {
      Tv4Validate.Env(schemas, decode, test)
    }

    /** `new ValidatorContext(parent)`: no missing URL yet, and the schemas of
        the parent when there is one. */
    constructor (parent: ValidatorContext?, decode: Decoder, test: Tv4Checks.Regex)
      ensures schemas == (if parent != null then parent.schemas else map[])
      ensures missing == []
      ensures this.decode == decode && this.test == test
    {
      schemas := if parent != null then parent.schemas else map[];
      missing := [];
      this.decode := decode;
      this.test := test;
    }

    /** `getSchema(url)`: the schema under `url`, or under its base URL
        followed along the `#`-fragment read as a JSON Pointer; a base URL
        that is not registered, or a pointer that leads nowhere, is recorded
        in `missing` once. */
    method GetSchema(url: string) returns (r: Result<Option<JSON>, Exception>)
      modifies this`missing
      ensures (r, missing) == Tv4Registry.GetSchema(schemas, decode, old(missing), url)
    {
      if Stored(schemas, url).Some? {
        return Success(Some(schemas[url]));
      }
      var (base, fragment) := SplitAtHash(url);
      if Stored(schemas, base).Some? {
        var doc := schemas[base];
        var pointer := decode(fragment);
        if pointer.None? {
          return Failure(URIError);
        }
        var path := pointer.value;
        if path == "" {
          return Success(Some(doc));
        } else if path[0] != '/' {
          return Success(None);
        }
        var parts := Split(path, '/')[1..];
        var current := doc;
        var found := true;
        var i := 0;
        while i < |parts|
          invariant 0 <= i <= |parts|
          invariant found ==> !current.Null? && Walk(doc, parts) == Walk(current, parts[i..])
          invariant !found ==> Walk(doc, parts) == None
          decreases |parts| - i, found
        {
          var next := Member(current, UnescapeFirst(parts[i]));
          if !Defined(next) {
            found := false;
            break;
          }
          current := next.value;
          i := i + 1;
        }
        if found {
          return Success(Some(current));
        }
      }
      if base !in missing {
        missing := missing + [base];
      }
      return Success(None);
    }

    /** `addSchema(url, schema)`: the schema and the sub-schemas whose `id` it
        vouches for are copied into the registry, overwriting what was there;
        the entries copied are returned. */
    method AddSchema(url: string, schema: JSON) returns (r: Result<map<string, JSON>, Exception>)
      modifies this`schemas
      ensures r == SchemasToAdd(url, schema)
      ensures r.Success? ==> schemas == old(schemas) + r.value
      ensures r.Failure? ==> schemas == old(schemas)
    {
      r := SchemasToAdd(url, schema);
      if r.Failure? {
        return;
      }
      var added := r.value;
      var keys := added.Keys;
      while keys != {}
        invariant keys <= added.Keys
        invariant schemas == old(schemas) + map k | k in added.Keys - keys :: added[k]
        decreases keys
      {
        var k :| k in keys;
        schemas := schemas[k := added[k]];
        keys := keys - {k};
      }
      assert added.Keys - keys == added.Keys;
      assert (map k | k in added.Keys :: added[k]) == added;
    }

    // ---- checks that do not validate sub-schemas ---------------------------

    /** `validateType(data, schema)`: no error when some listed type admits
        the data. */
    method ValidateType(data: JSON, schema: JSON) returns (r: Option<VError>)
      ensures r == Tv4Checks.ValidateType(data, schema)
    {
      var t := Member(schema, "type");
      if !Defined(t) {
        return None;
      }
      var allowed := Tv4Checks.AllowedTypes(t.value);
      var i := 0;
      while i < |allowed|
        invariant 0 <= i <= |allowed|
        invariant forall j :: 0 <= j < i ==> !Tv4Checks.TypeAdmits(allowed[j], data)
      {
        if Tv4Checks.TypeAdmits(allowed[i], data) {
          return None;
        }
        i := i + 1;
      }
      return Some(NewError(INVALID_TYPE));
    }

    /** `validateEnum(data, schema)`: no error when some listed value compares
        equal to the data. */
    method ValidateEnum(data: JSON, schema: JSON) returns (r: Result<Option<VError>, Exception>)
      ensures r == Tv4Checks.ValidateEnum(data, schema)
    {
      var e := Member(schema, "enum");
      if !Defined(e) {
        return Success(None);
      }
      var values := Indexed(e.value);
      var i := 0;
      while i < |values|
        invariant 0 <= i <= |values|
        invariant Tv4Checks.EnumMatch(data, values, 0) == Tv4Checks.EnumMatch(data, values, i)
      {
        var same := RecursiveCompare(data, values[i]);
        if same.Failure? {
          return Failure(same.error);
        }
        if same.value {
          return Success(None);
        }
        i := i + 1;
      }
      return Success(Some(NewError(ENUM_MISMATCH)));
    }

    /** `validateBasic`: the type error, then the enum error, each under `/type`. */
    method ValidateBasic(data: JSON, schema: JSON) returns (r: Result<seq<VError>, Exception>)
      ensures r == Tv4Checks.ValidateBasic(data, schema)
    {
      var errors: seq<VError> := [];
      var t := ValidateType(data, schema);
      if t.Some? {
        errors := errors + [PrefixWith(t.value, None, Some("type"))];
      }
      var typeErrors := errors;
      var en := ValidateEnum(data, schema);
      if en.Failure? {
        return Failure(en.error);
      }
      if en.value.Some? {
        errors := errors + [PrefixWith(en.value.value, None, Some("type"))];
      }
      assert typeErrors == (if t.Some? then [PrefixWith(t.value, None, Some("type"))] else []);
      assert errors == typeErrors + (if en.value.Some? then [PrefixWith(en.value.value, None, Some("type"))] else []);
      var spec := Tv4Checks.ValidateBasic(data, schema);
      assert spec.Success? && spec.value == errors;
      return Success(errors);
    }

    /** `validateArrayUniqueItems`: with `uniqueItems` truthy, one error at the
        first pair of positions whose values compare equal. */
    method ValidateArrayUniqueItems(items: seq<JSON>, schema: JSON) returns (r: Result<Option<VError>, Exception>)
      ensures r == Tv4Checks.ValidateArrayUniqueItems(items, schema)
    {
      var u := Member(schema, "uniqueItems");
      if u.None? || !Truthy(u.value) {
        return Success(None);
      }
      var i := 0;
      while i < |items|
        invariant 0 <= i <= |items|
        invariant Tv4Checks.DuplicateFrom(items, 0, 1) == Tv4Checks.DuplicateFrom(items, i, i + 1)
      {
        var j := i + 1;
        while j < |items|
          invariant i + 1 <= j <= |items|
          invariant Tv4Checks.DuplicateFrom(items, 0, 1) == Tv4Checks.DuplicateFrom(items, i, j)
        {
          var same := RecursiveCompare(items[i], items[j]);
          if same.Failure? {
            return Failure(same.error);
          }
          if same.value {
            return Success(Some(Tv4Checks.KeywordError(ARRAY_UNIQUE, "uniqueItems")));
          }
          j := j + 1;
        }
        i := i + 1;
      }
      return Success(None);
    }

    /** `validateObjectRequiredProperties`: an error for each listed name the
        object lacks, in the order listed. */
    method ValidateObjectRequiredProperties(fields: seq<(string, JSON)>, schema: JSON)
      returns (r: Result<seq<VError>, Exception>)
      ensures r == Tv4Checks.ValidateObjectRequiredProperties(fields, schema)
    {
      var req := Member(schema, "required");
      if !Defined(req) {
        return Success([]);
      }
      var names := Indexed(req.value);
      var errors := [];
      var i := 0;
      while i < |names|
        invariant 0 <= i <= |names|
        invariant Tv4Checks.RequiredFrom(fields, names, 0, []) == Tv4Checks.RequiredFrom(fields, names, i, errors)
      {
        if Get(fields, ToText(names[i])).None? {
          var e := Tv4Checks.RequiredError(names[i], i);
          if e.Failure? {
            return Failure(e.error);
          }
          errors := errors + [e.value];
        }
        i := i + 1;
      }
      return Success(errors);
    }

    // ---- validation --------------------------------------------------------

    /** `validateAll(data, schema)`: a `$ref` is looked up first (`null` when
        it does not resolve), then the six groups of checks run in order.
        `fuel` is the stack depth left. */
    method ValidateAll(fuel: nat, data: JSON, schema: JSON) returns (r: Tv4Validate.Outcome)
      requires NoDuplicates(missing)
      modifies this`missing
      ensures r == Tv4Validate.ValidateAll(EnvOf(), fuel, data, schema)
      ensures Grows(old(missing), missing)
      decreases fuel, 0, 0, 1
    {
      if fuel == 0 {
        r := Failure(RangeError);
      } else if schema.Null? {
        r := Failure(TypeError);
      } else {
        var m0 := missing;
        var resolved := ResolveReference(schema);
        var m1 := missing;
        r := ValidateTarget(fuel, data, schema, resolved);
        GrowsTransitive(m0, m1, missing);
      }
    }

    /** `validateAll` once the reference is resolved: a `null` target is not
        checked, any other goes through the six groups of checks. */
    method ValidateTarget(fuel: nat, data: JSON, schema: JSON, resolved: Result<Option<JSON>, Exception>)
      returns (r: Tv4Validate.Outcome)
      requires NoDuplicates(missing) && fuel > 0 && !schema.Null?
      requires resolved == Tv4Validate.Resolve(EnvOf(), schema)
      modifies this`missing
      ensures r == Tv4Validate.ValidateAll(EnvOf(), fuel, data, schema)
      ensures Grows(old(missing), missing)
      decreases fuel, 0, 0, 0
    {
      ghost var env := EnvOf();
      if resolved.Failure? {
        r := Failure(resolved.error);
      } else if resolved.value.None? {
        r := Success(None);
      } else {
        var errors := Categories(fuel - 1, data, resolved.value.value);
        assert EnvOf() == env;
        r := if errors.Failure? then Failure(errors.error) else Success(Some(errors.value));
      }
      Tv4Validate.ValidateAllResolved(env, fuel, data, schema);
    }

    /** The schema `validateAll` checks against: the schema itself without a
        `$ref`, else what the reference resolves to (`null` for a falsy
        result). */
    method ResolveReference(schema: JSON) returns (resolved: Result<Option<JSON>, Exception>)
      requires NoDuplicates(missing) && !schema.Null?
      modifies this`missing
      ensures resolved == Tv4Validate.Resolve(EnvOf(), schema)
      ensures Grows(old(missing), missing)
    {
      var env := EnvOf();
      var m0 := missing;
      var ref := Member(schema, "$ref");
      if !Defined(ref) {
        resolved := Success(Some(schema));
      } else if ref.value.Str? {
        Tv4Validate.ResolveByGetSchema(env, schema, m0);
        GetSchemaKeepsMissing(schemas, decode, m0, ref.value.s);
        var g := GetSchema(ref.value.s);
        if g.Failure? {
          resolved := Failure(g.error);
        } else {
          resolved := Success(if g.value.Some? && Truthy(g.value.value) then g.value else None);
        }
      } else {
        var found := Stored(schemas, ToText(ref.value));
        if found.None? && ref.value.Arr? && Str("#") !in ref.value.items {
          // the array itself is pushed; its text stands for it
          missing := Record(missing, ToText(ref.value));
          resolved := Success(None);
        } else if found.None? {
          resolved := Failure(TypeError);
        } else {
          resolved := Success(if Truthy(found.value) then found else None);
        }
      }
    }

    /** The six groups of checks `validateAll` runs, in order: basic,
        numeric, string, array, object and combinations. */
    method Categories(fuel: nat, data: JSON, schema: JSON) returns (r: Result<seq<VError>, Exception>)
      requires NoDuplicates(missing)
      modifies this`missing
      ensures r == Tv4Validate.Categories(EnvOf(), fuel, data, schema)
      ensures Grows(old(missing), missing)
      decreases fuel, 5, 0
    {
      var basic := ValidateBasic(data, schema);
      if basic.Failure? {
        return Failure(basic.error);
      }
      var numeric := Tv4Checks.ValidateNumeric(data, schema);
      var str := Tv4Checks.ValidateString(test, data, schema);
      if str.Failure? {
        return Failure(str.error);
      }
      r := StructureCategories(fuel, data, schema, basic.value + numeric + str.value);
    }

    /** The array, object and combination checks, after the checks on the
        value itself have found `lead`. */
    method StructureCategories(fuel: nat, data: JSON, schema: JSON, lead: seq<VError>)
      returns (r: Result<seq<VError>, Exception>)
      requires NoDuplicates(missing)
      requires Tv4Checks.ValidateBasic(data, schema).Success? && Tv4Checks.ValidateString(test, data, schema).Success?
      requires lead == Tv4Checks.ValidateBasic(data, schema).value + Tv4Checks.ValidateNumeric(data, schema)
                       + Tv4Checks.ValidateString(test, data, schema).value
      modifies this`missing
      ensures r == Tv4Validate.Categories(EnvOf(), fuel, data, schema)
      ensures Grows(old(missing), missing)
      decreases fuel, 4, 1
    {
      var m0 := missing;
      var arr := ValidateArray(fuel, data, schema);
      var m1 := missing;
      if arr.Failure? {
        return Failure(arr.error);
      }
      var obj := ValidateObject(fuel, data, schema);
      var m2 := missing;
      GrowsTransitive(m0, m1, m2);
      if obj.Failure? {
        return Failure(obj.error);
      }
      var comb := ValidateCombinations(fuel, data, schema);
      GrowsTransitive(m0, m2, missing);
      if comb.Failure? {
        return Failure(comb.error);
      }
      return Success(lead + arr.value + obj.value + comb.value);
    }

    /** `validateArray`: the length error, the uniqueness error, then the
        errors of the elements. */
    method ValidateArray(fuel: nat, data: JSON, schema: JSON) returns (r: Result<seq<VError>, Exception>)
      requires NoDuplicates(missing)
      modifies this`missing
      ensures r == Tv4Validate.ValidateArray(EnvOf(), fuel, data, schema)
      ensures Grows(old(missing), missing)
      decreases fuel, 4, 0
    {
      if !data.Arr? {
        return Success([]);
      }
      var errors: seq<VError> := [];
      var len := Tv4Checks.ValidateArrayLength(data.items, schema);
      if len.Some? {
        errors := errors + [len.value];
      }
      var unique := ValidateArrayUniqueItems(data.items, schema);
      if unique.Failure? {
        return Failure(unique.error);
      }
      if unique.value.Some? {
        errors := errors + [unique.value.value];
      }
      assert errors == Tv4Validate.Listed(len) + Tv4Validate.Listed(unique.value);
      var items := ValidateArrayItems(fuel, data.items, schema);
      if items.Failure? {
        return Failure(items.error);
      }
      return Success(errors + items.value);
    }

    /** `validateArrayItems`: each element against its tuple entry (then
        `additionalItems`), or every element against the one `items` schema. */
    method ValidateArrayItems(fuel: nat, data: seq<JSON>, schema: JSON) returns (r: Result<seq<VError>, Exception>)
      requires NoDuplicates(missing)
      modifies this`missing
      ensures r == Tv4Validate.ValidateArrayItems(EnvOf(), fuel, data, schema)
      ensures Grows(old(missing), missing)
      decreases fuel, 3, 0
    {
      var env := EnvOf();
      var m0 := missing;
      var items := Member(schema, "items");
      if !Defined(items) {
        return Success([]);
      }
      var errors: seq<VError> := [];
      var i := 0;
      if items.value.Arr? {
        var tuple := items.value.items;
        var additional := Member(schema, "additionalItems");
        while i < |data|
          invariant 0 <= i <= |data| && Grows(m0, missing)
          invariant Tv4Validate.TupleFrom(env, fuel, data, tuple, additional, 0, [])
                 == Tv4Validate.TupleFrom(env, fuel, data, tuple, additional, i, errors)
        {
          var m1 := missing;
          var step := TupleStep(fuel, data, tuple, additional, i, errors);
          GrowsTransitive(m0, m1, missing);
          if step.Failure? {
            return Failure(step.error);
          }
          errors := step.value;
          i := i + 1;
        }
      } else {
        while i < |data|
          invariant 0 <= i <= |data| && Grows(m0, missing)
          invariant Tv4Validate.EachItemFrom(env, fuel, data, items.value, 0, [])
                 == Tv4Validate.EachItemFrom(env, fuel, data, items.value, i, errors)
        {
          var m1 := missing;
          var sub := ValidateAll(fuel, data[i], items.value);
          GrowsTransitive(m0, m1, missing);
          if sub.Failure? {
            return Failure(sub.error);
          }
          errors := errors + PrefixEach(Tv4Validate.Errors(sub.value), Some(Index(i)), Some("items"));
          i := i + 1;
        }
      }
      return Success(errors);
    }

    /** One element of the tuple loop of `validateArrayItems`: against its
        tuple entry, else against `additionalItems`. */
    method TupleStep(fuel: nat, data: seq<JSON>, tuple: seq<JSON>, additional: Option<JSON>, i: nat, errors: seq<VError>)
      returns (r: Result<seq<VError>, Exception>)
      requires i < |data| && NoDuplicates(missing)
      modifies this`missing
      ensures r.Failure? ==>
                Tv4Validate.TupleFrom(EnvOf(), fuel, data, tuple, additional, i, errors) == Failure(r.error)
      ensures r.Success? ==>
                Tv4Validate.TupleFrom(EnvOf(), fuel, data, tuple, additional, i, errors)
                == Tv4Validate.TupleFrom(EnvOf(), fuel, data, tuple, additional, i + 1, r.value)
      ensures Grows(old(missing), missing)
      decreases fuel, 2, 0
    {
      if i < |tuple| {
        var sub := ValidateAll(fuel, data[i], tuple[i]);
        if sub.Failure? {
          return Failure(sub.error);
        }
        return Success(errors + PrefixEach(PrefixEach(Tv4Validate.Errors(sub.value), None, Some(Index(i))), Some(Index(i)), Some("items")));
      }
      if !Defined(additional) {
        return Success(errors);
      }
      if additional.value.Bool? {
        return Success(errors + if additional.value.b then [] else [Tv4Validate.AdditionalItemError(i)]);
      }
      var sub := ValidateAll(fuel, data[i], additional.value);
      if sub.Failure? {
        return Failure(sub.error);
      }
      return Success(errors + PrefixEach(Tv4Validate.Errors(sub.value), Some(Index(i)), Some("additionalItems")));
    }

    /** `validateObject`: the property-count error, then the errors of
        `required`, of the properties and of `dependencies`. */
    method ValidateObject(fuel: nat, data: JSON, schema: JSON) returns (r: Result<seq<VError>, Exception>)
      requires NoDuplicates(missing)
      modifies this`missing
      ensures r == Tv4Validate.ValidateObject(EnvOf(), fuel, data, schema)
      ensures Grows(old(missing), missing)
      decreases fuel, 4, 0
    {
      var env := EnvOf();
      var m0 := missing;
      if !data.Obj? {
        return Success([]);
      }
      var errors: seq<VError> := [];
      var count := Tv4Checks.ValidateObjectMinMaxProperties(data.fields, schema);
      if count.Some? {
        errors := errors + [count.value];
      }
      assert errors == Tv4Validate.Listed(count);
      var required := ValidateObjectRequiredProperties(data.fields, schema);
      if required.Failure? {
        return Failure(required.error);
      }
      var props := ValidateObjectProperties(fuel, data.fields, schema);
      var m1 := missing;
      if props.Failure? {
        return Failure(props.error);
      }
      var deps := ValidateObjectDependencies(fuel, data.fields, schema);
      GrowsTransitive(m0, m1, missing);
      if deps.Failure? {
        return Failure(deps.error);
      }
      errors := errors + required.value + props.value + deps.value;
      var spec := Tv4Validate.ValidateObject(env, fuel, data, schema);
      assert spec.Success? && spec.value == errors;
      return Success(errors);
    }

    /** `validateObjectProperties`: the errors of each member in turn. */
    method ValidateObjectProperties(fuel: nat, fields: seq<(string, JSON)>, schema: JSON)
      returns (r: Result<seq<VError>, Exception>)
      requires NoDuplicates(missing)
      modifies this`missing
      ensures r == Tv4Validate.PropertiesFrom(EnvOf(), fuel, fields, schema, 0, [])
      ensures Grows(old(missing), missing)
      decreases fuel, 3, 0
    {
      var env := EnvOf();
      var m0 := missing;
      var errors: seq<VError> := [];
      var k := 0;
      while k < |fields|
        invariant 0 <= k <= |fields| && Grows(m0, missing)
        invariant Tv4Validate.PropertiesFrom(env, fuel, fields, schema, 0, [])
               == Tv4Validate.PropertiesFrom(env, fuel, fields, schema, k, errors)
      {
        var key := fields[k].0;
        var m1 := missing;
        var errs := ValidateProperty(fuel, key, fields[Lookup(fields, key).value].1, schema);
        GrowsTransitive(m0, m1, missing);
        if errs.Failure? {
          return Failure(errs.error);
        }
        errors := errors + errs.value;
        k := k + 1;
      }
      return Success(errors);
    }

    /** The body of the loop of `validateObjectProperties` for the member
        `key`: its declared schema, the schemas of the patterns its name
        matches, and `additionalProperties` when neither applied. */
    method ValidateProperty(fuel: nat, key: string, value: JSON, schema: JSON) returns (r: Result<seq<VError>, Exception>)
      requires NoDuplicates(missing)
      modifies this`missing
      ensures r == Tv4Validate.PropertyErrors(EnvOf(), fuel, key, value, schema)
      ensures Grows(old(missing), missing)
      decreases fuel, 2, 0
    {
      var env := EnvOf();
      var m0 := missing;
      var declared := DeclaredProperty(fuel, key, value, schema);
      if declared.Failure? {
        Tv4Validate.DeclaredThrows(env, fuel, key, value, schema);
        return Failure(declared.error);
      }
      var m1 := missing;
      r := PropertyRest(fuel, key, value, schema, declared.value.0, declared.value.1);
      GrowsTransitive(m0, m1, missing);
    }

    /** The rest of that loop body once the `properties` part gave `found1`
        and `errs1`: the pattern loop, then `additionalProperties` when no
        schema applied so far. */
    method PropertyRest(fuel: nat, key: string, value: JSON, schema: JSON, found1: bool, errs1: seq<VError>)
      returns (r: Result<seq<VError>, Exception>)
      requires NoDuplicates(missing)
      requires Tv4Validate.DeclaredErrors(EnvOf(), fuel, key, value, schema) == Success((found1, errs1))
      modifies this`missing
      ensures r == Tv4Validate.PropertyErrors(EnvOf(), fuel, key, value, schema)
      ensures Grows(old(missing), missing)
      decreases fuel, 1, 2
    {
      var env := EnvOf();
      var m0 := missing;
      var foundMatch := found1;
      var patterns := Member(schema, "patternProperties");
      var errs2: seq<VError> := [];
      if Defined(patterns) {
        var matched := PatternProperties(fuel, key, value, patterns.value, foundMatch);
        if matched.Failure? {
          Tv4Validate.PatternsThrow(env, fuel, key, value, schema, found1, errs1);
          return Failure(matched.error);
        }
        foundMatch := matched.value.0;
        errs2 := matched.value.1;
      }
      var errs3: seq<VError> := [];
      if !foundMatch {
        var m1 := missing;
        var extra := AdditionalProperty(fuel, key, value, schema);
        GrowsTransitive(m0, m1, missing);
        if extra.Failure? {
          Tv4Validate.AdditionalThrows(env, fuel, key, value, schema, found1, errs1, errs2);
          return Failure(extra.error);
        }
        errs3 := extra.value;
      }
      Tv4Validate.PropertyErrorsOfParts(env, fuel, key, value, schema, found1, errs1, foundMatch, errs2, errs3);
      return Success(errs1 + errs2 + errs3);
    }

    /** The `properties` part: whether `key` is declared, and the errors of
        its value against the declared schema, which must resolve. */
    method DeclaredProperty(fuel: nat, key: string, value: JSON, schema: JSON) returns (r: Result<(bool, seq<VError>), Exception>)
      requires NoDuplicates(missing)
      modifies this`missing
      ensures r == Tv4Validate.DeclaredErrors(EnvOf(), fuel, key, value, schema)
      ensures Grows(old(missing), missing)
      decreases fuel, 1, 0
    {
      var props := Member(schema, "properties");
      var declared := if Defined(props) then Member(props.value, key) else None;
      if !Defined(declared) {
        return Success((false, []));
      }
      var sub := ValidateAll(fuel, value, declared.value);
      if sub.Failure? {
        return Failure(sub.error);
      }
      if sub.value.None? {
        return Failure(TypeError);
      }
      return Success((true, PrefixEach(PrefixEach(sub.value.value, Some(key), Some(key)), None, Some("properties"))));
    }

    /** The `patternProperties` loop: every pattern that `key` matches applies
        its schema, which must resolve; a pattern that does not compile throws. */
    method PatternProperties(fuel: nat, key: string, value: JSON, patterns: JSON, found: bool)
      returns (r: Result<(bool, seq<VError>), Exception>)
      requires NoDuplicates(missing)
      modifies this`missing
      ensures r == Tv4Validate.PatternsFrom(EnvOf(), fuel, key, value, patterns, ForInKeys(patterns), 0, found, [])
      ensures Grows(old(missing), missing)
      decreases fuel, 1, 0
    {
      var env := EnvOf();
      var m0 := missing;
      var names := ForInKeys(patterns);
      var foundMatch := found;
      var errors: seq<VError> := [];
      var j := 0;
      while j < |names|
        invariant 0 <= j <= |names| && Grows(m0, missing)
        invariant Tv4Validate.PatternsFrom(env, fuel, key, value, patterns, names, 0, found, [])
               == Tv4Validate.PatternsFrom(env, fuel, key, value, patterns, names, j, foundMatch, errors)
      {
        var m1 := missing;
        var step := PatternStep(fuel, key, value, patterns, names, j, foundMatch, errors);
        GrowsTransitive(m0, m1, missing);
        if step.Failure? {
          return Failure(step.error);
        }
        foundMatch, errors := step.value.0, step.value.1;
        j := j + 1;
      }
      return Success((foundMatch, errors));
    }

    /** One pattern of the `patternProperties` loop: a failure is the loop's,
        otherwise the loop goes on from the next pattern with the state given. */
    method PatternStep(fuel: nat, key: string, value: JSON, patterns: JSON, names: seq<string>, j: nat,
                       found: bool, errors: seq<VError>)
      returns (r: Result<(bool, seq<VError>), Exception>)
      requires j < |names| && NoDuplicates(missing)
      modifies this`missing
      ensures r.Failure? ==>
                Tv4Validate.PatternsFrom(EnvOf(), fuel, key, value, patterns, names, j, found, errors) == Failure(r.error)
      ensures r.Success? ==>
                Tv4Validate.PatternsFrom(EnvOf(), fuel, key, value, patterns, names, j, found, errors)
                == Tv4Validate.PatternsFrom(EnvOf(), fuel, key, value, patterns, names, j + 1, r.value.0, r.value.1)
      ensures Grows(old(missing), missing)
      decreases fuel, 0, 1
    {
      var env := EnvOf();
      PatternThrows(env, fuel, key, value, patterns, names, j, found, errors);
      var matched := test(names[j], key);
      if matched.None? {
        return Failure(SyntaxError);
      }
      if !matched.value {
        PatternSkipped(env, fuel, key, value, patterns, names, j, found, errors);
        return Success((found, errors));
      }
      var sub := Member(patterns, names[j]);
      if sub.None? {
        return Failure(TypeError);
      }
      var outcome := ValidateAll(fuel, value, sub.value);
      if outcome.Failure? {
        return Failure(outcome.error);
      }
      if outcome.value.None? {
        return Failure(TypeError);
      }
      PatternApplied(env, fuel, key, value, patterns, names, j, found, errors, outcome.value.value);
      return Success((true, errors + PrefixEach(PrefixEach(outcome.value.value, Some(key), Some(names[j])), None, Some("patternProperties"))));
    }

    /** The `additionalProperties` part, for a member nothing else matched:
        `false` forbids it, a schema must resolve and is applied. */
    method AdditionalProperty(fuel: nat, key: string, value: JSON, schema: JSON) returns (r: Result<seq<VError>, Exception>)
      requires NoDuplicates(missing)
      modifies this`missing
      ensures r == Tv4Validate.AdditionalErrors(EnvOf(), fuel, key, value, schema)
      ensures Grows(old(missing), missing)
      decreases fuel, 1, 0
    {
      var extra := Member(schema, "additionalProperties");
      if !Defined(extra) {
        return Success([]);
      }
      if extra.value.Bool? {
        if !extra.value.b {
          return Success([PrefixWith(NewError(OBJECT_ADDITIONAL_PROPERTIES), Some(key), Some("additionalProperties"))]);
        }
        return Success([]);
      }
      var sub := ValidateAll(fuel, value, extra.value);
      if sub.Failure? {
        return Failure(sub.error);
      }
      if sub.value.None? {
        return Failure(TypeError);
      }
      return Success(PrefixEach(sub.value.value, Some(key), Some("additionalProperties")));
    }

    /** `validateObjectDependencies`: the errors of each dependency whose key
        the object has. */
    method ValidateObjectDependencies(fuel: nat, fields: seq<(string, JSON)>, schema: JSON)
      returns (r: Result<seq<VError>, Exception>)
      requires NoDuplicates(missing)
      modifies this`missing
      ensures r == Tv4Validate.ValidateObjectDependencies(EnvOf(), fuel, fields, schema)
      ensures Grows(old(missing), missing)
      decreases fuel, 3, 0
    {
      var env := EnvOf();
      var m0 := missing;
      var deps := Member(schema, "dependencies");
      if !Defined(deps) {
        return Success([]);
      }
      var keys := ForInKeys(deps.value);
      var errors: seq<VError> := [];
      var k := 0;
      while k < |keys|
        invariant 0 <= k <= |keys| && Grows(m0, missing)
        invariant Tv4Validate.DependenciesFrom(env, fuel, fields, deps.value, keys, 0, [])
               == Tv4Validate.DependenciesFrom(env, fuel, fields, deps.value, keys, k, errors)
      {
        var m1 := missing;
        var step := DependencyStep(fuel, fields, deps.value, keys, k, errors);
        GrowsTransitive(m0, m1, missing);
        if step.Failure? {
          return Failure(step.error);
        }
        errors := step.value;
        k := k + 1;
      }
      return Success(errors);
    }

    /** One key of the `dependencies` loop: a failure is the loop's,
        otherwise the loop goes on with the errors given. */
    method DependencyStep(fuel: nat, fields: seq<(string, JSON)>, deps: JSON, keys: seq<string>, k: nat, errors: seq<VError>)
      returns (r: Result<seq<VError>, Exception>)
      requires k < |keys| && NoDuplicates(missing)
      modifies this`missing
      ensures r.Failure? ==>
                Tv4Validate.DependenciesFrom(EnvOf(), fuel, fields, deps, keys, k, errors) == Failure(r.error)
      ensures r.Success? ==>
                Tv4Validate.DependenciesFrom(EnvOf(), fuel, fields, deps, keys, k, errors)
                == Tv4Validate.DependenciesFrom(EnvOf(), fuel, fields, deps, keys, k + 1, r.value)
      ensures Grows(old(missing), missing)
      decreases fuel, 2, 0
    {
      if Get(fields, keys[k]).None? {
        return Success(errors);
      }
      var errs := ValidateDependency(fuel, fields, deps, keys[k]);
      if errs.Failure? {
        return Failure(errs.error);
      }
      return Success(errors + errs.value);
    }

    /** The body of the loop of `validateObjectDependencies` for a dependency
        that applies: the keys a string or an array names must exist; any
        other value is a schema the whole object must pass. */
    method ValidateDependency(fuel: nat, fields: seq<(string, JSON)>, deps: JSON, depKey: string)
      returns (r: Result<seq<VError>, Exception>)
      requires NoDuplicates(missing)
      modifies this`missing
      ensures r == Tv4Validate.DependencyErrors(EnvOf(), fuel, fields, deps, depKey)
      ensures Grows(old(missing), missing)
      decreases fuel, 1, 0
    {
      var dep := Member(deps, depKey);
      if dep.Some? && dep.value.Str? {
        if Get(fields, dep.value.s).None? {
          return Success([Tv4Validate.DependencyError(depKey)]);
        }
        return Success([]);
      } else if dep.Some? && dep.value.Arr? {
        var required := dep.value.items;
        var errors: seq<VError> := [];
        var i := 0;
        while i < |required|
          invariant 0 <= i <= |required|
          invariant Tv4Checks.DependencyKeysFrom(fields, depKey, required, 0, [])
                 == Tv4Checks.DependencyKeysFrom(fields, depKey, required, i, errors)
        {
          if Get(fields, ToText(required[i])).None? {
            errors := errors + [PrefixWith(PrefixWith(PrefixWith(NewError(OBJECT_DEPENDENCY_KEY), None, Some(Index(i))),
                                                      None, Some(depKey)), None, Some("dependencies"))];
          }
          i := i + 1;
        }
        return Success(errors);
      }
      if dep.None? {
        return Failure(TypeError);
      }
      var sub := ValidateAll(fuel, Obj(fields), dep.value);
      if sub.Failure? {
        return Failure(sub.error);
      }
      if sub.value.None? {
        return Failure(TypeError);
      }
      return Success(PrefixEach(PrefixEach(sub.value.value, None, Some(depKey)), None, Some("dependencies")));
    }

    /** `validateCombinations`: the errors of `allOf`, then the `anyOf`,
        `oneOf` and `not` errors. */
    method ValidateCombinations(fuel: nat, data: JSON, schema: JSON) returns (r: Result<seq<VError>, Exception>)
      requires NoDuplicates(missing)
      modifies this`missing
      ensures r == Tv4Validate.ValidateCombinations(EnvOf(), fuel, data, schema)
      ensures Grows(old(missing), missing)
      decreases fuel, 4, 0
    {
      var m0 := missing;
      var all := ValidateAllOf(fuel, data, schema);
      if all.Failure? {
        return Failure(all.error);
      }
      var m1 := missing;
      var any := ValidateAnyOf(fuel, data, schema);
      GrowsTransitive(m0, m1, missing);
      if any.Failure? {
        return Failure(any.error);
      }
      var m2 := missing;
      r := LaterCombinations(fuel, data, schema, all.value + Tv4Validate.Listed(any.value));
      GrowsTransitive(m0, m2, missing);
    }

    /** The `oneOf` and `not` checks, after `allOf` and `anyOf` have found
        `lead`. */
    method LaterCombinations(fuel: nat, data: JSON, schema: JSON, lead: seq<VError>)
      returns (r: Result<seq<VError>, Exception>)
      requires NoDuplicates(missing)
      requires Tv4Validate.ValidateAllOf(EnvOf(), fuel, data, schema).Success?
      requires Tv4Validate.ValidateAnyOf(EnvOf(), fuel, data, schema).Success?
      requires lead == Tv4Validate.ValidateAllOf(EnvOf(), fuel, data, schema).value
                       + Tv4Validate.Listed(Tv4Validate.ValidateAnyOf(EnvOf(), fuel, data, schema).value)
      modifies this`missing
      ensures r == Tv4Validate.ValidateCombinations(EnvOf(), fuel, data, schema)
      ensures Grows(old(missing), missing)
      decreases fuel, 3, 1
    {
      var m0 := missing;
      var one := ValidateOneOf(fuel, data, schema);
      if one.Failure? {
        return Failure(one.error);
      }
      var m1 := missing;
      var not := ValidateNot(fuel, data, schema);
      GrowsTransitive(m0, m1, missing);
      if not.Failure? {
        return Failure(not.error);
      }
      return Success(lead + Tv4Validate.Listed(one.value) + Tv4Validate.Listed(not.value));
    }

    /** `validateAllOf`: the errors of every alternative. */
    method ValidateAllOf(fuel: nat, data: JSON, schema: JSON) returns (r: Result<seq<VError>, Exception>)
      requires NoDuplicates(missing)
      modifies this`missing
      ensures r == Tv4Validate.ValidateAllOf(EnvOf(), fuel, data, schema)
      ensures Grows(old(missing), missing)
      decreases fuel, 3, 0
    {
      var env := EnvOf();
      var m0 := missing;
      var alts := Member(schema, "allOf");
      if !Defined(alts) {
        return Success([]);
      }
      var list := Indexed(alts.value);
      var errors: seq<VError> := [];
      var i := 0;
      while i < |list|
        invariant 0 <= i <= |list| && Grows(m0, missing)
        invariant Tv4Validate.AllOfFrom(env, fuel, data, list, 0, []) == Tv4Validate.AllOfFrom(env, fuel, data, list, i, errors)
      {
        var m1 := missing;
        var sub := ValidateAll(fuel, data, list[i]);
        GrowsTransitive(m0, m1, missing);
        if sub.Failure? {
          return Failure(sub.error);
        }
        errors := errors + PrefixEach(PrefixEach(Tv4Validate.Errors(sub.value), None, Some(Index(i))), None, Some("allOf"));
        i := i + 1;
      }
      return Success(errors);
    }

    /** `validateAnyOf`: ANY_OF_MISSING, carrying every alternative's errors,
        unless some alternative passes. */
    method ValidateAnyOf(fuel: nat, data: JSON, schema: JSON) returns (r: Result<Option<VError>, Exception>)
      requires NoDuplicates(missing)
      modifies this`missing
      ensures r == Tv4Validate.ValidateAnyOf(EnvOf(), fuel, data, schema)
      ensures Grows(old(missing), missing)
      decreases fuel, 3, 0
    {
      var env := EnvOf();
      var m0 := missing;
      var alts := Member(schema, "anyOf");
      if !Defined(alts) {
        return Success(None);
      }
      var list := Indexed(alts.value);
      var errors: seq<VError> := [];
      var isValid := false;
      var i := 0;
      while i < |list|
        invariant 0 <= i <= |list| && Grows(m0, missing)
        invariant Tv4Validate.AnyOfFrom(env, fuel, data, list, 0, false, [])
               == Tv4Validate.AnyOfFrom(env, fuel, data, list, i, isValid, errors)
      {
        var m1 := missing;
        var step := AnyOfStep(fuel, data, list, i, isValid, errors);
        GrowsTransitive(m0, m1, missing);
        if step.Failure? {
          return Failure(step.error);
        }
        isValid, errors := step.value.0, step.value.1;
        i := i + 1;
      }
      if isValid {
        return Success(None);
      }
      return Success(Some(VError(Known(ANY_OF_MISSING), "", "/anyOf", errors)));
    }

    /** One alternative of the `anyOf` loop: a failure is the loop's,
        otherwise the loop goes on with the flag and errors given. */
    method AnyOfStep(fuel: nat, data: JSON, list: seq<JSON>, i: nat, isValid: bool, errors: seq<VError>)
      returns (r: Result<(bool, seq<VError>), Exception>)
      requires i < |list| && NoDuplicates(missing)
      modifies this`missing
      ensures r.Failure? ==>
                Tv4Validate.AnyOfFrom(EnvOf(), fuel, data, list, i, isValid, errors) == Failure(r.error)
      ensures r.Success? ==>
                Tv4Validate.AnyOfFrom(EnvOf(), fuel, data, list, i, isValid, errors)
                == Tv4Validate.AnyOfFrom(EnvOf(), fuel, data, list, i + 1, r.value.0, r.value.1)
      ensures Grows(old(missing), missing)
      decreases fuel, 2, 0
    {
      var sub := ValidateAll(fuel, data, list[i]);
      if sub.Failure? {
        return Failure(sub.error);
      }
      if !isValid && sub.value.None? {
        return Failure(TypeError);
      }
      var valid := isValid || sub.value.value == [];
      return Success((valid, errors + PrefixEach(PrefixEach(Tv4Validate.Errors(sub.value), None, Some(Index(i))), None, Some("anyOf"))));
    }

    /** `validateOneOf`: ONE_OF_MULTIPLE as soon as a second alternative
        passes, ONE_OF_MISSING (with every error) when none does. */
    method ValidateOneOf(fuel: nat, data: JSON, schema: JSON) returns (r: Result<Option<VError>, Exception>)
      requires NoDuplicates(missing)
      modifies this`missing
      ensures r == Tv4Validate.ValidateOneOf(EnvOf(), fuel, data, schema)
      ensures Grows(old(missing), missing)
      decreases fuel, 3, 0
    {
      var env := EnvOf();
      var m0 := missing;
      var alts := Member(schema, "oneOf");
      if !Defined(alts) {
        return Success(None);
      }
      var list := Indexed(alts.value);
      var validIndex: Option<nat> := None;
      var errors: seq<VError> := [];
      var i := 0;
      while i < |list|
        invariant 0 <= i <= |list| && Grows(m0, missing)
        invariant Tv4Validate.OneOfFrom(env, fuel, data, list, 0, None, [])
               == Tv4Validate.OneOfFrom(env, fuel, data, list, i, validIndex, errors)
      {
        var m1 := missing;
        var step, multiple := OneOfAlternative(fuel, data, list, i, validIndex, errors);
        GrowsTransitive(m0, m1, missing);
        if step.Failure? {
          return Failure(step.error);
        }
        if multiple {
          return Success(Some(Tv4Validate.OneOfMultiple()));
        }
        validIndex, errors := step.value.0, step.value.1;
        i := i + 1;
      }
      if validIndex.None? {
        return Success(Some(Tv4Validate.OneOfMissing(errors)));
      }
      return Success(None);
    }

    /** One alternative of the `oneOf` loop: a failure is the loop's; a
        second passing alternative ends the loop (`multiple`); otherwise the
        loop goes on with the index and errors given. */
    method OneOfAlternative(fuel: nat, data: JSON, list: seq<JSON>, i: nat, validIndex: Option<nat>, errors: seq<VError>)
      returns (r: Result<(Option<nat>, seq<VError>), Exception>, multiple: bool)
      requires i < |list| && NoDuplicates(missing)
      modifies this`missing
      ensures r.Failure? ==>
                Tv4Validate.OneOfFrom(EnvOf(), fuel, data, list, i, validIndex, errors) == Failure(r.error)
      ensures r.Success? && multiple ==>
                Tv4Validate.OneOfFrom(EnvOf(), fuel, data, list, i, validIndex, errors)
                == Success(Some(Tv4Validate.OneOfMultiple()))
      ensures r.Success? && !multiple ==>
                Tv4Validate.OneOfFrom(EnvOf(), fuel, data, list, i, validIndex, errors)
                == Tv4Validate.OneOfFrom(EnvOf(), fuel, data, list, i + 1, r.value.0, r.value.1)
      ensures Grows(old(missing), missing)
      decreases fuel, 2, 0
    {
      multiple := false;
      var outcome := ValidateAll(fuel, data, list[i]);
      if outcome.Failure? {
        return Failure(outcome.error), false;
      }
      if outcome.value.None? {
        return Failure(TypeError), false;
      }
      var sub := outcome.value.value;
      if sub != [] {
        return Success((validIndex, errors + PrefixEach(PrefixEach(sub, None, Some(Index(i))), None, Some("oneOf")))), false;
      }
      if validIndex.Some? {
        return Success((validIndex, errors)), true;
      }
      return Success((Some(i), errors)), false;
    }

    /** `validateNot`: NOT_PASSED when the data passes the schema under `not`. */
    method ValidateNot(fuel: nat, data: JSON, schema: JSON) returns (r: Result<Option<VError>, Exception>)
      requires NoDuplicates(missing)
      modifies this`missing
      ensures r == Tv4Validate.ValidateNot(EnvOf(), fuel, data, schema)
      ensures Grows(old(missing), missing)
      decreases fuel, 3, 0
    {
      var m0 := missing;
      var not := Member(schema, "not");
      if !Defined(not) {
        return Success(None);
      }
      var outcome := ValidateAll(fuel, data, not.value);
      if outcome.Failure? {
        return Failure(outcome.error);
      }
      if outcome.value.None? {
        return Failure(TypeError);
      }
      if outcome.value.value == [] {
        return Success(Some(VError(Known(NOT_PASSED), "", "/not", [])));
      }
      return Success(None);
    }
  }

  /** What `publicApi.validate` leaves on the API object. */
  datatype Report = Report(valid: bool, error: Option<VError>, errors: seq<VError>, missing: seq<string>)

  /** `publicApi.validate(data, schema)`: a fresh context over the global one,
      the schema registered under the empty URL, the data validated against
      it; valid exactly when there is no error, and `error` is the first one. */
  method Validate(globalContext: ValidatorContext, fuel: nat, data: JSON, schema: JSON) returns (r: Result<Report, Exception>)
    ensures var e := Tv4Validate.PublicErrors(globalContext.schemas, globalContext.decode, globalContext.test, fuel, data, schema);
      r.Success? == e.Success? && (r.Failure? ==> r.error == e.error)
    ensures var e := Tv4Validate.PublicErrors(globalContext.schemas, globalContext.decode, globalContext.test, fuel, data, schema);
      r.Success? ==>
        r.value.errors == e.value && (r.value.valid <==> e.value == [])
        && r.value.error == (if e.value == [] then None else Some(e.value[0]))
        && NoDuplicates(r.value.missing)
  {
    var context := new ValidatorContext(globalContext, globalContext.decode, globalContext.test);
    var s := Tv4Validate.Wrapped(schema);
    var added := context.AddSchema("", s);
    if added.Failure? {
      return Failure(added.error);
    }
    assert context.EnvOf() == Tv4Validate.Env(globalContext.schemas + added.value, globalContext.decode, globalContext.test);
    var out := context.ValidateAll(fuel, data, s);
    if out.Failure? {
      return Failure(out.error);
    }
    if out.value.None? {
      return Failure(TypeError);
    }
    var errors := out.value.value;
    return Success(Report(errors == [], if |errors| > 0 then Some(errors[0]) else None, errors, context.missing));
  }
}
