/** What the keyword checks of `Tv4Checks` decide, stated against the
    schema's own terms (type names, numeric bounds, deep equality). */
module Tv4CheckLemmas {
  import opened Wrappers
  import opened Text
  import opened Json
  import opened Tv4Errors
  import opened Tv4Compare
  import opened Tv4Checks

  // ---- type ----------------------------------------------------------------

  /** A single type name admits exactly the data of that type, and "integer"
      admits every number. */
  lemma TypeNamed(data: JSON, schema: JSON, name: string)
    requires Member(schema, "type") == Some(Str(name))
    ensures ValidateType(data, schema).None? <==> name == DataType(data) || (name == "integer" && data.Num?)
    ensures ValidateType(data, schema).Some? ==> ValidateType(data, schema).value.code == Known(INVALID_TYPE)
  {
    assert AllowedTypes(Str(name)) == [Str(name)];
    NumberTypeName(data);
    if TypeAdmits(Str(name), data) {
      assert TypeAdmits(AllowedTypes(Str(name))[0], data);
    }
  }

  /** Only numbers have the type name "number". */
  lemma NumberTypeName(data: JSON)
    ensures DataType(data) == "number" <==> data.Num?
  {
    match data
    case Null => assert |"null"| != |"number"|;
    case Bool(_) => assert |"boolean"| != |"number"|;
    case Str(_) => assert "string"[0] != "number"[0];
    case Arr(_) => assert |"array"| != |"number"|;
    case Obj(_) => assert "object"[0] != "number"[0];
    case Num(_) =>
  }

  /** A list of type names admits the data when one of them does. */
  lemma TypeListed(data: JSON, schema: JSON, names: seq<JSON>)
    requires Member(schema, "type") == Some(Arr(names))
    requires forall i :: 0 <= i < |names| ==> names[i].Str?
    ensures ValidateType(data, schema).None? <==>
      exists i :: 0 <= i < |names| && (names[i].s == DataType(data) || (names[i].s == "integer" && data.Num?))
  {
    assert AllowedTypes(Arr(names)) == names;
  }

  /** An object given as `type` has no length: it admits nothing. */
  lemma TypeObjectAdmitsNothing(data: JSON, schema: JSON, fs: seq<(string, JSON)>)
    requires Member(schema, "type") == Some(Obj(fs))
    ensures ValidateType(data, schema) == Some(NewError(INVALID_TYPE))
  {
    assert AllowedTypes(Obj(fs)) == [];
  }

  // ---- enum ----------------------------------------------------------------

  lemma {:induction false} EnumMatchIs(data: JSON, values: seq<JSON>, i: nat)
    requires i <= |values|
    requires NullFree(data) && forall j :: 0 <= j < |values| ==> NullFree(values[j])
    ensures EnumMatch(data, values, i) == Success(exists j :: i <= j < |values| && SameValue(data, values[j]))
    decreases |values| - i
  {
    if i < |values| {
      CompareIsSameValue(data, values[i]);
      EnumMatchIs(data, values, i + 1);
    }
  }

  /** Without `null` on either side, `enum` accepts exactly the data equal to
      one of the listed values. */
  lemma EnumOfNullFreeValues(data: JSON, schema: JSON, values: seq<JSON>)
    requires Member(schema, "enum") == Some(Arr(values))
    requires NullFree(data) && forall j :: 0 <= j < |values| ==> NullFree(values[j])
    ensures ValidateEnum(data, schema) ==
      Success(if exists j :: 0 <= j < |values| && SameValue(data, values[j]) then None else Some(NewError(ENUM_MISMATCH)))
  {
    EnumMatchIs(data, values, 0);
  }

  /** `enum: [null]` against an object with members throws. */
  lemma EnumNullAgainstObjectThrows(schema: JSON, fs: seq<(string, JSON)>)
    requires Member(schema, "enum") == Some(Arr([Null])) && fs != []
    ensures ValidateEnum(Obj(fs), schema) == Failure(TypeError)
  {
    NullAgainstObjectThrows(fs);
  }

  // ---- numbers -------------------------------------------------------------

  /** The optional numeric bound `v` as a schema member. */
  function Bound(v: Option<int>): Option<JSON>
  {
    if v.Some? then Some(Num(v.value)) else None
  }

  /** Whether the flag under `key` is set. */
  predicate Flag(schema: JSON, key: string)
  {
    var f := Member(schema, key); f.Some? && Truthy(f.value)
  }

  /** With numeric bounds, a number passes exactly when it lies within them,
      the bound itself excluded when the exclusive flag is set; a number below
      the minimum is reported as such before anything else. */
  lemma MinMaxOfNumbers(x: int, schema: JSON, lo: Option<int>, hi: Option<int>)
    requires Member(schema, "minimum") == Bound(lo) && Member(schema, "maximum") == Bound(hi)
    ensures ValidateMinMax(Num(x), schema).None? <==>
      (lo.None? || lo.value < x || (lo.value == x && !Flag(schema, "exclusiveMinimum")))
      && (hi.None? || x < hi.value || (x == hi.value && !Flag(schema, "exclusiveMaximum")))
    ensures lo.Some? && x < lo.value ==> ValidateMinMax(Num(x), schema) == Some(KeywordError(NUMBER_MINIMUM, "minimum"))
    ensures (lo.None? || lo.value < x) && hi.Some? && x == hi.value && Flag(schema, "exclusiveMaximum") ==>
      ValidateMinMax(Num(x), schema) == Some(KeywordError(NUMBER_MAXIMUM_EXCLUSIVE, "exclusiveMaximum"))
  {
  }

  /** A non-zero numeric `multipleOf` accepts exactly the multiples. */
  lemma MultipleOfNumber(x: int, schema: JSON, d: int)
    requires Member(schema, "multipleOf") == Some(Num(d)) && d != 0
    ensures ValidateMultipleOf(Num(x), schema).None? <==> x % d == 0
  {
  }

  /** A falsy or absent `multipleOf` falls back to the draft-3 `divisibleBy`. */
  lemma DivisibleByFallback(x: int, schema: JSON, d: int)
    requires !Flag(schema, "multipleOf")
    requires Member(schema, "divisibleBy") == Some(Num(d)) && d != 0
    ensures ValidateMultipleOf(Num(x), schema).None? <==> x % d == 0
  {
  }

  /** `multipleOf: 0` is falsy, so alone it checks nothing; `divisibleBy: 0`
      rejects every number, as `x % 0` is NaN. */
  lemma ZeroDivisors(x: int, schema: JSON)
    requires Member(schema, "multipleOf") == Some(Num(0))
    ensures Member(schema, "divisibleBy").None? ==> ValidateMultipleOf(Num(x), schema).None?
    ensures Member(schema, "divisibleBy") == Some(Num(0)) ==>
      ValidateMultipleOf(Num(x), schema) == Some(NewError(NUMBER_MULTIPLE_OF))
  {
  }

  // ---- strings -------------------------------------------------------------

  /** With numeric length bounds, a string passes exactly when its length lies
      within them; the error's code is its message text. */
  lemma StringLengthOfNumbers(s: string, schema: JSON, lo: Option<int>, hi: Option<int>)
    requires Member(schema, "minLength") == Bound(lo) && Member(schema, "maxLength") == Bound(hi)
    ensures ValidateStringLength(Str(s), schema).None? <==> (lo.None? || lo.value <= |s|) && (hi.None? || |s| <= hi.value)
    ensures lo.Some? && |s| < lo.value ==>
      ValidateStringLength(Str(s), schema).value.code == Text(LengthMessage(true, |s|, Num(lo.value)))
    ensures ValidateStringLength(Str(s), schema).Some? ==> ValidateStringLength(Str(s), schema).value.code.Text?
  {
  }

  // ---- arrays --------------------------------------------------------------

  /** Two positions hold equal values. */
  predicate HasDuplicate(items: seq<JSON>)
  {
    exists p, q :: 0 <= p < q < |items| && SameValue(items[p], items[q])
  }

  lemma {:induction false} DuplicateFromIs(items: seq<JSON>, i: nat, j: nat)
    requires i <= |items| && i < j
    requires forall p :: 0 <= p < |items| ==> NullFree(items[p])
    requires forall p, q :: 0 <= p < q < |items| && (p < i || (p == i && q < j)) ==> !SameValue(items[p], items[q])
    ensures DuplicateFrom(items, i, j) == Success(HasDuplicate(items))
    decreases |items| - i, |items| + 1 - j
  {
    if i == |items| {
    } else if j >= |items| {
      DuplicateFromIs(items, i + 1, i + 2);
    } else {
      CompareIsSameValue(items[i], items[j]);
      if !SameValue(items[i], items[j]) {
        DuplicateFromIs(items, i, j + 1);
      }
    }
  }

  /** Without `null` in the array, `uniqueItems` reports an error exactly when
      two elements are equal. */
  lemma UniqueItemsOfNullFree(items: seq<JSON>, schema: JSON)
    requires Flag(schema, "uniqueItems")
    requires forall p :: 0 <= p < |items| ==> NullFree(items[p])
    ensures ValidateArrayUniqueItems(items, schema) ==
      Success(if HasDuplicate(items) then Some(KeywordError(ARRAY_UNIQUE, "uniqueItems")) else None)
  {
    DuplicateFromIs(items, 0, 1);
  }

  /** With numeric bounds, an array passes `minItems`/`maxItems` exactly when
      its length lies within them. */
  lemma ArrayLengthOfNumbers(items: seq<JSON>, schema: JSON, lo: Option<int>, hi: Option<int>)
    requires Member(schema, "minItems") == Bound(lo) && Member(schema, "maxItems") == Bound(hi)
    ensures ValidateArrayLength(items, schema).None? <==> (lo.None? || lo.value <= |items|) && (hi.None? || |items| <= hi.value)
  {
  }

  // ---- objects -------------------------------------------------------------

  /** The number of listed names from position `i` on that the object lacks. */
  function MissingFrom(fields: seq<(string, JSON)>, names: seq<JSON>, i: nat): nat
    requires i <= |names|
    decreases |names| - i
  {
    if i == |names| then 0
    else (if Get(fields, ToText(names[i])).None? then 1 else 0) + MissingFrom(fields, names, i + 1)
  }

  lemma {:induction false} MissingFromZero(fields: seq<(string, JSON)>, names: seq<JSON>, i: nat)
    requires i <= |names|
    ensures MissingFrom(fields, names, i) == 0 <==> forall j :: i <= j < |names| ==> Get(fields, ToText(names[j])).Some?
    decreases |names| - i
  {
    if i < |names| {
      MissingFromZero(fields, names, i + 1);
    }
  }

  /** Every error from position `from` on is an OBJECT_REQUIRED error. */
  predicate AllRequired(errs: seq<VError>, from: nat)
  {
    forall k :: from <= k < |errs| ==> errs[k].code == Known(OBJECT_REQUIRED)
  }

  lemma {:induction false} RequiredFromCounts(fields: seq<(string, JSON)>, names: seq<JSON>, i: nat, acc: seq<VError>)
    requires i <= |names|
    requires forall j :: 0 <= j < |names| ==> names[j].Str?
    ensures RequiredFrom(fields, names, i, acc).Success?
    ensures |RequiredFrom(fields, names, i, acc).value| == |acc| + MissingFrom(fields, names, i)
    ensures RequiredFrom(fields, names, i, acc).value[..|acc|] == acc
    ensures AllRequired(RequiredFrom(fields, names, i, acc).value, |acc|)
    decreases |names| - i
  {
    if i < |names| {
      if Get(fields, ToText(names[i])).Some? {
        RequiredFromCounts(fields, names, i + 1, acc);
      } else {
        var e := RequiredError(names[i], i).value;
        var acc' := acc + [e];
        assert RequiredFrom(fields, names, i, acc) == RequiredFrom(fields, names, i + 1, acc');
        RequiredFromCounts(fields, names, i + 1, acc');
        RequiredAfter(RequiredFrom(fields, names, i + 1, acc').value, acc, e);
      }
    }
  }

  /** Errors that extend `acc + [e]` with required errors extend `acc` with
      required errors when `e` is one. */
  lemma RequiredAfter(r: seq<VError>, acc: seq<VError>, e: VError)
    requires |acc| + 1 <= |r| && r[..|acc| + 1] == acc + [e] && AllRequired(r, |acc| + 1)
    requires e.code == Known(OBJECT_REQUIRED)
    ensures r[..|acc|] == acc && AllRequired(r, |acc|)
  {
    assert r[..|acc|] == r[..|acc| + 1][..|acc|];
    assert r[|acc|] == r[..|acc| + 1][|acc|];
  }

  /** With a list of names, `required` reports one OBJECT_REQUIRED error per
      missing name, and none exactly when every name is present. */
  lemma RequiredOfNames(fields: seq<(string, JSON)>, schema: JSON, names: seq<JSON>)
    requires Member(schema, "required") == Some(Arr(names))
    requires forall j :: 0 <= j < |names| ==> names[j].Str?
    ensures var r := ValidateObjectRequiredProperties(fields, schema);
      r.Success? && |r.value| == MissingFrom(fields, names, 0)
      && (r.value == [] <==> forall j :: 0 <= j < |names| ==> Get(fields, names[j].s).Some?)
      && forall k :: 0 <= k < |r.value| ==> r.value[k].code == Known(OBJECT_REQUIRED)
  {
    RequiredFromCounts(fields, names, 0, []);
    MissingFromZero(fields, names, 0);
  }

  /** Index prefixes are plain. */
  lemma IndexPlain(i: nat)
    ensures '~' !in Index(i) && '/' !in Index(i)
  {
    var s := Index(i);
    assert forall j :: 0 <= j < |s| ==> s[j] != '~' && s[j] != '/';
  }

  /** The error for a missing required name `k` points at `/k` in the data
      and at `/k/required/i` in the schema. */
  lemma RequiredErrorPaths(k: string, i: nat)
    requires '~' !in k && '/' !in k
    ensures RequiredError(Str(k), i).Success?
    ensures RequiredError(Str(k), i).value.dataPath == "/" + k
    ensures RequiredError(Str(k), i).value.schemaPath == "/" + k + ("/" + "required" + ("/" + Index(i)))
  {
    IndexPlain(i);
    EscapePlain(k);
    var e0 := NewError(OBJECT_REQUIRED);
    PlainSchemaPrefix(e0, None, Index(i));
    var e1 := PrefixWith(e0, None, Some(Index(i)));
    PlainSchemaPrefix(e1, None, "required");
    var e2 := PrefixWith(e1, None, Some("required"));
    PlainSchemaPrefix(e2, Some(k), k);
  }

  /** A required name that is not a string throws once it is missing, as
      `prefixWith` calls `replace` on it. */
  lemma RequiredNumberThrows(fields: seq<(string, JSON)>, schema: JSON, n: int)
    requires Member(schema, "required") == Some(Arr([Num(n)]))
    requires Get(fields, IntToString(n)).None?
    ensures ValidateObjectRequiredProperties(fields, schema) == Failure(TypeError)
  {
  }
}
