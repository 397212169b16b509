/** What `validateAll` and the combining keywords decide, stated in terms of
    the outcome of validating each sub-schema. */
module Tv4ValidateLemmas {
  import opened Wrappers
  import opened Json
  import opened Tv4Errors
  import opened Tv4Registry
  import opened Tv4Checks
  import opened Tv4Validate
  import opened Tv4OneOf

  // ---- $ref ----------------------------------------------------------------

  /** A schema with a string `$ref` is replaced by its target: the members
      beside `$ref` play no part. */
  lemma RefIgnoresSiblings(env: Env, fuel: nat, data: JSON, s1: JSON, s2: JSON, url: string)
    requires !s1.Null? && !s2.Null?
    requires Member(s1, "$ref") == Some(Str(url)) && Member(s2, "$ref") == Some(Str(url))
    ensures ValidateAll(env, fuel, data, s1) == ValidateAll(env, fuel, data, s2)
  {
  }

  /** A `$ref` that does not resolve makes `validateAll` return `null`. */
  lemma UnresolvedRefIsNull(env: Env, fuel: nat, data: JSON, schema: JSON, url: string, record: bool)
    requires fuel > 0 && !schema.Null?
    requires Member(schema, "$ref") == Some(Str(url))
    requires Locate(env.schemas, env.decode, url) == Success(Miss(record))
    ensures ValidateAll(env, fuel, data, schema) == Success(None)
  {
  }

  // ---- the empty schema ----------------------------------------------------

  lemma {:induction false} PropertiesOfEmptySchema(env: Env, fuel: nat, fields: seq<(string, JSON)>, k: nat, acc: seq<VError>)
    requires k <= |fields|
    ensures PropertiesFrom(env, fuel, fields, Obj([]), k, acc) == Success(acc)
    decreases |fields| - k
  {
    if k < |fields| {
      var key := fields[k].0;
      var value := fields[Lookup(fields, key).value].1;
      var d := DeclaredErrors(env, fuel, key, value, Obj([]));
      assert d.Success? && d.value == (false, []);
      var a := AdditionalErrors(env, fuel, key, value, Obj([]));
      assert a.Success? && a.value == [];
      PropertyErrorsOfParts(env, fuel, key, value, Obj([]), false, [], false, [], []);
      PropertiesOfEmptySchema(env, fuel, fields, k + 1, acc);
      assert acc + [] == acc;
    }
  }

  lemma ArrayOfEmptySchema(env: Env, fuel: nat, data: JSON)
    ensures var r := ValidateArray(env, fuel, data, Obj([])); r.Success? && r.value == []
  {
    if data.Arr? {
      var e := Obj([]);
      assert forall k :: Member(e, k) == None;
      var len := ValidateArrayLength(data.items, e);
      assert len.None?;
      var unique := ValidateArrayUniqueItems(data.items, e);
      assert unique.Success? && unique.value.None?;
      var items := ValidateArrayItems(env, fuel, data.items, e);
      assert items.Success? && items.value == [];
    }
  }

  lemma ObjectOfEmptySchema(env: Env, fuel: nat, data: JSON)
    ensures var r := ValidateObject(env, fuel, data, Obj([])); r.Success? && r.value == []
  {
    if data.Obj? {
      var e := Obj([]);
      assert forall k :: Member(e, k) == None;
      var count := ValidateObjectMinMaxProperties(data.fields, e);
      assert count.None?;
      var required := ValidateObjectRequiredProperties(data.fields, e);
      assert required.Success? && required.value == [];
      PropertiesOfEmptySchema(env, fuel, data.fields, 0, []);
      var deps := ValidateObjectDependencies(env, fuel, data.fields, e);
      assert deps.Success? && deps.value == [];
    }
  }

  lemma CombinationsOfEmptySchema(env: Env, fuel: nat, data: JSON)
    ensures var r := ValidateCombinations(env, fuel, data, Obj([])); r.Success? && r.value == []
  {
    var e := Obj([]);
    assert forall k :: Member(e, k) == None;
    var all := ValidateAllOf(env, fuel, data, e);
    assert all.Success? && all.value == [];
    var any := ValidateAnyOf(env, fuel, data, e);
    assert any.Success? && any.value.None?;
    var one := ValidateOneOf(env, fuel, data, e);
    assert one.Success? && one.value.None?;
    var not := ValidateNot(env, fuel, data, e);
    assert not.Success? && not.value.None?;
  }

  /** `{}` accepts every document. */
  lemma EmptySchemaAcceptsAll(env: Env, fuel: nat, data: JSON)
    requires fuel > 0
    ensures var r := ValidateAll(env, fuel, data, Obj([])); r.Success? && r.value == Some([])
  {
    var e := Obj([]);
    assert forall k :: Member(e, k) == None;
    assert Resolve(env, e) == Success(Some(e));
    var basic := ValidateBasic(data, e);
    assert basic.Success? && basic.value == [];
    assert ValidateNumeric(data, e) == [];
    var str := ValidateString(env.test, data, e);
    assert str.Success? && str.value == [];
    ArrayOfEmptySchema(env, fuel - 1, data);
    ObjectOfEmptySchema(env, fuel - 1, data);
    CombinationsOfEmptySchema(env, fuel - 1, data);
    var cat := Categories(env, fuel - 1, data, e);
    assert cat.Success? && cat.value == [];
  }

  // ---- arrays --------------------------------------------------------------

  /** The errors for the elements from `from` up to `to` when no additional
      items are allowed. */
  function Extras(from: nat, to: nat): (r: seq<VError>)
    requires from <= to
    ensures |r| == to - from
  {
    seq(to - from, k requires 0 <= k < to - from => AdditionalItemError(from + k))
  }

  /** The elements from position `i` on each validate without errors against
      their tuple entry. */
  predicate TuplePasses(env: Env, fuel: nat, data: seq<JSON>, tuple: seq<JSON>, i: nat)
  {
    forall j :: i <= j < |data| && j < |tuple| ==> ValidateAll(env, fuel, data[j], tuple[j]) == Success(Some([]))
  }

  lemma TupleStepPassing(env: Env, fuel: nat, data: seq<JSON>, tuple: seq<JSON>, i: nat, acc: seq<VError>)
    requires i < |data| && i < |tuple|
    requires ValidateAll(env, fuel, data[i], tuple[i]) == Success(Some([]))
    ensures TupleFrom(env, fuel, data, tuple, Some(Bool(false)), i, acc) == TupleFrom(env, fuel, data, tuple, Some(Bool(false)), i + 1, acc)
  {
    assert PrefixEach(PrefixEach([], None, Some(Index(i))), Some(Index(i)), Some("items")) == [];
    assert acc + [] == acc;
  }

  lemma TupleStepExtra(env: Env, fuel: nat, data: seq<JSON>, tuple: seq<JSON>, i: nat, acc: seq<VError>)
    requires |tuple| <= i < |data|
    ensures TupleFrom(env, fuel, data, tuple, Some(Bool(false)), i, acc)
         == TupleFrom(env, fuel, data, tuple, Some(Bool(false)), i + 1, acc + [AdditionalItemError(i)])
  {
  }

  lemma ExtrasCons(i: nat, n: nat)
    requires i < n
    ensures [AdditionalItemError(i)] + Extras(i + 1, n) == Extras(i, n)
  {
    var a := [AdditionalItemError(i)] + Extras(i + 1, n);
    var b := Extras(i, n);
    forall k | 0 <= k < |a| ensures a[k] == b[k] {
      if k > 0 { assert a[k] == Extras(i + 1, n)[k - 1]; }
    }
  }

  lemma {:induction false} TupleFromClosed(env: Env, fuel: nat, data: seq<JSON>, tuple: seq<JSON>, i: nat, acc: seq<VError>)
    requires i <= |data| && |tuple| <= |data|
    requires TuplePasses(env, fuel, data, tuple, i)
    ensures var from := if i < |tuple| then |tuple| else i;
      var r := TupleFrom(env, fuel, data, tuple, Some(Bool(false)), i, acc);
      r.Success? && r.value == acc + Extras(from, |data|)
    decreases |data| - i
  {
    if i < |data| {
      if i < |tuple| {
        assert ValidateAll(env, fuel, data[i], tuple[i]) == Success(Some([]));
        TupleFromClosed(env, fuel, data, tuple, i + 1, acc);
        TupleStepPassing(env, fuel, data, tuple, i, acc);
      } else {
        TupleFromClosed(env, fuel, data, tuple, i + 1, acc + [AdditionalItemError(i)]);
        TupleClosedExtra(env, fuel, data, tuple, i, acc);
      }
    } else {
      assert Extras(i, i) == [];
      assert acc + [] == acc;
    }
  }

  /** Past the tuple, one more element adds its error ahead of the rest. */
  lemma TupleClosedExtra(env: Env, fuel: nat, data: seq<JSON>, tuple: seq<JSON>, i: nat, acc: seq<VError>)
    requires |tuple| <= i < |data|
    requires var r := TupleFrom(env, fuel, data, tuple, Some(Bool(false)), i + 1, acc + [AdditionalItemError(i)]);
      r.Success? && r.value == acc + [AdditionalItemError(i)] + Extras(i + 1, |data|)
    ensures var r := TupleFrom(env, fuel, data, tuple, Some(Bool(false)), i, acc);
      r.Success? && r.value == acc + Extras(i, |data|)
  {
    var e := AdditionalItemError(i);
    TupleStepExtra(env, fuel, data, tuple, i, acc);
    ExtrasCons(i, |data|);
    ErrorsAssoc(acc, [e], Extras(i + 1, |data|));
  }

  lemma ErrorsAssoc(a: seq<VError>, b: seq<VError>, c: seq<VError>)
    ensures a + b + c == a + (b + c)
  {
  }

  /** With `additionalItems: false` and a tuple every element passes, there is
      exactly one ARRAY_ADDITIONAL_ITEMS error per element beyond the tuple. */
  lemma ClosedTuple(env: Env, fuel: nat, data: seq<JSON>, schema: JSON, tuple: seq<JSON>)
    requires Member(schema, "items") == Some(Arr(tuple)) && Member(schema, "additionalItems") == Some(Bool(false))
    requires |tuple| <= |data| && TuplePasses(env, fuel, data, tuple, 0)
    ensures var r := ValidateArrayItems(env, fuel, data, schema); r.Success? && r.value == Extras(|tuple|, |data|)
  {
    TupleFromClosed(env, fuel, data, tuple, 0, []);
    assert [] + Extras(|tuple|, |data|) == Extras(|tuple|, |data|);
  }

  // ---- objects -------------------------------------------------------------

  /** The error for a member `key` that no keyword declares when
      `additionalProperties` is false. */
  function AdditionalPropertyError(key: string): VError
  {
    PrefixWith(NewError(OBJECT_ADDITIONAL_PROPERTIES), Some(key), Some("additionalProperties"))
  }

  lemma PropertiesStepClosed(env: Env, fuel: nat, fields: seq<(string, JSON)>, schema: JSON, k: nat, acc: seq<VError>)
    requires k < |fields|
    requires !Defined(Member(schema, "properties")) && !Defined(Member(schema, "patternProperties"))
    requires Member(schema, "additionalProperties") == Some(Bool(false))
    ensures PropertiesFrom(env, fuel, fields, schema, k, acc)
         == PropertiesFrom(env, fuel, fields, schema, k + 1, acc + [AdditionalPropertyError(fields[k].0)])
  {
    var key := fields[k].0;
    var e := AdditionalPropertyError(key);
    var value := fields[Lookup(fields, key).value].1;
    var d := DeclaredErrors(env, fuel, key, value, schema);
    assert d.Success? && d.value == (false, []);
    var a := AdditionalErrors(env, fuel, key, value, schema);
    assert a.Success? && a.value == [e];
    PropertyErrorsOfParts(env, fuel, key, value, schema, false, [], false, [], [e]);
    assert [] + [] + [e] == [e];
  }

  /** The errors for the members from the `k`-th on when none is declared. */
  function Undeclared(fields: seq<(string, JSON)>, k: nat): (r: seq<VError>)
    requires k <= |fields|
    ensures |r| == |fields| - k
  {
    seq(|fields| - k, j requires 0 <= j < |fields| - k => AdditionalPropertyError(fields[k + j].0))
  }

  lemma UndeclaredCons(fields: seq<(string, JSON)>, k: nat)
    requires k < |fields|
    ensures [AdditionalPropertyError(fields[k].0)] + Undeclared(fields, k + 1) == Undeclared(fields, k)
  {
    var a := [AdditionalPropertyError(fields[k].0)] + Undeclared(fields, k + 1);
    var b := Undeclared(fields, k);
    forall j | 0 <= j < |a| ensures a[j] == b[j] {
      if j > 0 { assert a[j] == Undeclared(fields, k + 1)[j - 1]; }
    }
  }

  lemma {:induction false} PropertiesClosed(env: Env, fuel: nat, fields: seq<(string, JSON)>, schema: JSON, k: nat, acc: seq<VError>)
    requires k <= |fields|
    requires !Defined(Member(schema, "properties")) && !Defined(Member(schema, "patternProperties"))
    requires Member(schema, "additionalProperties") == Some(Bool(false))
    ensures var r := PropertiesFrom(env, fuel, fields, schema, k, acc);
      r.Success? && r.value == acc + Undeclared(fields, k)
    decreases |fields| - k
  {
    if k < |fields| {
      PropertiesClosed(env, fuel, fields, schema, k + 1, acc + [AdditionalPropertyError(fields[k].0)]);
      PropertiesClosedStep(env, fuel, fields, schema, k, acc);
    } else {
      assert acc + Undeclared(fields, k) == acc;
    }
  }

  /** One more undeclared member adds its error ahead of the rest. */
  lemma PropertiesClosedStep(env: Env, fuel: nat, fields: seq<(string, JSON)>, schema: JSON, k: nat, acc: seq<VError>)
    requires k < |fields|
    requires !Defined(Member(schema, "properties")) && !Defined(Member(schema, "patternProperties"))
    requires Member(schema, "additionalProperties") == Some(Bool(false))
    requires var e := AdditionalPropertyError(fields[k].0);
      var r := PropertiesFrom(env, fuel, fields, schema, k + 1, acc + [e]);
      r.Success? && r.value == acc + [e] + Undeclared(fields, k + 1)
    ensures var r := PropertiesFrom(env, fuel, fields, schema, k, acc);
      r.Success? && r.value == acc + Undeclared(fields, k)
  {
    var e := AdditionalPropertyError(fields[k].0);
    PropertiesStepClosed(env, fuel, fields, schema, k, acc);
    UndeclaredCons(fields, k);
    ErrorsAssoc(acc, [e], Undeclared(fields, k + 1));
  }

  /** With only `additionalProperties: false`, every member of the object is
      reported, in order. */
  lemma ClosedObject(env: Env, fuel: nat, fields: seq<(string, JSON)>, schema: JSON)
    requires !Defined(Member(schema, "properties")) && !Defined(Member(schema, "patternProperties"))
    requires Member(schema, "additionalProperties") == Some(Bool(false))
    ensures var r := PropertiesFrom(env, fuel, fields, schema, 0, []);
      r.Success? && |r.value| == |fields|
      && forall j :: 0 <= j < |fields| ==> r.value[j] == AdditionalPropertyError(fields[j].0)
  {
    PropertiesClosed(env, fuel, fields, schema, 0, []);
    assert [] + Undeclared(fields, 0) == Undeclared(fields, 0);
  }

  /** Every member from the `k`-th on is declared under `properties` and its
      value passes the declared schema. */
  predicate DeclaredAndPassing(env: Env, fuel: nat, fields: seq<(string, JSON)>, props: seq<(string, JSON)>, k: nat)
  {
    forall j :: k <= j < |fields| ==>
      Defined(Get(props, fields[j].0))
      && ValidateAll(env, fuel, fields[Lookup(fields, fields[j].0).value].1, Get(props, fields[j].0).value) == Success(Some([]))
  }

  lemma {:induction false} PropertiesDeclared(env: Env, fuel: nat, fields: seq<(string, JSON)>, schema: JSON,
                                              props: seq<(string, JSON)>, k: nat, acc: seq<VError>)
    requires k <= |fields|
    requires Member(schema, "properties") == Some(Obj(props)) && !Defined(Member(schema, "patternProperties"))
    requires DeclaredAndPassing(env, fuel, fields, props, k)
    ensures PropertiesFrom(env, fuel, fields, schema, k, acc) == Success(acc)
    decreases |fields| - k
  {
    if k < |fields| {
      DeclaredStep(env, fuel, fields, schema, props, k, acc);
      PropertiesDeclared(env, fuel, fields, schema, props, k + 1, acc);
    }
  }

  /** A declared member that passes its schema adds no error. */
  lemma DeclaredStep(env: Env, fuel: nat, fields: seq<(string, JSON)>, schema: JSON,
                     props: seq<(string, JSON)>, k: nat, acc: seq<VError>)
    requires k < |fields|
    requires Member(schema, "properties") == Some(Obj(props)) && !Defined(Member(schema, "patternProperties"))
    requires DeclaredAndPassing(env, fuel, fields, props, k)
    ensures PropertiesFrom(env, fuel, fields, schema, k, acc) == PropertiesFrom(env, fuel, fields, schema, k + 1, acc)
  {
    var key := fields[k].0;
    var value := fields[Lookup(fields, key).value].1;
    assert PrefixEach(PrefixEach([], Some(key), Some(key)), None, Some("properties")) == [];
    var d := DeclaredErrors(env, fuel, key, value, schema);
    assert d.Success? && d.value == (true, []);
    PropertyErrorsOfParts(env, fuel, key, value, schema, true, [], true, [], []);
    assert acc + [] == acc;
  }

  /** Members that are all declared and pass their schemas raise no error,
      whatever `additionalProperties` says. */
  lemma DeclaredObject(env: Env, fuel: nat, fields: seq<(string, JSON)>, schema: JSON, props: seq<(string, JSON)>)
    requires Member(schema, "properties") == Some(Obj(props)) && !Defined(Member(schema, "patternProperties"))
    requires DeclaredAndPassing(env, fuel, fields, props, 0)
    ensures PropertiesFrom(env, fuel, fields, schema, 0, []) == Success([])
  {
    PropertiesDeclared(env, fuel, fields, schema, props, 0, []);
  }

  /** A string dependency: when the object has `key`, it must have `other`. */
  lemma DependencyOnKey(env: Env, fuel: nat, fields: seq<(string, JSON)>, schema: JSON, key: string, other: string)
    requires Member(schema, "dependencies") == Some(Obj([(key, Str(other))]))
    ensures var r := ValidateObjectDependencies(env, fuel, fields, schema);
      r.Success? && r.value == if Get(fields, key).Some? && Get(fields, other).None? then [DependencyError(key)] else []
  {
    var deps := Obj([(key, Str(other))]);
    assert ForInKeys(deps) == [key];
    assert Member(deps, key) == Some(Str(other));
    var errs := if Get(fields, other).None? then [DependencyError(key)] else [];
    var r := DependenciesFrom(env, fuel, fields, deps, [key], 0, []);
    if Get(fields, key).Some? {
      var one := DependencyErrors(env, fuel, fields, deps, key);
      assert one.Success? && one.value == errs;
      var last := DependenciesFrom(env, fuel, fields, deps, [key], 1, [] + errs);
      assert last.Success? && last.value == [] + errs;
      assert r == last;
      assert [] + errs == errs;
    } else {
      assert r == DependenciesFrom(env, fuel, fields, deps, [key], 1, []);
    }
  }

  // ---- combinations --------------------------------------------------------

  /** The `i`-th alternative passes: it resolves and reports no error. */
  predicate Passes(env: Env, fuel: nat, data: JSON, alts: seq<JSON>, i: nat)
    requires i < |alts|
  {
    ValidateAll(env, fuel, data, alts[i]) == Success(Some([]))
  }

  /** The errors of the alternatives from the `i`-th on, in order, each
      prefixed with its index and then with the keyword `kw`: what the
      combining keywords collect when no alternative throws. */
  function Gathered(env: Env, fuel: nat, data: JSON, alts: seq<JSON>, kw: string, i: nat): seq<VError>
    requires i <= |alts|
    decreases |alts| - i
  {
    if i == |alts| then []
    else
      var o := ValidateAll(env, fuel, data, alts[i]);
      var own := if o.Success? then Errors(o.value) else [];
      PrefixEach(PrefixEach(own, None, Some(Index(i))), None, Some(kw)) + Gathered(env, fuel, data, alts, kw, i + 1)
  }

  /** One alternative that does not throw contributes its own prefixed errors. */
  lemma GatheredStep(env: Env, fuel: nat, data: JSON, alts: seq<JSON>, kw: string, i: nat, sub: Option<seq<VError>>)
    requires i < |alts| && ValidateAll(env, fuel, data, alts[i]) == Success(sub)
    ensures Gathered(env, fuel, data, alts, kw, i)
      == PrefixEach(PrefixEach(Errors(sub), None, Some(Index(i))), None, Some(kw)) + Gathered(env, fuel, data, alts, kw, i + 1)
  {
  }

  /** Appending the errors of one more alternative to what the loop holds. */
  lemma AppendGathered(acc: seq<VError>, errs: seq<VError>, rest: seq<VError>)
    ensures acc + errs + rest == acc + (errs + rest)
  {
  }

  lemma AllOfStep(env: Env, fuel: nat, data: JSON, alts: seq<JSON>, i: nat, acc: seq<VError>)
    requires i < |alts| && ValidateAll(env, fuel, data, alts[i]).Success?
    ensures AllOfFrom(env, fuel, data, alts, i, acc) == AllOfFrom(env, fuel, data, alts, i + 1,
      acc + PrefixEach(PrefixEach(Errors(ValidateAll(env, fuel, data, alts[i]).value), None, Some(Index(i))), None, Some("allOf")))
  {
  }

  /** Every alternative from the `i`-th on resolves or is left unresolved
      without throwing. */
  predicate NoneThrows(env: Env, fuel: nat, data: JSON, alts: seq<JSON>, i: nat)
  {
    forall j :: i <= j < |alts| ==> ValidateAll(env, fuel, data, alts[j]).Success?
  }

  lemma AllOfStepThrows(env: Env, fuel: nat, data: JSON, alts: seq<JSON>, i: nat, acc: seq<VError>)
    requires i < |alts| && ValidateAll(env, fuel, data, alts[i]).Failure?
    ensures AllOfFrom(env, fuel, data, alts, i, acc).Failure?
  {
  }

  lemma {:induction false} AllOfFromSucceeds(env: Env, fuel: nat, data: JSON, alts: seq<JSON>, i: nat, acc: seq<VError>)
    requires i <= |alts|
    ensures AllOfFrom(env, fuel, data, alts, i, acc).Success? <==> NoneThrows(env, fuel, data, alts, i)
    decreases |alts| - i
  {
    if i < |alts| {
      var o := ValidateAll(env, fuel, data, alts[i]);
      if o.Success? {
        var errs := PrefixEach(PrefixEach(Errors(o.value), None, Some(Index(i))), None, Some("allOf"));
        AllOfStep(env, fuel, data, alts, i, acc);
        AllOfFromSucceeds(env, fuel, data, alts, i + 1, acc + errs);
        assert NoneThrows(env, fuel, data, alts, i) <==> NoneThrows(env, fuel, data, alts, i + 1);
      } else {
        AllOfStepThrows(env, fuel, data, alts, i, acc);
      }
    }
  }

  /** No alternative from the `i`-th on that returns a result reports an error. */
  predicate NoneReports(env: Env, fuel: nat, data: JSON, alts: seq<JSON>, i: nat)
  {
    forall j :: i <= j < |alts| && ValidateAll(env, fuel, data, alts[j]).Success? ==>
      Errors(ValidateAll(env, fuel, data, alts[j]).value) == []
  }

  lemma {:induction false} AllOfFromEmpty(env: Env, fuel: nat, data: JSON, alts: seq<JSON>, i: nat, acc: seq<VError>)
    requires i <= |alts| && AllOfFrom(env, fuel, data, alts, i, acc).Success?
    ensures AllOfFrom(env, fuel, data, alts, i, acc).value == [] <==> acc == [] && NoneReports(env, fuel, data, alts, i)
    decreases |alts| - i
  {
    if i < |alts| {
      var o := ValidateAll(env, fuel, data, alts[i]);
      if o.Failure? {
        AllOfStepThrows(env, fuel, data, alts, i, acc);
      } else {
        var sub := Errors(o.value);
        var errs := PrefixEach(PrefixEach(sub, None, Some(Index(i))), None, Some("allOf"));
        AllOfStep(env, fuel, data, alts, i, acc);
        AllOfFromEmpty(env, fuel, data, alts, i + 1, acc + errs);
        assert |errs| == |sub|;
        NoneReportsStep(env, fuel, data, alts, i);
      }
    }
  }

  lemma NoneReportsStep(env: Env, fuel: nat, data: JSON, alts: seq<JSON>, i: nat)
    requires i < |alts| && ValidateAll(env, fuel, data, alts[i]).Success?
    ensures NoneReports(env, fuel, data, alts, i)
      <==> Errors(ValidateAll(env, fuel, data, alts[i]).value) == [] && NoneReports(env, fuel, data, alts, i + 1)
  {
  }

  /** The `allOf` loop appends exactly the gathered errors of the remaining
      alternatives. */
  lemma {:induction false} AllOfFromGathers(env: Env, fuel: nat, data: JSON, alts: seq<JSON>, i: nat, acc: seq<VError>)
    requires i <= |alts| && AllOfFrom(env, fuel, data, alts, i, acc).Success?
    ensures AllOfFrom(env, fuel, data, alts, i, acc).value == acc + Gathered(env, fuel, data, alts, "allOf", i)
    decreases |alts| - i
  {
    if i < |alts| {
      var o := ValidateAll(env, fuel, data, alts[i]);
      if o.Failure? {
        AllOfStepThrows(env, fuel, data, alts, i, acc);
      } else {
        var errs := PrefixEach(PrefixEach(Errors(o.value), None, Some(Index(i))), None, Some("allOf"));
        AllOfStep(env, fuel, data, alts, i, acc);
        AllOfFromGathers(env, fuel, data, alts, i + 1, acc + errs);
        GatheredStep(env, fuel, data, alts, "allOf", i, o.value);
        AppendGathered(acc, errs, Gathered(env, fuel, data, alts, "allOf", i + 1));
      }
    }
  }

  /** `allOf` succeeds exactly when no alternative throws; its errors are then
      every alternative's errors, prefixed with the alternative's index and
      `allOf`, in order, so there are none exactly when no alternative reports
      one (an unresolved `$ref` reports none). */
  lemma AllOfIs(env: Env, fuel: nat, data: JSON, schema: JSON, alts: seq<JSON>)
    requires Member(schema, "allOf") == Some(Arr(alts))
    ensures ValidateAllOf(env, fuel, data, schema).Success? <==> NoneThrows(env, fuel, data, alts, 0)
    ensures ValidateAllOf(env, fuel, data, schema).Success? ==>
      ValidateAllOf(env, fuel, data, schema).value == Gathered(env, fuel, data, alts, "allOf", 0)
    ensures ValidateAllOf(env, fuel, data, schema).Success? ==>
      (ValidateAllOf(env, fuel, data, schema).value == [] <==> NoneReports(env, fuel, data, alts, 0))
  {
    AllOfFromSucceeds(env, fuel, data, alts, 0, []);
    if AllOfFrom(env, fuel, data, alts, 0, []).Success? {
      AllOfFromEmpty(env, fuel, data, alts, 0, []);
      AllOfFromGathers(env, fuel, data, alts, 0, []);
      assert [] + Gathered(env, fuel, data, alts, "allOf", 0) == Gathered(env, fuel, data, alts, "allOf", 0);
    }
  }

  lemma {:induction false} AnyOfFromIs(env: Env, fuel: nat, data: JSON, alts: seq<JSON>, i: nat, valid: bool, acc: seq<VError>)
    requires i <= |alts|
    requires AnyOfFrom(env, fuel, data, alts, i, valid, acc).Success?
    ensures AnyOfFrom(env, fuel, data, alts, i, valid, acc).value.0 <==>
      valid || exists j :: i <= j < |alts| && Passes(env, fuel, data, alts, j)
    decreases |alts| - i
  {
    if i < |alts| {
      var o := ValidateAll(env, fuel, data, alts[i]);
      assert o.Success?;
      var sub := o.value;
      var valid' := valid || sub == Some([]);
      var acc' := acc + PrefixEach(PrefixEach(Errors(sub), None, Some(Index(i))), None, Some("anyOf"));
      assert AnyOfFrom(env, fuel, data, alts, i, valid, acc) == AnyOfFrom(env, fuel, data, alts, i + 1, valid', acc');
      AnyOfFromIs(env, fuel, data, alts, i + 1, valid', acc');
      assert Passes(env, fuel, data, alts, i) <==> sub == Some([]);
    }
  }

  /** The `anyOf` loop appends exactly the gathered errors of the remaining
      alternatives. */
  lemma {:induction false} AnyOfFromGathers(env: Env, fuel: nat, data: JSON, alts: seq<JSON>, i: nat, valid: bool, acc: seq<VError>)
    requires i <= |alts|
    requires AnyOfFrom(env, fuel, data, alts, i, valid, acc).Success?
    ensures AnyOfFrom(env, fuel, data, alts, i, valid, acc).value.1 == acc + Gathered(env, fuel, data, alts, "anyOf", i)
    decreases |alts| - i
  {
    if i < |alts| {
      var o := ValidateAll(env, fuel, data, alts[i]);
      assert o.Success?;
      var sub := o.value;
      var valid' := valid || sub == Some([]);
      var errs := PrefixEach(PrefixEach(Errors(sub), None, Some(Index(i))), None, Some("anyOf"));
      assert AnyOfFrom(env, fuel, data, alts, i, valid, acc) == AnyOfFrom(env, fuel, data, alts, i + 1, valid', acc + errs);
      AnyOfFromGathers(env, fuel, data, alts, i + 1, valid', acc + errs);
      GatheredStep(env, fuel, data, alts, "anyOf", i, sub);
      AppendGathered(acc, errs, Gathered(env, fuel, data, alts, "anyOf", i + 1));
    }
  }

  /** When `anyOf` does not throw, it reports an error exactly when no
      alternative passes, and that error is ANY_OF_MISSING at `/anyOf`
      carrying every alternative's errors, prefixed with the alternative's
      index and `anyOf`, in order. */
  lemma AnyOfIs(env: Env, fuel: nat, data: JSON, schema: JSON, alts: seq<JSON>)
    requires Member(schema, "anyOf") == Some(Arr(alts))
    requires ValidateAnyOf(env, fuel, data, schema).Success?
    ensures ValidateAnyOf(env, fuel, data, schema).value.None? <==>
      exists j :: 0 <= j < |alts| && Passes(env, fuel, data, alts, j)
    ensures ValidateAnyOf(env, fuel, data, schema).value.Some? ==>
      ValidateAnyOf(env, fuel, data, schema).value.value
      == VError(Known(ANY_OF_MISSING), "", "/anyOf", Gathered(env, fuel, data, alts, "anyOf", 0))
  {
    AnyOfFromIs(env, fuel, data, alts, 0, false, []);
    AnyOfFromGathers(env, fuel, data, alts, 0, false, []);
    assert [] + Gathered(env, fuel, data, alts, "anyOf", 0) == Gathered(env, fuel, data, alts, "anyOf", 0);
  }

  /** An unresolved alternative throws only while no earlier one has passed. */
  lemma AnyOfUnresolvedAlternative(env: Env, fuel: nat, data: JSON, schema: JSON, a: JSON, b: JSON)
    requires ValidateAll(env, fuel, data, a) == Success(Some([])) && ValidateAll(env, fuel, data, b) == Success(None)
    ensures Member(schema, "anyOf") == Some(Arr([a, b])) ==> ValidateAnyOf(env, fuel, data, schema) == Success(None)
    ensures Member(schema, "anyOf") == Some(Arr([b, a])) ==> ValidateAnyOf(env, fuel, data, schema) == Failure(TypeError)
  {
    if Member(schema, "anyOf") == Some(Arr([a, b])) {
      AnyOfPassedFirst(env, fuel, data, a, b);
      assert Indexed(Arr([a, b])) == [a, b];
    }
    if Member(schema, "anyOf") == Some(Arr([b, a])) {
      assert AnyOfFrom(env, fuel, data, [b, a], 0, false, []) == Failure(TypeError);
      assert Indexed(Arr([b, a])) == [b, a];
    }
  }

  lemma AnyOfPassedFirst(env: Env, fuel: nat, data: JSON, a: JSON, b: JSON)
    requires ValidateAll(env, fuel, data, a) == Success(Some([])) && ValidateAll(env, fuel, data, b) == Success(None)
    ensures AnyOfFrom(env, fuel, data, [a, b], 0, false, []).Success?
    ensures AnyOfFrom(env, fuel, data, [a, b], 0, false, []).value.0
  {
    AnyOfStepNoErrors(env, fuel, data, [a, b], 0, false, []);
    AnyOfStepNoErrors(env, fuel, data, [a, b], 1, true, []);
  }

  /** An alternative that leaves no errors behind sets the flag when it
      passes, or when one already has, and adds nothing. */
  lemma AnyOfStepNoErrors(env: Env, fuel: nat, data: JSON, alts: seq<JSON>, i: nat, valid: bool, acc: seq<VError>)
    requires i < |alts|
    requires ValidateAll(env, fuel, data, alts[i]) == Success(Some([]))
          || (valid && ValidateAll(env, fuel, data, alts[i]) == Success(None))
    ensures AnyOfFrom(env, fuel, data, alts, i, valid, acc) == AnyOfFrom(env, fuel, data, alts, i + 1, true, acc)
  {
    var sub := ValidateAll(env, fuel, data, alts[i]).value;
    assert Errors(sub) == [];
    assert acc + PrefixEach(PrefixEach([], None, Some(Index(i))), None, Some("anyOf")) == acc;
  }

  /** Which alternatives pass, in order. */
  function PassList(env: Env, fuel: nat, data: JSON, alts: seq<JSON>): (ok: seq<bool>)
    ensures |ok| == |alts|
  {
    seq(|alts|, j requires 0 <= j < |alts| => Passes(env, fuel, data, alts, j))
  }

  lemma {:induction false} OneOfFromIs(env: Env, fuel: nat, data: JSON, alts: seq<JSON>, i: nat, validIndex: Option<nat>, acc: seq<VError>)
    requires i <= |alts| && OneOfSoFar(PassList(env, fuel, data, alts), i, validIndex)
    requires OneOfFrom(env, fuel, data, alts, i, validIndex, acc).Success?
    ensures OneOfVerdict(PassList(env, fuel, data, alts), OneOfFrom(env, fuel, data, alts, i, validIndex, acc).value)
    decreases |alts| - i
  {
    var ok := PassList(env, fuel, data, alts);
    if i == |alts| {
      assert OneOfFrom(env, fuel, data, alts, i, validIndex, acc).value
             == if validIndex.None? then Some(OneOfMissing(acc)) else None;
      OneOfIsAtEnd(ok, validIndex, acc);
    } else {
      OneOfAlternativeCounted(env, fuel, data, alts, i, validIndex, acc);
      var sub := ValidateAll(env, fuel, data, alts[i]).value.value;
      OneOfStep(env, fuel, data, alts, i, validIndex, acc, sub);
      assert ok[i] <==> sub == [];
      OneOfSoFarStep(ok, i, validIndex);
      if sub == [] {
        if validIndex.None? {
          OneOfFromIs(env, fuel, data, alts, i + 1, Some(i), acc);
        } else {
          OneOfIsMultiple(ok, i, validIndex.value);
        }
      } else {
        var errs := PrefixEach(PrefixEach(sub, None, Some(Index(i))), None, Some("oneOf"));
        OneOfFromIs(env, fuel, data, alts, i + 1, validIndex, acc + errs);
      }
    }
  }

  /** One turn of the `oneOf` loop for an alternative that resolves. */
  lemma OneOfStep(env: Env, fuel: nat, data: JSON, alts: seq<JSON>, i: nat, validIndex: Option<nat>, acc: seq<VError>,
                  sub: seq<VError>)
    requires i < |alts| && ValidateAll(env, fuel, data, alts[i]) == Success(Some(sub))
    ensures sub == [] && validIndex.None? ==>
      OneOfFrom(env, fuel, data, alts, i, validIndex, acc) == OneOfFrom(env, fuel, data, alts, i + 1, Some(i), acc)
    ensures sub == [] && validIndex.Some? ==>
      OneOfFrom(env, fuel, data, alts, i, validIndex, acc) == Success(Some(OneOfMultiple()))
    ensures sub != [] ==>
      OneOfFrom(env, fuel, data, alts, i, validIndex, acc)
      == OneOfFrom(env, fuel, data, alts, i + 1, validIndex, acc + PrefixEach(PrefixEach(sub, None, Some(Index(i))), None, Some("oneOf")))
  {
  }

  /** The `oneOf` loop's two errors: ONE_OF_MULTIPLE carries nothing, and
      ONE_OF_MISSING carries the gathered errors of every alternative. */
  lemma {:induction false} OneOfFromGathers(env: Env, fuel: nat, data: JSON, alts: seq<JSON>, i: nat, validIndex: Option<nat>, acc: seq<VError>)
    requires i <= |alts|
    requires OneOfFrom(env, fuel, data, alts, i, validIndex, acc).Success?
    ensures OneOfReported(OneOfFrom(env, fuel, data, alts, i, validIndex, acc).value, acc + Gathered(env, fuel, data, alts, "oneOf", i))
    decreases |alts| - i
  {
    if i == |alts| {
      assert acc + Gathered(env, fuel, data, alts, "oneOf", i) == acc;
    } else {
      OneOfAlternativeCounted(env, fuel, data, alts, i, validIndex, acc);
      var sub := ValidateAll(env, fuel, data, alts[i]).value.value;
      OneOfStep(env, fuel, data, alts, i, validIndex, acc, sub);
      if sub == [] {
        if validIndex.None? {
          OneOfFromGathers(env, fuel, data, alts, i + 1, Some(i), acc);
          GatheredPassing(env, fuel, data, alts, "oneOf", i);
        }
      } else {
        var errs := PrefixEach(PrefixEach(sub, None, Some(Index(i))), None, Some("oneOf"));
        OneOfFromGathers(env, fuel, data, alts, i + 1, validIndex, acc + errs);
        OneOfGathersFailing(env, fuel, data, alts, i, validIndex, acc, sub);
      }
    }
  }

  /** An alternative that passes adds nothing to what is gathered. */
  lemma GatheredPassing(env: Env, fuel: nat, data: JSON, alts: seq<JSON>, kw: string, i: nat)
    requires i < |alts| && Passes(env, fuel, data, alts, i)
    ensures Gathered(env, fuel, data, alts, kw, i) == Gathered(env, fuel, data, alts, kw, i + 1)
  {
    GatheredStep(env, fuel, data, alts, kw, i, Some([]));
    assert PrefixEach(PrefixEach([], None, Some(Index(i))), None, Some(kw)) == [];
  }

  /** An alternative that fails adds its prefixed errors, in order, ahead
      of those of the alternatives after it. */
  lemma OneOfGathersFailing(env: Env, fuel: nat, data: JSON, alts: seq<JSON>, i: nat, validIndex: Option<nat>, acc: seq<VError>,
                            sub: seq<VError>)
    requires i < |alts| && ValidateAll(env, fuel, data, alts[i]) == Success(Some(sub))
    requires var errs := PrefixEach(PrefixEach(sub, None, Some(Index(i))), None, Some("oneOf"));
      OneOfFrom(env, fuel, data, alts, i, validIndex, acc) == OneOfFrom(env, fuel, data, alts, i + 1, validIndex, acc + errs)
      && OneOfFrom(env, fuel, data, alts, i + 1, validIndex, acc + errs).Success?
      && OneOfReported(OneOfFrom(env, fuel, data, alts, i + 1, validIndex, acc + errs).value,
                       acc + errs + Gathered(env, fuel, data, alts, "oneOf", i + 1))
    ensures OneOfReported(OneOfFrom(env, fuel, data, alts, i, validIndex, acc).value, acc + Gathered(env, fuel, data, alts, "oneOf", i))
  {
    var errs := PrefixEach(PrefixEach(sub, None, Some(Index(i))), None, Some("oneOf"));
    var rest := Gathered(env, fuel, data, alts, "oneOf", i + 1);
    GatheredStep(env, fuel, data, alts, "oneOf", i, Some(sub));
    AppendGathered(acc, errs, rest);
  }

  /** An alternative the `oneOf` loop gets past without throwing resolves. */
  lemma OneOfAlternativeCounted(env: Env, fuel: nat, data: JSON, alts: seq<JSON>, i: nat, validIndex: Option<nat>, acc: seq<VError>)
    requires i < |alts| && OneOfFrom(env, fuel, data, alts, i, validIndex, acc).Success?
    ensures ValidateAll(env, fuel, data, alts[i]).Success? && ValidateAll(env, fuel, data, alts[i]).value.Some?
  {
  }

  /** When `oneOf` does not throw: no error exactly when one alternative
      passes; ONE_OF_MULTIPLE, carrying nothing, exactly when two do;
      ONE_OF_MISSING, carrying every alternative's errors prefixed with its
      index and `oneOf`, exactly when none does. */
  lemma OneOfIs(env: Env, fuel: nat, data: JSON, schema: JSON, alts: seq<JSON>)
    requires Member(schema, "oneOf") == Some(Arr(alts))
    requires ValidateOneOf(env, fuel, data, schema).Success?
    ensures OneOfDecided(PassList(env, fuel, data, alts), ValidateOneOf(env, fuel, data, schema).value,
                         Gathered(env, fuel, data, alts, "oneOf", 0))
  {
    var r := ValidateOneOf(env, fuel, data, schema).value;
    var g := Gathered(env, fuel, data, alts, "oneOf", 0);
    assert r == OneOfFrom(env, fuel, data, alts, 0, None, []).value;
    OneOfFromIs(env, fuel, data, alts, 0, None, []);
    OneOfFromGathers(env, fuel, data, alts, 0, None, []);
    assert [] + g == g;
    OneOfVerdictReported(PassList(env, fuel, data, alts), r, g);
  }

  /** `not` reports NOT_PASSED exactly when its schema passes, and throws when
      that schema is an unresolved `$ref`. */
  lemma NotIs(env: Env, fuel: nat, data: JSON, schema: JSON, n: JSON)
    requires Member(schema, "not") == Some(n) && !n.Null?
    ensures ValidateNot(env, fuel, data, schema) == Success(Some(VError(Known(NOT_PASSED), "", "/not", [])))
      <==> ValidateAll(env, fuel, data, n) == Success(Some([]))
    ensures ValidateAll(env, fuel, data, n) == Success(None) ==> ValidateNot(env, fuel, data, schema) == Failure(TypeError)
  {
  }

  // ---- publicApi.validate ----------------------------------------------------

  /** The empty schema accepts every value through the public API. */
  lemma PublicEmptySchema(global: map<string, JSON>, decode: Decoder, test: Regex, fuel: nat, data: JSON)
    requires fuel > 0
    ensures var r := PublicErrors(global, decode, test, fuel, data, Obj([])); r.Success? && r.value == []
  {
    var e := Obj([]);
    assert Member(e, "id") == None;
    assert Children(e) == [];
    var added := SchemasToAdd("", e);
    assert added.Success? && added.value == map["" := e];
    EmptySchemaAcceptsAll(Env(global + added.value, decode, test), fuel, data);
  }

  /** A schema URL that the registry cannot resolve makes `validate` throw:
      `validateAll` returns `null` and its `length` is read. */
  lemma PublicUnknownUrlThrows(global: map<string, JSON>, decode: Decoder, test: Regex, fuel: nat, data: JSON,
                               url: string, record: bool)
    requires fuel > 0
    requires Locate(global["" := Obj([("$ref", Str(url))])], decode, url) == Success(Miss(record))
    ensures PublicErrors(global, decode, test, fuel, data, Str(url)) == Failure(TypeError)
  {
    var w := Obj([("$ref", Str(url))]);
    WrapperAdded(url);
    assert global + SchemasToAdd("", w).value == global["" := w];
    UnresolvedRefIsNull(Env(global["" := w], decode, test), fuel, data, w, url, record);
  }

  /** The wrapper `{"$ref": url}` registers only itself, under the empty URL. */
  lemma WrapperAdded(url: string)
    ensures var w := Obj([("$ref", Str(url))]);
      SchemasToAdd("", w) == Success(map["" := w])
  {
    var w := Obj([("$ref", Str(url))]);
    assert Member(w, "id") == None;
    var kids := Children(w);
    assert kids == [("$ref", Str(url))];
    assert !IsObjectLike(Str(url));
    assert TrustedChildren(map["" := w], w, kids[1..], "") == Success(map["" := w]);
    assert TrustedChildren(map["" := w], w, kids, "") == Success(map["" := w]);
  }
}
