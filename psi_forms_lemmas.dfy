/** Properties of the form helpers: adding optional descriptions twice is
    adding them once, retyping fields is idempotent and never undoes an
    earlier retyping, a field list keeps its help text first, its field names
    in order and its submit button last, and a schema's own members win over
    the fixed request-type and URI properties laid under them. */
module PsiFormsLemmas {
  import opened Wrappers
  import opened Text
  import opened Json
  import opened Tv4Compare
  import opened PsiForms
  import PsiCompile
  import PsiTitles

  // ---- retyping fields -------------------------------------------------------------------------

  /** A retyped entry is an object, which no target is `===` to, so a second
      pass with the same targets changes nothing whatever type it applies. */
  lemma RetypedIdempotent(fields: seq<JSON>, targets: Option<JSON>, kind: string, kind2: string)
    ensures Retyped(Retyped(fields, targets, kind), targets, kind2) == Retyped(fields, targets, kind)
  {
    var once := Retyped(fields, targets, kind);
    if targets.Some? {
      var ts := AsArray(targets.value);
      forall i | 0 <= i < |fields| ensures Retype(once[i], ts, kind2) == once[i] {
        if StrictlyIncludes(ts, fields[i]) {
          assert once[i].Obj?;
          assert !StrictlyIncludes(ts, once[i]);
        }
      }
    }
  }

  /** A field listed under `textareas` stays a text area even when it is also
      listed under `fixed`: the first retyping wins. */
  lemma TextareaWins(fields: seq<JSON>, options: JSON, i: nat)
    requires Truthy(options) && i < |fields|
    requires Member(options, "textareas").Some?
    requires StrictlyIncludes(AsArray(Member(options, "textareas").value), fields[i])
    ensures WithOptions(fields, Some(options))[i] == TypedField(fields[i], "textarea")
  {
    var once := Retyped(fields, Member(options, "textareas"), "textarea");
    assert once[i] == TypedField(fields[i], "textarea");
  }

  // ---- field list layout -----------------------------------------------------------------------

  /** `_makeFields` lays out the given entries, then the help text, then one
      entry per field name in order, then the submit button; the options only
      change how a named field is shown, never which field it is. */
  lemma {:induction false} FieldsLayout(result: seq<JSON>, fieldNames: seq<JSON>, submitLabel: Option<JSON>, help: Option<JSON>, options: Option<JSON>)
    ensures var r := WithOptions(Assembled(result, fieldNames, submitLabel, help), options);
            var h := if OptTruthy(help) then 1 else 0;
            var s := if OptTruthy(submitLabel) then 1 else 0;
            |r| == |result| + h + |fieldNames| + s
            && (forall i :: 0 <= i < |result| ==> FieldName(r[i]) == FieldName(result[i]))
            && (forall i :: 0 <= i < |result| && result[i].Obj? ==> r[i] == result[i])
            && (h == 1 ==> r[|result|] == HelpField(help.value))
            && (forall j :: 0 <= j < |fieldNames| ==> FieldName(r[|result| + h + j]) == FieldName(fieldNames[j]))
            && (s == 1 ==> r[|r| - 1] == SubmitField(submitLabel.value))
  {
    var a := Assembled(result, fieldNames, submitLabel, help);
    var r := WithOptions(a, options);
    AssembledLayout(result, fieldNames, submitLabel, help);
    assert |r| == |a| && forall i :: 0 <= i < |a| ==> FieldName(r[i]) == FieldName(a[i]);
    assert forall i :: 0 <= i < |a| && a[i].Obj? ==> r[i] == a[i];
  }

  /** The entries in the order `_makeFields` pushes them. */
  lemma AssembledLayout(result: seq<JSON>, fieldNames: seq<JSON>, submitLabel: Option<JSON>, help: Option<JSON>)
    ensures var a := Assembled(result, fieldNames, submitLabel, help);
            var h := if OptTruthy(help) then 1 else 0;
            var s := if OptTruthy(submitLabel) then 1 else 0;
            |a| == |result| + h + |fieldNames| + s
            && (forall i :: 0 <= i < |result| ==> a[i] == result[i])
            && (h == 1 ==> a[|result|] == HelpField(help.value))
            && (forall j :: 0 <= j < |fieldNames| ==> a[|result| + h + j] == fieldNames[j])
            && (s == 1 ==> a[|a| - 1] == SubmitField(submitLabel.value))
  {
    var a := Assembled(result, fieldNames, submitLabel, help);
    var helpPart := if OptTruthy(help) then [HelpField(help.value)] else [];
    var submitPart := if OptTruthy(submitLabel) then [SubmitField(submitLabel.value)] else [];
    assert a == result + helpPart + fieldNames + submitPart;
  }

  /** A request form starts with the hidden URI field and, for a request
      type, its hidden field, whatever the options say. */
  lemma RequestFieldsStartHidden(psiType: Option<JSON>, fieldNames: seq<JSON>, submitLabel: Option<JSON>, help: Option<JSON>, options: Option<JSON>)
    ensures var r := WithOptions(Assembled(BaseRequestForm(psiType), fieldNames, submitLabel, help), options);
            |r| >= 1 && r[0] == HiddenField("uri")
            && (OptTruthy(psiType) ==> |r| >= 2 && r[1] == HiddenField("psiType"))
  {
    FieldsLayout(BaseRequestForm(psiType), fieldNames, submitLabel, help, options);
  }

  // ---- optional descriptions are added once ----------------------------------------------------

  /** A described leaf is described already. */
  lemma LeafTwice(fields: seq<(string, JSON)>, field: JSON, v4Required: Option<JSON>)
    ensures var once := DescribeLeaf(fields, field, v4Required);
            DescribeLeaf(once, field, v4Required) == once
  {
    var once := DescribeLeaf(fields, field, v4Required);
    var d := Get(once, "description").value;
    if Exempt(fields, field, v4Required) {
      assert DescriptionOf(once) == DescriptionOf(fields);
      assert Exempt(once, field, v4Required);
    } else {
      assert |d.s| >= 10;
      assert DescriptionOf(once) == d;
      assert Exempt(once, field, v4Required);
    }
    PsiTitles.PutSame(once, "description", d);
  }

  lemma {:induction false} DescribeTwice(fieldSchema: JSON, v4Required: Option<JSON>)
    requires AddOptionalDescriptions(fieldSchema, v4Required).Success?
    ensures var once := AddOptionalDescriptions(fieldSchema, v4Required).value;
            AddOptionalDescriptions(once, v4Required) == Success(once)
    decreases fieldSchema, 2, 0
  {
    var once := AddOptionalDescriptions(fieldSchema, v4Required).value;
    if IsObjectSchema(fieldSchema).value {
      PropertiesTwice(fieldSchema);
    } else {
      match fieldSchema
      case Obj(fields) =>
        MembersDescribedTwice(fieldSchema, v4Required);
      case Arr(items) =>
        ItemsDescribedTwice(fieldSchema, v4Required);
      case _ =>
    }
  }

  /** The object case of `DescribeTwice`: every member is already described. */
  lemma {:induction false} MembersDescribedTwice(fieldSchema: JSON, v4Required: Option<JSON>)
    requires fieldSchema.Obj? && IsObjectSchema(fieldSchema) == Success(false)
    requires DescribeMembers(fieldSchema, v4Required, 0).Success?
    ensures var once := Obj(DescribeMembers(fieldSchema, v4Required, 0).value);
            AddOptionalDescriptions(once, v4Required) == Success(once)
    decreases fieldSchema, 1, 1
  {
    var fields := fieldSchema.fields;
    var out := DescribeMembers(fieldSchema, v4Required, 0).value;
    var once := Obj(out);
    assert fields[0..] == fields;
    SameKindsSameSchema(fields, out);
    MembersTwice(fieldSchema, v4Required, 0);
    MembersFixed(once, v4Required, 0);
    assert out[0..] == out;
  }

  /** The array case of `DescribeTwice`: every item is already described. */
  lemma {:induction false} ItemsDescribedTwice(fieldSchema: JSON, v4Required: Option<JSON>)
    requires fieldSchema.Arr?
    requires DescribeItems(fieldSchema, v4Required, 0).Success?
    ensures var once := Arr(DescribeItems(fieldSchema, v4Required, 0).value);
            AddOptionalDescriptions(once, v4Required) == Success(once)
    decreases fieldSchema, 1, 1
  {
    var out := DescribeItems(fieldSchema, v4Required, 0).value;
    var once := Arr(out);
    ItemsTwice(fieldSchema, v4Required);
    ItemsFixed(once, v4Required, 0);
    assert out[0..] == out;
    ArrayDescribed(once, v4Required);
  }

  /** An array schema is described item by item. */
  lemma ArrayDescribed(a: JSON, v4Required: Option<JSON>)
    requires a.Arr? && DescribeItems(a, v4Required, 0) == Success(a.items)
    ensures AddOptionalDescriptions(a, v4Required) == Success(a)
  {
  }

  lemma {:induction false} PropertiesTwice(schema: JSON)
    requires IsObjectSchema(schema) == Success(true)
    requires DescribeProperties(schema).Success?
    ensures var once := DescribeProperties(schema).value;
            IsObjectSchema(once) == Success(true) && DescribeProperties(once) == Success(once)
    decreases schema, 1, 0
  {
    var props := Get(schema.fields, "properties").value;
    var required := Get(schema.fields, "required");
    assert props < schema by { PsiCompile.GetSmaller(schema.fields, "properties"); }
    var d := AddOptionalDescriptions(props, required).value;
    var once := Obj(Put(schema.fields, "properties", d));
    assert DescribeProperties(schema).value == once;
    DescribeTwice(props, required);
    assert SameKind(props, d);
    assert IsObjectSchema(once) == Success(true);
    PsiTitles.PutSame(once.fields, "properties", d);
  }

  lemma {:induction false} FieldTwice(schema: JSON, field: JSON, v4Required: Option<JSON>)
    requires DescribeField(schema, field, v4Required).Success?
    ensures var once := DescribeField(schema, field, v4Required).value;
            DescribeField(once, field, v4Required) == Success(once)
    decreases schema, 3, 0
  {
    if IsObjectSchema(schema).value {
      PropertiesTwice(schema);
    } else if schema.Obj? {
      var once := Obj(DescribeLeaf(schema.fields, field, v4Required));
      assert DescribeField(schema, field, v4Required) == Success(once);
      LeafStaysLeaf(schema.fields, field, v4Required);
      LeafTwice(schema.fields, field, v4Required);
      assert DescribeField(once, field, v4Required) == Success(Obj(DescribeLeaf(once.fields, field, v4Required)));
    }
  }

  lemma LeafStaysLeaf(fields: seq<(string, JSON)>, field: JSON, v4Required: Option<JSON>)
    requires IsObjectSchema(Obj(fields)) == Success(false)
    ensures IsObjectSchema(Obj(DescribeLeaf(fields, field, v4Required))) == Success(false)
  {
    OnlyDescriptionChanged(fields, DescribeLeaf(fields, field, v4Required));
  }

  lemma OnlyDescriptionChanged(fields: seq<(string, JSON)>, once: seq<(string, JSON)>)
    requires forall k :: k != "description" ==> Get(once, k) == Get(fields, k)
    ensures IsObjectSchema(Obj(once)) == IsObjectSchema(Obj(fields))
  {
    assert Get(once, "type") == Get(fields, "type");
    assert Get(once, "properties") == Get(fields, "properties");
  }

  lemma {:induction false} MembersTwice(parent: JSON, v4Required: Option<JSON>, i: nat)
    requires parent.Obj? && i <= |parent.fields|
    requires DescribeMembers(parent, v4Required, i).Success?
    ensures var out := DescribeMembers(parent, v4Required, i).value;
            forall j :: 0 <= j < |out| ==> DescribeField(out[j].1, Str(out[j].0), v4Required) == Success(out[j].1)
    decreases parent, 0, |parent.fields| - i
  {
    var fields := parent.fields;
    if i < |fields| {
      assert fields[i] in fields;
      FieldTwice(fields[i].1, Str(fields[i].0), v4Required);
      MembersTwice(parent, v4Required, i + 1);
    }
  }

  lemma {:induction false} MembersFixed(y: JSON, v4Required: Option<JSON>, i: nat)
    requires y.Obj? && i <= |y.fields|
    requires forall j :: i <= j < |y.fields| ==> DescribeField(y.fields[j].1, Str(y.fields[j].0), v4Required) == Success(y.fields[j].1)
    ensures DescribeMembers(y, v4Required, i) == Success(y.fields[i..])
    decreases |y.fields| - i
  {
    if i < |y.fields| {
      MembersFixed(y, v4Required, i + 1);
      MemberFixedCons(y, v4Required, i);
    } else {
      assert y.fields[i..] == [];
    }
  }

  lemma MemberFixedCons(y: JSON, v4Required: Option<JSON>, i: nat)
    requires y.Obj? && i < |y.fields|
    requires DescribeField(y.fields[i].1, Str(y.fields[i].0), v4Required) == Success(y.fields[i].1)
    requires DescribeMembers(y, v4Required, i + 1) == Success(y.fields[i + 1..])
    ensures DescribeMembers(y, v4Required, i) == Success(y.fields[i..])
  {
    var f := y.fields[i];
    var rest := y.fields[i + 1..];
    assert DescribeMembers(y, v4Required, i) == Success([(f.0, f.1)] + rest);
    assert [(f.0, f.1)] + rest == y.fields[i..];
  }

  lemma ItemsTwice(parent: JSON, v4Required: Option<JSON>)
    requires parent.Arr?
    requires DescribeItems(parent, v4Required, 0).Success?
    ensures var out := DescribeItems(parent, v4Required, 0).value;
            forall j :: 0 <= j < |out| ==> ItemFixed(out[j], j, v4Required)
    decreases parent, 0, 1
  {
    var out := DescribeItems(parent, v4Required, 0).value;
    forall j | 0 <= j < |out|
      ensures ItemFixed(out[j], j, v4Required)
    {
      ItemTwice(parent, v4Required, j);
    }
  }

  /** One described item, described again at the same position. */
  lemma ItemTwice(parent: JSON, v4Required: Option<JSON>, j: nat)
    requires parent.Arr?
    requires DescribeItems(parent, v4Required, 0).Success?
    requires j < |DescribeItems(parent, v4Required, 0).value|
    ensures ItemFixed(DescribeItems(parent, v4Required, 0).value[j], j, v4Required)
    decreases parent, 0, 0
  {
    ItemAt(parent, v4Required, 0, j);
    assert parent.items[j] in parent.items;
    FieldTwice(parent.items[j], Num(j), v4Required);
  }

  /** The `j`-th item described from position `i` is the description of
      the `(i + j)`-th item. */
  lemma {:induction false} ItemAt(parent: JSON, v4Required: Option<JSON>, i: nat, j: nat)
    requires parent.Arr? && i <= |parent.items|
    requires DescribeItems(parent, v4Required, i).Success?
    requires j < |DescribeItems(parent, v4Required, i).value|
    ensures DescribeField(parent.items[i + j], Num(i + j), v4Required) == Success(DescribeItems(parent, v4Required, i).value[j])
    decreases j
  {
    var d := DescribeField(parent.items[i], Num(i), v4Required).value;
    var rest := DescribeItems(parent, v4Required, i + 1).value;
    assert DescribeItems(parent, v4Required, i).value == [d] + rest;
    if j > 0 {
      ItemAt(parent, v4Required, i + 1, j - 1);
    }
  }

  /** Field `f` described as a member under its own name. */
  function FieldDescribed(f: (string, JSON), v4Required: Option<JSON>): Result<(string, JSON), Exception>
  {
    match DescribeField(f.1, Str(f.0), v4Required)
    case Success(d) => Success((f.0, d))
    case Failure(e) => Failure(e)
  }

  /** The member `k` described from position `i` on sits at `k - i`, under
      its own name, described as a field of that name. */
  lemma {:induction false} MemberAt(parent: JSON, v4Required: Option<JSON>, i: nat, k: nat)
    requires parent.Obj? && i <= k < |parent.fields|
    requires DescribeMembers(parent, v4Required, i).Success?
    ensures k - i < |DescribeMembers(parent, v4Required, i).value|
    ensures FieldDescribed(parent.fields[k], v4Required) == Success(DescribeMembers(parent, v4Required, i).value[k - i])
    decreases k - i
  {
    if k == i {
      MembersHead(parent, v4Required, i);
      assert k - i == 0;
    } else {
      MembersRest(parent, v4Required, i);
      MemberAt(parent, v4Required, i + 1, k);
      MemberShift(parent, v4Required, i, k);
    }
  }

  /** When the members from position `i` on are described, so are those from
      `i + 1` on. */
  lemma MembersRest(parent: JSON, v4Required: Option<JSON>, i: nat)
    requires parent.Obj? && i < |parent.fields|
    requires DescribeMembers(parent, v4Required, i).Success?
    ensures DescribeMembers(parent, v4Required, i + 1).Success?
  {
  }

  /** What holds of member `k` described from `i + 1` on holds of it
      described from `i` on, one place further along. */
  lemma MemberShift(parent: JSON, v4Required: Option<JSON>, i: nat, k: nat)
    requires parent.Obj? && i < k < |parent.fields|
    requires DescribeMembers(parent, v4Required, i).Success?
    requires DescribeMembers(parent, v4Required, i + 1).Success?
    requires k - (i + 1) < |DescribeMembers(parent, v4Required, i + 1).value|
    requires FieldDescribed(parent.fields[k], v4Required) == Success(DescribeMembers(parent, v4Required, i + 1).value[k - (i + 1)])
    ensures k - i < |DescribeMembers(parent, v4Required, i).value|
    ensures FieldDescribed(parent.fields[k], v4Required) == Success(DescribeMembers(parent, v4Required, i).value[k - i])
  {
    MembersTail(parent, v4Required, i, k - i);
    assert k - i - 1 == k - (i + 1);
  }

  /** The first member described from position `i` is field `i`, described
      as a field of its own name. */
  lemma MembersHead(parent: JSON, v4Required: Option<JSON>, i: nat)
    requires parent.Obj? && i < |parent.fields|
    requires DescribeMembers(parent, v4Required, i).Success?
    ensures 0 < |DescribeMembers(parent, v4Required, i).value|
    ensures FieldDescribed(parent.fields[i], v4Required) == Success(DescribeMembers(parent, v4Required, i).value[0])
  {
    MembersStep(parent, v4Required, i);
    var f := parent.fields[i];
    ConsHead((f.0, DescribeField(f.1, Str(f.0), v4Required).value), DescribeMembers(parent, v4Required, i + 1).value);
  }

  /** Past the first, the members described from position `i` are those
      described from `i + 1`. */
  lemma MembersTail(parent: JSON, v4Required: Option<JSON>, i: nat, j: nat)
    requires parent.Obj? && i < |parent.fields|
    requires DescribeMembers(parent, v4Required, i).Success?
    requires DescribeMembers(parent, v4Required, i + 1).Success?
    requires 0 < j <= |DescribeMembers(parent, v4Required, i + 1).value|
    ensures var all := DescribeMembers(parent, v4Required, i).value;
      var rest := DescribeMembers(parent, v4Required, i + 1).value;
      |all| == |rest| + 1 && all[j] == rest[j - 1]
  {
    MembersStep(parent, v4Required, i);
    var f := parent.fields[i];
    ConsIndex((f.0, DescribeField(f.1, Str(f.0), v4Required).value), DescribeMembers(parent, v4Required, i + 1).value, j);
  }

  /** The head of a sequence built by prepending. */
  lemma ConsHead<T>(x: T, rest: seq<T>)
    ensures |[x] + rest| == |rest| + 1 && ([x] + rest)[0] == x
  {
  }

  /** Past its head, a sequence built by prepending is the old one. */
  lemma ConsIndex<T>(x: T, rest: seq<T>, j: nat)
    requires 0 < j <= |rest|
    ensures |[x] + rest| == |rest| + 1 && ([x] + rest)[j] == rest[j - 1]
  {
  }

  /** The first member described from position `i`, ahead of the rest. */
  lemma MembersStep(parent: JSON, v4Required: Option<JSON>, i: nat)
    requires parent.Obj? && i < |parent.fields|
    requires DescribeMembers(parent, v4Required, i).Success?
    ensures var f := parent.fields[i];
      DescribeField(f.1, Str(f.0), v4Required).Success?
      && DescribeMembers(parent, v4Required, i + 1).Success?
      && DescribeMembers(parent, v4Required, i).value
         == [(f.0, DescribeField(f.1, Str(f.0), v4Required).value)] + DescribeMembers(parent, v4Required, i + 1).value
  {
  }

  /** An object schema is described by describing its `properties` against
      its own `required` list; every other member stays as it was. */
  lemma PropertiesDescribed(schema: JSON)
    requires IsObjectSchema(schema) == Success(true)
    ensures var d := AddOptionalDescriptions(Get(schema.fields, "properties").value, Get(schema.fields, "required"));
      var r := DescribeProperties(schema);
      (r.Success? <==> d.Success?)
      && (r.Success? ==> r.value.Obj? && Get(r.value.fields, "properties") == Some(d.value)
                         && forall k :: k != "properties" ==> Get(r.value.fields, k) == Get(schema.fields, k))
  {
  }

  /** The promise of `addOptionalDescriptions` for a schema given as its
      properties: the `k`-th field, a leaf, keeps its name and becomes the
      described leaf, so an optional one ends its description in
      "(optional)". */
  lemma {:induction false} OptionalLeafNoted(fieldSchema: JSON, v4Required: Option<JSON>, k: nat)
    requires fieldSchema.Obj? && IsObjectSchema(fieldSchema) == Success(false)
    requires AddOptionalDescriptions(fieldSchema, v4Required).Success?
    requires k < |fieldSchema.fields|
    requires var leaf := fieldSchema.fields[k].1; leaf.Obj? && IsObjectSchema(leaf) == Success(false)
    ensures var out := AddOptionalDescriptions(fieldSchema, v4Required).value;
      var (name, leaf) := fieldSchema.fields[k];
      out.Obj? && k < |out.fields| && out.fields[k].0 == name
      && out.fields[k].1 == Obj(DescribeLeaf(leaf.fields, Str(name), v4Required))
    ensures var out := AddOptionalDescriptions(fieldSchema, v4Required).value;
      var (name, leaf) := fieldSchema.fields[k];
      !Exempt(leaf.fields, Str(name), v4Required) ==>
        var d := Get(out.fields[k].1.fields, "description");
        d.Some? && d.value.Str? && EndsWith(d.value.s, "(optional)")
  {
    LeafMemberAt(fieldSchema, v4Required, k);
  }

  /** The `k`-th field of a schema given as its properties, a leaf, comes out
      under its own name as the described leaf. */
  lemma {:induction false} LeafMemberAt(fieldSchema: JSON, v4Required: Option<JSON>, k: nat)
    requires fieldSchema.Obj? && IsObjectSchema(fieldSchema) == Success(false)
    requires AddOptionalDescriptions(fieldSchema, v4Required).Success?
    requires k < |fieldSchema.fields|
    requires var leaf := fieldSchema.fields[k].1; leaf.Obj? && IsObjectSchema(leaf) == Success(false)
    ensures var out := AddOptionalDescriptions(fieldSchema, v4Required).value;
      var name := fieldSchema.fields[k].0;
      out.Obj? && k < |out.fields| && out.fields[k].0 == name
      && out.fields[k].1 == Obj(DescribeLeaf(fieldSchema.fields[k].1.fields, Str(name), v4Required))
  {
    MembersOfLeaves(fieldSchema, v4Required, k);
    LeafMember(fieldSchema, v4Required, k);
  }

  /** The `k`-th described member of a leaf field is that leaf, described
      under its own name. */
  lemma LeafMember(fieldSchema: JSON, v4Required: Option<JSON>, k: nat)
    requires fieldSchema.Obj? && k < |fieldSchema.fields|
    requires DescribeMembers(fieldSchema, v4Required, 0).Success?
    requires var leaf := fieldSchema.fields[k].1; leaf.Obj? && IsObjectSchema(leaf) == Success(false)
    ensures var members := DescribeMembers(fieldSchema, v4Required, 0).value;
      var (name, leaf) := fieldSchema.fields[k];
      k < |members| && members[k] == (name, Obj(DescribeLeaf(leaf.fields, Str(name), v4Required)))
  {
    MemberAt(fieldSchema, v4Required, 0, k);
  }

  /** A schema given as its properties comes out as its described members,
      one per field. */
  lemma MembersOfLeaves(fieldSchema: JSON, v4Required: Option<JSON>, k: nat)
    requires fieldSchema.Obj? && IsObjectSchema(fieldSchema) == Success(false)
    requires AddOptionalDescriptions(fieldSchema, v4Required).Success?
    requires k < |fieldSchema.fields|
    ensures DescribeMembers(fieldSchema, v4Required, 0).Success?
    ensures AddOptionalDescriptions(fieldSchema, v4Required).value == Obj(DescribeMembers(fieldSchema, v4Required, 0).value)
    ensures k < |DescribeMembers(fieldSchema, v4Required, 0).value|
  {
    DescribedByMembers(fieldSchema, v4Required);
  }

  /** A schema given as its properties is described member by member. */
  lemma DescribedByMembers(fieldSchema: JSON, v4Required: Option<JSON>)
    requires fieldSchema.Obj? && IsObjectSchema(fieldSchema) == Success(false)
    requires AddOptionalDescriptions(fieldSchema, v4Required).Success?
    ensures DescribeMembers(fieldSchema, v4Required, 0).Success?
    ensures AddOptionalDescriptions(fieldSchema, v4Required) == Success(Obj(DescribeMembers(fieldSchema, v4Required, 0).value))
  {
  }

  /** The same promise one level down: the `k`-th property of an object
      schema whose properties are listed as leaves is described against the
      schema's own `required` list. */
  lemma {:induction false} NestedOptionalLeafNoted(schema: JSON, v4Required: Option<JSON>, k: nat)
    requires IsObjectSchema(schema) == Success(true)
    requires AddOptionalDescriptions(schema, v4Required).Success?
    requires var props := Get(schema.fields, "properties").value;
      props.Obj? && IsObjectSchema(props) == Success(false) && k < |props.fields|
      && props.fields[k].1.Obj? && IsObjectSchema(props.fields[k].1) == Success(false)
    ensures var props := Get(schema.fields, "properties").value;
      var out := AddOptionalDescriptions(schema, v4Required).value;
      var (name, leaf) := props.fields[k];
      var outProps := Get(out.fields, "properties");
      out.Obj? && outProps.Some? && outProps.value.Obj? && k < |outProps.value.fields|
      && outProps.value.fields[k] == (name, Obj(DescribeLeaf(leaf.fields, Str(name), Get(schema.fields, "required"))))
  {
    var props := Get(schema.fields, "properties").value;
    assert AddOptionalDescriptions(schema, v4Required) == DescribeProperties(schema);
    PropertiesDescribed(schema);
    OptionalLeafNoted(props, Get(schema.fields, "required"), k);
  }

  /** Describing `x` again as the `n`-th item gives `x` back. */
  predicate ItemFixed(x: JSON, n: nat, v4Required: Option<JSON>)
  {
    DescribeField(x, Num(n), v4Required) == Success(x)
  }

  lemma {:induction false} ItemsFixed(y: JSON, v4Required: Option<JSON>, i: nat)
    requires y.Arr? && i <= |y.items|
    requires forall j :: i <= j < |y.items| ==> ItemFixed(y.items[j], j, v4Required)
    ensures DescribeItems(y, v4Required, i) == Success(y.items[i..])
    decreases |y.items| - i
  {
    if i < |y.items| {
      ItemsFixed(y, v4Required, i + 1);
      ItemFixedCons(y, v4Required, i);
    } else {
      assert y.items[i..] == [];
    }
  }

  lemma ItemFixedCons(y: JSON, v4Required: Option<JSON>, i: nat)
    requires y.Arr? && i < |y.items|
    requires DescribeField(y.items[i], Num(i), v4Required) == Success(y.items[i])
    requires DescribeItems(y, v4Required, i + 1) == Success(y.items[i + 1..])
    ensures DescribeItems(y, v4Required, i) == Success(y.items[i..])
  {
    assert y.items[i..] == [y.items[i]] + y.items[i + 1..];
    assert DescribeItems(y, v4Required, i) == Success([y.items[i]] + y.items[i + 1..]);
  }

  /** `addOptionalDescriptions` is idempotent: a second pass finds every
      optional field already noted. */
  lemma AddOptionalDescriptionsIdempotent(fieldSchema: JSON, v4Required: Option<JSON>)
    requires AddOptionalDescriptions(fieldSchema, v4Required).Success?
    ensures AddOptionalDescriptions(AddOptionalDescriptions(fieldSchema, v4Required).value, v4Required)
            == AddOptionalDescriptions(fieldSchema, v4Required)
  {
    DescribeTwice(fieldSchema, v4Required);
  }

  // ---- members laid over fixed properties --------------------------------------------------------

  predicate UniqueKeys(es: seq<(string, JSON)>)
  {
    forall i, j :: 0 <= i < j < |es| ==> es[i].0 != es[j].0
  }

  /** With distinct member names every assigned member ends up with its own value. */
  lemma {:induction false} PutAllWins(target: seq<(string, JSON)>, es: seq<(string, JSON)>, k: string)
    requires UniqueKeys(es) && k in Keys(es)
    ensures Get(PutAll(target, es), k) == Get(es, k)
    decreases es
  {
    UniqueTail(es);
    GetOfCons(es, k);
    assert PutAll(target, es) == PutAll(Put(target, es[0].0, es[0].1), es[1..]);
    if es[0].0 != k {
      PutAllWins(Put(target, es[0].0, es[0].1), es[1..], k);
    }
  }

  /** Distinct names stay distinct in the tail, which no longer holds the
      first name; every other name is still there. */
  lemma UniqueTail(es: seq<(string, JSON)>)
    requires UniqueKeys(es) && es != []
    ensures UniqueKeys(es[1..]) && es[0].0 !in Keys(es[1..])
    ensures forall k :: k in Keys(es) && k != es[0].0 ==> k in Keys(es[1..])
  {
    var rest := es[1..];
    forall j | 0 <= j < |rest| ensures Keys(rest)[j] != es[0].0 {
      assert rest[j] == es[j + 1];
    }
    forall k | k in Keys(es) && k != es[0].0 ensures k in Keys(rest) {
      var i :| 0 <= i < |es| && Keys(es)[i] == k;
      assert Keys(rest)[i - 1] == k;
    }
  }

  lemma GetOfCons(es: seq<(string, JSON)>, k: string)
    requires es != []
    ensures Get(es, k) == if es[0].0 == k then Some(es[0].1) else Get(es[1..], k)
  {
    GetCons(es[0], es[1..], k);
    assert [es[0]] + es[1..] == es;
  }

  /** For a properties-only schema, `makeSchema` keeps every field of the
      schema as given and adds the request type unless the schema names one
      itself. */
  lemma MakeSchemaFieldsWin(psiType: Option<JSON>, fieldSchema: JSON, k: string)
    requires fieldSchema.Obj? && UniqueKeys(fieldSchema.fields)
    requires Get(fieldSchema.fields, "type") != Some(Str("object"))
    ensures var r := MakeSchema(psiType, fieldSchema).value;
            Get(r.fields, k) == (if k in Keys(fieldSchema.fields) then Get(fieldSchema.fields, k)
                                 else if k == "psiType" then Some(FixedValueSchema(psiType)) else None)
  {
    var r := MakeSchema(psiType, fieldSchema).value;
    assert r == Obj(PutAll(BaseRequestSchema(psiType), fieldSchema.fields));
    if k in Keys(fieldSchema.fields) {
      PutAllWins(BaseRequestSchema(psiType), fieldSchema.fields, k);
    }
  }

  /** For a full object schema, `makeSchema` adds the request type to a copy
      of its properties and leaves every other member as it was. */
  lemma MakeSchemaOfObjectSchema(psiType: Option<JSON>, fieldSchema: JSON)
    requires IsObjectSchema(fieldSchema) == Success(true)
    ensures var r := MakeSchema(psiType, fieldSchema).value;
            var props := Get(fieldSchema.fields, "properties").value;
            var newProps := Get(r.fields, "properties");
            (forall k :: k != "properties" ==> Get(r.fields, k) == Get(fieldSchema.fields, k))
            && newProps.Some?
            && (OptTruthy(psiType) && props.Obj? ==>
                  newProps.value.Obj?
                  && Get(newProps.value.fields, "psiType") == Some(FixedValueSchema(psiType))
                  && forall k :: k != "psiType" ==> Get(newProps.value.fields, k) == Get(props.fields, k))
            && (!(OptTruthy(psiType) && props.Obj?) ==> newProps == Some(props))
  {
  }

  /** `getSchemaWithURI` adds the fixed URI property to the properties of an
      object schema, unless they name a URI property themselves, and keeps
      every other member as it was. */
  lemma SchemaWithURIWins(uri: Option<JSON>, schema: JSON, k: string)
    requires IsObjectSchema(schema) == Success(true)
    requires Get(schema.fields, "properties").value.Obj?
    requires UniqueKeys(Get(schema.fields, "properties").value.fields)
    ensures var r := GetSchemaWithURI(uri, schema).value;
            var props := Get(schema.fields, "properties").value.fields;
            (forall k' :: k' != "properties" ==> Get(r.fields, k') == Get(schema.fields, k'))
            && Get(r.fields, "properties").Some? && Get(r.fields, "properties").value.Obj?
            && Get(Get(r.fields, "properties").value.fields, k)
               == (if k in Keys(props) then Get(props, k)
                   else if k == "uri" then Some(FixedValueSchema(uri)) else None)
  {
    var props := Get(schema.fields, "properties").value.fields;
    if k in Keys(props) {
      PutAllWins(SchemaWithURI(uri), props, k);
    }
  }
}
