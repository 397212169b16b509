/** The form helpers of psi.forms.js: the schemas and jsonform field lists a
    PSI request form is built from. Schemas are values here; the helpers that
    rewrite a schema in place return the rewritten value instead. Underscore's
    `_.keys`, `_.each`, `_.extend` and `_.contains` are modelled as they
    behave on objects, arrays and strings. */
module PsiForms {
  import opened Wrappers
  import opened Text
  import opened Json
  import opened Tv4Compare
  import PsiCompile

  // ---- underscore on JSON values -------------------------------------------------------------

  /** The values `_.contains` and `_.each` visit. */
  function Values(v: JSON): (vs: seq<JSON>)
    ensures |vs| == |Entries(v)|
    ensures forall i :: 0 <= i < |vs| ==> vs[i] == Entries(v)[i].1
  {
    if v.Obj? then seq(|v.fields|, i requires 0 <= i < |v.fields| => v.fields[i].1) else Indexed(v)
  }

  /** Whether some element is `=== x`. */
  predicate StrictlyIncludes(targets: seq<JSON>, x: JSON)
  {
    exists j :: 0 <= j < |targets| && StrictEquals(targets[j], x)
  }

  /** `_.contains(obj, target)`; `None` is `undefined`. */
  predicate Contains(obj: Option<JSON>, target: JSON)
  {
    obj.Some? && StrictlyIncludes(Values(obj.value), target)
  }

  /** `_.extend(target, source)`: every member `source` enumerates is assigned
      onto `target`, in order. */
  function Extend(target: seq<(string, JSON)>, source: JSON): (r: seq<(string, JSON)>)
  {
    PutAll(target, Entries(source))
  }

  function PutAll(target: seq<(string, JSON)>, es: seq<(string, JSON)>): (r: seq<(string, JSON)>)
    ensures forall k :: k !in Keys(es) ==> Get(r, k) == Get(target, k)
    ensures forall k :: k in Keys(es) ==> Get(r, k).Some?
    decreases es
  {
    if es == [] then target
    else
      var r := PutAll(Put(target, es[0].0, es[0].1), es[1..]);
      assert forall k :: k in Keys(es[1..]) ==> k in Keys(es);
      assert forall k :: k in Keys(es) && k != es[0].0 ==> k in Keys(es[1..]) by {
        forall k | k in Keys(es) && k != es[0].0 ensures k in Keys(es[1..]) {
          var i :| 0 <= i < |es| && Keys(es)[i] == k;
          assert i != 0;
          assert Keys(es[1..])[i - 1] == k;
        }
      }
      r
  }

  // ---- fixed-value schemas -------------------------------------------------------------------

  /** `new FixedValueSchema(value)`: a string property whose default is
      `value`; an `undefined` value leaves no default. */
  function FixedValueSchema(value: Option<JSON>): (s: JSON)
    ensures s.Obj? && Get(s.fields, "type") == Some(Str("string"))
    ensures Get(s.fields, "default") == value
  {
    if value.Some? then
      var fields := [("type", Str("string")), ("default", value.value)];
      LookupFirst(fields, "default", 1);
      Obj(fields)
    else Obj([("type", Str("string"))])
  }

  /** `addRequestType(schema, psiType)`. */
  function AddRequestType(fields: seq<(string, JSON)>, psiType: Option<JSON>): seq<(string, JSON)>
  {
    Put(fields, "psiType", FixedValueSchema(psiType))
  }

  /** `addURI(schema, uri)`. */
  function AddURI(fields: seq<(string, JSON)>, uri: Option<JSON>): seq<(string, JSON)>
  {
    Put(fields, "uri", FixedValueSchema(uri))
  }

  /** `new BaseRequestSchema(psiType)`. */
  function BaseRequestSchema(psiType: Option<JSON>): seq<(string, JSON)>
  {
    AddRequestType([], psiType)
  }

  /** `new SchemaWithURI(uri)`. */
  function SchemaWithURI(uri: Option<JSON>): seq<(string, JSON)>
  {
    AddURI([], uri)
  }

  // ---- recognising schemas -------------------------------------------------------------------

  /** `_isObjectSchema(schema)`: its type is "object" and its properties are
      an object or an array. Reading `type` of `null` throws; a string has no
      `type` or `properties` member. */
  function IsObjectSchema(schema: JSON): (r: Result<bool, Exception>)
    ensures r.Failure? <==> schema.Null?
    ensures r == Success(true) ==>
              schema.Obj? && Get(schema.fields, "type") == Some(Str("object"))
              && Get(schema.fields, "properties").Some?
              && IsObjectLike(Get(schema.fields, "properties").value)
  {
    if schema.Null? then Failure(TypeError)
    else if !schema.Obj? then Success(false)
    else
      var props := Get(schema.fields, "properties");
      Success(Get(schema.fields, "type") == Some(Str("object")) && props.Some? && IsObjectLike(props.value))
  }

  /** `extractFieldNames(schema)`: the property names of an object schema,
      otherwise the member names of the schema itself. */
  function ExtractFieldNames(schema: JSON): (r: Result<seq<string>, Exception>)
    ensures r.Failure? <==> schema.Null?
    ensures r.Success? && schema.Obj? && Get(schema.fields, "type") != Some(Str("object")) ==>
              r.value == Keys(schema.fields)
    ensures r.Success? && IsObjectSchema(schema) == Success(true) && Get(schema.fields, "properties").value.Obj? ==>
              r.value == Keys(Get(schema.fields, "properties").value.fields)
  {
    var isObject :- IsObjectSchema(schema);
    Success(ForInKeys(if isObject then Get(schema.fields, "properties").value else schema))
  }

  // ---- jsonform field lists --------------------------------------------------------------------

  /** `{ key: k, type: 'hidden' }`. */
  function HiddenField(k: string): JSON
  {
    Obj([("key", Str(k)), ("type", Str("hidden"))])
  }

  /** `{ type: 'help', helpvalue: help }`. */
  function HelpField(help: JSON): JSON
  {
    Obj([("type", Str("help")), ("helpvalue", help)])
  }

  /** `{ type: 'submit', title: label }`. */
  function SubmitField(title: JSON): JSON
  {
    Obj([("type", Str("submit")), ("title", title)])
  }

  /** `{ key: field, type: kind }`. */
  function TypedField(field: JSON, kind: string): JSON
  {
    Obj([("key", field), ("type", Str(kind))])
  }

  /** The name of the property a jsonform entry lays out: a bare name is its
      own name, an object names it under `key`. */
  function FieldName(f: JSON): Option<JSON>
  {
    if f.Obj? then Get(f.fields, "key") else Some(f)
  }

  /** The form `getBaseRequestForm(psiType)` returns: the hidden URI field and,
      for a request type, its hidden field. */
  function BaseRequestForm(psiType: Option<JSON>): (form: seq<JSON>)
    ensures |form| >= 1 && FieldName(form[0]) == Some(Str("uri"))
    ensures |form| == 2 <==> OptTruthy(psiType)
    ensures |form| == 2 ==> FieldName(form[1]) == Some(Str("psiType"))
    ensures forall i :: 0 <= i < |form| ==> form[i].Obj? && Get(form[i].fields, "type") == Some(Str("hidden"))
  {
    [HiddenField("uri")] + (if OptTruthy(psiType) then [HiddenField("psiType")] else [])
  }

  method GetBaseRequestForm(psiType: Option<JSON>) returns (form: seq<JSON>)
    ensures form == BaseRequestForm(psiType)
  {
    form := [HiddenField("uri")];
    if OptTruthy(psiType) {
      form := form + [HiddenField("psiType")];
    }
  }

  /** `_asArray(value)`. */
  function AsArray(v: JSON): (r: seq<JSON>)
    ensures v.Arr? ==> r == v.items
    ensures !v.Arr? ==> r == [v]
  {
    if v.Arr? then v.items else [v]
  }

  /** One entry after `_applyTypeToFields`. */
  function Retype(f: JSON, targets: seq<JSON>, kind: string): JSON
  {
    if StrictlyIncludes(targets, f) then TypedField(f, kind) else f
  }

  /** The entries after `_applyTypeToFields(fields, targets, kind)`: each entry
      that is `===` one of the targets becomes `{ key: entry, type: type }`;
      `undefined` targets change nothing. */
  function Retyped(fields: seq<JSON>, targets: Option<JSON>, kind: string): (r: seq<JSON>)
    ensures |r| == |fields|
    ensures forall i :: 0 <= i < |fields| ==> FieldName(r[i]) == FieldName(fields[i])
    ensures forall i :: 0 <= i < |fields| && (fields[i].Obj? || fields[i].Arr?) ==> r[i] == fields[i]
  {
    if targets.None? then fields
    else seq(|fields|, i requires 0 <= i < |fields| => Retype(fields[i], AsArray(targets.value), kind))
  }

  /** `_applyTypeToFields(fields, targets, kind)`, rewriting the array in place. */
  method ApplyTypeToFields(fields: array<JSON>, targets: Option<JSON>, kind: string)
    modifies fields
    ensures fields[..] == Retyped(old(fields[..]), targets, kind)
  {
    if targets.None? {
      return;
    }
    var ts := AsArray(targets.value);
    var i := 0;
    while i < fields.Length
      invariant 0 <= i <= fields.Length
      invariant forall j :: 0 <= j < i ==> fields[j] == Retype(old(fields[j]), ts, kind)
      invariant forall j :: i <= j < fields.Length ==> fields[j] == old(fields[j])
    {
      if StrictlyIncludes(ts, fields[i]) {
        fields[i] := TypedField(fields[i], kind);
      }
      i := i + 1;
    }
  }

  /** The list `_makeFields` assembles before the options are applied: the
      given entries, the help text, the field names, the submit button. */
  function Assembled(result: seq<JSON>, fieldNames: seq<JSON>, submitLabel: Option<JSON>, help: Option<JSON>): seq<JSON>
  {
    result + (if OptTruthy(help) then [HelpField(help.value)] else [])
    + fieldNames + (if OptTruthy(submitLabel) then [SubmitField(submitLabel.value)] else [])
  }

  /** The options of `_makeFields`: `textareas` fields become text areas, then
      `fixed` fields become hidden. */
  function WithOptions(fields: seq<JSON>, options: Option<JSON>): seq<JSON>
  {
    if OptTruthy(options) then
      Retyped(Retyped(fields, Member(options.value, "textareas"), "textarea"), Member(options.value, "fixed"), "hidden")
    else fields
  }

  /** `_makeFields(result, fieldNames, submitLabel, help, options)`. */
  method AssembleFields(result: seq<JSON>, fieldNames: seq<JSON>, submitLabel: Option<JSON>, help: Option<JSON>, options: Option<JSON>)
    returns (r: seq<JSON>)
    ensures r == WithOptions(Assembled(result, fieldNames, submitLabel, help), options)
  {
    var list := result;
    if OptTruthy(help) {
      list := list + [HelpField(help.value)];
    }
    assert list == result + (if OptTruthy(help) then [HelpField(help.value)] else []);
    list := list + fieldNames;
    if OptTruthy(submitLabel) {
      list := list + [SubmitField(submitLabel.value)];
    }
    assert list == Assembled(result, fieldNames, submitLabel, help);
    r := ApplyOptions(list, options);
  }

  /** The `options` part of `_makeFields`, on the assembled list. */
  method ApplyOptions(list: seq<JSON>, options: Option<JSON>) returns (r: seq<JSON>)
    ensures r == WithOptions(list, options)
  {
    r := list;
    if OptTruthy(options) {
      var a := new JSON[|list|](i requires 0 <= i < |list| => list[i]);
      assert a[..] == list;
      ApplyTypeToFields(a, Member(options.value, "textareas"), "textarea");
      ApplyTypeToFields(a, Member(options.value, "fixed"), "hidden");
      r := a[..];
    }
  }

  /** `makeFields(fieldNames, submitLabel, help, options)`. */
  method MakeFields(fieldNames: seq<JSON>, submitLabel: Option<JSON>, help: Option<JSON>, options: Option<JSON>)
    returns (r: seq<JSON>)
    ensures r == WithOptions(Assembled([], fieldNames, submitLabel, help), options)
  {
    r := AssembleFields([], fieldNames, submitLabel, help, options);
  }

  /** `makeRequestFields(psiType, fieldNames, submitLabel, help, options)`. */
  method MakeRequestFields(psiType: Option<JSON>, fieldNames: seq<JSON>, submitLabel: Option<JSON>, help: Option<JSON>, options: Option<JSON>)
    returns (r: seq<JSON>)
    ensures r == WithOptions(Assembled(BaseRequestForm(psiType), fieldNames, submitLabel, help), options)
  {
    var base := GetBaseRequestForm(psiType);
    r := AssembleFields(base, fieldNames, submitLabel, help, options);
  }

  // ---- schemas for forms -----------------------------------------------------------------------

  /** `makeSchema(psiType, fieldSchema)`: a full object schema gets the request
      type among a copy of its properties; a properties-only schema is laid
      over a `BaseRequestSchema`. */
  function MakeSchema(psiType: Option<JSON>, fieldSchema: JSON): (r: Result<JSON, Exception>)
    ensures r.Failure? <==> fieldSchema.Null?
    ensures r.Success? ==> r.value.Obj?
  {
    var isObject :- IsObjectSchema(fieldSchema);
    if isObject then
      var props := Get(fieldSchema.fields, "properties").value;
      var copied := if OptTruthy(psiType) && props.Obj? then Obj(AddRequestType(props.fields, psiType)) else props;
      Success(Obj(Put(fieldSchema.fields, "properties", copied)))
    else Success(Obj(Extend(BaseRequestSchema(psiType), fieldSchema)))
  }

  /** `getSchemaWithURI(uri, schema)`: the fixed URI property goes first, and
      the schema's own members are laid over it. */
  function GetSchemaWithURI(uri: Option<JSON>, schema: JSON): (r: Result<JSON, Exception>)
    ensures r.Failure? <==> schema.Null?
    ensures r.Success? ==> r.value.Obj?
  {
    var isObject :- IsObjectSchema(schema);
    if isObject then
      var props := Get(schema.fields, "properties").value;
      Success(Obj(Put(schema.fields, "properties", Obj(Extend(SchemaWithURI(uri), props)))))
    else Success(Obj(Extend(SchemaWithURI(uri), schema)))
  }

  /** Whether a field schema asks to be required with a truthy `required`. */
  predicate FlaggedRequired(v: JSON)
  {
    OptTruthy(Member(v, "required"))
  }

  /** Whether some member named `k` is flagged required. */
  predicate ListsRequired(es: seq<(string, JSON)>, k: string)
  {
    exists i :: 0 <= i < |es| && es[i].0 == k && FlaggedRequired(es[i].1)
  }

  /** The `_.filter` of `getV4CompliantSchema`: the names whose field schema
      has a truthy `required`, in order. Reading `required` of `null` throws. */
  function RequiredKeys(es: seq<(string, JSON)>): (r: Result<seq<string>, Exception>)
    ensures r.Failure? <==> exists i :: 0 <= i < |es| && es[i].1.Null?
    ensures r.Success? ==> forall k :: k in r.value <==> ListsRequired(es, k)
    ensures r.Success? ==> |r.value| <= |es|
  {
    if es == [] then Success([])
    else
      var rest := RequiredKeys(es[1..]);
      assert forall i :: 1 <= i < |es| ==> es[i] == es[1..][i - 1];
      if es[0].1.Null? then Failure(TypeError)
      else if rest.Failure? then
        var i :| 0 <= i < |es[1..]| && es[1..][i].1.Null?;
        assert es[i + 1].1.Null?;
        Failure(TypeError)
      else
        assert forall k :: ListsRequired(es, k) <==> (es[0].0 == k && FlaggedRequired(es[0].1)) || ListsRequired(es[1..], k) by {
          forall k ensures ListsRequired(es, k) ==> (es[0].0 == k && FlaggedRequired(es[0].1)) || ListsRequired(es[1..], k) {
            if ListsRequired(es, k) {
              var i :| 0 <= i < |es| && es[i].0 == k && FlaggedRequired(es[i].1);
              if i > 0 { assert es[1..][i - 1] == es[i]; }
            }
          }
          forall k ensures ListsRequired(es[1..], k) ==> ListsRequired(es, k) {
            if ListsRequired(es[1..], k) {
              var i :| 0 <= i < |es[1..]| && es[1..][i].0 == k && FlaggedRequired(es[1..][i].1);
              assert es[i + 1] == es[1..][i];
            }
          }
        }
        Success(if FlaggedRequired(es[0].1) then [es[0].0] + rest.value else rest.value)
  }

  /** The names as JSON strings. */
  function Strs(ks: seq<string>): (r: seq<JSON>)
    ensures |r| == |ks| && forall i :: 0 <= i < |ks| ==> r[i] == Str(ks[i])
  {
    seq(|ks|, i requires 0 <= i < |ks| => Str(ks[i]))
  }

  /** `getV4CompliantSchema(fieldSchema)` under the schema version `version`:
      draft 3 keeps the properties-only schema; draft 4 wraps it as the
      properties of an object schema whose `required` lists the fields
      flagged required. */
  function GetV4CompliantSchema(version: string, fieldSchema: JSON): (r: Result<JSON, Exception>)
    ensures version == PsiCompile.DRAFTV3 ==> r == Success(fieldSchema)
    ensures version != PsiCompile.DRAFTV3 ==>
              (r.Failure? <==> fieldSchema.Null? || exists i :: 0 <= i < |Entries(fieldSchema)| && Entries(fieldSchema)[i].1.Null?)
    ensures version != PsiCompile.DRAFTV3 && r.Success? ==>
              r.value.Obj? && Get(r.value.fields, "type") == Some(Str("object"))
              && Get(r.value.fields, "properties") == Some(fieldSchema)
    ensures version != PsiCompile.DRAFTV3 && r.Success? ==>
              (Get(r.value.fields, "required").Some? <==> exists k :: ListsRequired(Entries(fieldSchema), k))
    ensures version != PsiCompile.DRAFTV3 && r.Success? && Get(r.value.fields, "required").Some? ==>
              var req := Get(r.value.fields, "required").value;
              req.Arr? && forall k :: Str(k) in req.items <==> ListsRequired(Entries(fieldSchema), k)
  {
    if version == PsiCompile.DRAFTV3 then Success(fieldSchema)
    else if fieldSchema.Null? then Failure(TypeError)
    else
      var required :- RequiredKeys(Entries(fieldSchema));
      var base := [("type", Str("object")), ("properties", fieldSchema)];
      if |required| > 0 then
        var r := base + [("required", Arr(Strs(required)))];
        LookupFirst(r, "properties", 1);
        LookupFirst(r, "required", 2);
        assert Get(r, "type") == Some(Str("object"));
        assert Get(r, "properties") == Some(fieldSchema);
        assert Get(r, "required") == Some(Arr(Strs(required)));
        assert forall k :: Str(k) in Strs(required) <==> k in required;
        assert ListsRequired(Entries(fieldSchema), required[0]);
        Success(Obj(r))
      else
        LookupFirst(base, "properties", 1);
        assert "type" != "required" && "properties" != "required";
        assert Get(base, "required") == None;
        assert forall k :: !ListsRequired(Entries(fieldSchema), k);
        Success(Obj(base))
  }

  // ---- optional descriptions -------------------------------------------------------------------

  /** `description.length > 0` for the description value. */
  predicate HasPositiveLength(d: JSON)
  {
    (d.Str? && |d.s| > 0) || (d.Arr? && |d.items| > 0)
  }

  /** The description a leaf field schema keeps: its own if truthy, else "". */
  function DescriptionOf(fields: seq<(string, JSON)>): JSON
  {
    var d := Get(fields, "description");
    if d.Some? && Truthy(d.value) then d.value else Str("")
  }

  /** Whether a leaf field needs no "(optional)" note: it is a boolean, it is
      flagged required (draft 3), its name is in the required list (draft 4),
      or its description already ends with the note. */
  predicate Exempt(fields: seq<(string, JSON)>, field: JSON, v4Required: Option<JSON>)
  {
    Get(fields, "type") == Some(Str("boolean"))
    || OptTruthy(Get(fields, "required"))
    || Contains(v4Required, field)
    || EndsWith(ToText(DescriptionOf(fields)), "(optional)")
  }

  /** A leaf field schema after `addOptionalDescriptions`: it always has a
      description, and the description of an optional field ends with
      "(optional)". */
  function DescribeLeaf(fields: seq<(string, JSON)>, field: JSON, v4Required: Option<JSON>): (r: seq<(string, JSON)>)
    ensures forall k :: k != "description" ==> Get(r, k) == Get(fields, k)
    ensures Exempt(fields, field, v4Required) ==> Get(r, "description") == Some(DescriptionOf(fields))
    ensures !Exempt(fields, field, v4Required) ==>
              var d := Get(r, "description");
              d.Some? && d.value.Str? && EndsWith(d.value.s, "(optional)")
              && StartsWith(d.value.s, ToText(DescriptionOf(fields)))
  {
    var desc := DescriptionOf(fields);
    var text := ToText(desc);
    if Exempt(fields, field, v4Required) then Put(fields, "description", desc)
    else
      var s := text + (if HasPositiveLength(desc) then " " else "") + "(optional)";
      assert s[..|text|] == text;
      assert s[|s| - 10..] == "(optional)";
      Put(fields, "description", Str(s))
  }

  /** `addOptionalDescriptions(fieldSchema, v4Required)`: every optional leaf
      field gets "(optional)" appended to its description, nested object
      schemas recursively with their own required lists. */
  function AddOptionalDescriptions(fieldSchema: JSON, v4Required: Option<JSON>): (r: Result<JSON, Exception>)
    ensures r.Success? ==> SameKind(fieldSchema, r.value)
    ensures r.Success? && fieldSchema.Obj? ==> Keys(r.value.fields) == Keys(fieldSchema.fields)
    decreases fieldSchema, 2, 0
  {
    var isObject :- IsObjectSchema(fieldSchema);
    if isObject then DescribeProperties(fieldSchema)
    else match fieldSchema
      case Obj(fields) =>
        var described :- DescribeMembers(fieldSchema, v4Required, 0);
        Success(Obj(described))
      case Arr(items) =>
        var described :- DescribeItems(fieldSchema, v4Required, 0);
        Success(Arr(described))
      case Str(s) =>
        // each character is a primitive field schema: see DescribeField
        if forall i | 0 <= i < |s| :: Contains(v4Required, Num(i)) then Success(fieldSchema) else Failure(TypeError)
      case _ => Success(fieldSchema)
  }

  /** Both values are objects, both arrays, or both the same other value. */
  predicate SameKind(a: JSON, b: JSON)
  {
    match a
    case Obj(_) => b.Obj?
    case Arr(_) => b.Arr?
    case _ => b == a
  }

  /** The recursive call on an object schema's properties with its own
      required list; the properties are replaced where they stand. */
  function DescribeProperties(schema: JSON): (r: Result<JSON, Exception>)
    requires IsObjectSchema(schema) == Success(true)
    ensures r.Success? ==> r.value.Obj? && Keys(r.value.fields) == Keys(schema.fields)
    decreases schema, 1, 0
  {
    var props := Get(schema.fields, "properties").value;
    assert props < schema by { PsiCompile.GetSmaller(schema.fields, "properties"); }
    var described :- AddOptionalDescriptions(props, Get(schema.fields, "required"));
    Success(Obj(Put(schema.fields, "properties", described)))
  }

  /** The body of the `_.each` callback for the field schema `schema` named
      `field`. A primitive field schema ignores the assignment to its
      description and then throws on `undefined.length`, unless it is
      exempt by the required list; an array keeps no JSON-visible change. */
  function DescribeField(schema: JSON, field: JSON, v4Required: Option<JSON>): (r: Result<JSON, Exception>)
    ensures r.Success? ==> SameKind(schema, r.value)
    ensures schema.Obj? && IsObjectSchema(schema) == Success(false) ==>
              r == Success(Obj(DescribeLeaf(schema.fields, field, v4Required)))
    ensures !schema.Obj? && !schema.Arr? ==> (r.Success? <==> !schema.Null? && Contains(v4Required, field))
    decreases schema, 3, 0
  {
    var isObject :- IsObjectSchema(schema);
    if isObject then DescribeProperties(schema)
    else match schema
      case Obj(fields) => Success(Obj(DescribeLeaf(fields, field, v4Required)))
      case Arr(_) => Success(schema)
      case _ => if Contains(v4Required, field) then Success(schema) else Failure(TypeError)
  }

  /** The `_.each` over the members of a properties-only schema, from `i`. */
  function DescribeMembers(parent: JSON, v4Required: Option<JSON>, i: nat): (r: Result<seq<(string, JSON)>, Exception>)
    requires parent.Obj? && i <= |parent.fields|
    ensures r.Success? ==> |r.value| == |parent.fields| - i
    ensures r.Success? ==> forall j :: 0 <= j < |r.value| ==> r.value[j].0 == parent.fields[i + j].0 && SameKind(parent.fields[i + j].1, r.value[j].1)
    decreases parent, 0, |parent.fields| - i
  {
    var fields := parent.fields;
    if i == |fields| then Success([])
    else
      assert fields[i] in fields;
      var d :- DescribeField(fields[i].1, Str(fields[i].0), v4Required);
      var rest :- DescribeMembers(parent, v4Required, i + 1);
      Success([(fields[i].0, d)] + rest)
  }

  /** The `_.each` over the elements of an array of field schemas, from `i`;
      each element's name is its index. */
  function DescribeItems(parent: JSON, v4Required: Option<JSON>, i: nat): (r: Result<seq<JSON>, Exception>)
    requires parent.Arr? && i <= |parent.items|
    ensures r.Success? ==> |r.value| == |parent.items| - i
    ensures r.Success? ==> forall j :: 0 <= j < |r.value| ==> SameKind(parent.items[i + j], r.value[j])
    decreases parent, 0, |parent.items| - i
  {
    var items := parent.items;
    if i == |items| then Success([])
    else
      var d :- DescribeField(items[i], Num(i), v4Required);
      var rest :- DescribeItems(parent, v4Required, i + 1);
      Success([d] + rest)
  }

  // ---- form data -----------------------------------------------------------------------------

  /** What a `FormData` holds besides its validation hook: the schema, the
      jsonform field list and the names of fields holding JSON text. */
  datatype FormData = FormData(schema: JSON, form: seq<JSON>, jsonFields: Option<JSON>)

  function JsonFieldsOf(options: Option<JSON>): Option<JSON>
  {
    if OptTruthy(options) then Member(options.value, "jsonFields") else None
  }

  /** `makeRequestFormData(psiType, submitLabel, help, fieldSchema, options)`. */
  method MakeRequestFormData(psiType: Option<JSON>, submitLabel: Option<JSON>, help: Option<JSON>, fieldSchema: JSON, options: Option<JSON>)
    returns (r: Result<FormData, Exception>)
    ensures r.Failure? <==>
              fieldSchema.Null? || AddOptionalDescriptions(MakeSchema(psiType, fieldSchema).value, None).Failure?
    ensures r.Success? ==>
              r.value.schema == AddOptionalDescriptions(MakeSchema(psiType, fieldSchema).value, None).value
              && r.value.form == WithOptions(Assembled(BaseRequestForm(psiType), Strs(ExtractFieldNames(fieldSchema).value), submitLabel, help), options)
              && r.value.jsonFields == JsonFieldsOf(options)
  {
    var schema := MakeSchema(psiType, fieldSchema);
    if schema.Failure? {
      return Failure(schema.error);
    }
    var described := AddOptionalDescriptions(schema.value, None);
    if described.Failure? {
      return Failure(described.error);
    }
    var names := ExtractFieldNames(fieldSchema);
    var form := MakeRequestFields(psiType, Strs(names.value), submitLabel, help, options);
    r := Success(FormData(described.value, form, JsonFieldsOf(options)));
  }

  /** `makeFormData(submitLabel, help, fieldSchema, options)`. The field names
      are read after the descriptions are added, which leaves the names as
      they were. */
  method MakeFormData(submitLabel: Option<JSON>, help: Option<JSON>, fieldSchema: JSON, options: Option<JSON>)
    returns (r: Result<FormData, Exception>)
    ensures r.Failure? <==> AddOptionalDescriptions(fieldSchema, None).Failure?
    ensures r.Success? ==>
              r.value.schema == AddOptionalDescriptions(fieldSchema, None).value
              && r.value.form == WithOptions(Assembled([], Strs(ExtractFieldNames(fieldSchema).value), submitLabel, help), options)
              && r.value.jsonFields == JsonFieldsOf(options)
  {
    var described := AddOptionalDescriptions(fieldSchema, None);
    if described.Failure? {
      return Failure(described.error);
    }
    NamesSurviveDescriptions(fieldSchema, described.value);
    var names := ExtractFieldNames(described.value);
    var form := MakeFields(Strs(names.value), submitLabel, help, options);
    r := Success(FormData(described.value, form, JsonFieldsOf(options)));
  }

  /** Adding descriptions leaves the field names a form is built from as
      they were. */
  lemma NamesSurviveDescriptions(fieldSchema: JSON, described: JSON)
    requires AddOptionalDescriptions(fieldSchema, None) == Success(described)
    ensures ExtractFieldNames(described) == ExtractFieldNames(fieldSchema)
  {
    var isObject := IsObjectSchema(fieldSchema).value;
    if isObject {
      var props := Get(fieldSchema.fields, "properties").value;
      var d := AddOptionalDescriptions(props, Get(fieldSchema.fields, "required")).value;
      assert described == Obj(Put(fieldSchema.fields, "properties", d));
      assert IsObjectSchema(described) == Success(true);
      if props.Arr? {
        assert ForInKeys(d) == ForInKeys(props);
      }
    } else if fieldSchema.Obj? {
      var fields := fieldSchema.fields;
      var out := DescribeMembers(fieldSchema, None, 0).value;
      assert described == Obj(out);
      assert fields[0..] == fields;
      SameKindsSameSchema(fields, out);
    } else if fieldSchema.Arr? {
      assert ForInKeys(described) == ForInKeys(fieldSchema);
    }
  }

  /** Member by member alike values are alike as schemas. */
  lemma SameKindsSameSchema(fields: seq<(string, JSON)>, out: seq<(string, JSON)>)
    requires Keys(out) == Keys(fields)
    requires forall j :: 0 <= j < |out| ==> SameKind(fields[j].1, out[j].1)
    ensures IsObjectSchema(Obj(out)) == IsObjectSchema(Obj(fields))
  {
    LookupSameKeys(out, fields, "type");
    LookupSameKeys(out, fields, "properties");
  }
}
