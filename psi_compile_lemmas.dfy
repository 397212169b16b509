/** What the PSI compiler promises: plain JSON Schema passes through
    unchanged, each PSI notation rewrites to its JSON Schema form, local
    definitions are visible to the whole rest of a compilation, a reference
    key replaces its object, and resolving is cached. */
module PsiCompileLemmas {
  import opened Wrappers
  import opened Text
  import opened Json
  import opened PsiQuery
  import opened PsiCompile

  // ---- plain JSON Schema is a fixed point ------------------------------------------

  /** A member name no PSI rule rewrites. */
  predicate PlainKey(k: string)
  {
    !IsLocalKey(k) && !IsReferenceKey(k) && !IsPropertyKey(k) && k != "allItems"
  }

  predicate DistinctFieldKeys(fields: seq<(string, JSON)>)
  {
    forall i, j :: 0 <= i < j < |fields| ==> fields[i].0 != fields[j].0
  }

  /** A document without PSI notation: no `$`- or `@`-string, no member name
      a PSI rule rewrites, no `null`, and no repeated member name. */
  predicate Plain(s: JSON)
  {
    match s
    case Null => false
    case Num(_) => true
    case Bool(_) => true
    case Str(t) => !StartsWith(t, "$") && !StartsWith(t, "@")
    case Arr(items) => forall i :: 0 <= i < |items| ==> Plain(items[i])
    case Obj(fields) =>
      DistinctFieldKeys(fields) && forall i :: 0 <= i < |fields| ==> PlainKey(fields[i].0) && Plain(fields[i].1)
  }

  lemma {:induction false} NoLocals(local: map<string, JSON>, fields: seq<(string, JSON)>)
    requires forall i :: 0 <= i < |fields| ==> !IsLocalKey(fields[i].0)
    ensures AddLocals(local, fields) == local && WithoutLocals(fields) == fields
  {
    if fields != [] {
      NoLocals(local, fields[1..]);
    }
  }

  /** Compiling plain JSON Schema gives it back and leaves the context alone. */
  lemma {:induction false} PlainIsFixed(setup: Setup, fuel: nat, s: JSON, ctx: Ctx)
    requires Plain(s)
    ensures CompileValue(setup, fuel, s, ctx) == Success((s, ctx))
    decreases s, 2
  {
    match s
    case Arr(items) =>
      PlainItemsFixed(setup, fuel, s, items, 0, ctx);
    case Obj(fields) =>
      NoLocals(ctx.local, fields);
      assert ctx.(local := ctx.local) == ctx;
      assert FirstReference(fields).None?;
      PlainMembersFixed(setup, fuel, s, fields, 0, ctx);
    case _ =>
  }

  lemma {:induction false} PlainItemsFixed(setup: Setup, fuel: nat, s: JSON, items: seq<JSON>, i: nat, ctx: Ctx)
    requires s == Arr(items) && Plain(s) && i <= |items|
    ensures CompileItems(setup, fuel, s, items, i, items[..i], ctx) == Success((Arr(items), ctx))
    decreases s, 1, |items| - i
  {
    if i == |items| {
      assert items[..i] == items;
    } else {
      PlainIsFixed(setup, fuel, items[i], ctx);
      assert items[..i] + [items[i]] == items[..i + 1];
      PlainItemsFixed(setup, fuel, s, items, i + 1, ctx);
    }
  }

  lemma {:induction false} PlainMembersFixed(setup: Setup, fuel: nat, s: JSON, fields: seq<(string, JSON)>, k: nat, ctx: Ctx)
    requires s == Obj(fields) && Plain(s) && k <= |fields|
    ensures BuildFrom(setup, fuel, s, fields, k, fields[..k], ctx) == Success((s, ctx))
    decreases s, 1, |fields| - k
  {
    if k == |fields| {
      assert fields[..k] == fields;
    } else {
      var (key, v) := fields[k];
      assert fields[k] in fields;
      PlainIsFixed(setup, fuel, v, ctx);
      PutNextMember(fields, k);
      PlainMembersFixed(setup, fuel, s, fields, k + 1, ctx);
    }
  }

  /** With distinct member names, putting the next member after the first `k`
      appends it. */
  lemma PutNextMember(fields: seq<(string, JSON)>, k: nat)
    requires k < |fields| && DistinctFieldKeys(fields)
    ensures Put(fields[..k], fields[k].0, fields[k].1) == fields[..k + 1]
  {
    assert Lookup(fields[..k], fields[k].0).None?;
    assert fields[..k] + [(fields[k].0, fields[k].1)] == fields[..k + 1];
  }

  /** A plain schema compiles to itself, tagged with the compiler's version. */
  lemma CompilePlain(setup: Setup, fuel: nat, fields: seq<(string, JSON)>)
    requires Plain(Obj(fields))
    ensures Compile(setup, fuel, Obj(fields)) == Success(Obj(Put(fields, "$schema", Str(setup.version))))
  {
    PlainIsFixed(setup, fuel, Obj(fields), Ctx(map[], map[]));
  }

  // ---- the scalar rules of _compile ---------------------------------------------------

  /** Numbers and booleans stay, `@type` becomes a URI schema with that media
      type, `null` is rejected, and a `$name` resolves `name` and compiles
      what it finds (a local definition without any fetch). */
  lemma CompileScalars(setup: Setup, fuel: nat, ctx: Ctx, t: string, n: string)
    ensures CompileValue(setup, fuel, Num(0), ctx) == Success((Num(0), ctx))
    ensures CompileValue(setup, fuel, Bool(true), ctx) == Success((Bool(true), ctx))
    ensures CompileValue(setup, fuel, Str("@" + t), ctx) == Success((MediaTypeSchema(t), ctx))
    ensures CompileValue(setup, fuel, Null, ctx) == Failure(NotASchema)
    ensures fuel == 0 ==> CompileValue(setup, fuel, Str("$" + n), ctx) == Failure(StackOverflow)
    ensures fuel > 0 && n in ctx.local ==>
      CompileValue(setup, fuel, Str("$" + n), ctx) == CompileValue(setup, fuel - 1, ctx.local[n], ctx)
  {
    assert StartsWith("@" + t, "@") && ("@" + t)[1..] == t;
    assert !StartsWith("@" + t, "$") by { assert ("@" + t)[0] == '@'; }
    assert StartsWith("$" + n, "$") && ("$" + n)[1..] == n;
  }

  /** Other strings are kept as they are. */
  lemma CompileOtherString(setup: Setup, fuel: nat, ctx: Ctx, t: string)
    requires !StartsWith(t, "$") && !StartsWith(t, "@")
    ensures CompileValue(setup, fuel, Str(t), ctx) == Success((Str(t), ctx))
  {
  }

  /** Arrays are compiled element by element, in order, through one context. */
  lemma {:induction false} CompileItemsShape(setup: Setup, fuel: nat, s: JSON, items: seq<JSON>, i: nat, acc: seq<JSON>, ctx: Ctx)
    requires s == Arr(items) && i <= |items|
    ensures var r := CompileItems(setup, fuel, s, items, i, acc, ctx);
      r.Success? ==> r.value.0.Arr? && |r.value.0.items| == |acc| + |items| - i && r.value.0.items[..|acc|] == acc
    decreases |items| - i
  {
    if i < |items| {
      var step := CompileValue(setup, fuel, items[i], ctx);
      if step.Success? {
        CompileItemsShape(setup, fuel, s, items, i + 1, acc + [step.value.0], step.value.1);
        var r := CompileItems(setup, fuel, s, items, i + 1, acc + [step.value.0], step.value.1);
        if r.Success? {
          assert r.value.0.items[..|acc|] == r.value.0.items[..|acc| + 1][..|acc|];
        }
      }
    }
  }

  // ---- local definitions and reference keys ----------------------------------------------

  /** Which rule a member name falls under is decided by its first character. */
  lemma KeyByFirst(k: string)
    requires |k| > 0
    ensures IsLocalKey(k) <==> k[0] == '#'
    ensures StartsWith(k, "$") <==> k[0] == '$'
    ensures StartsWith(k, "/") <==> k[0] == '/'
    ensures IsPropertyKey(k) <==> k[0] == '/' || k[0] == '?'
  {
    assert k[..1] == [k[0]];
  }

  /** Definitions are not scoped: `#a` defined inside one member is what
      `$a` resolves to in a later sibling. */
  lemma LocalsAreFlat(setup: Setup, fuel: nat, p: string, q: string, a: string, d: JSON, ctx: Ctx)
    requires fuel > 0 && Plain(d)
    requires PlainKey(p) && PlainKey(q) && p != q
    ensures var s := Obj([(p, Obj([("#" + a, d)])), (q, Str("$" + a))]);
      CompileValue(setup, fuel, s, ctx)
      == Success((Obj([(p, Obj([])), (q, d)]), ctx.(local := ctx.local[a := d])))
  {
    var s := Obj([(p, Obj([("#" + a, d)])), (q, Str("$" + a))]);
    ObjectWithoutNotation(setup, fuel, s, ctx);
    FlatDefines(setup, fuel, s, p, q, a, d, ctx);
    FlatResolves(setup, fuel, s, p, q, a, d, ctx.(local := ctx.local[a := d]));
  }

  /** The first member of that object compiles to `{}` and adds `a`. */
  lemma FlatDefines(setup: Setup, fuel: nat, s: JSON, p: string, q: string, a: string, d: JSON, ctx: Ctx)
    requires s == Obj([(p, Obj([("#" + a, d)])), (q, Str("$" + a))])
    requires PlainKey(p) && forall j :: 0 <= j < |s.fields| ==> s.fields[j].1 < s
    ensures BuildFrom(setup, fuel, s, s.fields, 0, [], ctx)
         == BuildFrom(setup, fuel, s, s.fields, 1, [(p, Obj([]))], ctx.(local := ctx.local[a := d]))
  {
    var ctx1 := ctx.(local := ctx.local[a := d]);
    assert CompileValue(setup, fuel, s.fields[0].1, ctx) == Success((Obj([]), ctx1)) by {
      DefinitionOnly(setup, fuel, a, d, ctx);
    }
    BuildFromMember(setup, fuel, s, s.fields, 0, [], ctx, Obj([]), ctx1);
    assert Put([], p, Obj([])) == [(p, Obj([]))];
  }

  /** The second member, `$a`, finds the definition. */
  lemma FlatResolves(setup: Setup, fuel: nat, s: JSON, p: string, q: string, a: string, d: JSON, ctx1: Ctx)
    requires s == Obj([(p, Obj([("#" + a, d)])), (q, Str("$" + a))])
    requires fuel > 0 && Plain(d) && a in ctx1.local && ctx1.local[a] == d
    requires PlainKey(q) && p != q && forall j :: 0 <= j < |s.fields| ==> s.fields[j].1 < s
    ensures BuildFrom(setup, fuel, s, s.fields, 1, [(p, Obj([]))], ctx1) == Success((Obj([(p, Obj([])), (q, d)]), ctx1))
  {
    assert CompileValue(setup, fuel, s.fields[1].1, ctx1) == Success((d, ctx1)) by {
      CompileScalars(setup, fuel, ctx1, "", a);
      PlainIsFixed(setup, fuel - 1, d, ctx1);
    }
    BuildFromMember(setup, fuel, s, s.fields, 1, [(p, Obj([]))], ctx1, d, ctx1);
    assert Put([(p, Obj([]))], q, d) == [(p, Obj([])), (q, d)];
  }

  /** An object without definitions or references compiles member by member
      in the context it is given. */
  lemma ObjectWithoutNotation(setup: Setup, fuel: nat, s: JSON, ctx: Ctx)
    requires s.Obj?
    requires forall i :: 0 <= i < |s.fields| ==> !IsLocalKey(s.fields[i].0) && !IsReferenceKey(s.fields[i].0)
    ensures forall j :: 0 <= j < |s.fields| ==> s.fields[j].1 < s
    ensures CompileValue(setup, fuel, s, ctx) == BuildFrom(setup, fuel, s, s.fields, 0, [], ctx)
  {
    NoLocals(ctx.local, s.fields);
    assert ctx.(local := ctx.local) == ctx;
    assert FirstReference(s.fields).None?;
    forall j | 0 <= j < |s.fields| ensures s.fields[j].1 < s {
      assert s.fields[j] in s.fields;
    }
  }

  /** An object holding only the definition `#a` compiles to `{}` and adds `a`. */
  lemma DefinitionOnly(setup: Setup, fuel: nat, a: string, d: JSON, ctx: Ctx)
    ensures CompileValue(setup, fuel, Obj([("#" + a, d)]), ctx) == Success((Obj([]), ctx.(local := ctx.local[a := d])))
  {
    var inner := Obj([("#" + a, d)]);
    var ctx1 := ctx.(local := ctx.local[a := d]);
    KeyByFirst("#" + a);
    assert ("#" + a)[1..] == a;
    assert AddLocals(ctx.local, inner.fields) == ctx.local[a := d];
    assert WithoutLocals(inner.fields) == [];
    assert CompileObject(setup, fuel, inner, ctx) == BuildFrom(setup, fuel, inner, [], 0, [], ctx1);
  }

  /** One member that is not a property key: compiled, then stored under its
      target name. */
  lemma BuildFromMember(setup: Setup, fuel: nat, s: JSON, fields: seq<(string, JSON)>, k: nat,
                        result: seq<(string, JSON)>, ctx: Ctx, c: JSON, ctx1: Ctx)
    requires s == Obj(fields) && k < |fields| && !IsPropertyKey(fields[k].0)
    requires CompileValue(setup, fuel, fields[k].1, ctx) == Success((c, ctx1))
    ensures fields[k].1 < s
    ensures BuildFrom(setup, fuel, s, fields, k, result, ctx)
         == BuildFrom(setup, fuel, s, fields, k + 1, Put(result, TargetKey(fields[k].0), c), ctx1)
  {
    assert fields[k] in fields;
  }

  /** The first reference key replaces the whole object: the members before
      it (none of them a reference) and after it are dropped, and its value
      becomes the arguments of the resolution. */
  lemma ReferenceKeyReplacesObject(setup: Setup, fuel: nat, before: seq<(string, JSON)>, k: string, a: JSON,
                                   after: seq<(string, JSON)>, ctx: Ctx)
    requires IsReferenceKey(k)
    requires forall i :: 0 <= i < |before| ==> !IsReferenceKey(before[i].0) && !IsLocalKey(before[i].0)
    requires forall i :: 0 <= i < |after| ==> !IsLocalKey(after[i].0)
    ensures var s := Obj(before + [(k, a)] + after);
      CompileValue(setup, fuel, s, ctx) == ResolveAndCompile(setup, fuel, s, k[1..], Some(a), ctx)
  {
    var fields := before + [(k, a)] + after;
    KeyByFirst(k);
    NoLocalsAround(before, (k, a), after);
    FirstReferenceAt(before, (k, a), after);
    ObjectWithReference(setup, fuel, Obj(fields), |before|, ctx);
  }

  lemma NoLocalsAround(before: seq<(string, JSON)>, m: (string, JSON), after: seq<(string, JSON)>)
    requires !IsLocalKey(m.0)
    requires forall i :: 0 <= i < |before| ==> !IsLocalKey(before[i].0)
    requires forall i :: 0 <= i < |after| ==> !IsLocalKey(after[i].0)
    ensures var fields := before + [m] + after;
      forall i :: 0 <= i < |fields| ==> !IsLocalKey(fields[i].0)
  {
    var fields := before + [m] + after;
    forall i | 0 <= i < |fields| ensures !IsLocalKey(fields[i].0) {
      if i < |before| { assert fields[i] == before[i]; }
      else if i == |before| { assert fields[i] == m; }
      else { assert fields[i] == after[i - |before| - 1]; }
    }
  }

  /** An object without definitions whose first reference is its `i`th
      member compiles to what that reference resolves to. */
  lemma ObjectWithReference(setup: Setup, fuel: nat, s: JSON, i: nat, ctx: Ctx)
    requires s.Obj? && i < |s.fields|
    requires forall j :: 0 <= j < |s.fields| ==> !IsLocalKey(s.fields[j].0)
    requires FirstReference(s.fields) == Some(i)
    ensures CompileValue(setup, fuel, s, ctx)
         == ResolveAndCompile(setup, fuel, s, s.fields[i].0[1..], Some(s.fields[i].1), ctx)
  {
    NoLocals(ctx.local, s.fields);
    assert ctx.(local := ctx.local) == ctx;
  }

  lemma FirstReferenceAt(before: seq<(string, JSON)>, m: (string, JSON), after: seq<(string, JSON)>)
    requires IsReferenceKey(m.0)
    requires forall i :: 0 <= i < |before| ==> !IsReferenceKey(before[i].0)
    ensures FirstReference(before + [m] + after) == Some(|before|)
  {
    var fields := before + [m] + after;
    assert fields[|before|] == m;
  }

  // ---- property members ---------------------------------------------------------------------

  /** What an object schema holding one property member looks like: typed
      `object`, the property stored under its name (wrapped as the only
      `enum` member for a trailing `=`), and a `/` member listed in
      `required` (draft 4) or flagged `required: true` (draft 3). */
  predicate SingleProperty(fields: seq<(string, JSON)>, version: string, k: string, c: JSON)
    requires IsPropertyKey(k)
  {
    var name := PropertyName(k);
    var value := if EndsWith(k, "=") then Obj([("enum", Arr([c]))]) else c;
    var listed := StartsWith(k, "/") && version != DRAFTV3;
    var flagged := StartsWith(k, "/") && version == DRAFTV3;
    Get(fields, "type") == Some(Str("object"))
    && Get(fields, "properties") == Some(Obj([(name, if flagged then FlagRequired(value) else value)]))
    && Get(fields, "required") == (if listed then Some(Arr([Str(name)])) else None)
    && Keys(fields) == ["type"] + (if listed then ["required"] else []) + ["properties"]
  }

  /** `{K: V}` for a property key `K` compiles to the single-property schema. */
  lemma PropertyMember(setup: Setup, fuel: nat, k: string, v: JSON, ctx: Ctx, c: JSON, ctx1: Ctx)
    requires IsPropertyKey(k) && CompileValue(setup, fuel, v, ctx) == Success((c, ctx1))
    ensures var r := CompileValue(setup, fuel, Obj([(k, v)]), ctx);
      r.Success? && r.value.1 == ctx1 && r.value.0.Obj? && SingleProperty(r.value.0.fields, setup.version, k, c)
  {
    var s := Obj([(k, v)]);
    KeyByFirst(k);
    ObjectWithoutNotation(setup, fuel, s, ctx);
    assert s.fields[0] == (k, v);
    AddPropertyToEmpty(setup, fuel, s, k, v, ctx, c, ctx1);
    var fields := AddObjectProperty(setup, fuel, s, [], k, v, ctx).value.0;
    assert BuildFrom(setup, fuel, s, s.fields, 1, fields, ctx1) == Success((Obj(fields), ctx1));
    assert BuildFrom(setup, fuel, s, s.fields, 0, [], ctx) == Success((Obj(fields), ctx1));
  }

  lemma AddPropertyToEmpty(setup: Setup, fuel: nat, s: JSON, k: string, v: JSON, ctx: Ctx, c: JSON, ctx1: Ctx)
    requires IsPropertyKey(k) && v < s && CompileValue(setup, fuel, v, ctx) == Success((c, ctx1))
    ensures var r := AddObjectProperty(setup, fuel, s, [], k, v, ctx);
      r.Success? && r.value.1 == ctx1 && SingleProperty(r.value.0, setup.version, k, c)
  {
    if StartsWith(k, "/") && setup.version != DRAFTV3 {
      AddListedToEmpty(setup, fuel, s, k, v, ctx, c, ctx1);
    } else {
      AddUnlistedToEmpty(setup, fuel, s, k, v, ctx, c, ctx1);
    }
  }

  lemma AddListedToEmpty(setup: Setup, fuel: nat, s: JSON, k: string, v: JSON, ctx: Ctx, c: JSON, ctx1: Ctx)
    requires IsPropertyKey(k) && v < s && CompileValue(setup, fuel, v, ctx) == Success((c, ctx1))
    requires StartsWith(k, "/") && setup.version != DRAFTV3
    ensures var r := AddObjectProperty(setup, fuel, s, [], k, v, ctx);
      r.Success? && r.value.1 == ctx1 && SingleProperty(r.value.0, setup.version, k, c)
  {
    var name := PropertyName(k);
    var value := if EndsWith(k, "=") then Obj([("enum", Arr([c]))]) else c;
    var typed := Put([], "type", Str("object"));
    assert Keys(typed) == ["type"] && Get(typed, "required") == None && Get(typed, "properties") == None;
    var listed := Put(typed, "required", Arr([Str(name)]));
    AddListed(setup, fuel, s, k, v, ctx, c, ctx1);
    PushFresh(typed, name);
    SetPropertyFresh(listed, name, value);
  }

  lemma AddUnlistedToEmpty(setup: Setup, fuel: nat, s: JSON, k: string, v: JSON, ctx: Ctx, c: JSON, ctx1: Ctx)
    requires IsPropertyKey(k) && v < s && CompileValue(setup, fuel, v, ctx) == Success((c, ctx1))
    requires !(StartsWith(k, "/") && setup.version != DRAFTV3)
    ensures var r := AddObjectProperty(setup, fuel, s, [], k, v, ctx);
      r.Success? && r.value.1 == ctx1 && SingleProperty(r.value.0, setup.version, k, c)
  {
    var name := PropertyName(k);
    var value := if EndsWith(k, "=") then Obj([("enum", Arr([c]))]) else c;
    var typed := Put([], "type", Str("object"));
    assert Get(typed, "properties") == None by {
      assert "properties" != "type";
    }
    var flagged := if StartsWith(k, "/") then FlagRequired(value) else value;
    var f := Put(typed, "properties", Obj([(name, flagged)]));
    assert AddObjectProperty(setup, fuel, s, [], k, v, ctx) == Success((f, ctx1)) by {
      AddUnlisted(setup, fuel, s, k, v, ctx, c, ctx1);
      SetPropertyFresh(typed, name, flagged);
    }
    UnlistedSingle(setup.version, k, c);
  }

  lemma UnlistedSingle(version: string, k: string, c: JSON)
    requires IsPropertyKey(k) && !(StartsWith(k, "/") && version != DRAFTV3)
    ensures var value := if EndsWith(k, "=") then Obj([("enum", Arr([c]))]) else c;
      var flagged := if StartsWith(k, "/") then FlagRequired(value) else value;
      SingleProperty(Put(Put([], "type", Str("object")), "properties", Obj([(PropertyName(k), flagged)])), version, k, c)
  {
    var value := if EndsWith(k, "=") then Obj([("enum", Arr([c]))]) else c;
    UnlistedShape(PropertyName(k), if StartsWith(k, "/") then FlagRequired(value) else value);
  }

  /** The fields of a single unlisted property, one key after the other. */
  lemma UnlistedShape(name: string, value: JSON)
    ensures var f := Put(Put([], "type", Str("object")), "properties", Obj([(name, value)]));
      Get(f, "type") == Some(Str("object")) && Get(f, "properties") == Some(Obj([(name, value)]))
      && Get(f, "required") == None && Keys(f) == ["type", "properties"]
  {
    var typed := Put([], "type", Str("object"));
    assert "properties" != "type" && "required" != "type" && "required" != "properties";
    assert Get(typed, "properties") == None && Get(typed, "required") == None && Keys(typed) == ["type"];
  }

  lemma AddListed(setup: Setup, fuel: nat, s: JSON, k: string, v: JSON, ctx: Ctx, c: JSON, ctx1: Ctx)
    requires IsPropertyKey(k) && v < s && CompileValue(setup, fuel, v, ctx) == Success((c, ctx1))
    requires StartsWith(k, "/") && setup.version != DRAFTV3
    ensures var typed := Put([], "type", Str("object"));
      var value := if EndsWith(k, "=") then Obj([("enum", Arr([c]))]) else c;
      var r := AddObjectProperty(setup, fuel, s, [], k, v, ctx);
      PushRequired(typed, PropertyName(k)).Success? ==>
        r == Success((SetProperty(PushRequired(typed, PropertyName(k)).value, PropertyName(k), value), ctx1))
  {
  }

  lemma AddUnlisted(setup: Setup, fuel: nat, s: JSON, k: string, v: JSON, ctx: Ctx, c: JSON, ctx1: Ctx)
    requires IsPropertyKey(k) && v < s && CompileValue(setup, fuel, v, ctx) == Success((c, ctx1))
    requires !(StartsWith(k, "/") && setup.version != DRAFTV3)
    ensures var value := if EndsWith(k, "=") then Obj([("enum", Arr([c]))]) else c;
      var flagged := if StartsWith(k, "/") then FlagRequired(value) else value;
      AddObjectProperty(setup, fuel, s, [], k, v, ctx) == Success((SetProperty(Put([], "type", Str("object")), PropertyName(k), flagged), ctx1))
  {
  }

  /** The first `/` member starts the `required` list. */
  lemma PushFresh(result: seq<(string, JSON)>, key: string)
    requires Get(result, "required") == None
    ensures PushRequired(result, key) == Success(Put(result, "required", Arr([Str(key)])))
  {
  }

  /** The first property starts the `properties` object. */
  lemma SetPropertyFresh(result: seq<(string, JSON)>, key: string, value: JSON)
    requires Get(result, "properties") == None
    ensures SetProperty(result, key, value) == Put(result, "properties", Obj([(key, value)]))
  {
  }

  // The key slash-star is read as a required property named `*`: the
  // `additionalProperties` rule for it never applies, because the `/` rule
  // is tried first.
  lemma StarIsRequiredProperty(setup: Setup, fuel: nat, v: JSON, ctx: Ctx, c: JSON, ctx1: Ctx)
    requires setup.version != DRAFTV3
    requires CompileValue(setup, fuel, v, ctx) == Success((c, ctx1))
    ensures var r := CompileValue(setup, fuel, Obj([("/*", v)]), ctx);
      r.Success? && r.value.0.Obj?
      && Get(r.value.0.fields, "required") == Some(Arr([Str("*")]))
      && Get(r.value.0.fields, "properties") == Some(Obj([("*", c)]))
  {
    KeyByFirst("/*");
    assert !EndsWith("/*", "=") by { assert "/*"[1..] == "*"; }
    assert PropertyName("/*") == "*";
    PropertyMember(setup, fuel, "/*", v, ctx, c, ctx1);
  }

  /** The `required` list an object of property members builds under
      draft 4: the names of its `/` members, in order. */
  function RequiredNames(fields: seq<(string, JSON)>): seq<JSON>
    requires forall j :: 0 <= j < |fields| ==> IsPropertyKey(fields[j].0)
  {
    if fields == [] then []
    else
      var last := fields[|fields| - 1].0;
      RequiredNames(fields[..|fields| - 1]) + (if StartsWith(last, "/") then [Str(PropertyName(last))] else [])
  }

  /** The names the `required` list of an object should hold. */
  function ExpectedRequired(version: string, fields: seq<(string, JSON)>): seq<JSON>
    requires forall j :: 0 <= j < |fields| ==> IsPropertyKey(fields[j].0)
  {
    if version == DRAFTV3 then [] else RequiredNames(fields)
  }

  /** `required` holds exactly `names`, and is absent when there are none. */
  predicate RequiredIs(result: seq<(string, JSON)>, names: seq<JSON>)
  {
    Get(result, "required") == (if names == [] then None else Some(Arr(names)))
  }

  /** Draft 4 lists every `/` member of an object in `required`, in the order
      of the members, and has no `required` list when there is none; draft 3
      never builds the list. */
  lemma RequiredInOrder(setup: Setup, fuel: nat, fields: seq<(string, JSON)>, ctx: Ctx)
    requires forall j :: 0 <= j < |fields| ==> IsPropertyKey(fields[j].0)
    ensures var r := CompileValue(setup, fuel, Obj(fields), ctx);
      r.Success? ==> r.value.0.Obj? && RequiredIs(r.value.0.fields, ExpectedRequired(setup.version, fields))
  {
    var s := Obj(fields);
    forall j | 0 <= j < |fields| ensures !IsLocalKey(fields[j].0) && !IsReferenceKey(fields[j].0) {
      KeyByFirst(fields[j].0);
    }
    NoLocals(ctx.local, fields);
    assert ctx.(local := ctx.local) == ctx;
    assert FirstReference(fields).None?;
    assert fields[..0] == [];
    RequiredFrom(setup, fuel, s, fields, 0, [], ctx);
  }

  lemma {:induction false} RequiredFrom(setup: Setup, fuel: nat, s: JSON, fields: seq<(string, JSON)>, k: nat,
                                        result: seq<(string, JSON)>, ctx: Ctx)
    requires s == Obj(fields) && k <= |fields|
    requires forall j :: 0 <= j < |fields| ==> IsPropertyKey(fields[j].0)
    requires RequiredIs(result, ExpectedRequired(setup.version, fields[..k]))
    ensures var r := BuildFrom(setup, fuel, s, fields, k, result, ctx);
      r.Success? ==> r.value.0.Obj? && RequiredIs(r.value.0.fields, ExpectedRequired(setup.version, fields))
    decreases |fields| - k
  {
    if k == |fields| {
      assert fields[..k] == fields;
    } else {
      var (key, v) := fields[k];
      assert fields[k] in fields;
      var step := AddObjectProperty(setup, fuel, s, result, key, v, ctx);
      BuildFromPropertyStep(setup, fuel, s, fields, k, result, ctx);
      if step.Success? {
        AddPropertyRequired(setup, fuel, s, result, key, v, ctx, ExpectedRequired(setup.version, fields[..k]));
        ExpectedStep(setup.version, fields, k);
        RequiredFrom(setup, fuel, s, fields, k + 1, step.value.0, step.value.1);
      }
    }
  }

  lemma BuildFromPropertyStep(setup: Setup, fuel: nat, s: JSON, fields: seq<(string, JSON)>, k: nat,
                              result: seq<(string, JSON)>, ctx: Ctx)
    requires s == Obj(fields) && k < |fields| && IsPropertyKey(fields[k].0)
    ensures fields[k].1 < s
    ensures var step := AddObjectProperty(setup, fuel, s, result, fields[k].0, fields[k].1, ctx);
      var r := BuildFrom(setup, fuel, s, fields, k, result, ctx);
      if step.Success? then r == BuildFrom(setup, fuel, s, fields, k + 1, step.value.0, step.value.1) else r.Failure?
  {
    assert fields[k] in fields;
  }

  lemma ExpectedStep(version: string, fields: seq<(string, JSON)>, k: nat)
    requires k < |fields| && forall j :: 0 <= j < |fields| ==> IsPropertyKey(fields[j].0)
    ensures var key := fields[k].0;
      var names := ExpectedRequired(version, fields[..k]);
      ExpectedRequired(version, fields[..k + 1])
      == if StartsWith(key, "/") && version != DRAFTV3 then names + [Str(PropertyName(key))] else names
  {
    assert fields[..k + 1][..k] == fields[..k];
    assert fields[..k + 1][k] == fields[k];
  }

  /** One property member extends the `required` list by its name when it is
      a `/` member under draft 4, and leaves it alone otherwise. */
  lemma AddPropertyRequired(setup: Setup, fuel: nat, s: JSON, result: seq<(string, JSON)>, k: string, v: JSON, ctx: Ctx,
                            names: seq<JSON>)
    requires IsPropertyKey(k) && v < s && RequiredIs(result, names)
    ensures var r := AddObjectProperty(setup, fuel, s, result, k, v, ctx);
      r.Success? ==>
        RequiredIs(r.value.0, if StartsWith(k, "/") && setup.version != DRAFTV3 then names + [Str(PropertyName(k))] else names)
  {
    var r := AddObjectProperty(setup, fuel, s, result, k, v, ctx);
    if r.Success? {
      var typed := Put(result, "type", Str("object"));
      var name := PropertyName(k);
      AddObjectPropertyIs(setup, fuel, s, result, k, v, ctx);
      var listed := if StartsWith(k, "/") && setup.version != DRAFTV3 then PushRequired(typed, name).value else typed;
      var value := StoredValue(setup.version, k, CompileValue(setup, fuel, v, ctx).value.0);
      assert RequiredIs(typed, names) by {
        assert "required" != "type";
      }
      assert Get(r.value.0, "required") == Get(listed, "required") by {
        SetPropertyKeepsOthers(listed, name, value, "required");
      }
      if StartsWith(k, "/") && setup.version != DRAFTV3 {
        PushRequiredAppends(typed, name, names);
      }
    }
  }

  /** The value `_addObjectProperty` stores for a compiled `c`. */
  function StoredValue(version: string, k: string, c: JSON): JSON
  {
    var value := if EndsWith(k, "=") then Obj([("enum", Arr([c]))]) else c;
    if StartsWith(k, "/") && version == DRAFTV3 then FlagRequired(value) else value
  }

  /** `_addObjectProperty` stores into the list built from the typed object. */
  lemma AddObjectPropertyIs(setup: Setup, fuel: nat, s: JSON, result: seq<(string, JSON)>, k: string, v: JSON, ctx: Ctx)
    requires IsPropertyKey(k) && v < s
    ensures var r := AddObjectProperty(setup, fuel, s, result, k, v, ctx);
      var typed := Put(result, "type", Str("object"));
      var listed := if StartsWith(k, "/") && setup.version != DRAFTV3 then PushRequired(typed, PropertyName(k)) else Success(typed);
      var c := CompileValue(setup, fuel, v, ctx);
      r.Success? ==>
        c.Success? && listed.Success? && r.value.0 == SetProperty(listed.value, PropertyName(k), StoredValue(setup.version, k, c.value.0))
  {
  }

  lemma PushRequiredAppends(result: seq<(string, JSON)>, key: string, names: seq<JSON>)
    requires RequiredIs(result, names)
    ensures PushRequired(result, key) == Success(Put(result, "required", Arr(names + [Str(key)])))
  {
    if names == [] {
      assert names + [Str(key)] == [Str(key)];
    }
  }

  lemma SetPropertyKeepsOthers(result: seq<(string, JSON)>, key: string, value: JSON, other: string)
    requires other != "properties"
    ensures Get(SetProperty(result, key, value), other) == Get(result, other)
  {
  }

  /** `allItems` is stored as `items`. */
  lemma AllItemsRenamed(setup: Setup, fuel: nat, v: JSON, ctx: Ctx, c: JSON, ctx1: Ctx)
    requires CompileValue(setup, fuel, v, ctx) == Success((c, ctx1))
    ensures CompileValue(setup, fuel, Obj([("allItems", v)]), ctx) == Success((Obj([("items", c)]), ctx1))
  {
    var s := Obj([("allItems", v)]);
    KeyByFirst("allItems");
    NoLocals(ctx.local, s.fields);
    assert ctx.(local := ctx.local) == ctx;
    assert FirstReference(s.fields).None?;
    assert s.fields[0] == ("allItems", v);
    assert Put([], "items", c) == [("items", c)];
    assert BuildFrom(setup, fuel, s, s.fields, 1, [("items", c)], ctx1) == Success((Obj([("items", c)]), ctx1));
    assert BuildFrom(setup, fuel, s, s.fields, 0, [], ctx) == Success((Obj([("items", c)]), ctx1));
  }

  // ---- resolve ----------------------------------------------------------------------------

  /** Resolving again what was just resolved gives the same document and
      needs no fetch: it is a local definition or now in the cache. */
  lemma ResolveTwice(server: Server, ctx: Ctx, id: string, args: Option<JSON>)
    requires Resolve(server, ctx, id, args).Success?
    ensures var r := Resolve(server, ctx, id, args).value;
      Resolve(server, r.1, id, args) == Success(r)
  {
  }

  /** The URI `resolve` fetches splits back at its first `?` into where the
      schema lives (an `http://` id as it is, any other id under the root)
      and the query built from the arguments, when neither the root nor the
      id holds a `?`; without arguments it is that location alone. */
  lemma SchemaURISplits(server: Server, id: string, args: Option<JSON>)
    requires '?' !in server.root && '?' !in id
    ensures var loc := if StartsWith(id, "http://") then id else server.root + id;
      var u := SchemaURI(server, id, args);
      if args.None? || args.value.Null? then u == loc && IndexOf(u, '?').None?
      else IndexOf(u, '?') == Some(|loc|) && u[..|loc|] == loc && u[|loc| + 1..] == Args2Query(server.codec, args.value)
  {
    var loc := if StartsWith(id, "http://") then id else server.root + id;
    assert '?' !in loc;
    if !(args.None? || args.value.Null?) {
      var q := Args2Query(server.codec, args.value);
      var u := SchemaURI(server, id, args);
      assert u == loc + "?" + q;
      assert u == loc + ['?'] + q;
      IndexOfAfterFree(loc, '?', q);
      assert u[..|loc|] == loc;
      assert u[|loc| + 1..] == q;
    } else {
      assert SchemaURI(server, id, args) == loc;
    }
  }
}
