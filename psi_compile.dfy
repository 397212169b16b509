/** The PSI schema compiler as pure functions: `_compile` and the functions it
    calls rewrite a PSI schema into a JSON Schema, threading the compile
    context (`local` definitions and the fetch `cache`). The asynchronous
    jQuery code is read sequentially: every part completes in the order the
    code starts it. `$.getJSON` is the `remote` map of documents by URI (a
    missing URI is a failed request). `fuel` bounds how many `$`-references
    may be followed in a chain: a reference cycle exhausts the stack. */
module PsiCompile {
  import opened Wrappers
  import opened Text
  import opened Json
  import opened PsiQuery

  // ---- versions ----------------------------------------------------------------

  const DRAFTV3 := "http://json-schema.org/draft-03/schema#"
  const DRAFTV4 := "http://json-schema.org/draft-04/schema#"

  /** `schemaVersionIsOK(version)`: one of the two supported version URIs
      (compared with `===`, so only those strings); `None` is `undefined`. */
  predicate VersionIsOK(version: Option<JSON>)
  {
    version == Some(Str(DRAFTV3)) || version == Some(Str(DRAFTV4))
  }

  // ---- errors and context -----------------------------------------------------

  /** Why a compilation fails. */
  datatype CompileError =
    | UnsupportedVersion    // `setJSONSchemaVersion` with a version not listed
    | NotASchema            // `_compile` of `null`
    | BadArguments          // `resolve` with arguments that are not an object
    | FetchFailed(uri: string)  // the request for a schema failed
    | PushOnNonArray        // `result.required.push` on a value that is not an array
    | StackOverflow         // the chain of `$`-references is too long

  /** The state of a `SchemaContext`: the `#`-definitions and the fetched
      documents by URI. */
  datatype Ctx = Ctx(local: map<string, JSON>, cache: map<string, JSON>)

  /** A compilation step only adds definitions (possibly overriding one) and
      only adds documents to the cache, never changing a cached one. */
  predicate Extends(before: Ctx, after: Ctx)
  {
    before.local.Keys <= after.local.Keys
    && forall u :: u in before.cache ==> u in after.cache && after.cache[u] == before.cache[u]
  }

  lemma ExtendsTransitive(a: Ctx, b: Ctx, c: Ctx)
    requires Extends(a, b) && Extends(b, c)
    ensures Extends(a, c)
  {
  }

  /** What `resolve` consults: the context root (ending in `/`), the schema
      server and the two foreign functions `args2Query` calls. */
  datatype Server = Server(root: string, remote: map<string, JSON>, codec: Codec)

  /** What a compilation consults: the same, and the compiler's schema version. */
  datatype Setup = Setup(root: string, version: string, remote: map<string, JSON>, codec: Codec)
  {
    function AsServer(): Server
    {
      Server(root, remote, codec)
    }
  }

  /** The root a `SchemaContext` keeps: the given one, with a `/` added when
      it does not end in one. */
  function RootOf(schemaRootURI: string): (r: string)
    ensures EndsWith(r, "/")
    ensures EndsWith(schemaRootURI, "/") ==> r == schemaRootURI
  {
    if EndsWith(schemaRootURI, "/") then schemaRootURI else schemaRootURI + "/"
  }

  // ---- SchemaContext.resolve ---------------------------------------------------

  /** The URI `resolve` fetches: an absolute `http://` id as it is, otherwise
      under the root, then `?` and the query when there are arguments. */
  function SchemaURI(server: Server, id: string, args: Option<JSON>): string
  {
    (if StartsWith(id, "http://") then "" else server.root) + id
    + (if args.None? || args.value.Null? then "" else "?" + Args2Query(server.codec, args.value))
  }

  /** Arguments `resolve` accepts: `undefined`, `null` or an object. */
  predicate ArgsAccepted(args: Option<JSON>)
  {
    args.None? || args.value.Null? || IsObjectLike(args.value)
  }

  /** `resolve(id, args)`: a local definition first; then the cache under the
      schema URI; then the server, whose answer is cached. */
  function Resolve(server: Server, ctx: Ctx, id: string, args: Option<JSON>): (r: Result<(JSON, Ctx), CompileError>)
    ensures r.Success? ==> Extends(ctx, r.value.1) && r.value.1.local == ctx.local
  {
    if id in ctx.local then Success((ctx.local[id], ctx))
    else if !ArgsAccepted(args) then Failure(BadArguments)
    else
      var uri := SchemaURI(server, id, args);
      if uri in ctx.cache then Success((ctx.cache[uri], ctx))
      else if uri in server.remote then Success((server.remote[uri], ctx.(cache := ctx.cache[uri := server.remote[uri]])))
      else Failure(FetchFailed(uri))
  }

  // ---- _compile ------------------------------------------------------------------

  /** The schema a `@type` shorthand stands for. */
  function MediaTypeSchema(mediaType: string): JSON
  {
    Obj([("type", Str("string")), ("format", Str("uri")), ("mediaType", Str(mediaType))])
  }

  /** `_compile(S, C)`. */
  function CompileValue(setup: Setup, fuel: nat, s: JSON, ctx: Ctx): (r: Result<(JSON, Ctx), CompileError>)
    ensures r.Success? ==> Extends(ctx, r.value.1)
    decreases fuel, s, 4, 0
  {
    match s
    case Num(_) => Success((s, ctx))
    case Bool(_) => Success((s, ctx))
    case Str(t) =>
      if StartsWith(t, "$") then ResolveAndCompile(setup, fuel, s, t[1..], None, ctx)
      else if StartsWith(t, "@") then Success((MediaTypeSchema(t[1..]), ctx))
      else Success((s, ctx))
    case Arr(items) => CompileItems(setup, fuel, s, items, 0, [], ctx)
    case Obj(fields) => CompileObject(setup, fuel, s, ctx)
    case Null => Failure(NotASchema)
  }

  /** `_resolveAndCompile(id, C, args)`: the resolved document is compiled in
      the same context. `from` is the schema that holds the reference. */
  function ResolveAndCompile(setup: Setup, fuel: nat, ghost from: JSON, id: string, args: Option<JSON>, ctx: Ctx)
    : (r: Result<(JSON, Ctx), CompileError>)
    ensures r.Success? ==> Extends(ctx, r.value.1)
    decreases fuel, from, 0, 0
  {
    if fuel == 0 then Failure(StackOverflow)
    else
      var (doc, ctx1) :- Resolve(setup.AsServer(), ctx, id, args);
      CompileValue(setup, fuel - 1, doc, ctx1)
  }

  /** `_compileArray(S, C)` from the `i`-th element on. */
  function CompileItems(setup: Setup, fuel: nat, ghost s: JSON, items: seq<JSON>, i: nat, acc: seq<JSON>, ctx: Ctx)
    : (r: Result<(JSON, Ctx), CompileError>)
    requires i <= |items| && forall j :: 0 <= j < |items| ==> items[j] < s
    ensures r.Success? ==> Extends(ctx, r.value.1)
    decreases fuel, s, 2, |items| - i
  {
    if i == |items| then Success((Arr(acc), ctx))
    else
      var (item, ctx1) :- CompileValue(setup, fuel, items[i], ctx);
      CompileItems(setup, fuel, s, items, i + 1, acc + [item], ctx1)
  }

  // ---- _compileObject --------------------------------------------------------------

  /** A `#name` key: a local definition. */
  predicate IsLocalKey(k: string)
  {
    StartsWith(k, "#")
  }

  /** The context after `C.add(K.substr(1), S[K])` for every `#`-key, in order. */
  function AddLocals(local: map<string, JSON>, fields: seq<(string, JSON)>): (r: map<string, JSON>)
    ensures forall k :: k in local ==> k in r
    decreases |fields|
  {
    if fields == [] then local
    else
      var local1 := if IsLocalKey(fields[0].0) then local[fields[0].0[1..] := fields[0].1] else local;
      AddLocals(local1, fields[1..])
  }

  /** `_.omit(S, localSchema)`: the members that are not definitions. */
  function WithoutLocals(fields: seq<(string, JSON)>): (r: seq<(string, JSON)>)
    ensures forall i :: 0 <= i < |r| ==> r[i] in fields && !IsLocalKey(r[i].0)
    ensures forall i :: 0 <= i < |fields| && !IsLocalKey(fields[i].0) ==> fields[i] in r
    ensures |r| <= |fields|
  {
    if fields == [] then []
    else
      var rest := WithoutLocals(fields[1..]);
      if IsLocalKey(fields[0].0) then rest else [fields[0]] + rest
  }

  /** A key that replaces the whole object: it starts with `$` and is neither
      `$ref` nor `$schema`. */
  predicate IsReferenceKey(k: string)
  {
    StartsWith(k, "$") && k != "$ref" && k != "$schema"
  }

  /** Position of the first reference key. */
  function FirstReference(fields: seq<(string, JSON)>): (r: Option<nat>)
    ensures r.Some? ==> r.value < |fields| && IsReferenceKey(fields[r.value].0)
    ensures r.Some? ==> forall j :: 0 <= j < r.value ==> !IsReferenceKey(fields[j].0)
    ensures r.None? ==> forall j :: 0 <= j < |fields| ==> !IsReferenceKey(fields[j].0)
  {
    if fields == [] then None
    else if IsReferenceKey(fields[0].0) then Some(0)
    else match FirstReference(fields[1..])
      case None => None
      case Some(i) => Some(i + 1)
  }

  /** `_compileObject(S, C)`: definitions go to the context, a reference key
      replaces the object by the compiled schema it names (its value being the
      arguments), and otherwise the members are compiled one by one. */
  function CompileObject(setup: Setup, fuel: nat, s: JSON, ctx: Ctx): (r: Result<(JSON, Ctx), CompileError>)
    requires s.Obj?
    ensures r.Success? ==> Extends(ctx, r.value.1)
    decreases fuel, s, 3, 0
  {
    var ctx1 := ctx.(local := AddLocals(ctx.local, s.fields));
    var rest := WithoutLocals(s.fields);
    match FirstReference(rest)
    case Some(i) => ResolveAndCompile(setup, fuel, s, rest[i].0[1..], Some(rest[i].1), ctx1)
    case None => BuildFrom(setup, fuel, s, rest, 0, [], ctx1)
  }

  /** A `/key` or `?key` member: a property of the object schema. */
  predicate IsPropertyKey(k: string)
  {
    StartsWith(k, "/") || StartsWith(k, "?")
  }

  /** The member name a non-property key is stored under. */
  function TargetKey(k: string): string
  {
    if k == "allItems" then "items" else k
  }

  /** The `_.each` loop of `_compileObject` from the `k`-th member on,
      `result` holding the members built so far. */
  function BuildFrom(setup: Setup, fuel: nat, ghost s: JSON, fields: seq<(string, JSON)>, k: nat,
                     result: seq<(string, JSON)>, ctx: Ctx): (r: Result<(JSON, Ctx), CompileError>)
    requires k <= |fields| && forall j :: 0 <= j < |fields| ==> fields[j].1 < s
    ensures r.Success? ==> Extends(ctx, r.value.1)
    decreases fuel, s, 2, |fields| - k
  {
    if k == |fields| then Success((Obj(result), ctx))
    else
      var (key, v) := fields[k];
      if IsPropertyKey(key) then
        var (result1, ctx1) :- AddObjectProperty(setup, fuel, s, result, key, v, ctx);
        BuildFrom(setup, fuel, s, fields, k + 1, result1, ctx1)
      else
        var (compiled, ctx1) :- CompileValue(setup, fuel, v, ctx);
        BuildFrom(setup, fuel, s, fields, k + 1, Put(result, TargetKey(key), compiled), ctx1)
  }

  // ---- _addObjectProperty -------------------------------------------------------------

  /** The property name of a `/key`, `?key`, `/key=` or `?key=` member. */
  function PropertyName(k: string): string
    requires IsPropertyKey(k)
  {
    var name := k[1..];
    if EndsWith(k, "=") then
      assert |k| >= 2 by { assert k[0] == '/' || k[0] == '?'; assert k[|k| - 1] == '='; }
      name[..|name| - 1]
    else name
  }

  /** `valueToUse['required'] = true`: only an object keeps the flag. */
  function FlagRequired(v: JSON): (r: JSON)
    ensures v.Obj? ==> r == Obj(Put(v.fields, "required", Bool(true)))
    ensures !v.Obj? ==> r == v
  {
    if v.Obj? then Obj(Put(v.fields, "required", Bool(true))) else v
  }

  /** `result.required = result.required || []; result.required.push(key)`. */
  function PushRequired(result: seq<(string, JSON)>, key: string): Result<seq<(string, JSON)>, CompileError>
  {
    var cur := Get(result, "required");
    if cur.None? || !Truthy(cur.value) then Success(Put(result, "required", Arr([Str(key)])))
    else if cur.value.Arr? then Success(Put(result, "required", Arr(cur.value.items + [Str(key)])))
    else Failure(PushOnNonArray)
  }

  /** `result.properties = result.properties || {}; result.properties[key] = value`;
      a truthy `properties` that is not an object takes no member. */
  function SetProperty(result: seq<(string, JSON)>, key: string, value: JSON): seq<(string, JSON)>
  {
    var cur := Get(result, "properties");
    if cur.None? || !Truthy(cur.value) then Put(result, "properties", Obj([(key, value)]))
    else if cur.value.Obj? then Put(result, "properties", Obj(Put(cur.value.fields, key, value)))
    else result
  }

  /** `_addObjectProperty(result, K, V, C)`: the object is typed `object`, the
      value compiled (and wrapped as `{enum: [value]}` for a trailing `=`),
      a `/` key marked required the way the schema version says, and the
      value stored under the property name. */
  function AddObjectProperty(setup: Setup, fuel: nat, ghost s: JSON, result: seq<(string, JSON)>,
                             k: string, v: JSON, ctx: Ctx): (r: Result<(seq<(string, JSON)>, Ctx), CompileError>)
    requires IsPropertyKey(k) && v < s
    ensures r.Success? ==> Extends(ctx, r.value.1)
    decreases fuel, s, 1, 0
  {
    var typed := Put(result, "type", Str("object"));
    var required := StartsWith(k, "/");
    var key := PropertyName(k);
    var (compiled, ctx1) :- CompileValue(setup, fuel, v, ctx);
    var value := if EndsWith(k, "=") then Obj([("enum", Arr([compiled]))]) else compiled;
    var flagged := if required && setup.version == DRAFTV3 then FlagRequired(value) else value;
    var listed :- if required && setup.version != DRAFTV3 then PushRequired(typed, key) else Success(typed);
    Success((SetProperty(listed, key, flagged), ctx1))
  }

  // ---- compile -------------------------------------------------------------------------

  /** `result['$schema'] = schemaVersion`: only an object keeps the tag. */
  function Tagged(result: JSON, version: string): (r: JSON)
    ensures result.Obj? ==> r.Obj? && Get(r.fields, "$schema") == Some(Str(version))
    ensures !result.Obj? ==> r == result
  {
    if result.Obj? then Obj(Put(result.fields, "$schema", Str(version))) else result
  }

  /** `compile(psiSchema)`: compiled in a fresh context, then tagged with the
      compiler's schema version. */
  function Compile(setup: Setup, fuel: nat, psi: JSON): Result<JSON, CompileError>
  {
    var (compiled, _) :- CompileValue(setup, fuel, psi, Ctx(map[], map[]));
    Success(Tagged(compiled, setup.version))
  }

  // ---- addTitlesToProperties --------------------------------------------------------------

  /** `addTitlesToProperties(jsonSchema)`: every property schema without a
      `title` gets its name as title (its index, for an array of property
      schemas), and nested object schemas get the same treatment. Reading a
      member of `null` throws. */
  function AddTitles(schema: JSON): Result<JSON, Exception>
  {
    if schema.Null? then Failure(TypeError)
    else if !schema.Obj? then Success(schema)
    else AddTitlesOf(schema, schema)
  }

  /** One property schema: titled when it has no title, then descended into
      when it is typed `object`. */
  function TitleOne(sub: JSON, title: JSON): (r: Result<JSON, Exception>)
    ensures sub.Null? ==> r == Failure(TypeError)
    ensures r.Success? && sub.Obj? ==>
      r.value.Obj? && Get(r.value.fields, "type") == Get(sub.fields, "type")
      && Get(r.value.fields, "title") == (if Get(sub.fields, "title").Some? then Get(sub.fields, "title") else Some(title))
    ensures r.Success? && !sub.Obj? ==> r.value == sub
    decreases sub, 2
  {
    if sub.Null? then Failure(TypeError)
    else if !sub.Obj? then Success(sub)
    else
      var titled := if Get(sub.fields, "title").None? then Obj(Put(sub.fields, "title", title)) else sub;
      if Get(sub.fields, "type") == Some(Str("object")) then AddTitlesOf(sub, titled) else Success(titled)
  }

  /** `AddTitles` of `titled`, which is `sub` with a title: the recursion is
      on `sub`. */
  function AddTitlesOf(ghost sub: JSON, titled: JSON): (r: Result<JSON, Exception>)
    requires sub.Obj? && titled.Obj?
    requires Get(titled.fields, "properties") == Get(sub.fields, "properties")
    ensures r.Success? ==> r.value.Obj?
    ensures r.Success? ==> forall k :: k != "properties" ==> Get(r.value.fields, k) == Get(titled.fields, k)
    decreases sub, 0
  {
    var props := Get(titled.fields, "properties");
    if props.None? || !Truthy(props.value) then Success(titled)
    else
      assert props.value < sub by { assert props == Get(sub.fields, "properties"); GetSmaller(sub.fields, "properties"); }
      if props.value.Obj? then
        var fields :- TitleMembers(props.value, props.value.fields, 0, []);
        Success(Obj(Put(titled.fields, "properties", Obj(fields))))
      else if props.value.Arr? then
        var items :- TitleItems(props.value, props.value.items, 0, []);
        Success(Obj(Put(titled.fields, "properties", Arr(items))))
      else Success(titled)
  }

  lemma GetSmaller(fields: seq<(string, JSON)>, k: string)
    requires Get(fields, k).Some?
    ensures Get(fields, k).value < Obj(fields)
  {
    var i := Lookup(fields, k).value;
    assert fields[i] in fields;
  }

  function TitleMembers(ghost props: JSON, fields: seq<(string, JSON)>, i: nat, acc: seq<(string, JSON)>)
    : Result<seq<(string, JSON)>, Exception>
    requires props.Obj? && fields == props.fields && i <= |fields|
    decreases props, 3, |fields| - i
  {
    if i == |fields| then Success(acc)
    else
      assert fields[i] in fields;
      var sub :- TitleOne(fields[i].1, Str(fields[i].0));
      TitleMembers(props, fields, i + 1, acc + [(fields[i].0, sub)])
  }

  function TitleItems(ghost props: JSON, items: seq<JSON>, i: nat, acc: seq<JSON>): Result<seq<JSON>, Exception>
    requires props.Arr? && items == props.items && i <= |items|
    decreases props, 3, |items| - i
  {
    if i == |items| then Success(acc)
    else
      var sub :- TitleOne(items[i], Num(i));
      TitleItems(props, items, i + 1, acc + [sub])
  }
}
