/** The stateful side of the PSI schema module: the application-wide default
    schema version, the `SchemaContext` whose `local` definitions and fetch
    `cache` a compilation fills in, and the `Compiler` whose methods walk a
    PSI schema the way `_compile` and its helpers do. Each method is proved
    to agree with the functions of `PsiCompile`: same result, and the context
    left as the function's final context. */
module PsiSchema {
  import opened Wrappers
  import opened Text
  import opened Json
  import opened PsiQuery
  import opened PsiCompile

  /** The document (or the error) of a result that also carries a context. */
  function Document<T>(r: Result<(T, Ctx), CompileError>): (d: Result<T, CompileError>)
    ensures d.Success? <==> r.Success?
    ensures r.Success? ==> d.value == r.value.0
    ensures r.Failure? ==> d.error == r.error
  {
    match r
    case Success((v, _)) => Success(v)
    case Failure(e) => Failure(e)
  }

  // ---- the default schema version ----------------------------------------------------

  /** `defaultSchemaVersion` and its getter and setter. */
  class SchemaSettings {
    var defaultVersion: string

    /** Only a supported version is ever the default. */
    predicate Valid()
      reads this
    {
      VersionIsOK(Some(Str(defaultVersion)))
    }

    /** Draft 4 until someone sets another version. */
    constructor()
      ensures Valid() && defaultVersion == DRAFTV4
    {
      defaultVersion := DRAFTV4;
    }

    /** `getJSONSchemaVersion()`. */
    function GetJSONSchemaVersion(): (v: string)
      requires Valid()
      reads this
      ensures v == DRAFTV3 || v == DRAFTV4
    {
      defaultVersion
    }

    /** `setJSONSchemaVersion(version)`: anything but one of the two version
        URIs throws and leaves the default as it was. */
    method SetJSONSchemaVersion(version: Option<JSON>) returns (r: Result<(), CompileError>)
      requires Valid()
      modifies this
      ensures Valid()
      ensures r.Success? <==> VersionIsOK(version)
      ensures r.Success? ==> GetJSONSchemaVersion() == version.value.s
      ensures r.Failure? ==> r.error == UnsupportedVersion && defaultVersion == old(defaultVersion)
    {
      if !VersionIsOK(version) {
        return Failure(UnsupportedVersion);
      }
      defaultVersion := version.value.s;
      return Success(());
    }
  }

  // ---- SchemaContext ------------------------------------------------------------------

  /** `SchemaContext(schemaRootURI)`. */
  class SchemaContext {
    const root: string
    var local: map<string, JSON>
    var cache: map<string, JSON>

    function State(): Ctx
      reads this
    {
      Ctx(local, cache)
    }

    /** The root gets a trailing `/`; both maps start empty. */
    constructor(schemaRootURI: string)
      ensures root == RootOf(schemaRootURI) && EndsWith(root, "/")
      ensures local == map[] && cache == map[]
    {
      root := if EndsWith(schemaRootURI, "/") then schemaRootURI else schemaRootURI + "/";
      local := map[];
      cache := map[];
    }

    /** `add(id, schema)`: a later definition of the same id wins. */
    method Add(id: string, schema: JSON)
      modifies this
      ensures local == old(local)[id := schema] && cache == old(cache)
    {
      local := local[id := schema];
    }

    /** `resolve(id, args)`: a local definition, else the cached document for
        the schema URI, else the server's answer, which is cached; a failed
        request caches nothing. */
    method Resolve(remote: map<string, JSON>, codec: Codec, id: string, args: Option<JSON>)
      returns (r: Result<JSON, CompileError>)
      modifies this
      ensures var spec := PsiCompile.Resolve(Server(root, remote, codec), old(State()), id, args);
        r == Document(spec) && State() == (if spec.Success? then spec.value.1 else old(State()))
    {
      if id in local {
        return Success(local[id]);
      }
      if !ArgsAccepted(args) {
        return Failure(BadArguments);
      }
      var uri := SchemaURI(Server(root, remote, codec), id, args);
      if uri in cache {
        return Success(cache[uri]);
      }
      if uri in remote {
        cache := cache[uri := remote[uri]];
        return Success(remote[uri]);
      }
      return Failure(FetchFailed(uri));
    }
  }

  // ---- Compiler -----------------------------------------------------------------------

  /** `Compiler(schemaRootURI, schemaVersion)`, with the schema server and the
      foreign functions `args2Query` uses. */
  class Compiler {
    const schemaURI: string
    const schemaVersion: string
    const remote: map<string, JSON>
    const codec: Codec

    /** An unsupported (or missing) version falls back to the current default. */
    constructor(schemaRootURI: string, version: Option<JSON>, settings: SchemaSettings,
                remote: map<string, JSON>, codec: Codec)
      requires settings.Valid()
      ensures schemaURI == schemaRootURI
      ensures schemaVersion == if VersionIsOK(version) then version.value.s else settings.defaultVersion
      ensures schemaVersion == DRAFTV3 || schemaVersion == DRAFTV4
      ensures this.remote == remote && this.codec == codec
    {
      schemaURI := schemaRootURI;
      schemaVersion := if VersionIsOK(version) then version.value.s else settings.GetJSONSchemaVersion();
      this.remote := remote;
      this.codec := codec;
    }

    /** What a compilation in context `C` consults. */
    function SetupFor(C: SchemaContext): Setup
    {
      Setup(C.root, schemaVersion, remote, codec)
    }

    /** The method's result and the context it leaves are the function's. */
    predicate Agrees<T(==)>(r: Result<T, CompileError>, C: SchemaContext, spec: Result<(T, Ctx), CompileError>)
      reads C
    {
      r == Document(spec) && (spec.Success? ==> C.State() == spec.value.1)
    }

    /** `compile(psiSchema)`: compiled in a fresh context rooted at the
        compiler's URI, then tagged with the compiler's schema version. */
    method Compile(fuel: nat, psi: JSON) returns (r: Result<JSON, CompileError>)
      ensures r == PsiCompile.Compile(Setup(RootOf(schemaURI), schemaVersion, remote, codec), fuel, psi)
    {
      var C := new SchemaContext(schemaURI);
      var compiled := CompileValue(fuel, psi, C);
      if compiled.Failure? {
        return Failure(compiled.error);
      }
      return Success(Tagged(compiled.value, schemaVersion));
    }

    /** `_compile(S, C)`. */
    method CompileValue(fuel: nat, s: JSON, C: SchemaContext) returns (r: Result<JSON, CompileError>)
      modifies C
      ensures Agrees(r, C, PsiCompile.CompileValue(SetupFor(C), fuel, s, old(C.State())))
      decreases fuel, s, 4, 0
    {
      match s
      case Num(_) => r := Success(s);
      case Bool(_) => r := Success(s);
      case Str(t) =>
        if StartsWith(t, "$") {
          r := ResolveAndCompile(fuel, s, t[1..], None, C);
        } else if StartsWith(t, "@") {
          r := Success(MediaTypeSchema(t[1..]));
        } else {
          r := Success(s);
        }
      case Arr(items) => r := CompileArray(fuel, s, C);
      case Obj(_) => r := CompileObject(fuel, s, C);
      case Null => r := Failure(NotASchema);
    }

    /** `_resolveAndCompile(id, C, args)`; `from` is the schema holding the
        reference. */
    method ResolveAndCompile(fuel: nat, ghost from: JSON, id: string, args: Option<JSON>, C: SchemaContext)
      returns (r: Result<JSON, CompileError>)
      modifies C
      ensures Agrees(r, C, PsiCompile.ResolveAndCompile(SetupFor(C), fuel, from, id, args, old(C.State())))
      decreases fuel, from, 0, 0
    {
      if fuel == 0 {
        return Failure(StackOverflow);
      }
      var doc := C.Resolve(remote, codec, id, args);
      if doc.Failure? {
        return Failure(doc.error);
      }
      r := CompileValue(fuel - 1, doc.value, C);
    }

    /** `_compileArray(S, C)`: the elements in order, through one context. */
    method CompileArray(fuel: nat, s: JSON, C: SchemaContext) returns (r: Result<JSON, CompileError>)
      requires s.Arr?
      modifies C
      ensures Agrees(r, C, PsiCompile.CompileItems(SetupFor(C), fuel, s, s.items, 0, [], old(C.State())))
      decreases fuel, s, 2, 0
    {
      var items := s.items;
      ghost var spec := PsiCompile.CompileItems(SetupFor(C), fuel, s, items, 0, [], C.State());
      var acc: seq<JSON> := [];
      var i := 0;
      while i < |items|
        invariant 0 <= i <= |items|
        invariant PsiCompile.CompileItems(SetupFor(C), fuel, s, items, i, acc, C.State()) == spec
      {
        var item := CompileValue(fuel, items[i], C);
        if item.Failure? {
          return Failure(item.error);
        }
        acc := acc + [item.value];
        i := i + 1;
      }
      return Success(Arr(acc));
    }

    /** `_compileObject(S, C)`: the `#` definitions go into the context; the
        first reference key replaces the object; otherwise every member is
        compiled in turn. */
    method CompileObject(fuel: nat, s: JSON, C: SchemaContext) returns (r: Result<JSON, CompileError>)
      requires s.Obj?
      modifies C
      ensures Agrees(r, C, PsiCompile.CompileObject(SetupFor(C), fuel, s, old(C.State())))
      decreases fuel, s, 3, 0
    {
      var fields := s.fields;
      ghost var local0 := C.local;
      var i := 0;
      while i < |fields|
        invariant 0 <= i <= |fields|
        invariant AddLocals(C.local, fields[i..]) == AddLocals(local0, fields)
        invariant C.cache == old(C.cache)
      {
        assert fields[i..][1..] == fields[i + 1..];
        if IsLocalKey(fields[i].0) {
          C.Add(fields[i].0[1..], fields[i].1);
        }
        i := i + 1;
      }
      assert C.State() == old(C.State()).(local := AddLocals(old(C.local), fields));
      var rest := WithoutLocals(fields);
      match FirstReference(rest)
      case Some(k) =>
        r := ResolveAndCompile(fuel, s, rest[k].0[1..], Some(rest[k].1), C);
      case None =>
        r := CompileMembers(fuel, s, rest, C);
    }

    /** The `_.each` over the members of `_compileObject`. */
    method CompileMembers(fuel: nat, s: JSON, fields: seq<(string, JSON)>, C: SchemaContext)
      returns (r: Result<JSON, CompileError>)
      requires forall j :: 0 <= j < |fields| ==> fields[j].1 < s
      modifies C
      ensures Agrees(r, C, BuildFrom(SetupFor(C), fuel, s, fields, 0, [], old(C.State())))
      decreases fuel, s, 2, 0
    {
      ghost var spec := BuildFrom(SetupFor(C), fuel, s, fields, 0, [], C.State());
      var result: seq<(string, JSON)> := [];
      var k := 0;
      while k < |fields|
        invariant 0 <= k <= |fields|
        invariant BuildFrom(SetupFor(C), fuel, s, fields, k, result, C.State()) == spec
      {
        var (key, v) := fields[k];
        if IsPropertyKey(key) {
          var step := AddObjectProperty(fuel, s, result, key, v, C);
          if step.Failure? {
            return Failure(step.error);
          }
          result := step.value;
        } else {
          var compiled := CompileValue(fuel, v, C);
          if compiled.Failure? {
            return Failure(compiled.error);
          }
          result := Put(result, TargetKey(key), compiled.value);
        }
        k := k + 1;
      }
      return Success(Obj(result));
    }

    /** `_addObjectProperty(result, K, V, C)`, returning the new members of
        `result`. */
    method AddObjectProperty(fuel: nat, ghost s: JSON, result: seq<(string, JSON)>, k: string, v: JSON,
                             C: SchemaContext) returns (r: Result<seq<(string, JSON)>, CompileError>)
      requires IsPropertyKey(k) && v < s
      modifies C
      ensures Agrees(r, C, PsiCompile.AddObjectProperty(SetupFor(C), fuel, s, result, k, v, old(C.State())))
      decreases fuel, s, 1, 0
    {
      var typed := Put(result, "type", Str("object"));
      var required := StartsWith(k, "/");
      var key := PropertyName(k);
      var compiled := CompileValue(fuel, v, C);
      if compiled.Failure? {
        return Failure(compiled.error);
      }
      var value := if EndsWith(k, "=") then Obj([("enum", Arr([compiled.value]))]) else compiled.value;
      if required {
        if schemaVersion == DRAFTV3 {
          value := FlagRequired(value);
        } else {
          var pushed := PushRequired(typed, key);
          if pushed.Failure? {
            return Failure(pushed.error);
          }
          typed := pushed.value;
        }
      }
      return Success(SetProperty(typed, key, value));
    }
  }
}
