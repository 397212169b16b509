/** The schema registry of a tv4 `ValidatorContext`, as values: looking a URL
    up (`getSchema`, with `#`-fragments read as JSON Pointers, RFC 6901
    sections 3 and 4), recording the base URLs that could not be found
    (`missing`), and registering a schema together with the sub-schemas whose
    `id` it vouches for (`addSchema` and `searchForTrustedSchemas`). */
module Tv4Registry {
  import opened Wrappers
  import opened Text
  import opened Json
  import opened Tv4Compare

  /** `decodeURIComponent`; `None` is the URIError it throws on a malformed escape. */
  type Decoder = string -> Option<string>

  /** `schemas[url] != undefined`: a registered schema that is not `null`. */
  function Stored(schemas: map<string, JSON>, url: string): (r: Option<JSON>)
    ensures r.Some? <==> url in schemas && !schemas[url].Null?
    ensures r.Some? ==> r.value == schemas[url]
  {
    if url in schemas && !schemas[url].Null? then Some(schemas[url]) else None
  }

  /** The URL split at its first `#`: the base URL and the fragment after it
      (empty when there is no `#`). */
  function SplitAtHash(url: string): (r: (string, string))
    ensures '#' !in url ==> r == (url, "")
    ensures '#' in url ==> r.0 + "#" + r.1 == url && '#' !in r.0
  {
    match IndexOf(url, '#')
    case None => (url, "")
    case Some(i) =>
      assert url[..i] + "#" + url[i + 1..] == url;
      (url[..i], url[i + 1..])
  }

  /** How `getSchema` unescapes a pointer segment: `replace("~1", "/")` then
      `replace("~0", "~")`, each replacing only the FIRST occurrence. */
  function UnescapeFirst(segment: string): string
  {
    ReplaceFirst(ReplaceFirst(segment, "~1", "/"), "~0", "~")
  }

  /** Following the pointer segments from `doc`: `None` as soon as a segment
      names nothing (or `null`). The value reached is never `null`. */
  function Walk(doc: JSON, parts: seq<string>): (r: Option<JSON>)
    requires !doc.Null?
    ensures r.Some? ==> !r.value.Null?
    ensures parts == [] ==> r == Some(doc)
    decreases |parts|
  {
    if parts == [] then Some(doc)
    else
      var next := Member(doc, UnescapeFirst(parts[0]));
      if !Defined(next) then None else Walk(next.value, parts[1..])
  }

  /** What a lookup finds: a schema, or nothing, and then whether the base URL
      is to be recorded as missing. */
  datatype Found = Hit(schema: JSON) | Miss(record: bool)

  /** The lookup part of `getSchema(url)`. */
  function Locate(schemas: map<string, JSON>, decode: Decoder, url: string): (r: Result<Found, Exception>)
    ensures r.Success? && r.value.Hit? ==> !r.value.schema.Null?
    ensures Stored(schemas, url).Some? ==> r == Success(Hit(schemas[url]))
  {
    if Stored(schemas, url).Some? then Success(Hit(schemas[url]))
    else
      var (base, fragment) := SplitAtHash(url);
      match Stored(schemas, base)
      case None => Success(Miss(true))
      case Some(doc) =>
        match decode(fragment)
        case None => Failure(URIError)
        case Some(pointer) =>
          if pointer == "" then Success(Hit(doc))
          else if pointer[0] != '/' then Success(Miss(false))
          else match Walk(doc, Split(pointer, '/')[1..])
            case Some(v) => Success(Hit(v))
            case None => Success(Miss(true))
  }

  /** `missing` after recording `base`: appended only if not already there. */
  function Record(missing: seq<string>, base: string): (r: seq<string>)
    ensures base in r
    ensures base in missing ==> r == missing
    ensures base !in missing ==> r == missing + [base]
  {
    if base in missing then missing else missing + [base]
  }

  /** `getSchema(url)`: the schema found (`None` is `undefined`) and the new
      `missing` list. */
  function GetSchema(schemas: map<string, JSON>, decode: Decoder, missing: seq<string>, url: string)
    : (r: (Result<Option<JSON>, Exception>, seq<string>))
    ensures r.1 == missing || (r.1 == missing + [SplitAtHash(url).0] && SplitAtHash(url).0 !in missing)
    ensures r.0.Success? && r.0.value.Some? ==> r.1 == missing && !r.0.value.value.Null?
    ensures r.0.Failure? ==> r.1 == missing
  {
    match Locate(schemas, decode, url)
    case Failure(e) => (Failure(e), missing)
    case Success(Hit(s)) => (Success(Some(s)), missing)
    case Success(Miss(record)) =>
      (Success(None), if record then Record(missing, SplitAtHash(url).0) else missing)
  }

  /** No URL is recorded twice. */
  predicate NoDuplicates(s: seq<string>)
  {
    forall i, j :: 0 <= i < j < |s| ==> s[i] != s[j]
  }

  /** A lookup keeps `missing` free of duplicates and only ever appends to it. */
  lemma GetSchemaKeepsMissing(schemas: map<string, JSON>, decode: Decoder, missing: seq<string>, url: string)
    requires NoDuplicates(missing)
    ensures var m := GetSchema(schemas, decode, missing, url).1;
      NoDuplicates(m) && |missing| <= |m| && m[..|missing|] == missing
  {
  }

  /** The values directly under `v` that `for (key in v)` visits, with their keys. */
  function Children(v: JSON): (kids: seq<(string, JSON)>)
    ensures forall i :: 0 <= i < |kids| ==> kids[i].1 < v
  {
    match v
    case Obj(fs) => seq(|fs|, i requires 0 <= i < |fs| => (fs[i].0, fs[Lookup(fs, fs[i].0).value].1))
    case Arr(xs) => seq(|xs|, i requires 0 <= i < |xs| => (NatToString(i), xs[i]))
    case _ => []
  }

  /** Whether the `id` of a schema found under `url` is trusted: it extends
      `url`, and either `url` ends in `/` or the rest begins with `#` or `?`. */
  predicate TrustedId(id: string, url: string)
  {
    StartsWith(id, url)
    && ((|url| > 0 && url[|url| - 1] == '/')
        || (|id| > |url| && (id[|url|] == '#' || id[|url|] == '?')))
  }

  /** `searchForTrustedSchemas(map, schema, url)`: adds every sub-schema whose
      `id` is trusted under its own `id`, the first one found winning. Any
      `null` met on the way (outside `enum`) throws, as `null.id` does. */
  function Trusted(m: map<string, JSON>, schema: JSON, url: string): (r: Result<map<string, JSON>, Exception>)
    decreases schema, 1
  {
    if schema.Null? then Failure(TypeError)
    else
      var id := Member(schema, "id");
      var m1 := if id.Some? && id.value.Str? && TrustedId(id.value.s, url) && id.value.s !in m
                then m[id.value.s := schema] else m;
      if IsObjectLike(schema) then TrustedChildren(m1, schema, Children(schema), url)
      else Success(m1)
  }

  /** The `for (key in schema)` loop of `searchForTrustedSchemas`: recurse into
      every object-typed value except under `enum`. */
  function TrustedChildren(m: map<string, JSON>, ghost parent: JSON, kids: seq<(string, JSON)>, url: string)
    : (r: Result<map<string, JSON>, Exception>)
    requires forall i :: 0 <= i < |kids| ==> kids[i].1 < parent
    decreases parent, 0, |kids|
  {
    if kids == [] then Success(m)
    else if kids[0].0 != "enum" && (kids[0].1.Null? || IsObjectLike(kids[0].1)) then
      match Trusted(m, kids[0].1, url)
      case Failure(e) => Failure(e)
      case Success(m1) => TrustedChildren(m1, parent, kids[1..], url)
    else TrustedChildren(m, parent, kids[1..], url)
  }

  /** `addSchema(url, schema)`: the entries to register (`url` itself and the
      trusted sub-schemas); the registry after it is the old one overwritten
      with these. */
  function SchemasToAdd(url: string, schema: JSON): Result<map<string, JSON>, Exception>
  {
    Trusted(map[url := schema], schema, url)
  }

  /** A base URL followed by `#` and a fragment splits back into the two. */
  lemma {:induction false} SplitAtHashOf(base: string, fragment: string)
    requires '#' !in base
    ensures SplitAtHash(base + "#" + fragment) == (base, fragment)
  {
    IndexOfAfterFree(base, '#', fragment);
    var url := base + "#" + fragment;
    assert url[..|base|] == base;
    assert url[|base| + 1..] == fragment;
  }

  /** An exact hit returns the stored schema and records nothing. */
  lemma ExactHit(schemas: map<string, JSON>, decode: Decoder, missing: seq<string>, url: string)
    requires url in schemas && !schemas[url].Null?
    ensures GetSchema(schemas, decode, missing, url) == (Success(Some(schemas[url])), missing)
  {
  }

  /** An empty pointer after the `#` gives the whole base document. */
  lemma {:induction false} EmptyPointerGivesBase(schemas: map<string, JSON>, decode: Decoder, missing: seq<string>,
                                                 base: string, fragment: string)
    requires '#' !in base && Stored(schemas, base + "#" + fragment).None?
    requires Stored(schemas, base).Some? && decode(fragment) == Some("")
    ensures GetSchema(schemas, decode, missing, base + "#" + fragment) == (Success(Some(schemas[base])), missing)
  {
    SplitAtHashOf(base, fragment);
  }

  /** A pointer that does not start with `/` yields `undefined` and, unlike
      every other miss, does not record the base URL. */
  lemma {:induction false} RelativePointerNotRecorded(schemas: map<string, JSON>, decode: Decoder, missing: seq<string>,
                                                      base: string, fragment: string, pointer: string)
    requires '#' !in base && Stored(schemas, base + "#" + fragment).None?
    requires Stored(schemas, base).Some? && decode(fragment) == Some(pointer)
    requires pointer != "" && pointer[0] != '/'
    ensures GetSchema(schemas, decode, missing, base + "#" + fragment) == (Success(None), missing)
  {
    SplitAtHashOf(base, fragment);
  }

  /** When neither the URL nor its base URL is registered, the lookup yields
      `undefined` and records the base URL once. */
  lemma {:induction false} UnknownBaseRecorded(schemas: map<string, JSON>, decode: Decoder, missing: seq<string>, url: string)
    requires Stored(schemas, url).None? && Stored(schemas, SplitAtHash(url).0).None?
    ensures GetSchema(schemas, decode, missing, url) == (Success(None), Record(missing, SplitAtHash(url).0))
  {
  }

  /** A pointer `/s1/.../sn` whose segments contain no `/` walks the segments
      from the base document; a segment that names nothing makes the lookup a
      recorded miss. */
  lemma {:induction false} PointerWalksSegments(schemas: map<string, JSON>, decode: Decoder, missing: seq<string>,
                                                base: string, fragment: string, segments: seq<string>)
    requires '#' !in base && Stored(schemas, base + "#" + fragment).None?
    requires Stored(schemas, base).Some?
    requires |segments| >= 1 && forall i :: 0 <= i < |segments| ==> '/' !in segments[i]
    requires decode(fragment) == Some("/" + Join(segments, "/"))
    ensures var walked := Walk(schemas[base], segments);
      GetSchema(schemas, decode, missing, base + "#" + fragment)
        == if walked.Some? then (Success(walked), missing) else (Success(None), Record(missing, base))
  {
    SplitAtHashOf(base, fragment);
    var parts := [""] + segments;
    assert Join(parts, "/") == "/" + Join(segments, "/");
    SplitJoin(parts, '/');
    assert Split("/" + Join(segments, "/"), '/')[1..] == segments;
  }

  /** Only the first `~1` of a segment is unescaped: a segment naming the
      key `//` (escaped in full as `~1~1`) is read as the key `/~1`. */
  lemma UnescapeOnlyFirst()
    ensures UnescapeFirst("~1~1") == "/~1"
  {
    assert StartsWith("~1~1", "~1");
    assert "~1~1"[2..] == "~1";
    assert "/~1"[..2][0] != "~0"[0];
    assert "/~1"[1..] == "~1";
    assert "~1"[..2][1] != "~0"[1];
  }

  /** Registering never replaces an entry already in the map: the first
      schema found for an `id` wins. */
  lemma {:induction false} TrustedKeepsEntries(m: map<string, JSON>, schema: JSON, url: string)
    requires Trusted(m, schema, url).Success?
    ensures var m' := Trusted(m, schema, url).value;
      forall k :: k in m ==> k in m' && m'[k] == m[k]
    decreases schema, 1
  {
    var id := Member(schema, "id");
    var m1 := if id.Some? && id.value.Str? && TrustedId(id.value.s, url) && id.value.s !in m
              then m[id.value.s := schema] else m;
    if IsObjectLike(schema) {
      TrustedChildrenKeepsEntries(m1, schema, Children(schema), url);
    }
  }

  lemma {:induction false} TrustedChildrenKeepsEntries(m: map<string, JSON>, parent: JSON, kids: seq<(string, JSON)>, url: string)
    requires forall i :: 0 <= i < |kids| ==> kids[i].1 < parent
    requires TrustedChildren(m, parent, kids, url).Success?
    ensures var m' := TrustedChildren(m, parent, kids, url).value;
      forall k :: k in m ==> k in m' && m'[k] == m[k]
    decreases parent, 0, |kids|
  {
    if kids != [] {
      if kids[0].0 != "enum" && (kids[0].1.Null? || IsObjectLike(kids[0].1)) {
        TrustedKeepsEntries(m, kids[0].1, url);
        TrustedChildrenKeepsEntries(Trusted(m, kids[0].1, url).value, parent, kids[1..], url);
      } else {
        TrustedChildrenKeepsEntries(m, parent, kids[1..], url);
      }
    }
  }

  /** A schema without `null` in it is always registered. */
  lemma {:induction false} TrustedSucceedsWithoutNull(m: map<string, JSON>, schema: JSON, url: string)
    requires NullFree(schema)
    ensures Trusted(m, schema, url).Success?
    decreases schema, 1
  {
    var id := Member(schema, "id");
    var m1 := if id.Some? && id.value.Str? && TrustedId(id.value.s, url) && id.value.s !in m
              then m[id.value.s := schema] else m;
    if IsObjectLike(schema) {
      TrustedChildrenSucceed(m1, schema, Children(schema), url);
    }
  }

  lemma {:induction false} TrustedChildrenSucceed(m: map<string, JSON>, parent: JSON, kids: seq<(string, JSON)>, url: string)
    requires forall i :: 0 <= i < |kids| ==> kids[i].1 < parent && NullFree(kids[i].1)
    ensures TrustedChildren(m, parent, kids, url).Success?
    decreases parent, 0, |kids|
  {
    if kids != [] {
      if kids[0].0 != "enum" && (kids[0].1.Null? || IsObjectLike(kids[0].1)) {
        TrustedSucceedsWithoutNull(m, kids[0].1, url);
        TrustedChildrenSucceed(Trusted(m, kids[0].1, url).value, parent, kids[1..], url);
      } else {
        TrustedChildrenSucceed(m, parent, kids[1..], url);
      }
    }
  }

  /** `addSchema(url, schema)` registers the schema under `url` itself. */
  lemma AddSchemaRegistersUrl(url: string, schema: JSON)
    requires SchemasToAdd(url, schema).Success?
    ensures url in SchemasToAdd(url, schema).value && SchemasToAdd(url, schema).value[url] == schema
  {
    TrustedKeepsEntries(map[url := schema], schema, url);
  }

  /** A `null` schema is refused with a TypeError. */
  lemma AddNullSchemaThrows(url: string)
    ensures SchemasToAdd(url, Null) == Failure(TypeError)
  {
  }
}
