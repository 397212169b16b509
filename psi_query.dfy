/** The pure helpers of the PSI schema module: `args2Query`, which turns the
    arguments of a schema reference into a query string, `query2Args` with
    `convert`, which reads a query string back into typed arguments, and
    `getMediaTypes`, which lists the media types a rich-value schema names.
    `encodeURIComponent`, `JSON.stringify`, `parseInt` and `parseFloat` are
    parameters. */
module PsiQuery {
  import opened Wrappers
  import opened Text
  import opened Json

  // ---- args2Query ------------------------------------------------------------

  /** `encodeURIComponent` and `JSON.stringify`. */
  datatype Codec = Codec(encode: string -> string, stringify: JSON -> string)

  /** One `key=value` piece of the query. */
  function Piece(codec: Codec, e: (string, JSON)): string
  {
    codec.encode(e.0) + "=" + codec.encode(codec.stringify(e.1))
  }

  function Pieces(codec: Codec, es: seq<(string, JSON)>): (ps: seq<string>)
    ensures |ps| == |es| && forall i :: 0 <= i < |es| ==> ps[i] == Piece(codec, es[i])
  {
    seq(|es|, i requires 0 <= i < |es| => Piece(codec, es[i]))
  }

  /** `args2Query(args)`: the pieces joined by `&`, every `%20` then turned
      into `+`. */
  function Args2Query(codec: Codec, args: JSON): string
  {
    ReplaceAll(Join(Pieces(codec, Entries(args)), "&"), "%20", "+")
  }

  // ---- the query-string scanner of query2Args --------------------------------

  /** The characters the pattern `([^?=&]+)(=([^&]*))?` does not let into a key. */
  predicate Delimiter(c: char)
  {
    c == '?' || c == '=' || c == '&'
  }

  /** No character of `s` is `c`. */
  predicate FreeOf(s: string, c: char)
  {
    forall j :: 0 <= j < |s| ==> s[j] != c
  }

  /** Length of the run `[^?=&]+` matches at the start of `s`. */
  function KeyLength(s: string): (n: nat)
    ensures n <= |s|
    ensures forall i :: 0 <= i < n ==> !Delimiter(s[i])
    ensures n < |s| ==> Delimiter(s[n])
  {
    if s == [] || Delimiter(s[0]) then 0 else 1 + KeyLength(s[1..])
  }

  /** Length of the run `[^&]*` matches at the start of `s`. */
  function ValueLength(s: string): (n: nat)
    ensures n <= |s|
    ensures forall i :: 0 <= i < n ==> s[i] != '&'
    ensures n < |s| ==> s[n] == '&'
  {
    if s == [] || s[0] == '&' then 0 else 1 + ValueLength(s[1..])
  }

  /** The matches of `/([^?=&]+)(=([^&]*))?/g` in `q`, left to right: the key
      and the value after `=`, `None` when there is no `=`. A delimiter where
      no match starts is skipped. */
  function Scan(q: string): (ps: seq<(string, Option<string>)>)
    ensures forall i :: 0 <= i < |ps| ==> ps[i].0 != [] && forall j :: 0 <= j < |ps[i].0| ==> !Delimiter(ps[i].0[j])
    ensures forall i :: 0 <= i < |ps| ==> ps[i].1.Some? ==> FreeOf(ps[i].1.value, '&')
    decreases |q|
  {
    if q == [] then []
    else if Delimiter(q[0]) then Scan(q[1..])
    else
      var n := KeyLength(q);
      var rest := q[n..];
      if rest != [] && rest[0] == '=' then
        var m := ValueLength(rest[1..]);
        [(q[..n], Some(rest[1..][..m]))] + Scan(rest[1..][m..])
      else [(q[..n], None)] + Scan(rest)
  }

  /** `key=value` for every pair. */
  function Glue(kvs: seq<(string, string)>): (ps: seq<string>)
    ensures |ps| == |kvs| && forall i :: 0 <= i < |kvs| ==> ps[i] == kvs[i].0 + "=" + kvs[i].1
  {
    seq(|kvs|, i requires 0 <= i < |kvs| => kvs[i].0 + "=" + kvs[i].1)
  }

  /** The matches the pairs should scan to. */
  function AsMatches(kvs: seq<(string, string)>): (ms: seq<(string, Option<string>)>)
    ensures |ms| == |kvs| && forall i :: 0 <= i < |kvs| ==> ms[i] == (kvs[i].0, Some(kvs[i].1))
  {
    seq(|kvs|, i requires 0 <= i < |kvs| => (kvs[i].0, Some(kvs[i].1)))
  }

  /** Keys and values the scanner cannot cut short. */
  predicate Scannable(kvs: seq<(string, string)>)
  {
    forall i :: 0 <= i < |kvs| ==>
      kvs[i].0 != [] && (forall j :: 0 <= j < |kvs[i].0| ==> !Delimiter(kvs[i].0[j])) && FreeOf(kvs[i].1, '&')
  }

  /** One `key=value` piece at the head of a query scans to its pair. */
  lemma ScanAt(q: string, k: string, after: string, v: string, tail: string)
    requires q == k + after && after != [] && after[0] == '=' && after[1..] == v + tail
    requires k != [] && forall j :: 0 <= j < |k| ==> !Delimiter(k[j])
    requires FreeOf(v, '&')
    requires tail == [] || tail[0] == '&'
    ensures Scan(q) == [(k, Some(v))] + Scan(tail)
  {
    KeyLengthOf(k, after);
    assert q[0] == k[0];
    assert q[..|k|] == k && q[|k|..] == after;
    ValueLengthOf(v, tail);
    assert after[1..][..|v|] == v && after[1..][|v|..] == tail;
  }

  /** Scanning `key=value` pieces joined by `&` gives the pairs back, when
      keys are non-empty and free of `?`, `=`, `&` and values free of `&`. */
  lemma {:induction false} ScanJoin(kvs: seq<(string, string)>)
    requires Scannable(kvs)
    ensures Scan(Join(Glue(kvs), "&")) == AsMatches(kvs)
  {
    if |kvs| == 0 {
      return;
    }
    var pieces := Glue(kvs);
    var q := Join(pieces, "&");
    var (k, v) := kvs[0];
    if |kvs| == 1 {
      ScanAt(q, k, "=" + v, v, "");
    } else {
      var rest := Join(pieces[1..], "&");
      var tail := "&" + rest;
      ScanAt(q, k, "=" + v + tail, v, tail);
      assert Scan(tail) == Scan(rest) by { assert tail[1..] == rest; }
      assert Glue(kvs[1..]) == pieces[1..];
      ScanJoin(kvs[1..]);
      assert AsMatches(kvs) == [(k, Some(v))] + AsMatches(kvs[1..]);
    }
  }

  lemma {:induction false} KeyLengthOf(k: string, rest: string)
    requires forall j :: 0 <= j < |k| ==> !Delimiter(k[j])
    requires rest != [] && Delimiter(rest[0])
    ensures KeyLength(k + rest) == |k|
  {
    if k != [] {
      assert (k + rest)[1..] == k[1..] + rest;
      KeyLengthOf(k[1..], rest);
    }
  }

  lemma {:induction false} ValueLengthOf(v: string, rest: string)
    requires FreeOf(v, '&')
    requires rest == [] || rest[0] == '&'
    ensures ValueLength(v + rest) == |v|
  {
    if v != [] {
      assert (v + rest)[1..] == v[1..] + rest;
      ValueLengthOf(v[1..], rest);
    }
  }

  /** `s.replace(/p/g, r)` leaves `s` alone when `p`'s first character does not occur in it. */
  lemma {:induction false} ReplaceAllAbsent(s: string, pattern: string, replacement: string)
    requires pattern != [] && pattern[0] !in s
    ensures ReplaceAll(s, pattern, replacement) == s
    decreases |s|
  {
    if s != [] {
      assert !StartsWith(s, pattern) by { assert s[0] != pattern[0]; }
      ReplaceAllAbsent(s[1..], pattern, replacement);
      assert [s[0]] + s[1..] == s;
    }
  }

  lemma {:induction false} JoinFree(parts: seq<string>, sep: string, c: char)
    requires c !in sep && forall i :: 0 <= i < |parts| ==> c !in parts[i]
    ensures c !in Join(parts, sep)
  {
    if |parts| > 1 {
      JoinFree(parts[1..], sep, c);
    }
  }

  /** The encoded pairs `args2Query` writes. */
  function EncodedPairs(codec: Codec, es: seq<(string, JSON)>): (kvs: seq<(string, string)>)
    ensures |kvs| == |es| && forall i :: 0 <= i < |es| ==> kvs[i] == (codec.encode(es[i].0), codec.encode(codec.stringify(es[i].1)))
  {
    seq(|es|, i requires 0 <= i < |es| => (codec.encode(es[i].0), codec.encode(codec.stringify(es[i].1))))
  }

  /** `s.replace(/%20/g, '+')`. */
  function Plus(s: string): string
  {
    ReplaceAll(s, "%20", "+")
  }

  /** The encoded pairs with every `%20` of a key or value turned into `+`. */
  function PlusPairs(kvs: seq<(string, string)>): (r: seq<(string, string)>)
    ensures |r| == |kvs| && forall i :: 0 <= i < |kvs| ==> r[i] == (Plus(kvs[i].0), Plus(kvs[i].1))
  {
    seq(|kvs|, i requires 0 <= i < |kvs| => (Plus(kvs[i].0), Plus(kvs[i].1)))
  }

  /** A match of the pattern never spans a character the pattern lacks, so
      replacing in `a + [c] + b` replaces in `a` and in `b` apart. */
  lemma {:induction false} ReplaceAllAround(a: string, c: char, b: string, pattern: string, replacement: string)
    requires pattern != [] && c !in pattern
    ensures ReplaceAll(a + [c] + b, pattern, replacement)
         == ReplaceAll(a, pattern, replacement) + [c] + ReplaceAll(b, pattern, replacement)
    decreases |a|
  {
    var s := a + [c] + b;
    if a == [] {
      assert !StartsWith(s, pattern) by { assert s[0] == c; }
      assert s[1..] == b;
    } else if StartsWith(s, pattern) {
      assert forall k | 0 <= k < |pattern| :: pattern[k] == s[k];
      assert s[|a|] == c;
      assert |pattern| <= |a|;
      assert a[..|pattern|] == s[..|pattern|];
      assert s[|pattern|..] == a[|pattern|..] + [c] + b;
      ReplaceAllAround(a[|pattern|..], c, b, pattern, replacement);
    } else {
      assert !StartsWith(a, pattern);
      assert s[1..] == a[1..] + [c] + b;
      ReplaceAllAround(a[1..], c, b, pattern, replacement);
    }
  }

  /** Turning `%20` into `+` after joining the pieces on `&` is the same as
      turning it into `+` in each key and each value. */
  lemma {:induction false} PlusJoin(kvs: seq<(string, string)>)
    ensures Plus(Join(Glue(kvs), "&")) == Join(Glue(PlusPairs(kvs)), "&")
  {
    if kvs != [] {
      var (k, v) := kvs[0];
      ReplaceAllAround(k, '=', v, "%20", "+");
      assert Glue(kvs)[0] == k + ['='] + v;
      if |kvs| > 1 {
        assert Glue(kvs[1..]) == Glue(kvs)[1..];
        assert Glue(PlusPairs(kvs[1..])) == Glue(PlusPairs(kvs))[1..];
        ReplaceAllAround(Glue(kvs)[0], '&', Join(Glue(kvs)[1..], "&"), "%20", "+");
        PlusJoin(kvs[1..]);
      }
    }
  }

  /** The `+` replacement adds no character but `+` and empties nothing. */
  lemma {:induction false} PlusChars(s: string, c: char)
    requires c != '+' && c !in s
    ensures c !in Plus(s)
    ensures s != [] ==> Plus(s) != []
    decreases |s|
  {
    if s != [] {
      if StartsWith(s, "%20") {
        PlusChars(s[3..], c);
      } else {
        PlusChars(s[1..], c);
      }
    }
  }

  /** Keys and values the scanner cannot cut short stay so after the `+`
      replacement. */
  lemma PlusScannable(kvs: seq<(string, string)>)
    requires Scannable(kvs)
    ensures Scannable(PlusPairs(kvs))
  {
    var ps := PlusPairs(kvs);
    forall i | 0 <= i < |kvs|
      ensures ps[i].0 != [] && (forall j :: 0 <= j < |ps[i].0| ==> !Delimiter(ps[i].0[j])) && FreeOf(ps[i].1, '&')
    {
      var (k, v) := kvs[i];
      PlusChars(k, '?');
      PlusChars(k, '=');
      PlusChars(k, '&');
      PlusChars(v, '&');
      forall j | 0 <= j < |ps[i].0| ensures !Delimiter(ps[i].0[j]) {
        assert ps[i].0[j] in Plus(k);
      }
      forall j | 0 <= j < |ps[i].1| ensures ps[i].1[j] != '&' {
        assert ps[i].1[j] in Plus(v);
      }
    }
  }

  /** The query `args2Query` builds scans back into its encoded keys and
      encoded JSON values, in order, each with `%20` turned into `+`, when
      the encoded keys are non-empty and free of `?`, `=`, `&` and the
      encoded values free of `&` (as `encodeURIComponent` makes them); an
      encoding without `%20` comes back unchanged. */
  lemma Args2QueryScans(codec: Codec, args: JSON)
    requires Scannable(EncodedPairs(codec, Entries(args)))
    ensures Scan(Args2Query(codec, args)) == AsMatches(PlusPairs(EncodedPairs(codec, Entries(args))))
    ensures (forall i :: 0 <= i < |Entries(args)| ==>
               '%' !in EncodedPairs(codec, Entries(args))[i].0 && '%' !in EncodedPairs(codec, Entries(args))[i].1) ==>
              Scan(Args2Query(codec, args)) == AsMatches(EncodedPairs(codec, Entries(args)))
  {
    var kvs := EncodedPairs(codec, Entries(args));
    var pieces := Pieces(codec, Entries(args));
    assert pieces == Glue(kvs);
    PlusJoin(kvs);
    PlusScannable(kvs);
    ScanJoin(PlusPairs(kvs));
    if forall i :: 0 <= i < |kvs| ==> '%' !in kvs[i].0 && '%' !in kvs[i].1 {
      forall i | 0 <= i < |kvs| ensures PlusPairs(kvs)[i] == kvs[i] {
        ReplaceAllAbsent(kvs[i].0, "%20", "+");
        ReplaceAllAbsent(kvs[i].1, "%20", "+");
      }
      assert PlusPairs(kvs) == kvs;
    }
  }

  // ---- query2Args --------------------------------------------------------------

  /** An `args` object: keys in first-assignment order; `None` is `undefined`. */
  type Args = seq<(string, Option<JSON>)>

  function ArgIndex(args: Args, k: string): (r: Option<nat>)
    ensures r.Some? ==> r.value < |args| && args[r.value].0 == k
    ensures r.Some? ==> forall i :: 0 <= i < r.value ==> args[i].0 != k
    ensures r.None? ==> forall i :: 0 <= i < |args| ==> args[i].0 != k
  {
    if args == [] then None
    else if args[0].0 == k then Some(0)
    else match ArgIndex(args[1..], k)
      case None => None
      case Some(i) => Some(i + 1)
  }

  /** `args[k]`: `None` when there is no such key. */
  function GetArg(args: Args, k: string): Option<Option<JSON>>
  {
    match ArgIndex(args, k)
    case None => None
    case Some(i) => Some(args[i].1)
  }

  function ArgKeys(args: Args): (ks: seq<string>)
    ensures |ks| == |args| && forall i :: 0 <= i < |args| ==> ks[i] == args[i].0
  {
    seq(|args|, i requires 0 <= i < |args| => args[i].0)
  }

  /** `args[k] = v`: an existing key keeps its place, a new one goes last. */
  function PutArg(args: Args, k: string, v: Option<JSON>): (r: Args)
    ensures GetArg(r, k) == Some(v)
    ensures forall k' :: k' != k ==> GetArg(r, k') == GetArg(args, k')
    ensures ArgIndex(args, k).Some? ==> ArgKeys(r) == ArgKeys(args)
    ensures ArgIndex(args, k).None? ==> ArgKeys(r) == ArgKeys(args) + [k]
  {
    match ArgIndex(args, k)
    case None =>
      var r := args + [(k, v)];
      ArgIndexFirst(r, k, |args|);
      forall k' | k' != k ensures ArgIndex(r, k') == ArgIndex(args, k') {
        if ArgIndex(args, k').Some? {
          ArgIndexFirst(r, k', ArgIndex(args, k').value);
        }
      }
      r
    case Some(i) =>
      var r := args[i := (k, v)];
      forall k' ensures ArgIndex(r, k') == ArgIndex(args, k') {
        if ArgIndex(args, k').Some? {
          ArgIndexFirst(r, k', ArgIndex(args, k').value);
        } else {
          assert forall j :: 0 <= j < |r| ==> r[j].0 == args[j].0;
        }
      }
      r
  }

  lemma {:induction false} ArgIndexFirst(args: Args, k: string, i: nat)
    requires i < |args| && args[i].0 == k
    requires forall j :: 0 <= j < i ==> args[j].0 != k
    ensures ArgIndex(args, k) == Some(i)
  {
    if i > 0 {
      ArgIndexFirst(args[1..], k, i - 1);
    }
  }

  /** The `replace` callback run over every match: `args[$1] = $3`. */
  function Collect(matches: seq<(string, Option<string>)>, acc: Args): (r: Args)
    decreases |matches|
  {
    if matches == [] then acc
    else
      var v := if matches[0].1.Some? then Some(Str(matches[0].1.value)) else None;
      Collect(matches[1..], PutArg(acc, matches[0].0, v))
  }

  /** `parseInt` and `parseFloat`. */
  datatype Parsers = Parsers(parseInt: string -> JSON, parseFloat: string -> JSON)

  /** `convert(value, type)`: integers and numbers are parsed, a boolean is
      true exactly for the text `true`, anything else is kept. */
  function Convert(parsers: Parsers, value: JSON, schemaType: Option<JSON>): JSON
  {
    if schemaType == Some(Str("integer")) then parsers.parseInt(ToText(value))
    else if schemaType == Some(Str("number")) then parsers.parseFloat(ToText(value))
    else if schemaType == Some(Str("boolean")) then Bool(value == Str("true"))
    else value
  }

  /** The schema `query2Args` reads types from: the `properties` of an object
      schema, the given schema otherwise. */
  function PropertySchemas(schema: JSON): JSON
  {
    var t := Member(schema, "type");
    var props := Member(schema, "properties");
    if t == Some(Str("object")) && props.Some? && Truthy(props.value) then props.value else schema
  }

  /** The `for (p in schema)` loop of `query2Args` from the `i`-th key on:
      every truthy argument named in the schema is converted by the `type` of
      its schema; reading the `type` of a `null` schema throws. */
  function ConvertFrom(parsers: Parsers, schema: JSON, keys: seq<string>, i: nat, args: Args): Result<Args, Exception>
    requires i <= |keys|
    decreases |keys| - i
  {
    if i == |keys| then Success(args)
    else
      var p := keys[i];
      var cur := GetArg(args, p);
      if cur.Some? && cur.value.Some? && Truthy(cur.value.value) then
        var sub := Member(schema, p);
        if sub.None? || sub.value.Null? then Failure(TypeError)
        else ConvertFrom(parsers, schema, keys, i + 1, PutArg(args, p, Some(Convert(parsers, cur.value.value, Member(sub.value, "type")))))
      else ConvertFrom(parsers, schema, keys, i + 1, args)
  }

  /** `query2Args(querystring, schema)`; a `None` schema is `undefined`. */
  function Query2Args(parsers: Parsers, query: string, schema: Option<JSON>): Result<Args, Exception>
  {
    var args := Collect(Scan(query), []);
    if schema.None? || !Truthy(schema.value) then Success(args)
    else
      var s := PropertySchemas(schema.value);
      ConvertFrom(parsers, s, ForInKeys(s), 0, args)
  }

  /** The arguments the query carries, before conversion. */
  function RawArgs(query: string): Args
  {
    Collect(Scan(query), [])
  }

  /** What conversion makes of the argument `p`. */
  function Converted(parsers: Parsers, schema: JSON, args: Args, p: string): Option<Option<JSON>>
  {
    var cur := GetArg(args, p);
    if p in ForInKeys(schema) && Member(schema, p).Some? && cur.Some? && cur.value.Some? && Truthy(cur.value.value) then
      Some(Some(Convert(parsers, cur.value.value, Member(Member(schema, p).value, "type"))))
    else cur
  }

  predicate DistinctKeys(ks: seq<string>)
  {
    forall i, j :: 0 <= i < j < |ks| ==> ks[i] != ks[j]
  }

  /** No member the loop converts is `null` (or missing). */
  predicate TypesReadable(schema: JSON, keys: seq<string>)
  {
    forall i :: 0 <= i < |keys| ==> Member(schema, keys[i]).Some? && !Member(schema, keys[i]).value.Null?
  }

  /** The arguments after the loop has visited `done`. */
  ghost predicate ConvertedFor(parsers: Parsers, schema: JSON, done: seq<string>, args: Args, orig: Args)
  {
    ArgKeys(args) == ArgKeys(orig)
    && forall p :: GetArg(args, p) == (if p in done then Converted(parsers, schema, orig, p) else GetArg(orig, p))
  }

  lemma {:induction false} ConvertFromValues(parsers: Parsers, schema: JSON, keys: seq<string>, i: nat, args: Args, orig: Args)
    requires i <= |keys| && DistinctKeys(keys) && TypesReadable(schema, keys) && keys == ForInKeys(schema)
    requires ConvertedFor(parsers, schema, keys[..i], args, orig)
    ensures var r := ConvertFrom(parsers, schema, keys, i, args);
      r.Success? && ConvertedFor(parsers, schema, keys, r.value, orig)
    decreases |keys| - i
  {
    if i == |keys| {
      assert keys[..i] == keys;
      return;
    }
    var next := ConvertStep(parsers, schema, keys, i, args, orig);
    ConvertFromValues(parsers, schema, keys, i + 1, next, orig);
  }

  /** One turn of the loop: the key `keys[i]` gets converted, if anything. */
  lemma ConvertStep(parsers: Parsers, schema: JSON, keys: seq<string>, i: nat, args: Args, orig: Args)
    returns (next: Args)
    requires i < |keys| && DistinctKeys(keys) && TypesReadable(schema, keys) && keys == ForInKeys(schema)
    requires ConvertedFor(parsers, schema, keys[..i], args, orig)
    ensures ConvertFrom(parsers, schema, keys, i, args) == ConvertFrom(parsers, schema, keys, i + 1, next)
    ensures ConvertedFor(parsers, schema, keys[..i + 1], next, orig)
  {
    var p := keys[i];
    assert p !in keys[..i];
    var cur := GetArg(args, p);
    assert cur == GetArg(orig, p);
    next := args;
    if cur.Some? && cur.value.Some? && Truthy(cur.value.value) {
      next := PutArg(args, p, Some(Convert(parsers, cur.value.value, Member(Member(schema, p).value, "type"))));
      assert ArgIndex(args, p).Some?;
    }
    assert keys[..i + 1] == keys[..i] + [p];
    ConvertedExtend(parsers, schema, keys[..i], p, args, next, orig);
  }

  /** Converting one more key `p` extends what has been converted. */
  lemma ConvertedExtend(parsers: Parsers, schema: JSON, done: seq<string>, p: string, args: Args, next: Args, orig: Args)
    requires ConvertedFor(parsers, schema, done, args, orig) && p !in done
    requires ArgKeys(next) == ArgKeys(args) && GetArg(next, p) == Converted(parsers, schema, orig, p)
    requires forall q :: q != p ==> GetArg(next, q) == GetArg(args, q)
    ensures ConvertedFor(parsers, schema, done + [p], next, orig)
  {
    forall q ensures GetArg(next, q) == (if q in done + [p] then Converted(parsers, schema, orig, q) else GetArg(orig, q)) {
      assert q in done + [p] <==> q in done || q == p;
    }
  }

  /** `query2Args` keeps the keys of the query in order and converts exactly
      the truthy arguments the schema names, each by the `type` of its schema;
      the others keep their raw text (or stay `undefined`). */
  lemma Query2ArgsConverts(parsers: Parsers, query: string, schema: JSON, p: string)
    requires Truthy(schema)
    requires var s := PropertySchemas(schema); DistinctKeys(ForInKeys(s)) && TypesReadable(s, ForInKeys(s))
    ensures var r := Query2Args(parsers, query, Some(schema));
      r.Success? && ArgKeys(r.value) == ArgKeys(RawArgs(query))
      && GetArg(r.value, p) == Converted(parsers, PropertySchemas(schema), RawArgs(query), p)
  {
    var s := PropertySchemas(schema);
    var keys := ForInKeys(s);
    assert keys[..0] == [];
    ConvertFromValues(parsers, s, keys, 0, RawArgs(query), RawArgs(query));
    var r := ConvertFrom(parsers, s, keys, 0, RawArgs(query));
    assert GetArg(r.value, p) == (if p in keys then Converted(parsers, s, RawArgs(query), p) else GetArg(RawArgs(query), p));
  }

  /** A converted boolean is true exactly for the text `true`. */
  lemma BooleanArgument(parsers: Parsers, value: JSON)
    ensures Convert(parsers, value, Some(Str("boolean"))) == Bool(value == Str("true"))
  {
  }

  // ---- getMediaTypes -------------------------------------------------------------

  /** `s.replace(/^@/, '')`. */
  function JustMediaType(s: string): (t: string)
    ensures StartsWith(s, "@") ==> "@" + t == s
    ensures !StartsWith(s, "@") ==> t == s
  {
    if StartsWith(s, "@") then s[1..] else s
  }

  /** The values `_.filter` visits: the elements of an array or a string, the
      member values of an object. */
  function Elements(v: JSON): (es: seq<JSON>)
    ensures v.Arr? ==> es == v.items
  {
    match v
    case Arr(items) => items
    case Obj(fields) => seq(|fields|, i requires 0 <= i < |fields| => fields[i].1)
    case Str(s) => seq(|s|, i requires 0 <= i < |s| => Str([s[i]]))
    case _ => []
  }

  /** The `@`-values among `others`, stripped: `/^@/.test` reads a value as
      text, and only a string has `replace`, so an `@`-text that is not a
      string throws. */
  function MediaTypesFrom(others: seq<JSON>): (r: Result<seq<string>, Exception>)
  {
    if others == [] then Success([])
    else
      var rest :- MediaTypesFrom(others[1..]);
      if !StartsWith(ToText(others[0]), "@") then Success(rest)
      else if others[0].Str? then Success([JustMediaType(others[0].s)] + rest)
      else Failure(TypeError)
  }

  /** `getMediaTypes(s)`; `None` is `null`. */
  function GetMediaTypes(s: JSON): Result<Option<seq<string>>, Exception>
  {
    if s.Str? then Success(if StartsWith(s.s, "@") then Some([JustMediaType(s.s)]) else None)
    else if IsObjectLike(s) then
      var anyOf := Member(s, "anyOf");
      var others := if anyOf.Some? && Truthy(anyOf.value) then anyOf else Member(s, "oneOf");
      if others.Some? && Truthy(others.value) then
        var types :- MediaTypesFrom(Elements(others.value));
        Success(Some(types))
      else
        var keys := ForInKeys(s);
        if |keys| == 1 then Success(if StartsWith(keys[0], "@") then Some([JustMediaType(keys[0])]) else None)
        else Success(None)
    else Success(None)
  }

  /** An `@`-string names exactly its media type; another string names none. */
  lemma MediaTypeOfString(t: string)
    ensures GetMediaTypes(Str("@" + t)) == Success(Some([t]))
    ensures !StartsWith(t, "@") ==> GetMediaTypes(Str(t)) == Success(None)
  {
    assert StartsWith("@" + t, "@");
    assert ("@" + t)[1..] == t;
  }

  lemma {:induction false} MediaTypesFromStrings(others: seq<JSON>)
    requires forall i :: 0 <= i < |others| ==> others[i].Str?
    ensures var r := MediaTypesFrom(others);
      r.Success? && forall t :: t in r.value <==> Str("@" + t) in others
  {
    if others != [] {
      MediaTypesFromStrings(others[1..]);
      var rest := MediaTypesFrom(others[1..]).value;
      var s := others[0].s;
      forall t ensures t in MediaTypesFrom(others).value <==> Str("@" + t) in others {
        assert Str("@" + t) in others <==> Str("@" + t) == others[0] || Str("@" + t) in others[1..] by {
          assert others == [others[0]] + others[1..];
        }
        if StartsWith(s, "@") {
          assert Str("@" + t) == others[0] <==> t == s[1..] by {
            if t == s[1..] { assert "@" + t == s; }
          }
        } else {
          assert Str("@" + t) != others[0] by {
            assert ("@" + t)[0] == '@';
            if Str("@" + t) == others[0] { assert StartsWith(s, "@"); }
          }
        }
      }
    }
  }

  /** The media types of an `anyOf` list of strings are exactly its
      `@`-members, stripped. */
  lemma MediaTypesOfAlternatives(fields: seq<(string, JSON)>, items: seq<JSON>)
    requires Get(fields, "anyOf") == Some(Arr(items)) && items != []
    requires forall i :: 0 <= i < |items| ==> items[i].Str?
    ensures var r := GetMediaTypes(Obj(fields));
      r.Success? && r.value.Some? && forall t :: t in r.value.value <==> Str("@" + t) in items
  {
    MediaTypesFromStrings(items);
  }

  /** A one-key object names the media type of its key. */
  lemma MediaTypeOfKey(t: string, v: JSON)
    ensures GetMediaTypes(Obj([("@" + t, v)])) == Success(Some([t]))
  {
    var s := Obj([("@" + t, v)]);
    assert ("@" + t)[0] == '@';
    assert Member(s, "anyOf") == None && Member(s, "oneOf") == None;
    assert ForInKeys(s) == ["@" + t];
    assert StartsWith("@" + t, "@");
    assert ("@" + t)[1..] == t;
  }
}
