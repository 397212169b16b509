/** tv4's error codes and validation errors, and `prefixWith`, which turns the
    paths of an error found below a keyword into paths from the enclosing
    schema and data. */
module Tv4Errors {
  import opened Wrappers
  import opened Text
  import opened Json

  /** The `ErrorCodes` table. */
  datatype ErrorCode =
    | INVALID_TYPE | ENUM_MISMATCH
    | ANY_OF_MISSING | ONE_OF_MISSING | ONE_OF_MULTIPLE | NOT_PASSED
    | NUMBER_MULTIPLE_OF | NUMBER_MINIMUM | NUMBER_MINIMUM_EXCLUSIVE | NUMBER_MAXIMUM | NUMBER_MAXIMUM_EXCLUSIVE
    | STRING_LENGTH_SHORT | STRING_LENGTH_LONG | STRING_PATTERN
    | OBJECT_PROPERTIES_MINIMUM | OBJECT_PROPERTIES_MAXIMUM | OBJECT_REQUIRED
    | OBJECT_ADDITIONAL_PROPERTIES | OBJECT_DEPENDENCY_KEY
    | ARRAY_LENGTH_SHORT | ARRAY_LENGTH_LONG | ARRAY_UNIQUE | ARRAY_ADDITIONAL_ITEMS

  /** The number each code stands for. */
  function CodeNumber(c: ErrorCode): (n: nat)
    ensures (c.INVALID_TYPE? || c.ENUM_MISMATCH?) <==> n < 10
    ensures (c.ANY_OF_MISSING? || c.ONE_OF_MISSING? || c.ONE_OF_MULTIPLE? || c.NOT_PASSED?) <==> 10 <= n < 100
    ensures (c.NUMBER_MULTIPLE_OF? || c.NUMBER_MINIMUM? || c.NUMBER_MINIMUM_EXCLUSIVE?
             || c.NUMBER_MAXIMUM? || c.NUMBER_MAXIMUM_EXCLUSIVE?) <==> 100 <= n < 200
    ensures (c.STRING_LENGTH_SHORT? || c.STRING_LENGTH_LONG? || c.STRING_PATTERN?) <==> 200 <= n < 300
    ensures (c.OBJECT_PROPERTIES_MINIMUM? || c.OBJECT_PROPERTIES_MAXIMUM? || c.OBJECT_REQUIRED?
             || c.OBJECT_ADDITIONAL_PROPERTIES? || c.OBJECT_DEPENDENCY_KEY?) <==> 300 <= n < 400
    ensures (c.ARRAY_LENGTH_SHORT? || c.ARRAY_LENGTH_LONG? || c.ARRAY_UNIQUE? || c.ARRAY_ADDITIONAL_ITEMS?) <==> 400 <= n
  {
    match c
    case INVALID_TYPE => 0
    case ENUM_MISMATCH => 1
    case ANY_OF_MISSING => 10
    case ONE_OF_MISSING => 11
    case ONE_OF_MULTIPLE => 12
    case NOT_PASSED => 13
    case NUMBER_MULTIPLE_OF => 100
    case NUMBER_MINIMUM => 101
    case NUMBER_MINIMUM_EXCLUSIVE => 102
    case NUMBER_MAXIMUM => 103
    case NUMBER_MAXIMUM_EXCLUSIVE => 104
    case STRING_LENGTH_SHORT => 200
    case STRING_LENGTH_LONG => 201
    case STRING_PATTERN => 202
    case OBJECT_PROPERTIES_MINIMUM => 300
    case OBJECT_PROPERTIES_MAXIMUM => 301
    case OBJECT_REQUIRED => 302
    case OBJECT_ADDITIONAL_PROPERTIES => 303
    case OBJECT_DEPENDENCY_KEY => 304
    case ARRAY_LENGTH_SHORT => 400
    case ARRAY_LENGTH_LONG => 401
    case ARRAY_UNIQUE => 402
    case ARRAY_ADDITIONAL_ITEMS => 403
  }

  /** Distinct codes have distinct numbers. */
  lemma CodeNumberInjective(c: ErrorCode, d: ErrorCode)
    requires CodeNumber(c) == CodeNumber(d)
    ensures c == d
  {
  }

  /** What an error's `code` field holds: normally one of the codes; the
      string-length checks construct their error with the message in the code
      position, so their `code` is the text "String is too short (…)". */
  datatype Code = Known(code: ErrorCode) | Text(message: string)

  /** A `ValidationError` (its message is not modelled). An error built without
      sub-errors has `subErrors == []`. */
  datatype VError = VError(code: Code, dataPath: string, schemaPath: string, subErrors: seq<VError>)

  /** A fresh error with empty paths. */
  function NewError(c: ErrorCode): (e: VError)
    ensures e.code == Known(c) && e.dataPath == "" && e.schemaPath == "" && e.subErrors == []
  {
    VError(Known(c), "", "", [])
  }

  /** How `prefixWith` escapes a path segment: `replace("~", "~0")` then
      `replace("/", "~1")`, each replacing only the FIRST occurrence. */
  function ReplaceTildeSlash(segment: string): string
  {
    ReplaceFirst(ReplaceFirst(segment, "~", "~0"), "/", "~1")
  }

  /** The escape as the model computes it: a segment with neither character is
      left alone (which `ReplaceTildeSlash` also does, see `EscapeFirstIs`). */
  function EscapeFirst(segment: string): string
  {
    if '~' !in segment && '/' !in segment then segment else ReplaceTildeSlash(segment)
  }

  /** A one-character pattern is found only where it occurs. */
  lemma FindChar(s: string, c: char)
    ensures Find(s, [c]).Some? ==> c in s
  {
    var f := Find(s, [c]);
    if f.Some? {
      assert s[f.value..f.value + 1][0] == c;
    }
  }

  /** A one-character pattern that does not occur is not replaced. */
  lemma ReplaceAbsent(s: string, c: char, replacement: string)
    requires c !in s
    ensures ReplaceFirst(s, [c], replacement) == s
  {
    FindChar(s, c);
  }

  /** The shortcut in `EscapeFirst` changes nothing: it is the two
      first-occurrence replacements of `prefixWith`. */
  lemma EscapeFirstIs(segment: string)
    ensures EscapeFirst(segment) == ReplaceTildeSlash(segment)
  {
    if '~' !in segment && '/' !in segment {
      ReplaceAbsent(segment, '~', "~0");
      ReplaceAbsent(segment, '/', "~1");
    }
  }

  /** A segment without `~` and `/` is written into a path as it is. */
  lemma EscapePlain(segment: string)
    requires '~' !in segment && '/' !in segment
    ensures EscapeFirst(segment) == segment
  {
  }

  /** Prefixing with a plain keyword puts `/keyword` in front of the schema path. */
  lemma PlainSchemaPrefix(e: VError, dataPrefix: Option<string>, keyword: string)
    requires '~' !in keyword && '/' !in keyword
    ensures PrefixWith(e, dataPrefix, Some(keyword)).schemaPath == "/" + keyword + e.schemaPath
  {
    EscapePlain(keyword);
  }

  /** `error.prefixWith(dataPrefix, schemaPrefix)`: a present prefix is escaped
      and put in front of the path as `/segment`; the sub-errors are then
      prefixed with the ESCAPED segments, so they are escaped once more. */
  function PrefixWith(e: VError, dataPrefix: Option<string>, schemaPrefix: Option<string>): (r: VError)
    ensures r.code == e.code && |r.subErrors| == |e.subErrors|
    ensures dataPrefix.None? ==> r.dataPath == e.dataPath
    ensures dataPrefix.Some? ==> r.dataPath == "/" + EscapeFirst(dataPrefix.value) + e.dataPath
    ensures schemaPrefix.None? ==> r.schemaPath == e.schemaPath
    ensures schemaPrefix.Some? ==> r.schemaPath == "/" + EscapeFirst(schemaPrefix.value) + e.schemaPath
    ensures forall i :: 0 <= i < |e.subErrors| ==>
      r.subErrors[i] == PrefixWith(e.subErrors[i], EscapeSome(dataPrefix), EscapeSome(schemaPrefix))
    decreases e, 1
  {
    var dp := EscapeSome(dataPrefix);
    var sp := EscapeSome(schemaPrefix);
    VError(e.code,
           if dp.Some? then "/" + dp.value + e.dataPath else e.dataPath,
           if sp.Some? then "/" + sp.value + e.schemaPath else e.schemaPath,
           PrefixAll(e, e.subErrors, dp, sp))
  }

  /** A prefix as `prefixWith` holds it after escaping. */
  function EscapeSome(prefix: Option<string>): Option<string>
  {
    if prefix.Some? then Some(EscapeFirst(prefix.value)) else None
  }

  /** Sub-errors are prefixed with the already escaped segment, so they are
      escaped twice: `a/b` becomes `/a~1b` on the error and `/a~01b` on each
      of its sub-errors. */
  lemma SubErrorsEscapedTwice(e: VError)
    requires |e.subErrors| >= 1
    ensures PrefixWith(e, Some("a/b"), None).dataPath == "/a~1b" + e.dataPath
    ensures PrefixWith(e, Some("a/b"), None).subErrors[0].dataPath == "/a~01b" + e.subErrors[0].dataPath
  {
    PrefixTwice(e, "a/b");
    EscapeSlash();
    EscapeEscaped();
    var d, d0 := e.dataPath, e.subErrors[0].dataPath;
    assert "/" + "a~1b" + d == "/a~1b" + d by { SlashLiterals(); }
    assert "/" + "a~01b" + d0 == "/a~01b" + d0 by { SlashLiterals(); }
  }

  lemma SlashLiterals()
    ensures "/" + "a~1b" == "/a~1b" && "/" + "a~01b" == "/a~01b"
  {
  }

  lemma PrefixTwice(e: VError, segment: string)
    requires |e.subErrors| >= 1
    ensures PrefixWith(e, Some(segment), None).dataPath == "/" + EscapeFirst(segment) + e.dataPath
    ensures PrefixWith(e, Some(segment), None).subErrors[0].dataPath
         == "/" + EscapeFirst(EscapeFirst(segment)) + e.subErrors[0].dataPath
  {
    assert EscapeSome(Some(segment)) == Some(EscapeFirst(segment));
  }

  lemma EscapeSlash()
    ensures EscapeFirst("a/b") == "a~1b"
  {
    FindChar("a/b", '~');
    assert Find("a/b", "~") == None;
    assert ReplaceFirst("a/b", "~", "~0") == "a/b";
    assert !StartsWith("a/b", "/");
    assert StartsWith("a/b"[1..], "/");
    assert Find("a/b", "/") == Some(1);
  }

  lemma EscapeEscaped()
    ensures EscapeFirst("a~1b") == "a~01b"
  {
    assert "a~1b"[..1][0] != "~"[0];
    assert StartsWith("a~1b"[1..], "~");
    assert Find("a~1b", "~") == Some(1);
    assert ReplaceFirst("a~1b", "~", "~0") == "a~01b";
    FindChar("a~01b", '/');
    assert Find("a~01b", "/") == None;
  }

  /** `prefixWith` applied to each error of `errs` (sub-errors of `parent`). */
  function PrefixAll(ghost parent: VError, errs: seq<VError>, dataPrefix: Option<string>, schemaPrefix: Option<string>): (r: seq<VError>)
    requires forall i :: 0 <= i < |errs| ==> errs[i] < parent
    ensures |r| == |errs|
    ensures forall i :: 0 <= i < |errs| ==> r[i] == PrefixWith(errs[i], dataPrefix, schemaPrefix)
    decreases parent, 0, |errs|
  {
    if errs == [] then []
    else [PrefixWith(errs[0], dataPrefix, schemaPrefix)] + PrefixAll(parent, errs[1..], dataPrefix, schemaPrefix)
  }

  /** `for (e in errs) out.push(errs[e].prefixWith(dataPrefix, schemaPrefix))`. */
  function PrefixEach(errs: seq<VError>, dataPrefix: Option<string>, schemaPrefix: Option<string>): (r: seq<VError>)
    ensures |r| == |errs|
    ensures forall i :: 0 <= i < |errs| ==> r[i] == PrefixWith(errs[i], dataPrefix, schemaPrefix)
  {
    seq(|errs|, i requires 0 <= i < |errs| => PrefixWith(errs[i], dataPrefix, schemaPrefix))
  }

  /** The prefixes of tv4's own paths: `"" + i` for an index. */
  function Index(i: nat): string
  {
    NatToString(i)
  }
}
