/** JSON values as the JavaScript code sees them, and the handful of JavaScript
    operators on them that the validator and the PSI helpers rely on
    (property read, `== undefined`, truthiness, `typeof`, `for..in`, `.length`,
    conversion to string and to number). Numbers are integers. */
module Json {
  import opened Wrappers
  import opened Text

  /** A JSON document. Object members keep their insertion order; a property
      read takes the first member with the key. */
  datatype JSON =
    | Null
    | Bool(b: bool)
    | Num(n: int)
    | Str(s: string)
    | Arr(items: seq<JSON>)
    | Obj(fields: seq<(string, JSON)>)

  /** The exceptions a JavaScript function of the model can throw. A call chain
      that runs out of stack raises a RangeError; `Error` is a plain
      `new Error(...)` thrown by the program itself. */
  datatype Exception = TypeError | RangeError | URIError | SyntaxError | Error

  /** Position of the first member named `k`. */
  function Lookup(fields: seq<(string, JSON)>, k: string): (r: Option<nat>)
    ensures r.Some? ==> r.value < |fields| && fields[r.value].0 == k
    ensures r.Some? ==> forall j :: 0 <= j < r.value ==> fields[j].0 != k
    ensures r.None? ==> forall j :: 0 <= j < |fields| ==> fields[j].0 != k
  {
    if fields == [] then None
    else if fields[0].0 == k then Some(0)
    else match Lookup(fields[1..], k)
      case None => None
      case Some(i) => Some(i + 1)
  }

  /** `o[k]` on a plain object; `None` is `undefined`. */
  function Get(fields: seq<(string, JSON)>, k: string): Option<JSON>
  {
    match Lookup(fields, k)
    case None => None
    case Some(i) => Some(fields[i].1)
  }

  lemma GetCons(f: (string, JSON), rest: seq<(string, JSON)>, k: string)
    ensures Get([f] + rest, k) == if f.0 == k then Some(f.1) else Get(rest, k)
  {
    assert ([f] + rest)[1..] == rest;
  }

  /** `Lookup` is determined by the first position that carries the key. */
  lemma LookupFirst(fields: seq<(string, JSON)>, k: string, i: nat)
    requires i < |fields| && fields[i].0 == k
    requires forall j :: 0 <= j < i ==> fields[j].0 != k
    ensures Lookup(fields, k) == Some(i)
  {
  }

  lemma LookupSameKeys(a: seq<(string, JSON)>, b: seq<(string, JSON)>, k: string)
    requires |a| == |b| && forall j :: 0 <= j < |a| ==> a[j].0 == b[j].0
    ensures Lookup(a, k) == Lookup(b, k)
  {
    if Lookup(a, k).Some? {
      LookupFirst(b, k, Lookup(a, k).value);
    }
  }

  /** `o[k] = v` on a plain object: an existing member keeps its place, a new
      one goes last. */
  function Put(fields: seq<(string, JSON)>, k: string, v: JSON): (r: seq<(string, JSON)>)
    ensures Get(r, k) == Some(v)
    ensures forall k' :: k' != k ==> Get(r, k') == Get(fields, k')
    ensures Get(fields, k).Some? ==> Keys(r) == Keys(fields)
    ensures Get(fields, k).None? ==> Keys(r) == Keys(fields) + [k]
  {
    match Lookup(fields, k)
    case None =>
      var r := fields + [(k, v)];
      LookupFirst(r, k, |fields|);
      forall k' | k' != k ensures Lookup(r, k') == Lookup(fields, k') {
        if Lookup(fields, k').Some? {
          LookupFirst(r, k', Lookup(fields, k').value);
        }
      }
      r
    case Some(i) =>
      var r := fields[i := (k, v)];
      forall k' ensures Lookup(r, k') == Lookup(fields, k') {
        LookupSameKeys(r, fields, k');
      }
      r
  }

  /** `delete o[k]` (lodash `_.omit` for one key): every member named `k` goes. */
  function Remove(fields: seq<(string, JSON)>, k: string): (r: seq<(string, JSON)>)
    ensures Get(r, k) == None
    ensures forall k' :: k' != k ==> Get(r, k') == Get(fields, k')
    ensures |r| <= |fields|
  {
    if fields == [] then []
    else if fields[0].0 == k then Remove(fields[1..], k)
    else
      var rest := Remove(fields[1..], k);
      var r := [fields[0]] + rest;
      forall k' ensures Get(r, k') == (if fields[0].0 == k' then Some(fields[0].1) else Get(rest, k')) {
        GetCons(fields[0], rest, k');
      }
      forall k' ensures Get(fields, k') == (if fields[0].0 == k' then Some(fields[0].1) else Get(fields[1..], k')) {
        GetCons(fields[0], fields[1..], k');
        assert [fields[0]] + fields[1..] == fields;
      }
      r
  }

  /** The member names in order (`Object.keys`). */
  function Keys(fields: seq<(string, JSON)>): (ks: seq<string>)
    ensures |ks| == |fields|
    ensures forall i :: 0 <= i < |fields| ==> ks[i] == fields[i].0
  {
    seq(|fields|, i requires 0 <= i < |fields| => fields[i].0)
  }

  /** `v[k]` for a value that is not `null` (reading a property of `null`
      throws, which callers rule out first). Arrays and strings expose their
      `length` and their elements under canonical index keys. */
  function Member(v: JSON, k: string): (r: Option<JSON>)
    ensures v.Obj? ==> r == Get(v.fields, k)
    ensures (v.Null? || v.Bool? || v.Num?) ==> r.None?
  {
    match v
    case Obj(fields) => Get(fields, k)
    case Arr(items) =>
      if k == "length" then Some(Num(|items|))
      else (match ParseIndex(k)
        case Some(i) => if i < |items| then Some(items[i]) else None
        case None => None)
    case Str(s) =>
      if k == "length" then Some(Num(|s|))
      else (match ParseIndex(k)
        case Some(i) => if i < |s| then Some(Str([s[i]])) else None
        case None => None)
    case _ => None
  }

  /** `x != undefined` with loose equality: present and not `null`. */
  predicate Defined(x: Option<JSON>)
  {
    x.Some? && !x.value.Null?
  }

  /** JavaScript truthiness. */
  predicate Truthy(v: JSON)
  {
    match v
    case Null => false
    case Bool(b) => b
    case Num(n) => n != 0
    case Str(s) => s != ""
    case _ => true
  }

  /** `if (x)` for a value that may be `undefined`. */
  predicate OptTruthy(x: Option<JSON>)
  {
    x.Some? && Truthy(x.value)
  }

  /** `typeof v`. */
  function TypeOf(v: JSON): string
  {
    match v
    case Bool(_) => "boolean"
    case Num(_) => "number"
    case Str(_) => "string"
    case _ => "object"
  }

  /** Whether `typeof v == "object"` holds and `v` is not `null`. */
  predicate IsObjectLike(v: JSON)
  {
    v.Arr? || v.Obj?
  }

  /** The elements `v[0], ..., v[v.length - 1]` that a counting loop visits.
      Only arrays and strings have a length here. */
  function Indexed(v: JSON): (r: seq<JSON>)
    ensures v.Arr? ==> r == v.items
    ensures v.Str? ==> |r| == |v.s|
    ensures !v.Arr? && !v.Str? ==> r == []
  {
    match v
    case Arr(items) => items
    case Str(s) => seq(|s|, i requires 0 <= i < |s| => Str([s[i]]))
    case _ => []
  }

  /** The keys a `for (k in v)` loop visits, in order. */
  function ForInKeys(v: JSON): (ks: seq<string>)
    ensures v.Obj? ==> ks == Keys(v.fields)
    ensures v.Arr? ==> |ks| == |v.items|
    ensures !v.Obj? && !v.Arr? && !v.Str? ==> ks == []
  {
    match v
    case Obj(fields) => Keys(fields)
    case Arr(items) => seq(|items|, i requires 0 <= i < |items| => NatToString(i))
    case Str(s) => seq(|s|, i requires 0 <= i < |s| => NatToString(i))
    case _ => []
  }

  /** The (key, value) pairs a `for (k in v)` loop reads: the members of an
      object, the elements of an array or the characters of a string under
      their index keys. Numbers, booleans and `null` have none. */
  function Entries(v: JSON): (es: seq<(string, JSON)>)
    ensures v.Obj? ==> es == v.fields
    ensures !v.Obj? && !v.Arr? && !v.Str? ==> es == []
  {
    match v
    case Obj(fields) => fields
    case Arr(items) => seq(|items|, i requires 0 <= i < |items| => (NatToString(i), items[i]))
    case Str(s) => seq(|s|, i requires 0 <= i < |s| => (NatToString(i), Str([s[i]])))
    case _ => []
  }

  /** The keys of the entries are the for-in keys, and the values of an
      array's or a string's entries are its elements in order. */
  lemma EntriesFacts(v: JSON)
    ensures Keys(Entries(v)) == ForInKeys(v)
    ensures v.Arr? ==> |Entries(v)| == |v.items| && forall i :: 0 <= i < |v.items| ==> Entries(v)[i] == (NatToString(i), v.items[i])
    ensures !v.Obj? ==> |Entries(v)| == |Indexed(v)| && forall i :: 0 <= i < |Entries(v)| ==> Entries(v)[i].1 == Indexed(v)[i]
  {
  }

  /** `String(v)`: how a value becomes a property key or a piece of text. */
  function ToText(v: JSON): string
  {
    match v
    case Null => "null"
    case Bool(b) => if b then "true" else "false"
    case Num(n) => IntToString(n)
    case Str(s) => s
    case Arr(items) => JoinElements(items)
    case Obj(_) => "[object Object]"
  }

  /** `Array.prototype.join` with the default separator; `null` elements print
      as the empty string. */
  function JoinElements(items: seq<JSON>): string
  {
    if items == [] then []
    else
      var first := if items[0].Null? then "" else ToText(items[0]);
      if |items| == 1 then first else first + "," + JoinElements(items[1..])
  }

  /** `Number(s)` for the strings the model meets: the empty string is 0, an
      optionally signed run of decimal digits is its value, anything else is
      NaN (`None`). JavaScript also trims surrounding white space and reads
      fractions, exponents, `Infinity` and `0x`/`0o`/`0b` forms; those
      strings are NaN here. */
  function StringToNumber(s: string): (r: Option<int>)
    ensures (forall i :: 0 <= i < |s| ==> IsDigit(s[i])) ==> r == Some(if s == [] then 0 else DigitsValue(s))
  {
    if s == [] then Some(0)
    else if (s[0] == '-' || s[0] == '+') && |s| > 1 && forall i :: 1 <= i < |s| ==> IsDigit(s[i]) then
      var m: int := DigitsValue(s[1..]);
      Some(if s[0] == '-' then -m else m)
    else if forall i :: 0 <= i < |s| ==> IsDigit(s[i]) then Some(DigitsValue(s))
    else None
  }

  /** `Number(v)`; `None` is NaN. Objects and arrays go through their string form. */
  function ToNumber(v: JSON): (r: Option<int>)
    ensures v.Num? ==> r == Some(v.n)
    ensures v.Null? ==> r == Some(0)
  {
    match v
    case Null => Some(0)
    case Bool(b) => Some(if b then 1 else 0)
    case Num(n) => Some(n)
    case Str(s) => StringToNumber(s)
    case _ => StringToNumber(ToText(v))
  }

  /** `x < v` for a number `x`: false when `v` converts to NaN. */
  predicate LessThan(x: int, v: JSON)
  {
    var y := ToNumber(v); y.Some? && x < y.value
  }

  /** `x > v` for a number `x`. */
  predicate GreaterThan(x: int, v: JSON)
  {
    var y := ToNumber(v); y.Some? && x > y.value
  }

  /** `x == v` (loose) for a number `x`: `null` equals no number. */
  predicate LooseEqualsNumber(x: int, v: JSON)
  {
    !v.Null? && ToNumber(v) == Some(x)
  }

  /** `v == t` (loose) for a string `t`. */
  predicate LooseEqualsString(v: JSON, t: string)
  {
    match v
    case Null => false
    case Str(s) => s == t
    case Num(n) => StringToNumber(t) == Some(n)
    case Bool(b) => StringToNumber(t) == Some(if b then 1 else 0)
    case _ => ToText(v) == t
  }
}
