/** tv4's `recursiveCompare`, the deep equality that `enum` and `uniqueItems`
    use, and an independent definition of JSON value equality it is proved
    against. */
module Tv4Compare {
  import opened Wrappers
  import opened Json

  /** `A === B` on documents: primitives compare by value; two object or array
      operands are distinct objects. */
  predicate StrictEquals(a: JSON, b: JSON)
  {
    match a
    case Null => b.Null?
    case Bool(x) => b.Bool? && b.b == x
    case Num(x) => b.Num? && b.n == x
    case Str(x) => b.Str? && b.s == x
    case _ => false
  }

  /** `typeof v == "object"`, which holds for `null` as well. */
  predicate TypeofObject(v: JSON)
  {
    v.Null? || v.Arr? || v.Obj?
  }

  /** The member names a `for (key in v)` loop visits for `v` an object or `null`. */
  function OwnKeys(v: JSON): seq<string>
  {
    if v.Obj? then Keys(v.fields) else []
  }

  /** `recursiveCompare(a, b)` as written. `Failure(TypeError)` is the exception
      raised when one side is `null` and the other an object with members:
      the loops read a property of `null`. */
  function RecursiveCompare(a: JSON, b: JSON): (r: Result<bool, Exception>)
    decreases a, 2
  {
    if StrictEquals(a, b) then Success(true)
    else if !(TypeofObject(a) && TypeofObject(b)) then Success(false)
    else if a.Arr? != b.Arr? then Success(false)
    else if a.Arr? then
      if |a.items| != |b.items| then Success(false)
      else CompareItems(a, b, 0)
    else
      match KeysDefinedIn(OwnKeys(a), b)
      case Failure(e) => Failure(e)
      case Success(false) => Success(false)
      case Success(true) =>
        match KeysDefinedIn(OwnKeys(b), a)
        case Failure(e) => Failure(e)
        case Success(false) => Success(false)
        case Success(true) => CompareMembers(a, b, 0)
  }

  /** The loop `for (i = k; i < A.length; i++) if (!recursiveCompare(A[i], B[i])) return false`. */
  function CompareItems(a: JSON, b: JSON, k: nat): (r: Result<bool, Exception>)
    requires a.Arr? && b.Arr? && |a.items| == |b.items| && k <= |a.items|
    decreases a, 1, |a.items| - k
  {
    if k == |a.items| then Success(true)
    else match RecursiveCompare(a.items[k], b.items[k])
      case Failure(e) => Failure(e)
      case Success(false) => Success(false)
      case Success(true) => CompareItems(a, b, k + 1)
  }

  /** A `for (key in …) if (other[key] === undefined …) return false` loop: whether
      every key is defined in `other`; reading a key of `null` throws. */
  function KeysDefinedIn(keys: seq<string>, other: JSON): (r: Result<bool, Exception>)
    ensures r.Failure? <==> keys != [] && other.Null?
  {
    if keys == [] then Success(true)
    else if other.Null? then Failure(TypeError)
    else if Member(other, keys[0]).None? then Success(false)
    else KeysDefinedIn(keys[1..], other)
  }

  /** The loop `for (key in A) if (!recursiveCompare(A[key], B[key])) return false`,
      from the `k`-th member of `A` on. */
  function CompareMembers(a: JSON, b: JSON, k: nat): (r: Result<bool, Exception>)
    requires a.Null? || a.Obj?
    requires a.Obj? ==> k <= |a.fields|
    decreases a, 1, if a.Obj? then |a.fields| - k else 0
  {
    if a.Null? || k == |a.fields| then Success(true)
    else
      var i := Lookup(a.fields, a.fields[k].0).value;
      var other := if b.Null? then None else Member(b, a.fields[k].0);
      if other.None? then Failure(TypeError)
      else match RecursiveCompare(a.fields[i].1, other.value)
        case Failure(e) => Failure(e)
        case Success(false) => Success(false)
        case Success(true) => CompareMembers(a, b, k + 1)
  }

  /** Deep equality of documents, the reference `recursiveCompare` is held to:
      arrays element by element, objects by their key sets and the values under
      each key (read as a property read reads them, the first member with the key). */
  predicate SameValue(a: JSON, b: JSON)
    decreases a, 1
  {
    match a
    case Arr(xs) => b.Arr? && |xs| == |b.items| && ItemsSame(a, b, 0)
    case Obj(fs) =>
      b.Obj? && KeysIn(Keys(b.fields), fs) && KeysIn(Keys(fs), b.fields) && MembersSame(a, b, 0)
    case _ => a == b
  }

  /** Elements from position `k` on are pairwise the same. */
  predicate ItemsSame(a: JSON, b: JSON, k: nat)
    requires a.Arr? && b.Arr? && |a.items| == |b.items|
    decreases a, 0
  {
    forall i :: k <= i < |a.items| ==> SameValue(a.items[i], b.items[i])
  }

  /** Every key names a member of `fields`. */
  predicate KeysIn(keys: seq<string>, fields: seq<(string, JSON)>)
  {
    forall i :: 0 <= i < |keys| ==> Lookup(fields, keys[i]).Some?
  }

  /** The value read under each key of `a`, from its `k`-th member on, is the
      same as the value read under that key in `b`. */
  predicate MembersSame(a: JSON, b: JSON, k: nat)
    requires a.Obj? && b.Obj? && KeysIn(Keys(a.fields), b.fields)
    decreases a, 0
  {
    forall m :: k <= m < |a.fields| ==>
      Keys(a.fields)[m] == a.fields[m].0 &&
      SameValue(a.fields[Lookup(a.fields, a.fields[m].0).value].1, b.fields[Lookup(b.fields, a.fields[m].0).value].1)
  }

  /** A document with no `null` anywhere in it. */
  predicate NullFree(v: JSON)
  {
    match v
    case Null => false
    case Arr(xs) => forall i :: 0 <= i < |xs| ==> NullFree(xs[i])
    case Obj(fs) => forall i :: 0 <= i < |fs| ==> NullFree(fs[i].1)
    case _ => true
  }

  /** `typeof null` is "object" and `null` has no keys, so it equals `{}`. */
  lemma NullEqualsEmptyObject()
    ensures RecursiveCompare(Null, Obj([])) == Success(true)
    ensures RecursiveCompare(Obj([]), Null) == Success(true)
  {
  }

  /** Comparing `null` with an object that has members reads a property of `null`. */
  lemma NullAgainstObjectThrows(fs: seq<(string, JSON)>)
    requires fs != []
    ensures RecursiveCompare(Null, Obj(fs)) == Failure(TypeError)
    ensures RecursiveCompare(Obj(fs), Null) == Failure(TypeError)
  {
  }

  /** An array never equals a non-array. */
  lemma ArrayNeverEqualsNonArray(a: JSON, b: JSON)
    requires a.Arr? != b.Arr?
    ensures RecursiveCompare(a, b) == Success(false)
  {
  }

  /** Every document equals itself, and the comparison cannot throw then. */
  lemma {:induction false} CompareReflexive(a: JSON)
    ensures RecursiveCompare(a, a) == Success(true)
    decreases a, 2
  {
    match a
    case Arr(xs) => CompareItemsReflexive(a, 0);
    case Obj(fs) =>
      KeysOfItself(a, Keys(fs));
      CompareMembersReflexive(a, 0);
    case _ =>
  }

  lemma {:induction false} CompareItemsReflexive(a: JSON, k: nat)
    requires a.Arr? && k <= |a.items|
    ensures CompareItems(a, a, k) == Success(true)
    decreases a, 1, |a.items| - k
  {
    if k < |a.items| {
      CompareReflexive(a.items[k]);
      CompareItemsReflexive(a, k + 1);
    }
  }

  lemma {:induction false} KeysOfItself(a: JSON, keys: seq<string>)
    requires a.Obj? && forall i :: 0 <= i < |keys| ==> Lookup(a.fields, keys[i]).Some?
    ensures KeysDefinedIn(keys, a) == Success(true)
  {
    if keys != [] {
      KeysOfItself(a, keys[1..]);
    }
  }

  lemma {:induction false} CompareMembersReflexive(a: JSON, k: nat)
    requires a.Obj? && k <= |a.fields|
    ensures CompareMembers(a, a, k) == Success(true)
    decreases a, 1, |a.fields| - k
  {
    if k < |a.fields| {
      var i := Lookup(a.fields, a.fields[k].0).value;
      CompareReflexive(a.fields[i].1);
      CompareMembersReflexive(a, k + 1);
    }
  }

  /** On documents without `null`, `recursiveCompare` never throws and decides
      exactly `SameValue`. */
  lemma {:induction false} CompareIsSameValue(a: JSON, b: JSON)
    requires NullFree(a) && NullFree(b)
    ensures RecursiveCompare(a, b) == Success(SameValue(a, b))
    decreases a, 2
  {
    match a
    case Arr(xs) =>
      if b.Arr? && |xs| == |b.items| {
        CompareItemsIsSameValue(a, b, 0);
      }
    case Obj(fs) =>
      if b.Obj? {
        KeysDefinedInIs(Keys(fs), b);
        KeysDefinedInIs(Keys(b.fields), a);
        if KeysIn(Keys(fs), b.fields) && KeysIn(Keys(b.fields), fs) {
          CompareMembersIsSameValue(a, b, 0);
        }
      }
    case _ =>
  }

  lemma {:induction false} CompareItemsIsSameValue(a: JSON, b: JSON, k: nat)
    requires a.Arr? && b.Arr? && |a.items| == |b.items| && k <= |a.items|
    requires NullFree(a) && NullFree(b)
    ensures CompareItems(a, b, k) == Success(ItemsSame(a, b, k))
    decreases a, 1, |a.items| - k
  {
    if k < |a.items| {
      var x, y := a.items[k], b.items[k];
      assert NullFree(x) && NullFree(y);
      CompareIsSameValue(x, y);
      CompareItemsIsSameValue(a, b, k + 1);
      assert ItemsSame(a, b, k) == (SameValue(x, y) && ItemsSame(a, b, k + 1));
    }
  }

  lemma {:induction false} KeysDefinedInIs(keys: seq<string>, other: JSON)
    requires other.Obj?
    ensures KeysDefinedIn(keys, other) == Success(KeysIn(keys, other.fields))
  {
    if keys != [] {
      KeysDefinedInIs(keys[1..], other);
      assert KeysIn(keys, other.fields) == (Lookup(other.fields, keys[0]).Some? && KeysIn(keys[1..], other.fields)) by {
        assert forall i :: 1 <= i < |keys| ==> keys[i] == keys[1..][i - 1];
      }
    }
  }

  lemma {:induction false} CompareMembersIsSameValue(a: JSON, b: JSON, k: nat)
    requires a.Obj? && b.Obj? && k <= |a.fields|
    requires NullFree(a) && NullFree(b)
    requires KeysIn(Keys(a.fields), b.fields)
    ensures CompareMembers(a, b, k) == Success(MembersSame(a, b, k))
    decreases a, 1, |a.fields| - k
  {
    if k < |a.fields| {
      var key := a.fields[k].0;
      assert Keys(a.fields)[k] == key;
      var i := Lookup(a.fields, key).value;
      var j := Lookup(b.fields, key).value;
      var x, y := a.fields[i].1, b.fields[j].1;
      assert NullFree(x) && NullFree(y);
      assert Member(b, key) == Some(y);
      CompareIsSameValue(x, y);
      CompareMembersIsSameValue(a, b, k + 1);
      assert MembersSame(a, b, k) == (SameValue(x, y) && MembersSame(a, b, k + 1));
    }
  }
}
