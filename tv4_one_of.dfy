/** The bookkeeping of tv4's `oneOf` loop, stated over which alternatives
    pass: what the loop knows after each alternative, and what its result
    then says. */
module Tv4OneOf {
  import opened Wrappers
  import opened Tv4Errors
  import opened Tv4Validate

  /** No alternative before `i` passes except `validIndex`, which does. */
  predicate OneOfSoFar(ok: seq<bool>, i: nat, validIndex: Option<nat>)
    requires i <= |ok|
  {
    (validIndex.Some? ==> validIndex.value < i && ok[validIndex.value])
    && forall j :: 0 <= j < i && validIndex != Some(j) ==> !ok[j]
  }

  /** What the `oneOf` loop's result says about which alternatives pass: no
      error only when exactly one does, ONE_OF_MULTIPLE only when two do,
      ONE_OF_MISSING only when none does, and no other error. */
  predicate OneOfVerdict(ok: seq<bool>, r: Option<VError>)
  {
    (r.None? ==> exists p :: 0 <= p < |ok| && ok[p] && forall q :: 0 <= q < |ok| && q != p ==> !ok[q])
    && (r.Some? && r.value.code == Known(ONE_OF_MULTIPLE) ==> exists p, q :: 0 <= p < q < |ok| && ok[p] && ok[q])
    && (r.Some? && r.value.code == Known(ONE_OF_MISSING) ==> forall p :: 0 <= p < |ok| ==> !ok[p])
    && (r.Some? ==> r.value.code == Known(ONE_OF_MULTIPLE) || r.value.code == Known(ONE_OF_MISSING))
  }

  /** Past the last alternative, the loop's bookkeeping is the verdict. */
  lemma OneOfIsAtEnd(ok: seq<bool>, validIndex: Option<nat>, acc: seq<VError>)
    requires OneOfSoFar(ok, |ok|, validIndex)
    ensures OneOfVerdict(ok, if validIndex.None? then Some(OneOfMissing(acc)) else None)
  {
    if validIndex.Some? {
      var p := validIndex.value;
      assert ok[p] && forall q :: 0 <= q < |ok| && q != p ==> !ok[q];
    }
  }

  /** A second passing alternative is reported as ONE_OF_MULTIPLE. */
  lemma OneOfIsMultiple(ok: seq<bool>, i: nat, first: nat)
    requires i < |ok| && OneOfSoFar(ok, i, Some(first)) && ok[i]
    ensures OneOfVerdict(ok, Some(OneOfMultiple()))
  {
    assert 0 <= first < i < |ok| && ok[first] && ok[i];
  }

  /** The bookkeeping of the `oneOf` loop carries over one alternative. */
  lemma OneOfSoFarStep(ok: seq<bool>, i: nat, validIndex: Option<nat>)
    requires i < |ok| && OneOfSoFar(ok, i, validIndex)
    ensures ok[i] && validIndex.None? ==> OneOfSoFar(ok, i + 1, Some(i))
    ensures !ok[i] ==> OneOfSoFar(ok, i + 1, validIndex)
  {
  }

  /** What the `oneOf` loop reports: nothing, ONE_OF_MULTIPLE carrying
      nothing, or ONE_OF_MISSING carrying `gathered`. */
  predicate OneOfReported(r: Option<VError>, gathered: seq<VError>)
  {
    r.Some? ==> (r.value == OneOfMultiple()
                 || r.value == OneOfMissing(gathered))
  }

  /** The result of `oneOf`, given which alternatives pass (`ok`) and the
      errors gathered from all of them (`g`): no error exactly when one
      passes, ONE_OF_MULTIPLE exactly when two do and ONE_OF_MISSING exactly
      when none does; the first carries nothing, the second carries `g`. */
  predicate OneOfDecided(ok: seq<bool>, r: Option<VError>, g: seq<VError>)
  {
    OneOfCounted(ok, r) && OneOfCarries(r, g)
  }

  /** No error exactly when one alternative passes, ONE_OF_MULTIPLE exactly
      when two do and ONE_OF_MISSING exactly when none does. */
  predicate OneOfCounted(ok: seq<bool>, r: Option<VError>)
  {
    (r.None? <==> exists p :: 0 <= p < |ok| && ok[p] && forall q :: 0 <= q < |ok| && q != p ==> !ok[q])
    && (r.Some? && r.value.code == Known(ONE_OF_MULTIPLE) <==> exists p, q :: 0 <= p < q < |ok| && ok[p] && ok[q])
    && (r.Some? && r.value.code == Known(ONE_OF_MISSING) <==> forall p :: 0 <= p < |ok| ==> !ok[p])
  }

  /** ONE_OF_MULTIPLE carries nothing and ONE_OF_MISSING carries `g`. */
  predicate OneOfCarries(r: Option<VError>, g: seq<VError>)
  {
    (r.Some? && r.value.code == Known(ONE_OF_MULTIPLE) ==> r.value == OneOfMultiple())
    && (r.Some? && r.value.code == Known(ONE_OF_MISSING) ==> r.value == OneOfMissing(g))
  }

  /** The verdict and the two possible errors together decide the result. */
  lemma OneOfVerdictReported(ok: seq<bool>, r: Option<VError>, g: seq<VError>)
    requires OneOfVerdict(ok, r) && OneOfReported(r, g)
    ensures OneOfDecided(ok, r, g)
  {
  }
}
