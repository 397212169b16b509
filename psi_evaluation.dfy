/** The integer parts of psi.evaluation.js: losses summed over zipped test and
    predicted values, the memoised loss of a result, the label index and
    confusion matrix of a classification result, the choice of result kind
    from an attribute's `emits`, the argument check of a predictor
    comparator and the URI it fetches attribute values from. */
module PsiEvaluation {
  import opened Wrappers
  import opened Text
  import opened Json
  import opened Tv4Compare

  // ---- losses ----------------------------------------------------------------------------------

  /** A loss: its `name`, the per-position loss `l` and the `summarizer`
      applied to the total. Positions past the end of the shorter input read
      `undefined` (`None`). */
  datatype Loss = Loss(name: string, l: (Option<JSON>, Option<JSON>) -> int, summarizer: int -> int)

  /** `new Loss(name, l, summarizer)`: an omitted summarizer is the identity. */
  function NewLoss(name: string, l: (Option<JSON>, Option<JSON>) -> int, summarizer: Option<int -> int>): (r: Loss)
    ensures r.name == name && r.l == l
    ensures summarizer.Some? ==> r.summarizer == summarizer.value
    ensures summarizer.None? ==> forall s :: r.summarizer(s) == s
  {
    Loss(name, l, if summarizer.Some? then summarizer.value else s => s)
  }

  /** `a[i]`, `undefined` past the end. */
  function At(a: seq<JSON>, i: nat): Option<JSON>
  {
    if i < |a| then Some(a[i]) else None
  }

  function Longest(x: seq<JSON>, y: seq<JSON>): nat
  {
    if |x| >= |y| then |x| else |y|
  }

  /** `_.zip(x, y)`: as long as the longer input. */
  function Zip(x: seq<JSON>, y: seq<JSON>): (z: seq<(Option<JSON>, Option<JSON>)>)
    ensures |z| == Longest(x, y)
    ensures forall i | 0 <= i < |z| :: z[i] == (At(x, i), At(y, i))
  {
    seq(Longest(x, y), i requires 0 <= i < Longest(x, y) => (At(x, i), At(y, i)))
  }

  /** The `_.reduce` of `_sumLosses`, left to right from 0. */
  function SumLosses(l: (Option<JSON>, Option<JSON>) -> int, pairs: seq<(Option<JSON>, Option<JSON>)>): int
  {
    if pairs == [] then 0
    else SumLosses(l, pairs[..|pairs| - 1]) + l(pairs[|pairs| - 1].0, pairs[|pairs| - 1].1)
  }

  /** `loss.calculate(x, y)`: the summarizer of the summed losses. */
  function Calculate(loss: Loss, x: seq<JSON>, y: seq<JSON>): int
  {
    loss.summarizer(SumLosses(loss.l, Zip(x, y)))
  }

  /** `x === y` where either side may be `undefined`. */
  predicate Identical(x: Option<JSON>, y: Option<JSON>)
  {
    if x.Some? && y.Some? then StrictEquals(x.value, y.value) else x.None? && y.None?
  }

  /** `Loss.classification`: 0 for identical values, 1 otherwise. */
  function Classification(): (r: Loss)
    ensures r.name == "error"
    ensures forall x, y :: r.l(x, y) == (if Identical(x, y) then 0 else 1)
    ensures forall s :: r.summarizer(s) == s
  {
    Loss("error", (x, y) => if Identical(x, y) then 0 else 1, s => s)
  }

  /** The positions below `n` where the two inputs differ. */
  function Mismatches(x: seq<JSON>, y: seq<JSON>, n: nat): set<int>
  {
    set i | 0 <= i < n && !Identical(At(x, i), At(y, i))
  }

  lemma {:induction false} SumCountsMismatches(x: seq<JSON>, y: seq<JSON>, n: nat)
    requires n <= Longest(x, y)
    ensures SumLosses(Classification().l, Zip(x, y)[..n]) == |Mismatches(x, y, n)|
    ensures |Mismatches(x, y, n)| <= n
  {
    if n > 0 {
      var z := Zip(x, y);
      SumCountsMismatches(x, y, n - 1);
      assert z[..n][..n - 1] == z[..n - 1];
      var before := Mismatches(x, y, n - 1);
      assert n - 1 !in before;
      if Identical(At(x, n - 1), At(y, n - 1)) {
        assert Mismatches(x, y, n) == before;
      } else {
        assert Mismatches(x, y, n) == before + {n - 1};
      }
    }
  }

  /** The classification loss counts the positions where the test and the
      predicted values are not identical, padding the shorter with
      `undefined`; so it never exceeds the longer length. */
  lemma ClassificationCountsMismatches(x: seq<JSON>, y: seq<JSON>)
    ensures Calculate(Classification(), x, y) == |Mismatches(x, y, Longest(x, y))|
    ensures 0 <= Calculate(Classification(), x, y) <= Longest(x, y)
  {
    var z := Zip(x, y);
    SumCountsMismatches(x, y, |z|);
    assert z[..|z|] == z;
  }

  /** The classification loss is 0 exactly when the inputs have the same
      length and are identical position by position. */
  lemma ClassificationZeroIff(x: seq<JSON>, y: seq<JSON>)
    ensures Calculate(Classification(), x, y) == 0 <==>
            |x| == |y| && forall i | 0 <= i < |x| :: StrictEquals(x[i], y[i])
  {
    ClassificationCountsMismatches(x, y);
    var n := Longest(x, y);
    if |x| == |y| && forall i | 0 <= i < |x| :: StrictEquals(x[i], y[i]) {
      assert Mismatches(x, y, n) == {};
    } else if |x| < |y| {
      assert |x| in Mismatches(x, y, n);
    } else if |y| < |x| {
      assert |y| in Mismatches(x, y, n);
    } else {
      var i :| 0 <= i < |x| && !StrictEquals(x[i], y[i]);
      assert i in Mismatches(x, y, n);
    }
  }

  /** A result of an evaluation (`Result`): its loss, the loss's name, and
      the loss value once computed. */
  class EvaluationResult {
    const loss: Loss
    const errorName: string
    var lossValue: Option<int>

    /** `new Result(loss)`. */
    constructor(loss: Loss)
      ensures this.loss == loss && errorName == loss.name && lossValue == None
    {
      this.loss := loss;
      errorName := loss.name;
      lossValue := None;
    }

    /** `reviseLoss(testData, predData)`: the first call computes and keeps
        the loss; every later call returns the kept value, whatever it is
        given. */
    method ReviseLoss(testData: seq<JSON>, predData: seq<JSON>) returns (v: int)
      modifies this
      ensures old(lossValue).Some? ==> v == old(lossValue).value && lossValue == old(lossValue)
      ensures old(lossValue).None? ==> v == Calculate(loss, testData, predData) && lossValue == Some(v)
    {
      if lossValue.None? {
        lossValue := Some(Calculate(loss, testData, predData));
      }
      v := lossValue.value;
    }
  }

  // ---- labels ----------------------------------------------------------------------------------

  /** `_.uniq(testData)`: each value the first time it occurs. */
  function Uniq(s: seq<string>): seq<string>
  {
    if s == [] then []
    else
      var u := Uniq(s[..|s| - 1]);
      if s[|s| - 1] in u then u else u + [s[|s| - 1]]
  }

  predicate Distinct(u: seq<string>)
  {
    forall j, k | 0 <= j < k < |u| :: u[j] != u[k]
  }

  /** The position where `x` first occurs in `s`. */
  function FirstIndex(s: seq<string>, x: string): (r: nat)
    requires x in s
    ensures r < |s| && s[r] == x && x !in s[..r]
  {
    if x in s[..|s| - 1] then FirstIndex(s[..|s| - 1], x) else |s| - 1
  }

  /** The labels are the test values, each once. */
  lemma {:induction false} UniqElements(s: seq<string>)
    ensures Distinct(Uniq(s))
    ensures forall x :: x in Uniq(s) <==> x in s
  {
    if s != [] {
      var p := s[..|s| - 1];
      UniqElements(p);
      assert s == p + [s[|s| - 1]];
    }
  }

  /** The labels keep the order in which the test values first occur. */
  lemma {:induction false} UniqFirstOccurrenceOrder(s: seq<string>)
    ensures forall x | x in Uniq(s) :: x in s
    ensures forall j, k | 0 <= j < k < |Uniq(s)| :: FirstIndex(s, Uniq(s)[j]) < FirstIndex(s, Uniq(s)[k])
  {
    UniqElements(s);
    if s != [] {
      var p := s[..|s| - 1];
      UniqFirstOccurrenceOrder(p);
      UniqElements(p);
      var u := Uniq(s);
      forall j, k | 0 <= j < k < |u|
        ensures FirstIndex(s, u[j]) < FirstIndex(s, u[k])
      {
        assert u[j] in Uniq(p);
        assert u[j] in p;
        if k < |Uniq(p)| {
          assert u[k] in Uniq(p);
        }
      }
    }
  }

  /** `labelToIndex` after the first `n` turns of its loop. */
  function IndexMap(labels: seq<string>, n: nat): map<string, int>
    requires n <= |labels|
  {
    if n == 0 then map[] else IndexMap(labels, n - 1)[labels[n - 1] := n - 1]
  }

  lemma {:induction false} IndexMapPrefix(labels: seq<string>, n: nat)
    requires n <= |labels| && Distinct(labels)
    ensures forall i | 0 <= i < n :: labels[i] in IndexMap(labels, n) && IndexMap(labels, n)[labels[i]] == i
    ensures forall k | k in IndexMap(labels, n) :: 0 <= IndexMap(labels, n)[k] < n && labels[IndexMap(labels, n)[k]] == k
    ensures forall k :: k in IndexMap(labels, n) <==> k in labels[..n]
  {
    if n > 0 {
      IndexMapPrefix(labels, n - 1);
    }
  }

  /** With distinct labels, `labelToIndex` is the exact inverse of `labels`. */
  lemma IndexMapInverse(labels: seq<string>)
    requires Distinct(labels)
    ensures forall i | 0 <= i < |labels| :: labels[i] in IndexMap(labels, |labels|) && IndexMap(labels, |labels|)[labels[i]] == i
    ensures forall k | k in IndexMap(labels, |labels|) ::
              0 <= IndexMap(labels, |labels|)[k] < |labels| && labels[IndexMap(labels, |labels|)[k]] == k
    ensures forall k :: k in IndexMap(labels, |labels|) <==> k in labels
  {
    IndexMapPrefix(labels, |labels|);
    assert labels[..|labels|] == labels;
  }

  /** The `for` loop that fills `labelToIndex`. */
  method IndexLabels(labels: seq<string>) returns (m: map<string, int>)
    ensures m == IndexMap(labels, |labels|)
  {
    m := map[];
    var i := 0;
    while i < |labels|
      invariant 0 <= i <= |labels| && m == IndexMap(labels, i)
    {
      m := m[labels[i] := i];
      i := i + 1;
    }
  }

  // ---- the confusion matrix --------------------------------------------------------------------

  /** A labels-by-labels matrix of zeros. */
  function Zeros(n: nat): (m: seq<seq<int>>)
    ensures |m| == n && forall t | 0 <= t < n :: |m[t]| == n && forall p | 0 <= p < n :: m[t][p] == 0
  {
    seq(n, _ => seq(n, _ => 0))
  }

  /** `predData[i]` as a property key: "undefined" past its end. */
  function PredKey(pred: seq<string>, i: nat): string
  {
    if i < |pred| then pred[i] else "undefined"
  }

  predicate Square(m: seq<seq<int>>, n: nat)
  {
    |m| == n && forall t | 0 <= t < n :: |m[t]| == n
  }

  /** The confusion matrix after the first `n` test items. A test value is
      always a label; a prediction that is not one increments no cell. */
  function Confusion(test: seq<string>, pred: seq<string>, n: nat): (m: seq<seq<int>>)
    requires n <= |test|
    ensures Square(m, |Uniq(test)|)
  {
    var labels := Uniq(test);
    var idx := IndexMap(labels, |labels|);
    if n == 0 then Zeros(|labels|)
    else
      var m := Confusion(test, pred, n - 1);
      UniqElements(test);
      IndexMapInverse(labels);
      var key := PredKey(pred, n - 1);
      if key in idx then
        var t, p := idx[test[n - 1]], idx[key];
        m[t := m[t][p := m[t][p] + 1]]
      else m
  }

  /** The test items below `n` whose value is `a` and whose prediction reads `b`. */
  function CountPairs(test: seq<string>, pred: seq<string>, a: string, b: string, n: nat): nat
    requires n <= |test|
  {
    if n == 0 then 0
    else CountPairs(test, pred, a, b, n - 1) + (if test[n - 1] == a && PredKey(pred, n - 1) == b then 1 else 0)
  }

  /** Cell `[t][p]` counts the items whose value is label `t` and whose
      prediction is label `p`. */
  lemma {:induction false} ConfusionCounts(test: seq<string>, pred: seq<string>, n: nat)
    requires n <= |test|
    ensures forall t, p | 0 <= t < |Uniq(test)| && 0 <= p < |Uniq(test)| ::
              Confusion(test, pred, n)[t][p] == CountPairs(test, pred, Uniq(test)[t], Uniq(test)[p], n)
  {
    var labels := Uniq(test);
    if n > 0 {
      ConfusionCounts(test, pred, n - 1);
      forall t, p | 0 <= t < |labels| && 0 <= p < |labels|
        ensures Confusion(test, pred, n)[t][p] == CountPairs(test, pred, labels[t], labels[p], n)
      {
        ConfusionCell(test, pred, n, t, p);
      }
    }
  }

  /** One test item moves one cell's count, the cell of its value and its
      prediction, and no other. */
  lemma ConfusionCell(test: seq<string>, pred: seq<string>, n: nat, t: nat, p: nat)
    requires 0 < n <= |test| && t < |Uniq(test)| && p < |Uniq(test)|
    requires Confusion(test, pred, n - 1)[t][p] == CountPairs(test, pred, Uniq(test)[t], Uniq(test)[p], n - 1)
    ensures Confusion(test, pred, n)[t][p] == CountPairs(test, pred, Uniq(test)[t], Uniq(test)[p], n)
  {
    var labels := Uniq(test);
    UniqElements(test);
    IndexMapInverse(labels);
    var idx := IndexMap(labels, |labels|);
    var key := PredKey(pred, n - 1);
    var m := Confusion(test, pred, n - 1);
    if key in idx {
      var a, b := idx[test[n - 1]], idx[key];
      assert Confusion(test, pred, n) == m[a := m[a][b := m[a][b] + 1]];
      assert labels[t] == test[n - 1] <==> t == a;
      assert labels[p] == key <==> p == b;
    } else {
      assert Confusion(test, pred, n) == m;
      assert labels[p] != key;
    }
  }

  function RowSum(row: seq<int>): int
  {
    if row == [] then 0 else RowSum(row[..|row| - 1]) + row[|row| - 1]
  }

  /** The sum of every cell. */
  function Total(m: seq<seq<int>>): int
  {
    if m == [] then 0 else Total(m[..|m| - 1]) + RowSum(m[|m| - 1])
  }

  lemma {:induction false} RowSumIncrement(row: seq<int>, p: nat)
    requires p < |row|
    ensures RowSum(row[p := row[p] + 1]) == RowSum(row) + 1
  {
    var r := row[p := row[p] + 1];
    if p < |row| - 1 {
      RowSumIncrement(row[..|row| - 1], p);
      assert r[..|r| - 1] == row[..|row| - 1][p := row[p] + 1];
    } else {
      assert r[..|r| - 1] == row[..|row| - 1];
    }
  }

  lemma {:induction false} TotalIncrement(m: seq<seq<int>>, t: nat, p: nat)
    requires t < |m| && p < |m[t]|
    ensures Total(m[t := m[t][p := m[t][p] + 1]]) == Total(m) + 1
  {
    var r := m[t := m[t][p := m[t][p] + 1]];
    if t < |m| - 1 {
      TotalIncrement(m[..|m| - 1], t, p);
      assert r[..|r| - 1] == m[..|m| - 1][t := m[t][p := m[t][p] + 1]];
    } else {
      RowSumIncrement(m[t], p);
      assert r[..|r| - 1] == m[..|m| - 1];
    }
  }

  lemma {:induction false} TotalZeros(m: seq<seq<int>>)
    requires forall t | 0 <= t < |m| :: forall p | 0 <= p < |m[t]| :: m[t][p] == 0
    ensures Total(m) == 0
  {
    if m != [] {
      TotalZeros(m[..|m| - 1]);
      RowSumZeros(m[|m| - 1]);
    }
  }

  lemma {:induction false} RowSumZeros(row: seq<int>)
    requires forall p | 0 <= p < |row| :: row[p] == 0
    ensures RowSum(row) == 0
  {
    if row != [] {
      RowSumZeros(row[..|row| - 1]);
    }
  }

  /** The test items below `n` whose prediction reads as a label. */
  function KnownPredictions(test: seq<string>, pred: seq<string>, n: nat): nat
    requires n <= |test|
  {
    if n == 0 then 0
    else KnownPredictions(test, pred, n - 1) + (if PredKey(pred, n - 1) in Uniq(test) then 1 else 0)
  }

  /** The cells add up to the number of items whose prediction is a label;
      when every prediction is one, to the number of test items. */
  lemma {:induction false} ConfusionTotal(test: seq<string>, pred: seq<string>, n: nat)
    requires n <= |test|
    ensures Total(Confusion(test, pred, n)) == KnownPredictions(test, pred, n)
    ensures (forall i | 0 <= i < n :: PredKey(pred, i) in Uniq(test)) ==> Total(Confusion(test, pred, n)) == n
  {
    var labels := Uniq(test);
    UniqElements(test);
    IndexMapInverse(labels);
    if n == 0 {
      TotalZeros(Zeros(|labels|));
    } else {
      ConfusionTotal(test, pred, n - 1);
      var m := Confusion(test, pred, n - 1);
      var idx := IndexMap(labels, |labels|);
      var key := PredKey(pred, n - 1);
      if key in idx {
        TotalIncrement(m, idx[test[n - 1]], idx[key]);
      }
    }
  }

  /** The loop that fills the confusion matrix, one test item at a time. */
  method CountConfusions(test: seq<string>, pred: seq<string>, idx: map<string, int>) returns (m: seq<seq<int>>)
    requires idx == IndexMap(Uniq(test), |Uniq(test)|)
    ensures m == Confusion(test, pred, |test|)
  {
    var labels := Uniq(test);
    UniqElements(test);
    IndexMapInverse(labels);
    m := Zeros(|labels|);
    var i := 0;
    while i < |test|
      invariant 0 <= i <= |test| && m == Confusion(test, pred, i)
    {
      var key := if i < |pred| then pred[i] else "undefined";
      if key in idx {
        var t, p := idx[test[i]], idx[key];
        m := m[t := m[t][p := m[t][p] + 1]];
      }
      i := i + 1;
    }
  }

  /** The values of a `$string` attribute as data. */
  function AsValues(s: seq<string>): (r: seq<JSON>)
    ensures |r| == |s| && forall i | 0 <= i < |s| :: r[i] == Str(s[i])
  {
    seq(|s|, i requires 0 <= i < |s| => Str(s[i]))
  }

  /** `new ClassificationResult(testData, predData)`, as far as its integer
      parts go: the loss, the labels, their index and the confusion matrix. */
  class ClassificationResult {
    var lossValue: Option<int>
    var labels: seq<string>
    var labelToIndex: map<string, int>
    var confusionMatrix: seq<seq<int>>

    constructor(testData: seq<string>, predData: seq<string>)
      ensures lossValue == Some(Calculate(Classification(), AsValues(testData), AsValues(predData)))
      ensures labels == Uniq(testData)
      ensures labelToIndex == IndexMap(labels, |labels|)
      ensures confusionMatrix == Confusion(testData, predData, |testData|)
    {
      lossValue := Some(Calculate(Classification(), AsValues(testData), AsValues(predData)));
      labels := Uniq(testData);
      var idx := IndexLabels(Uniq(testData));
      labelToIndex := idx;
      var matrix := CountConfusions(testData, predData, idx);
      confusionMatrix := matrix;
    }
  }

  // ---- choosing the result kind ----------------------------------------------------------------

  /** The result constructors `determineResultClass` can return; `Unsupported` is `null`. */
  datatype ResultKind = Regression | Classifying | Unsupported

  /** `_.isObject(v)`: objects and arrays. */
  predicate IsObject(v: JSON)
  {
    v.Obj? || v.Arr?
  }

  /** The `emits` type name: an object's first key, otherwise `emits` itself. */
  function EmittedType(emits: Option<JSON>): (r: Option<JSON>)
    ensures emits.Some? && emits.value.Obj? && emits.value.fields != [] ==> r == Some(Str(emits.value.fields[0].0))
    ensures emits.Some? && IsObject(emits.value) && ForInKeys(emits.value) == [] ==> r.None?
    ensures !(emits.Some? && IsObject(emits.value)) ==> r == emits
  {
    if emits.Some? && IsObject(emits.value) then
      var ks := ForInKeys(emits.value);
      if ks == [] then None else Some(Str(ks[0]))
    else emits
  }

  /** `determineResultClass(attr)`. */
  function DetermineResultClass(attr: JSON): (r: Result<ResultKind, Exception>)
    ensures attr.Null? ==> r == Failure(TypeError)
    ensures r == Success(Regression) <==> !attr.Null? && EmittedType(Member(attr, "emits")) == Some(Str("$number"))
    ensures r == Success(Classifying) <==>
              !attr.Null? &&
              var emits := Member(attr, "emits");
              emits.Some? && EmittedType(emits) == Some(Str("$string"))
              && Defined(Member(emits.value, "$string"))
              && OptTruthy(Member(Member(emits.value, "$string").value, "enum"))
    ensures r == Success(Unsupported) <==>
              !attr.Null? &&
              var emits := Member(attr, "emits");
              EmittedType(emits) != Some(Str("$number"))
              && (emits.Some? && EmittedType(emits) == Some(Str("$string")) ==>
                    Defined(Member(emits.value, "$string"))
                    && !OptTruthy(Member(Member(emits.value, "$string").value, "enum")))
    ensures r.Failure? <==>
              attr.Null? ||
              var emits := Member(attr, "emits");
              emits.Some? && EmittedType(emits) == Some(Str("$string")) && !Defined(Member(emits.value, "$string"))
    ensures r.Failure? ==> r.error == TypeError
  {
    if attr.Null? then Failure(TypeError)
    else
      var emits := Member(attr, "emits");
      var kind := EmittedType(emits);
      if kind == Some(Str("$number")) then Success(Regression)
      else if kind == Some(Str("$string")) then
        var schema := Member(emits.value, "$string");
        if !Defined(schema) then Failure(TypeError)
        else if OptTruthy(Member(schema.value, "enum")) then Success(Classifying)
        else Success(Unsupported)
      else Success(Unsupported)
  }

  // ---- comparing predictors --------------------------------------------------------------------

  /** The argument check of `new PredictorComparator(options)`: source and
      target attributes and a non-empty array of predictors. */
  function CheckComparatorOptions(options: JSON): (r: Result<(), Exception>)
    ensures options.Null? ==> r == Failure(TypeError)
    ensures r.Success? <==>
              options.Obj?
              && OptTruthy(Get(options.fields, "sourceAttribute"))
              && OptTruthy(Get(options.fields, "targetAttribute"))
              && Get(options.fields, "predictors").Some?
              && Get(options.fields, "predictors").value.Arr?
              && |Get(options.fields, "predictors").value.items| > 0
  {
    if options.Null? then Failure(TypeError)
    else
      var predictors := Member(options, "predictors");
      if OptTruthy(Member(options, "sourceAttribute")) && OptTruthy(Member(options, "targetAttribute"))
         && OptTruthy(predictors) && predictors.value.Arr? && |predictors.value.items| > 0
      then Success(())
      else Failure(Error)
  }

  /** `getAttributeValues(uri)`: the URI with `instance=all` added to its query. */
  function AttributeValuesURI(uri: string): string
  {
    uri + (if '?' in uri then "&" else "?") + "instance=all"
  }

  /** The added parameter never moves the start of the query: the first `?`
      stays where it was, or is the one added after a URI without a query. */
  lemma {:induction false} AttributeValuesQuery(uri: string)
    ensures EndsWith(AttributeValuesURI(uri), "instance=all")
    ensures StartsWith(AttributeValuesURI(uri), uri)
    ensures '?' in uri ==> IndexOf(AttributeValuesURI(uri), '?') == IndexOf(uri, '?')
    ensures '?' !in uri ==> IndexOf(AttributeValuesURI(uri), '?') == Some(|uri|)
  {
    var r := AttributeValuesURI(uri);
    assert r[..|uri|] == uri;
    IndexOfExtends(uri, r[|uri|..], '?');
  }

  /** Text appended after a string does not change where a character first
      occurs in it, and after a string without it, the first occurrence is
      the first one in the appended text. */
  lemma {:induction false} IndexOfExtends(s: string, t: string, c: char)
    ensures c in s ==> IndexOf(s + t, c) == IndexOf(s, c)
    ensures c !in s && t != [] && t[0] == c ==> IndexOf(s + t, c) == Some(|s|)
  {
    if s != [] {
      assert (s + t)[1..] == s[1..] + t;
      IndexOfExtends(s[1..], t, c);
    } else {
      assert s + t == t;
    }
  }
}
