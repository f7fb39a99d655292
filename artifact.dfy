/** The trained artifact the scoring pipeline reads, the errors the pipeline
    can raise, and the name-lookup helper the pipeline's tables rely on. */
module Artifact {

  /** A value that may be absent. */
  datatype Option<T> = None | Some(value: T)

  /** The failures of the scoring path. Each one is a configuration mismatch
      between the prepared record and the artifact, never a user error. */
  datatype Error =
    | MissingColumn(name: string)   // a column to scale is not in the prepared record
    | MissingFeature(name: string)  // a model feature is not in the prepared record
    | DimensionMismatch             // feature vector and coefficient vector differ in length

  /** The outcome of a step that produces a value. */
  datatype Result<T> = Ok(value: T) | Err(error: Error)

  /** The outcome of a step that only succeeds or fails. */
  datatype Outcome = Pass | Fail(error: Error)

  /** No element occurs twice. */
  predicate Distinct<T(==)>(s: seq<T>)
  {
    forall i, j :: 0 <= i < j < |s| ==> s[i] != s[j]
  }

  /** No element of `a` occurs in `b`. */
  predicate Disjoint<T(==)>(a: seq<T>, b: seq<T>)
  {
    forall i, j :: 0 <= i < |a| && 0 <= j < |b| ==> a[i] != b[j]
  }

  /** Joining two repetition-free, disjoint sequences gives a repetition-free one. */
  lemma DistinctConcat<T>(a: seq<T>, b: seq<T>)
    requires Distinct(a) && Distinct(b) && Disjoint(a, b)
    ensures Distinct(a + b)
  {
    forall i, j | 0 <= i < j < |a + b| ensures (a + b)[i] != (a + b)[j] {
      if i >= |a| {
        assert (a + b)[i] == b[i - |a|];
      }
      if j >= |a| {
        assert (a + b)[j] == b[j - |a|];
      }
    }
  }

  /** Two sequences disjoint from `c` join into one disjoint from `c`. */
  lemma DisjointConcat<T>(a: seq<T>, b: seq<T>, c: seq<T>)
    requires Disjoint(a, c) && Disjoint(b, c)
    ensures Disjoint(a + b, c)
  {
    forall i, j | 0 <= i < |a + b| && 0 <= j < |c| ensures (a + b)[i] != c[j] {
      if i >= |a| {
        assert (a + b)[i] == b[i - |a|];
      }
    }
  }

  /** The position of the first occurrence of `x` in `s`, as a lookup by column
      name resolves it; `None` when `x` does not occur. */
  function IndexOf<T(==)>(s: seq<T>, x: T): (r: Option<nat>)
    ensures r.Some? <==> x in s
    ensures r.Some? ==> r.value < |s| && s[r.value] == x && x !in s[..r.value]
  {
    if s == [] then None
    else if s[0] == x then Some(0)
    else match IndexOf(s[1..], x)
      case None => None
      case Some(k) =>
        assert s[1..][..k] == s[1..k + 1];
        Some(k + 1)
  }

  /** In a sequence without repetitions, looking up the element at `k` finds `k`. */
  lemma IndexOfDistinct<T>(s: seq<T>, k: nat)
    requires Distinct(s) && k < |s|
    ensures IndexOf(s, s[k]) == Some(k)
  {
  }

  /** The persisted bundle loaded once at start-up: the logistic-regression
      coefficients and intercept, the canonical feature order, the columns the
      min-max scaler was fitted on and, per such column, the minimum and maximum
      seen in training. */
  datatype TrainedArtifact = TrainedArtifact(
    coef: seq<real>,
    intercept: real,
    features: seq<string>,
    colsToScale: seq<string>,
    dataMin: seq<real>,
    dataMax: seq<real>)
  {
    /** Assumptions about how the bundle was built, not guarantees of the
        scaler: `cols_to_scale` lists each column once and has one fitted
        (min, max) pair per entry, and every training range is non-empty. */
    predicate WellFormed()
    {
      && |dataMin| == |colsToScale|
      && |dataMax| == |colsToScale|
      && Distinct(colsToScale)
      && forall p :: 0 <= p < |colsToScale| ==> dataMin[p] < dataMax[p]
    }
  }
}
