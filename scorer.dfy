/** The linear scorer and the score mapper: logit, sigmoid, credit score and
    rating. The exponential is a parameter; the proofs assume only that it is
    positive (and, for monotonicity, non-decreasing). */
module Scorer {
  import opened Artifact

  /** The rating buckets; `Undefined` is the fall-through for scores outside them. */
  datatype Rating = Poor | Average | Good | Excellent | Undefined

  /** What one scoring call returns. */
  datatype ScoreResult = ScoreResult(probability: real, creditScore: int, rating: Rating)

  /** The defaults of the score scale. */
  const BaseScore: real := 300.0
  const ScaleLength: real := 600.0

  ghost predicate PositiveValued(exp: real -> real)
  {
    forall y :: exp(y) > 0.0
  }

  ghost predicate NonDecreasing(exp: real -> real)
  {
    forall a, b :: a <= b ==> exp(a) <= exp(b)
  }

  /** The dot product of a feature vector with the coefficient vector. */
  function Dot(x: seq<real>, w: seq<real>): real
    requires |x| == |w|
  {
    if x == [] then 0.0 else x[0] * w[0] + Dot(x[1..], w[1..])
  }

  /** An all-zero feature vector has a zero dot product with any coefficients. */
  lemma {:induction false} DotOfZero(x: seq<real>, w: seq<real>)
    requires |x| == |w|
    ensures (forall i :: 0 <= i < |x| ==> x[i] == 0.0) ==> Dot(x, w) == 0.0
  {
    if x != [] && forall i :: 0 <= i < |x| ==> x[i] == 0.0 {
      assert forall i :: 0 <= i < |x[1..]| ==> x[1..][i] == x[i + 1];
      DotOfZero(x[1..], w[1..]);
    }
  }

  /** Changing one feature moves the dot product by the change times that
      feature's coefficient. */
  lemma {:induction false} DotUpdate(x: seq<real>, w: seq<real>, i: nat, v: real)
    requires |x| == |w| && i < |x|
    ensures Dot(x[i := v], w) == Dot(x, w) + (v - x[i]) * w[i]
  {
    if i == 0 {
      assert x[i := v][1..] == x[1..];
    } else {
      assert x[i := v][1..] == x[1..][i - 1 := v];
      DotUpdate(x[1..], w[1..], i - 1, v);
    }
  }

  /** The product of two non-negative reals is non-negative. */
  lemma SignOfProduct(a: real, b: real)
    requires a >= 0.0 && b >= 0.0
    ensures a * b >= 0.0
  {
  }

  /** Raising a feature whose coefficient is non-negative never lowers the logit. */
  lemma DotMonotone(x: seq<real>, w: seq<real>, i: nat, lo: real, hi: real)
    requires |x| == |w| && i < |x| && w[i] >= 0.0 && lo <= hi
    ensures Dot(x[i := lo], w) <= Dot(x[i := hi], w)
  {
    DotUpdate(x, w, i, lo);
    DotUpdate(x, w, i, hi);
    var gap := (hi - lo) * w[i];
    assert gap >= 0.0 by {
      SignOfProduct(hi - lo, w[i]);
    }
    assert (hi - x[i]) * w[i] == (lo - x[i]) * w[i] + gap;
  }

  /** The pre-sigmoid score: the intercept plus the weighted features, so an
      all-zero vector scores exactly the intercept. */
  function Logit(x: seq<real>, art: TrainedArtifact): (z: real)
    requires |x| == |art.coef|
    ensures (forall i :: 0 <= i < |x| ==> x[i] == 0.0) ==> z == art.intercept
  {
    DotOfZero(x, art.coef);
    Dot(x, art.coef) + art.intercept
  }

  /** The default probability: 1 / (1 + e^(-z)). */
  function Sigmoid(z: real, exp: real -> real): (p: real)
    requires PositiveValued(exp)
    ensures 0.0 < p < 1.0
    ensures p * (1.0 + exp(-z)) == 1.0
  {
    var d := 1.0 + exp(-z);
    assert d > 1.0;
    1.0 / d
  }

  /** A larger logit never gives a smaller default probability. */
  lemma SigmoidMonotone(z1: real, z2: real, exp: real -> real)
    requires PositiveValued(exp) && NonDecreasing(exp) && z1 <= z2
    ensures Sigmoid(z1, exp) <= Sigmoid(z2, exp)
  {
  }

  /** The credit score before truncation: the non-default probability mapped
      onto [baseScore, baseScore + scaleLength]. */
  function CreditScore(p: real, baseScore: real, scaleLength: real): (s: real)
    ensures 0.0 <= p <= 1.0 && scaleLength >= 0.0 ==> baseScore <= s <= baseScore + scaleLength
  {
    var q := 1.0 - p;
    assert 0.0 <= q <= 1.0 && scaleLength >= 0.0 ==> 0.0 <= q * scaleLength <= scaleLength;
    baseScore + q * scaleLength
  }

  /** With the default scale, every probability maps into [300, 900]. */
  lemma CreditScoreBounds(p: real)
    requires 0.0 <= p <= 1.0
    ensures 300.0 <= CreditScore(p, BaseScore, ScaleLength) <= 900.0
  {
  }

  /** A higher default probability never gives a higher score. */
  lemma CreditScoreAntitone(p1: real, p2: real, baseScore: real, scaleLength: real)
    requires p1 <= p2 && scaleLength >= 0.0
    ensures CreditScore(p2, baseScore, scaleLength) <= CreditScore(p1, baseScore, scaleLength)
  {
    assert (1.0 - p1) * scaleLength - (1.0 - p2) * scaleLength == (p2 - p1) * scaleLength;
  }

  /** Conversion of a real to an integer by dropping the fraction, that is,
      rounding toward zero. */
  function Truncate(x: real): (n: int)
    ensures x >= 0.0 ==> n >= 0 && n as real <= x < n as real + 1.0
    ensures x < 0.0 ==> n <= 0 && n as real - 1.0 < x <= n as real
  {
    if x >= 0.0 then x.Floor else -((-x).Floor)
  }

  /** Truncation never decreases along a non-decreasing pair. */
  lemma TruncateMonotone(x: real, y: real)
    requires x <= y
    ensures Truncate(x) <= Truncate(y)
  {
  }

  /** Truncation keeps a score between the truncations of the ends of its scale. */
  lemma TruncatedScoreOnScale(p: real, baseScore: real, scaleLength: real)
    requires 0.0 <= p <= 1.0
    ensures scaleLength >= 0.0 ==>
      Truncate(baseScore) <= Truncate(CreditScore(p, baseScore, scaleLength)) <= Truncate(baseScore + scaleLength)
  {
  }

  /** Truncation keeps every score of the default scale in [300, 900]. */
  lemma TruncatedScoreBounds(s: real)
    requires 300.0 <= s <= 900.0
    ensures 300 <= Truncate(s) <= 900
  {
  }

  /** The rating bucket of a score: lower bounds inclusive, 900 included. */
  function GetRating(score: real): (r: Rating)
    ensures r != Undefined <==> 300.0 <= score <= 900.0
  {
    if 300.0 <= score < 500.0 then Poor
    else if 500.0 <= score < 650.0 then Average
    else if 650.0 <= score < 750.0 then Good
    else if 750.0 <= score <= 900.0 then Excellent
    else Undefined
  }

  /** The buckets partition [300, 900]: each score there gets the bucket whose
      range holds it, and only scores outside it are `Undefined`. */
  lemma RatingPartition(score: real)
    ensures GetRating(score) == Poor <==> 300.0 <= score < 500.0
    ensures GetRating(score) == Average <==> 500.0 <= score < 650.0
    ensures GetRating(score) == Good <==> 650.0 <= score < 750.0
    ensures GetRating(score) == Excellent <==> 750.0 <= score <= 900.0
    ensures GetRating(score) == Undefined <==> score < 300.0 || score > 900.0
  {
  }

  /** The boundaries belong to the bucket above them, and 900 to the top one. */
  lemma RatingBoundaries()
    ensures GetRating(300.0) == Poor && GetRating(499.99) == Poor
    ensures GetRating(500.0) == Average && GetRating(649.999) == Average
    ensures GetRating(650.0) == Good && GetRating(750.0) == Excellent
    ensures GetRating(900.0) == Excellent && GetRating(900.01) == Undefined
  {
  }

  /** Rating a score and rating its truncation agree, except for the scores
      strictly between 900 and 901, none of which the default scale reaches. */
  lemma RatingOfTruncation(s: real)
    ensures GetRating(Truncate(s) as real) == GetRating(s) <==> !(900.0 < s < 901.0)
  {
  }

  /** Scores a feature vector: the logit, its default probability, the score
      on the given scale truncated to an integer, and the rating of the
      untruncated score. Vectors of the wrong length are rejected. */
  function CalculateCreditScore(x: seq<real>, art: TrainedArtifact, exp: real -> real,
                                baseScore: real, scaleLength: real): (r: Result<ScoreResult>)
    requires PositiveValued(exp)
    ensures r.Ok? <==> |x| == |art.coef|
    ensures r.Err? ==> r.error == DimensionMismatch
    ensures r.Ok? ==> 0.0 < r.value.probability < 1.0
    ensures r.Ok? && scaleLength >= 0.0 ==>
      Truncate(baseScore) <= r.value.creditScore <= Truncate(baseScore + scaleLength)
    ensures r.Ok? && baseScore == BaseScore && scaleLength == ScaleLength ==>
      && 300 <= r.value.creditScore <= 900
      && r.value.rating != Undefined
      && r.value.rating == GetRating(r.value.creditScore as real)
  {
    if |x| != |art.coef| then Err(DimensionMismatch)
    else
      var p := Sigmoid(Logit(x, art), exp);
      var s := CreditScore(p, baseScore, scaleLength);
      TruncatedScoreOnScale(p, baseScore, scaleLength);
      RatingOfTruncation(s);
      Ok(ScoreResult(p, Truncate(s), GetRating(s)))
  }

  /** A larger logit never gives a higher credit score, truncated or not. */
  lemma ScoreAntitoneInLogit(z1: real, z2: real, exp: real -> real)
    requires PositiveValued(exp) && NonDecreasing(exp) && z1 <= z2
    ensures CreditScore(Sigmoid(z2, exp), BaseScore, ScaleLength)
         <= CreditScore(Sigmoid(z1, exp), BaseScore, ScaleLength)
    ensures Truncate(CreditScore(Sigmoid(z2, exp), BaseScore, ScaleLength))
         <= Truncate(CreditScore(Sigmoid(z1, exp), BaseScore, ScaleLength))
  {
    SigmoidMonotone(z1, z2, exp);
    CreditScoreAntitone(Sigmoid(z1, exp), Sigmoid(z2, exp), BaseScore, ScaleLength);
    TruncateMonotone(CreditScore(Sigmoid(z2, exp), BaseScore, ScaleLength),
                     CreditScore(Sigmoid(z1, exp), BaseScore, ScaleLength));
  }

  /** Raising a feature whose coefficient is non-negative never raises the
      credit score the vector gets. */
  lemma FeatureRaisesNoScore(x: seq<real>, art: TrainedArtifact, exp: real -> real, i: nat, lo: real, hi: real)
    requires PositiveValued(exp) && NonDecreasing(exp)
    requires |x| == |art.coef| && i < |x| && art.coef[i] >= 0.0 && lo <= hi
    ensures CalculateCreditScore(x[i := hi], art, exp, BaseScore, ScaleLength).value.creditScore
         <= CalculateCreditScore(x[i := lo], art, exp, BaseScore, ScaleLength).value.creditScore
  {
    DotMonotone(x, art.coef, i, lo, hi);
    ScoreAntitoneInLogit(Logit(x[i := lo], art), Logit(x[i := hi], art), exp);
  }
}
