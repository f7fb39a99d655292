/** The scoring pipeline end to end: prepare the applicant's feature vector
    (build the record, normalize it in place, select the model's features in
    order), then score it on the default scale. */
module Prediction {
  import opened Artifact
  import opened Vectorizer
  import opened Normalizer
  import opened Scorer

  /** The feature vector the pipeline prepares for an applicant. */
  function PrepareSpec(x: ApplicantInput, art: TrainedArtifact): (r: Result<seq<real>>)
    requires art.WellFormed()
    ensures r.Err? ==>
      || (r.error.MissingColumn? && r.error.name in art.colsToScale && r.error.name !in Columns)
      || (r.error.MissingFeature? && r.error.name in art.features && r.error.name !in Columns)
  {
    match ScaleStatus(Columns, art.colsToScale)
    case Fail(e) => Err(e)
    case Pass => Reindex(Columns, NormalizeRow(Columns, Row(Vectorize(x)), art), art.features)
  }

  /** The artifact names only columns the record has: every column to scale
      and every model feature. */
  predicate Fits(art: TrainedArtifact)
  {
    && (forall c :: c in art.colsToScale ==> c in Columns)
    && (forall f :: f in art.features ==> f in Columns)
  }

  /** Preparing the vector succeeds exactly when the artifact fits the record,
      whatever the applicant, and then yields one value per model feature. */
  lemma PrepareSucceedsIff(x: ApplicantInput, art: TrainedArtifact)
    requires art.WellFormed()
    ensures PrepareSpec(x, art).Ok? <==> Fits(art)
    ensures PrepareSpec(x, art).Ok? ==> |PrepareSpec(x, art).value| == |art.features|
  {
  }

  /** Builds the applicant's record, normalizes its scaled columns in place and
      selects the model's features, in the model's order, from the result. */
  method PrepareInput(x: ApplicantInput, art: TrainedArtifact) returns (r: Result<seq<real>>)
    requires art.WellFormed()
    ensures r == PrepareSpec(x, art)
    ensures r.Ok? ==> |r.value| == |art.features|
  {
    var values := Row(Vectorize(x));
    var row := new real[|values|](i requires 0 <= i < |values| => values[i]);
    assert row[..] == values;
    ColumnsDistinct();
    var o := Normalize(row, Columns, art);
    if o.Fail? {
      return Err(o.error);
    }
    r := Reindex(Columns, row[..], art.features);
  }

  /** What the pipeline returns for an applicant. */
  function PredictSpec(x: ApplicantInput, art: TrainedArtifact, exp: real -> real): (r: Result<ScoreResult>)
    requires art.WellFormed() && PositiveValued(exp)
    ensures r.Ok? ==> 0.0 < r.value.probability < 1.0 && 300 <= r.value.creditScore <= 900
    ensures r.Ok? ==> r.value.rating != Undefined && r.value.rating == GetRating(r.value.creditScore as real)
  {
    match PrepareSpec(x, art)
    case Err(e) => Err(e)
    case Ok(v) => CalculateCreditScore(v, art, exp, BaseScore, ScaleLength)
  }

  /** Scores one applicant: a default probability in (0, 1), an integer
      credit score in [300, 900] and one of the four ratings. */
  method Predict(x: ApplicantInput, art: TrainedArtifact, exp: real -> real) returns (r: Result<ScoreResult>)
    requires art.WellFormed() && PositiveValued(exp)
    ensures r == PredictSpec(x, art, exp)
    ensures r.Ok? ==> 0.0 < r.value.probability < 1.0
    ensures r.Ok? ==> 300 <= r.value.creditScore <= 900
    ensures r.Ok? ==> r.value.rating != Undefined && r.value.rating == GetRating(r.value.creditScore as real)
  {
    var v := PrepareInput(x, art);
    if v.Err? {
      return Err(v.error);
    }
    r := CalculateCreditScore(v.value, art, exp, BaseScore, ScaleLength);
  }

  /** Each entry of the prepared vector is the normalization of the record's
      value under that feature's name. */
  lemma PreparedValues(x: ApplicantInput, art: TrainedArtifact, i: nat)
    requires art.WellFormed()
    requires Fits(art) && i < |art.features|
    ensures PrepareSpec(x, art).Ok? && IndexOf(Columns, art.features[i]).Some?
    ensures var j := IndexOf(Columns, art.features[i]).value;
      PrepareSpec(x, art).value[i] == NormalizeCell(art.features[i], Row(Vectorize(x))[j], art)
  {
    PrepareSucceedsIff(x, art);
  }

  /** A feature the artifact does not scale reaches the model with the value
      the record gave it; a placeholder feature it does not scale reaches it as 1. */
  lemma UnscaledFeaturesPassThrough(x: ApplicantInput, art: TrainedArtifact, i: nat)
    requires art.WellFormed()
    requires Fits(art) && i < |art.features|
    requires art.features[i] !in art.colsToScale
    ensures PrepareSpec(x, art).Ok? && IndexOf(Columns, art.features[i]).Some?
    ensures PrepareSpec(x, art).value[i] == Row(Vectorize(x))[IndexOf(Columns, art.features[i]).value]
    ensures art.features[i] in Placeholders ==> PrepareSpec(x, art).value[i] == 1.0
  {
    PreparedValues(x, art, i);
    if art.features[i] in Placeholders {
      PlaceholderColumn(art.features[i]);
      PlaceholdersAreOne(x);
    }
  }

  /** A direct feature the artifact does not scale reaches the model, by name,
      as the applicant's value, and `loan_to_income` as the guarded ratio. */
  lemma UnscaledDirectFeatures(x: ApplicantInput, art: TrainedArtifact, i: nat)
    requires art.WellFormed()
    requires Fits(art) && i < |art.features|
    requires art.features[i] !in art.colsToScale
    ensures PrepareSpec(x, art).Ok?
    ensures var f := art.features[i];
      var v := PrepareSpec(x, art).value[i];
      && (f == "age" ==> v == x.age)
      && (f == "loan_tenure_months" ==> v == x.loanTenureMonths)
      && (f == "number_of_open_accounts" ==> v == x.numOpenAccounts)
      && (f == "credit_utilization_ratio" ==> v == x.creditUtilizationRatio)
      && (f == "loan_to_income" ==> v == LoanToIncome(x.loanAmount, x.income))
      && (f == "delinquency_ratio" ==> v == x.delinquencyRatio)
      && (f == "avg_dpd_per_delinquency" ==> v == x.avgDpdPerDelinquency)
  {
    UnscaledFeaturesPassThrough(x, art, i);
    DirectColumnPositions();
    DirectFields(Vectorize(x));
  }

  /** A one-hot flag the artifact does not scale reaches the model, by name,
      as the indicator of its category. */
  lemma UnscaledFlagFeatures(x: ApplicantInput, art: TrainedArtifact, i: nat)
    requires art.WellFormed()
    requires Fits(art) && i < |art.features|
    requires art.features[i] !in art.colsToScale
    ensures PrepareSpec(x, art).Ok?
    ensures var f := art.features[i];
      var v := PrepareSpec(x, art).value[i];
      && (f == "residence_type_Owned" ==> v == Flag(x.residenceType, "Owned"))
      && (f == "residence_type_Rented" ==> v == Flag(x.residenceType, "Rented"))
      && (f == "loan_purpose_Education" ==> v == Flag(x.loanPurpose, "Education"))
      && (f == "loan_purpose_Home" ==> v == Flag(x.loanPurpose, "Home"))
      && (f == "loan_purpose_Personal" ==> v == Flag(x.loanPurpose, "Personal"))
      && (f == "loan_type_Unsecured" ==> v == Flag(x.loanType, "Unsecured"))
  {
    UnscaledFeaturesPassThrough(x, art, i);
    FlagColumnPositions();
    FlagFields(Vectorize(x));
  }

  /** A feature the artifact scales as its `p`-th column reaches the model as
      the `p`-th fitted transform of the record's value. */
  lemma ScaledFeaturesTransformed(x: ApplicantInput, art: TrainedArtifact, i: nat, p: nat)
    requires art.WellFormed()
    requires Fits(art) && i < |art.features|
    requires p < |art.colsToScale| && art.features[i] == art.colsToScale[p]
    ensures PrepareSpec(x, art).Ok? && IndexOf(Columns, art.features[i]).Some?
    ensures var v := Row(Vectorize(x))[IndexOf(Columns, art.features[i]).value];
      PrepareSpec(x, art).value[i] == (v - art.dataMin[p]) / (art.dataMax[p] - art.dataMin[p])
  {
    PreparedValues(x, art, i);
    IndexOfDistinct(art.colsToScale, p);
  }

  /** Scoring fails exactly when the artifact does not fit the record: a
      column to scale or a model feature the record lacks, or a coefficient
      vector whose length differs from the feature list. Whether it fails
      therefore never depends on the applicant. */
  lemma PredictFailsIff(x: ApplicantInput, art: TrainedArtifact, exp: real -> real)
    requires art.WellFormed() && PositiveValued(exp)
    ensures PredictSpec(x, art, exp).Err? <==>
      || (exists c :: c in art.colsToScale && c !in Columns)
      || (exists f :: f in art.features && f !in Columns)
      || |art.features| != |art.coef|
  {
  }
}
