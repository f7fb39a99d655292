# Credit-risk scoring pipeline, modelled in Dafny

This project models the scoring path of the CrediSure credit-risk app. Eleven
applicant values pass through four steps:

1. A feature vectorizer builds the one-row record the trained artifact
   expects. It holds the guarded loan-to-income ratio, baseline-style one-hot
   flags and eleven constant placeholder columns.
2. A normalizer overwrites, in place, the columns the fitted min-max scaler
   covers.
3. The model's features are selected from the record in the artifact's
   canonical order.
4. A linear scorer and a score mapper compute the logit, the sigmoid default
   probability, the 300–900 credit score (truncated to an integer) and the
   four-bucket rating.

Modules, one per component:

- `Artifact` (artifact.dfy): the trained artifact, passed in as an immutable
  value; the pipeline's error values; lookup by name.
- `Vectorizer` (vectorizer.dfy): the applicant input, the record built from
  it, its column order, and the selection of the model's features.
- `Normalizer` (normalizer.dfy): the per-column transform, its specification
  on sequences, and the in-place method over an `array<real>`.
- `Scorer` (scorer.dfy): dot product, sigmoid, credit score, truncation,
  rating, and `CalculateCreditScore`.
- `Prediction` (prediction.dfy): `PrepareInput` and `Predict`, both methods,
  and the functions that specify them.

Three of the errors the source can raise on the scoring path depend on what
the record holds, and the model returns each as an `Err` value instead of
excluding it by a precondition:

- a column to scale that the record lacks (the selection at
  prediction_helper.py:68);
- a model feature that the record lacks (the selection at line 71);
- a coefficient vector whose length differs from the feature vector's (the
  dot product at line 82).

A fourth, the scaler's own ValueError at line 68 when `cols_to_scale` does not
match the columns the scaler was fitted on, is excluded instead: `WellFormed`
assumes the bundle was built consistently (see "Left out").

All numbers are `real`. The exponential is passed in as a function. The
proofs assume only that it is positive; the monotonicity lemmas also assume
that it is non-decreasing.

Three points where the code's behaviour is easy to misread, and which the
model takes from the code:

- The categorical inputs are strings that the code compares with literals.
  Any value other than a flagged category raises no flag, not just the
  baselines Mortgage, Auto and Secured.
- The rating is computed from the untruncated score (line 104), not from the
  integer score. `RatingOfTruncation` shows that the two agree everywhere
  except on the open interval (900, 901), which the default scale never
  reaches.
- The code does not check the input ranges the form enforces (age at least
  18, ratios in [0, 100], and so on), so the model places no precondition on
  the applicant input.

## Model

| member | source | states |
|---|---|---|
| Vectorizer.ColumnsDistinct | prediction_helper.py:33-62 | the record has 24 columns and no two of them share a name |
| Vectorizer.LoanToIncome | prediction_helper.py:38 | for a positive income the ratio times the income gives back the loan amount; for a zero or negative income the ratio is exactly 0, so it never divides by zero |
| Vectorizer.Vectorize | prediction_helper.py:33-62 | the pass-through fields copy their inputs; loan_to_income is guarded as above; each one-hot flag is 1 exactly when its input equals that category's string |
| Vectorizer.FlagsOneHot | prediction_helper.py:43-48 | every flag is 0 or 1; at most one residence flag and at most one purpose flag is 1 |
| Vectorizer.BaselinesRaiseNoFlag | prediction_helper.py:43-48 | a group's flags are all 0 exactly when the value is none of the flagged categories; in particular Mortgage, Auto and Secured raise no flag |
| Vectorizer.Row | prediction_helper.py:33-65 | the DataFrame's one row, in the dictionary's key order: one value per record column, 24 in all; the position lemmas and field lemmas below fix which name each value has |
| Vectorizer.DirectColumnPositions | prediction_helper.py:34-40 | looking up each of the seven direct column names finds it at its own place, 0 to 6 |
| Vectorizer.FlagColumnPositions | prediction_helper.py:43-48 | looking up each of the six flag column names finds it at its own place, 7 to 12 |
| Vectorizer.DirectFields | prediction_helper.py:34-40 | the row's first seven values are the record's direct fields, in key order |
| Vectorizer.FlagFields | prediction_helper.py:43-48 | the row's values 7 to 12 are the record's one-hot flags, in key order |
| Vectorizer.PlaceholdersAreOne | prediction_helper.py:51-61 | the eleven placeholder columns hold 1 for every applicant |
| Vectorizer.Reindex | prediction_helper.py:71 | the selection succeeds exactly when every feature name is a column of the record; a missing name is a MissingFeature error, not a default; on success the result has one entry per feature, in the feature list's order, each the value of the column with that name |
| Normalizer.MinMax | prediction_helper.py:68 | the transform is affine and invertible: min + result * (max - min) gives back the raw value |
| Normalizer.MinMaxInUnitIff | prediction_helper.py:68 | the result lies in [0, 1] exactly when the raw value lies in [min, max]; below min it is negative and above max it exceeds 1, so nothing is clamped |
| Normalizer.ScaleStatus | prediction_helper.py:68 | the scaled-column selection passes exactly when every column to scale is in the record; otherwise it fails with a MissingColumn that names a column the record lacks |
| Normalizer.NormalizeCell | prediction_helper.py:68 | a column not in cols_to_scale keeps its value; the column listed as the p-th one to scale gets the p-th fitted transform |
| Normalizer.NormalizeRow | prediction_helper.py:68 | normalization keeps the row's length; the value of each column is stated by the next two lemmas |
| Normalizer.NormalizeKeepsUnscaled | prediction_helper.py:68 | a column outside cols_to_scale keeps its value |
| Normalizer.NormalizeScalesListed | prediction_helper.py:68 | the column scaled as the p-th one becomes (v - min_p) / (max_p - min_p) |
| Normalizer.ResolveColumns | prediction_helper.py:68 | every column to scale is looked up before anything is written; it reports the same outcome as ScaleStatus and, on success, the position of each column in the record |
| Normalizer.ScaleOneColumn | prediction_helper.py:68 | writing the k-th column to scale at its position keeps every other column unchanged and extends the set of normalized columns by that one |
| Normalizer.Normalize | prediction_helper.py:68 | overwrites the array in place; on success the new contents are the normalization of the old contents; on failure the array is unchanged |
| Scorer.DotOfZero | prediction_helper.py:82 | an all-zero feature vector has a zero dot product with any coefficient vector |
| Scorer.Logit | prediction_helper.py:82 | the logit of an all-zero vector is exactly the intercept; DotUpdate gives the effect of each feature on top of it |
| Scorer.DotUpdate | prediction_helper.py:82 | changing one feature moves the dot product by the change times that feature's coefficient |
| Scorer.DotMonotone | prediction_helper.py:82 | raising a feature with a non-negative coefficient never lowers the logit |
| Scorer.Sigmoid | prediction_helper.py:85 | the default probability is strictly between 0 and 1, and p * (1 + e^(-z)) = 1 |
| Scorer.SigmoidMonotone | prediction_helper.py:85 | for a non-decreasing exponential, a larger logit never gives a smaller probability |
| Scorer.CreditScore | prediction_helper.py:86-89 | for p in [0, 1] and a non-negative scale length, the score lies in [base, base + length] |
| Scorer.CreditScoreBounds | prediction_helper.py:86-89 | with base 300 and length 600, every p in [0, 1] gives a score in [300, 900] |
| Scorer.CreditScoreAntitone | prediction_helper.py:86-89 | the score is non-increasing in the default probability |
| Scorer.Truncate | prediction_helper.py:106 | int() rounds toward zero: for x >= 0 it is the floor, for x < 0 the ceiling |
| Scorer.TruncateMonotone | prediction_helper.py:106 | truncation is monotone |
| Scorer.TruncatedScoreOnScale | prediction_helper.py:89-106 | the truncated score lies between the truncations of the two ends of the scale |
| Scorer.TruncatedScoreBounds | prediction_helper.py:106 | a score in [300, 900] truncates to an integer in [300, 900] |
| Scorer.GetRating | prediction_helper.py:92-102 | a score gets one of the four named ratings exactly when it lies in [300, 900] |
| Scorer.RatingPartition | prediction_helper.py:92-102 | each rating holds exactly on its range (Poor [300,500), Average [500,650), Good [650,750), Excellent [750,900]); Undefined holds exactly outside [300, 900] |
| Scorer.RatingBoundaries | prediction_helper.py:92-102 | lower bounds are inclusive: 500 is Average, 650 is Good, 750 and 900 are Excellent; just above 900 is Undefined |
| Scorer.RatingOfTruncation | prediction_helper.py:104-106 | the rating of a real score equals the rating of its truncation exactly when the score is not strictly between 900 and 901 |
| Scorer.CalculateCreditScore | prediction_helper.py:75-106 | fails with DimensionMismatch exactly when the vector's and coefficients' lengths differ; the probability lies in (0, 1); on the default scale the integer score lies in [300, 900], the rating is never Undefined, and it equals the rating of the returned integer score |
| Scorer.ScoreAntitoneInLogit | prediction_helper.py:82-89 | a larger logit never gives a higher score, before or after truncation |
| Scorer.FeatureRaisesNoScore | prediction_helper.py:82-106 | raising one feature whose coefficient is non-negative never raises the returned integer score |
| Prediction.PrepareSpec | prediction_helper.py:24-73 | a failure is either a MissingColumn naming a column to scale that the record lacks, or a MissingFeature naming a model feature that the record lacks; a DimensionMismatch never arises here |
| Prediction.PrepareInput | prediction_helper.py:24-73 | builds the record, normalizes it in place and selects the features; the result equals the specification PrepareSpec and has one entry per artifact feature |
| Prediction.PrepareSucceedsIff | prediction_helper.py:68-71 | preparation succeeds exactly when every column to scale and every model feature is a column of the record, whatever the applicant; it then gives one value per feature |
| Prediction.PreparedValues | prediction_helper.py:68-71 | for an artifact that fits the record, entry i of the prepared vector is the normalized value of the record's column named features[i] |
| Prediction.UnscaledFeaturesPassThrough | prediction_helper.py:51-71 | for an artifact that fits the record, a feature the artifact does not scale keeps the record's value, and a placeholder it does not scale reaches the model as 1 |
| Prediction.UnscaledDirectFeatures | prediction_helper.py:34-71 | for an artifact that fits the record, an unscaled direct feature reaches the model by its own name: age, tenure, open accounts, utilization, delinquency ratio and days past due as the applicant gave them, loan_to_income as LoanToIncome(loan amount, income) |
| Prediction.UnscaledFlagFeatures | prediction_helper.py:43-71 | for an artifact that fits the record, an unscaled one-hot feature reaches the model by its own name as the indicator of its category (1 exactly for Owned, Rented, Education, Home, Personal or Unsecured respectively) |
| Prediction.ScaledFeaturesTransformed | prediction_helper.py:68-71 | for an artifact that fits the record, a feature scaled as the p-th column reaches the model as (v - min_p) / (max_p - min_p) of the record's value |
| Prediction.PredictSpec | prediction_helper.py:108-126 | on success the probability lies in (0, 1), the integer score in [300, 900], and the rating is one of the four buckets and equals the rating of the integer score |
| Prediction.Predict | prediction_helper.py:108-126 | equals the specification PredictSpec; on success the probability lies in (0, 1), the score in [300, 900], and the rating is one of the four buckets and agrees with the integer score |
| Prediction.PredictFailsIff | prediction_helper.py:68-82 | scoring fails exactly when a column to scale or a model feature is missing from the record, or the coefficient count differs from the feature count, so failure never depends on the applicant |

## Left out

- Loading the artifact with joblib (prediction_helper.py:15-22) is file I/O. The artifact is a `TrainedArtifact` value passed in. `WellFormed` records assumptions about how the bundle was built, not guarantees of a fitted scaler: `cols_to_scale` lists each column once, it has one (min, max) pair per entry, and min < max for each.
- The scaler's ValueError at prediction_helper.py:68 is not modelled. `scaler.transform` raises it when `cols_to_scale` differs from the columns the scaler was fitted on: another count, other names, or an empty list. `WellFormed` rules out the count mismatch by precondition, and the model takes the names in `cols_to_scale` to be the fitted ones. An empty `cols_to_scale` scales nothing in the model, where the scaler raises.
- The scaler's handling of a column whose training range is empty is not modelled: scikit-learn divides by 1 there rather than by 0. The model requires min < max instead. The scaler's internals are not part of this model.
- `np.exp` and the rest of floating point: the exponential is a parameter assumed positive, and the monotonicity lemmas also assume it is non-decreasing. All arithmetic is exact `real`, so rounding is not modelled.
- The pandas and numpy containers are not modelled: a one-row DataFrame is a sequence of values with a list of column names, the coefficient matrix is one vector, and `intercept_` is one scalar.
- Normalizer.ScaleStatus: pandas' KeyError lists every missing column to scale. The model reports the first one.
- Vectorizer.Reindex: pandas' KeyError lists every missing feature. The model reports the first one.
- main.py, the display layer, is not part of this model. That includes its duplicated loan-to-income figure, which is only displayed.
- The end-to-end scenario with concrete applicant values needs the real artifact's coefficients and scaler bounds, which are not available, so it is not stated.
- Determinism and idempotence of scoring are not stated as lemmas, because every specification here is a mathematical function of its inputs.
