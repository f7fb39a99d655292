/** The normalizer: the fitted min-max transform, applied in place to the
    scaled columns of the prepared row and to nothing else. */
module Normalizer {
  import opened Artifact

  /** The fitted transform of one column: 0 at the training minimum, 1 at the
      training maximum, and affine in between and beyond (never clamped). */
  function MinMax(v: real, lo: real, hi: real): (r: real)
    requires lo < hi
    ensures lo + r * (hi - lo) == v
  {
    (v - lo) / (hi - lo)
  }

  /** The transformed value lies in [0, 1] exactly when the raw value lay in
      the training range: values outside it are extrapolated, not clamped. */
  lemma MinMaxInUnitIff(v: real, lo: real, hi: real)
    requires lo < hi
    ensures 0.0 <= MinMax(v, lo, hi) <= 1.0 <==> lo <= v <= hi
    ensures v < lo ==> MinMax(v, lo, hi) < 0.0
    ensures hi < v ==> MinMax(v, lo, hi) > 1.0
  {
    var r := MinMax(v, lo, hi);
    var d := hi - lo;
    SignOfScaled(r, d);
    SignOfScaled(1.0 - r, d);
    assert v - lo == r * d;
    assert hi - v == (1.0 - r) * d;
  }

  /** Scaling by a positive factor keeps the sign. */
  lemma SignOfScaled(r: real, d: real)
    requires d > 0.0
    ensures r >= 0.0 <==> r * d >= 0.0
  {
  }

  /** Whether every column to scale is present; the first missing one otherwise. */
  function ScaleStatus(columns: seq<string>, cols: seq<string>): (o: Outcome)
    ensures o.Pass? <==> forall c :: c in cols ==> c in columns
    ensures o.Fail? ==> o.error.MissingColumn? && o.error.name in cols && o.error.name !in columns
  {
    if cols == [] then Pass
    else if cols[0] !in columns then Fail(MissingColumn(cols[0]))
    else ScaleStatus(columns, cols[1..])
  }

  /** The value a column holds after normalization: its own value when the
      column is not scaled, the fitted transform of the column's one entry
      in `cols_to_scale` when it is. */
  function NormalizeCell(name: string, v: real, art: TrainedArtifact): (r: real)
    requires art.WellFormed()
    ensures name !in art.colsToScale ==> r == v
    ensures forall p :: 0 <= p < |art.colsToScale| && art.colsToScale[p] == name ==>
      r == MinMax(v, art.dataMin[p], art.dataMax[p])
  {
    match IndexOf(art.colsToScale, name)
    case None => v
    case Some(p) => MinMax(v, art.dataMin[p], art.dataMax[p])
  }

  /** The row after normalization, column by column. */
  function NormalizeRow(columns: seq<string>, row: seq<real>, art: TrainedArtifact): (r: seq<real>)
    requires art.WellFormed() && |row| == |columns|
    ensures |r| == |row|
  {
    seq(|row|, j requires 0 <= j < |row| => NormalizeCell(columns[j], row[j], art))
  }

  /** A column that is not scaled keeps its value. */
  lemma NormalizeKeepsUnscaled(columns: seq<string>, row: seq<real>, art: TrainedArtifact, j: nat)
    requires art.WellFormed() && |row| == |columns| && j < |row|
    requires columns[j] !in art.colsToScale
    ensures NormalizeRow(columns, row, art)[j] == row[j]
  {
  }

  /** The column scaled as the `p`-th one gets the `p`-th fitted transform. */
  lemma NormalizeScalesListed(columns: seq<string>, row: seq<real>, art: TrainedArtifact, j: nat, p: nat)
    requires art.WellFormed() && |row| == |columns| && j < |row|
    requires p < |art.colsToScale| && art.colsToScale[p] == columns[j]
    ensures NormalizeRow(columns, row, art)[j]
      == (row[j] - art.dataMin[p]) / (art.dataMax[p] - art.dataMin[p])
  {
  }

  /** Looks up the position in `columns` of every column to scale, in order,
      stopping at the first one that is missing. */
  method ResolveColumns(columns: seq<string>, cols: seq<string>) returns (o: Outcome, idx: seq<nat>)
    ensures o == ScaleStatus(columns, cols)
    ensures o.Pass? ==> |idx| == |cols|
    ensures o.Pass? ==> forall q :: 0 <= q < |cols| ==> idx[q] < |columns| && columns[idx[q]] == cols[q]
  {
    idx := [];
    var k := 0;
    while k < |cols|
      invariant 0 <= k <= |cols| && |idx| == k
      invariant forall q :: 0 <= q < k ==> idx[q] < |columns| && columns[idx[q]] == cols[q]
      invariant ScaleStatus(columns, cols) == ScaleStatus(columns, cols[k..])
    {
      var found := IndexOf(columns, cols[k]);
      assert cols[k..][1..] == cols[k + 1..];
      if found.None? {
        return Fail(MissingColumn(cols[k])), idx;
      }
      idx := idx + [found.value];
      k := k + 1;
    }
    assert cols[k..] == [];
    o := Pass;
  }

  /** After the first `k` columns to scale have been written, those columns of
      `cur` hold their normalized values and every other one its value in `before`. */
  ghost predicate ScaledUpTo(columns: seq<string>, before: seq<real>, cur: seq<real>, art: TrainedArtifact, k: nat)
    requires art.WellFormed() && |before| == |columns| && k <= |art.colsToScale|
  {
    && |cur| == |before|
    && forall j :: 0 <= j < |cur| ==>
         cur[j] == if columns[j] in art.colsToScale[..k] then NormalizeCell(columns[j], before[j], art) else before[j]
  }

  /** Writing the `k`-th column to scale at its position extends `ScaledUpTo` by one. */
  lemma ScaleOneColumn(columns: seq<string>, before: seq<real>, cur: seq<real>, art: TrainedArtifact, k: nat, j: nat)
    requires art.WellFormed() && |before| == |columns| && Distinct(columns)
    requires k < |art.colsToScale| && j < |columns| && columns[j] == art.colsToScale[k]
    requires ScaledUpTo(columns, before, cur, art, k)
    ensures ScaledUpTo(columns, before, cur[j := MinMax(cur[j], art.dataMin[k], art.dataMax[k])], art, k + 1)
  {
    var cols := art.colsToScale;
    IndexOfDistinct(cols, k);
    assert cols[..k + 1] == cols[..k] + [cols[k]];
    assert cols[k] !in cols[..k];
  }

  /** Once every column to scale has been written, the row is normalized. */
  lemma ScaledAll(columns: seq<string>, before: seq<real>, cur: seq<real>, art: TrainedArtifact)
    requires art.WellFormed() && |before| == |columns|
    requires ScaledUpTo(columns, before, cur, art, |art.colsToScale|)
    ensures cur == NormalizeRow(columns, before, art)
  {
    assert art.colsToScale[..|art.colsToScale|] == art.colsToScale;
  }

  /** Overwrites the scaled columns of `row`, whose column names are `columns`,
      with their fitted transforms. Every column to scale is looked up before
      anything is written, so a missing one leaves the row as it was. */
  method Normalize(row: array<real>, columns: seq<string>, art: TrainedArtifact) returns (o: Outcome)
    requires art.WellFormed()
    requires row.Length == |columns| && Distinct(columns)
    modifies row
    ensures o == ScaleStatus(columns, art.colsToScale)
    ensures o.Pass? ==> row[..] == NormalizeRow(columns, old(row[..]), art)
    ensures o.Fail? ==> row[..] == old(row[..])
  {
    var cols := art.colsToScale;
    var idx;
    o, idx := ResolveColumns(columns, cols);
    if o.Fail? {
      return;
    }
    ghost var before := row[..];
    var k := 0;
    while k < |cols|
      invariant 0 <= k <= |cols|
      invariant ScaledUpTo(columns, before, row[..], art, k)
    {
      var j := idx[k];
      ScaleOneColumn(columns, before, row[..], art, k, j);
      row[j] := MinMax(row[j], art.dataMin[k], art.dataMax[k]);
      k := k + 1;
    }
    ScaledAll(columns, before, row[..], art);
  }
}
