/** What the maximal-correlation statistics of module Statistics satisfy:
    the guard of get_std_devs, the meaning of g and sigma, sign
    normalisation, constant columns, absent classes, and how the statistics
    react to shifting or negating the embeddings. */
module StatisticsLemmas {
  import opened Linear
  import opened Statistics

  // ---------------------------------------------------------------------------
  // get_means and get_std_devs

  /** A centred column sums to zero. */
  lemma CenteredSumsToZero(x: Vector)
    requires |x| > 0
    ensures Sum(Centered(x)) == 0.0
  {
    var n := |x| as real;
    SumShift(x, -Mean(x));
    assert n * (Sum(x) / n) == Sum(x);
  }

  /** The guard of get_std_devs: the norm is never 0; it is 1 exactly when the
      root of the sum of squares is 0, which happens exactly when the centred
      column is all zero; otherwise it is that root, and positive. */
  lemma GuardedNormMeaning(c: Vector, sqrt: real -> real)
    requires IsRoot(sqrt)
    ensures GuardedNorm(c, sqrt) > 0.0
    ensures sqrt(Dot(c, c)) == 0.0 <==> IsZero(c)
    ensures IsZero(c) ==> GuardedNorm(c, sqrt) == 1.0
    ensures !IsZero(c) ==> GuardedNorm(c, sqrt) == sqrt(Dot(c, c))
  {
    DotSelf(c);
  }

  /** GuardedNormMeaning for every column of a batch. */
  lemma NormsMeaning(e: Matrix, sqrt: real -> real, d: nat)
    requires IsRoot(sqrt) && IsBatch(e) && d < Width(e)
    ensures Norms(e, sqrt)[d] > 0.0
    ensures IsZero(Centered(Column(e, d))) <==> Norms(e, sqrt)[d] == 1.0 && sqrt(Dot(Centered(Column(e, d)), Centered(Column(e, d)))) == 0.0
    ensures !IsZero(Centered(Column(e, d))) ==> Norms(e, sqrt)[d] == sqrt(Dot(Centered(Column(e, d)), Centered(Column(e, d))))
  {
    GuardedNormMeaning(Centered(Column(e, d)), sqrt);
  }

  // ---------------------------------------------------------------------------
  // g and sigma

  /** Dropping the last example of an indicator. */
  lemma IndicatorPrefix(labels: seq<int>, c: int, k: nat)
    requires k <= |labels|
    ensures Indicator(labels, c)[..k] == Indicator(labels[..k], c)
  {
    forall i | 0 <= i < k ensures Indicator(labels, c)[..k][i] == Indicator(labels[..k], c)[i] { }
  }

  /** The class totals with one more example: its value is added to the
      total of its class. */
  lemma ClassTotalsExtend(z: Vector, labels: seq<int>, classes: nat)
    requires |z| == |labels| > 0 && 0 <= labels[|z| - 1] < classes
    ensures var n, l := |z|, labels[|z| - 1];
            var t' := ClassTotals(z[..n - 1], labels[..n - 1], classes);
            ClassTotals(z, labels, classes) == t'[l := t'[l] + z[n - 1]]
  {
    var n, l := |z|, labels[|z| - 1];
    var t, t' := ClassTotals(z, labels, classes), ClassTotals(z[..n - 1], labels[..n - 1], classes);
    forall c | 0 <= c < classes ensures t[c] == t'[l := t'[l] + z[n - 1]][c] {
      IndicatorPrefix(labels, c, n - 1);
    }
  }

  /** Summing z[n] * w[labels[n]] over the examples is summing w[c] times the
      class total of c over the classes. */
  lemma {:induction false} GatherByClass(z: Vector, labels: seq<int>, w: Vector)
    requires |z| == |labels|
    requires forall i :: 0 <= i < |labels| ==> 0 <= labels[i] < |w|
    ensures Dot(z, Gather(w, labels)) == Dot(w, ClassTotals(z, labels, |w|))
  {
    var t := ClassTotals(z, labels, |w|);
    var n := |z|;
    if n == 0 {
      assert IsZero(t);
      DotZeroRight(w, t);
    } else {
      var z', labels' := z[..n - 1], labels[..n - 1];
      var t' := ClassTotals(z', labels', |w|);
      var l, x := labels[n - 1], z[n - 1];
      assert Gather(w, labels)[..n - 1] == Gather(w, labels');
      assert Dot(z, Gather(w, labels)) == Dot(z', Gather(w, labels')) + x * w[l];
      GatherByClass(z', labels', w);
      ClassTotalsExtend(z, labels, |w|);
      assert t == t'[l := t'[l] + x];
      DotUpdate(w, t', l, x);
    }
  }

  /** The class totals are N times the class means. */
  lemma TotalsAreScaledMeans(z: Vector, labels: seq<int>, classes: nat)
    requires |z| == |labels| > 0
    ensures ClassTotals(z, labels, classes) == Scale(|z| as real, ClassMeans(z, labels, classes))
  {
    var n := |z| as real;
    var t := ClassTotals(z, labels, classes);
    forall c | 0 <= c < classes ensures t[c] == Scale(n, ClassMeans(z, labels, classes))[c] {
      assert n * (t[c] / n) == t[c];
    }
  }

  /** Before sign normalisation, sigma of a column is the sum over classes of
      the squared class means, so it is never negative. */
  lemma RawSigmaIsSumOfSquares(z: Vector, labels: seq<int>, classes: nat)
    requires |z| > 0 && ValidLabels(labels, |z|, classes)
    ensures RawSigma(z, labels, ClassMeans(z, labels, classes))
      == Dot(ClassMeans(z, labels, classes), ClassMeans(z, labels, classes))
    ensures RawSigma(z, labels, ClassMeans(z, labels, classes)) >= 0.0
  {
    var g := ClassMeans(z, labels, classes);
    var n := |z| as real;
    GatherByClass(z, labels, g);
    TotalsAreScaledMeans(z, labels, classes);
    DotScaleRight(n, g, g);
    assert (n * Dot(g, g)) / n == Dot(g, g);
    DotSelf(g);
  }

  /** Sign normalisation never changes anything in compute_max_corr: sigma is
      already the non-negative sum of the squared class means, and g is
      unchanged. */
  lemma {:induction false} SignNormalizeIsIdentity(x: Vector, labels: seq<int>, classes: nat, sqrt: real -> real)
    requires |x| > 0 && ValidLabels(labels, |x|, classes)
    ensures var z := Normalized(x, sqrt);
            var g := ClassMeans(z, labels, classes);
            ColumnMaxCorr(x, labels, classes, sqrt) == ColumnStats(Dot(g, g), g)
  {
    var z := Normalized(x, sqrt);
    var g := ClassMeans(z, labels, classes);
    var raw := RawSigma(z, labels, g);
    RawSigmaIsSumOfSquares(z, labels, classes);
    var r := SignNormalize(raw, g);
    if raw == 0.0 {
      DotSelf(g);
      forall c | 0 <= c < classes ensures r.g[c] == g[c] { }
    }
  }

  /** A class no example carries gets an all-zero class mean. */
  lemma AbsentClass(x: Vector, labels: seq<int>, classes: nat, sqrt: real -> real, c: nat)
    requires |x| > 0 && ValidLabels(labels, |x|, classes) && c < classes
    requires forall i :: 0 <= i < |labels| ==> labels[i] != c
    ensures ColumnMaxCorr(x, labels, classes, sqrt).g[c] == 0.0
  {
    var z := Normalized(x, sqrt);
    assert IsZero(Indicator(labels, c));
    DotZeroRight(z, Indicator(labels, c));
  }

  /** A constant column centres to all zeros, so it carries weight 0 and an
      all-zero column of g. */
  lemma ConstantColumn(x: Vector, labels: seq<int>, classes: nat, sqrt: real -> real)
    requires |x| > 0 && ValidLabels(labels, |x|, classes)
    requires forall i :: 0 <= i < |x| ==> x[i] == x[0]
    ensures IsZero(Centered(x)) && IsZero(Normalized(x, sqrt))
    ensures ColumnMaxCorr(x, labels, classes, sqrt).sigma == 0.0
    ensures IsZero(ColumnMaxCorr(x, labels, classes, sqrt).g)
  {
    var n := |x| as real;
    SumConstant(x, x[0]);
    assert Mean(x) == x[0] by { assert (n * x[0]) / n == x[0]; }
    var z := Normalized(x, sqrt);
    var g := ClassMeans(z, labels, classes);
    forall c | 0 <= c < classes ensures g[c] == 0.0 {
      DotZeroLeft(z, Indicator(labels, c));
    }
    DotZeroLeft(z, Gather(g, labels));
  }

  /** Adding t to every example of a column adds t to its mean. */
  lemma MeanShift(x: Vector, t: real)
    requires |x| > 0
    ensures Mean(Shift(x, t)) == Mean(x) + t
  {
    var n := |x| as real;
    SumShift(x, t);
    assert (Sum(x) + n * t) / n == Sum(x) / n + t;
  }

  /** Adding the same value to every example of a column leaves it centred the
      same. */
  lemma CenteredShift(x: Vector, t: real)
    requires |x| > 0
    ensures Centered(Shift(x, t)) == Centered(x)
  {
    MeanShift(x, t);
  }

  /** The statistics of a column do not change when a constant is added to it. */
  lemma ColumnTranslationInvariant(x: Vector, t: real, labels: seq<int>, classes: nat, sqrt: real -> real)
    requires |x| > 0 && ValidLabels(labels, |x|, classes)
    ensures ColumnMaxCorr(Shift(x, t), labels, classes, sqrt) == ColumnMaxCorr(x, labels, classes, sqrt)
  {
    CenteredShift(x, t);
  }

  /** Negating a column negates its centred version. */
  lemma CenteredNegate(x: Vector)
    requires |x| > 0
    ensures Centered(Scale(-1.0, x)) == Scale(-1.0, Centered(x))
  {
    MeanNegate(x);
  }

  /** Negating a column negates its mean. */
  lemma MeanNegate(x: Vector)
    requires |x| > 0
    ensures Mean(Scale(-1.0, x)) == -Mean(x)
  {
    SumScale(-1.0, x);
  }

  /** A negated vector has the same guarded norm. */
  lemma GuardedNormNegate(c: Vector, sqrt: real -> real)
    ensures GuardedNorm(Scale(-1.0, c), sqrt) == GuardedNorm(c, sqrt)
  {
    DotNegateBoth(c);
  }

  /** Negating a column negates its normalised version (the norm is the same). */
  lemma NormalizedNegate(x: Vector, sqrt: real -> real)
    requires |x| > 0
    ensures Normalized(Scale(-1.0, x), sqrt) == Scale(-1.0, Normalized(x, sqrt))
  {
    var c := Centered(x);
    CenteredNegate(x);
    GuardedNormNegate(c, sqrt);
    var s := GuardedNorm(c, sqrt);
    forall i | 0 <= i < |x| ensures Normalized(Scale(-1.0, x), sqrt)[i] == Scale(-1.0, Normalized(x, sqrt))[i] {
      assert (-1.0 * c[i]) / s == -1.0 * (c[i] / s);
    }
  }

  /** Negating a normalised column negates its class totals. */
  lemma ClassTotalsNegate(z: Vector, labels: seq<int>, classes: nat)
    requires |z| == |labels|
    ensures ClassTotals(Scale(-1.0, z), labels, classes) == Scale(-1.0, ClassTotals(z, labels, classes))
  {
    forall c | 0 <= c < classes
      ensures ClassTotals(Scale(-1.0, z), labels, classes)[c] == Scale(-1.0, ClassTotals(z, labels, classes))[c]
    {
      DotScaleLeft(-1.0, z, Indicator(labels, c));
    }
  }

  /** Negating a normalised column negates its class means. */
  lemma ClassMeansNegate(z: Vector, labels: seq<int>, classes: nat)
    requires |z| == |labels| > 0
    ensures ClassMeans(Scale(-1.0, z), labels, classes) == Scale(-1.0, ClassMeans(z, labels, classes))
  {
    var n := |z| as real;
    var t := ClassTotals(z, labels, classes);
    ClassTotalsNegate(z, labels, classes);
    forall c | 0 <= c < classes
      ensures ClassMeans(Scale(-1.0, z), labels, classes)[c] == Scale(-1.0, ClassMeans(z, labels, classes))[c]
    {
      assert -1.0 * t[c] / n == -1.0 * (t[c] / n);
    }
  }

  /** Negating a column keeps its weight and negates its column of g. (It does
      not leave g unchanged.) */
  lemma ColumnNegation(x: Vector, labels: seq<int>, classes: nat, sqrt: real -> real)
    requires |x| > 0 && ValidLabels(labels, |x|, classes)
    ensures var r := ColumnMaxCorr(x, labels, classes, sqrt);
            ColumnMaxCorr(Scale(-1.0, x), labels, classes, sqrt) == ColumnStats(r.sigma, Scale(-1.0, r.g))
  {
    var z := Normalized(x, sqrt);
    var g := ClassMeans(z, labels, classes);
    NormalizedNegate(x, sqrt);
    ClassMeansNegate(z, labels, classes);
    SignNormalizeIsIdentity(x, labels, classes, sqrt);
    SignNormalizeIsIdentity(Scale(-1.0, x), labels, classes, sqrt);
    DotNegateBoth(g);
  }

  // ---------------------------------------------------------------------------
  // Whole batches

  /** Column d of g in compute_max_corr is the column statistic of column d. */
  lemma ColumnOfG(e: Matrix, labels: seq<int>, classes: nat, sqrt: real -> real, d: nat)
    requires IsBatch(e) && ValidLabels(labels, |e|, classes) && d < Width(e)
    ensures Column(MaxCorr(e, labels, classes, sqrt).g, d) == ColumnMaxCorr(Column(e, d), labels, classes, sqrt).g
  {
    var s := MaxCorr(e, labels, classes, sqrt);
    var r := ColumnMaxCorr(Column(e, d), labels, classes, sqrt);
    forall c | 0 <= c < classes ensures Column(s.g, d)[c] == r.g[c] { }
  }

  /** Every weight sigma[d] is the sum over classes of g[c][d] squared: it is
      never negative, and it is 0 exactly when column d of g is all zero. */
  lemma MaxCorrSigmaIsSumOfSquares(e: Matrix, labels: seq<int>, classes: nat, sqrt: real -> real, d: nat)
    requires IsBatch(e) && ValidLabels(labels, |e|, classes) && d < Width(e)
    ensures var s := MaxCorr(e, labels, classes, sqrt);
            s.sigma[d] == Dot(Column(s.g, d), Column(s.g, d)) && s.sigma[d] >= 0.0
            && (s.sigma[d] == 0.0 <==> IsZero(Column(s.g, d)))
  {
    var s := MaxCorr(e, labels, classes, sqrt);
    ColumnOfG(e, labels, classes, sqrt, d);
    SignNormalizeIsIdentity(Column(e, d), labels, classes, sqrt);
    DotSelf(Column(s.g, d));
  }

  /** A class that no example carries gets an all-zero row of g. */
  lemma MaxCorrAbsentClass(e: Matrix, labels: seq<int>, classes: nat, sqrt: real -> real, c: nat)
    requires IsBatch(e) && ValidLabels(labels, |e|, classes) && c < classes
    requires forall i :: 0 <= i < |labels| ==> labels[i] != c
    ensures IsZero(MaxCorr(e, labels, classes, sqrt).g[c])
  {
    forall d | 0 <= d < Width(e) ensures MaxCorr(e, labels, classes, sqrt).g[c][d] == 0.0 {
      AbsentClass(Column(e, d), labels, classes, sqrt, c);
    }
  }

  /** A feature that is the same for every example has norm 1, normalises to
      zeros, and gets weight 0 and an all-zero column of g. */
  lemma MaxCorrConstantColumn(e: Matrix, labels: seq<int>, classes: nat, sqrt: real -> real, d: nat)
    requires IsRoot(sqrt)
    requires IsBatch(e) && ValidLabels(labels, |e|, classes) && d < Width(e)
    requires forall i :: 0 <= i < |e| ==> e[i][d] == e[0][d]
    ensures Norms(e, sqrt)[d] == 1.0
    ensures forall i :: 0 <= i < |e| ==> NormalizedBatch(e, sqrt)[i][d] == 0.0
    ensures MaxCorr(e, labels, classes, sqrt).sigma[d] == 0.0
    ensures IsZero(Column(MaxCorr(e, labels, classes, sqrt).g, d))
  {
    ConstantColumn(Column(e, d), labels, classes, sqrt);
    GuardedNormMeaning(Centered(Column(e, d)), sqrt);
    ColumnOfG(e, labels, classes, sqrt, d);
  }

  /** Adding the same vector to every embedding changes neither sigma nor g. */
  lemma MaxCorrTranslationInvariant(e: Matrix, t: Vector, labels: seq<int>, classes: nat, sqrt: real -> real)
    requires IsBatch(e) && |t| == Width(e) && ValidLabels(labels, |e|, classes)
    ensures MaxCorr(AddToRows(e, t), labels, classes, sqrt) == MaxCorr(e, labels, classes, sqrt)
  {
    var e' := AddToRows(e, t);
    forall d | 0 <= d < Width(e)
      ensures ColumnMaxCorr(Column(e', d), labels, classes, sqrt) == ColumnMaxCorr(Column(e, d), labels, classes, sqrt)
    {
      ColumnOfShifted(e, t, d);
      ColumnTranslationInvariant(Column(e, d), t[d], labels, classes, sqrt);
    }
    var s, s' := MaxCorr(e, labels, classes, sqrt), MaxCorr(e', labels, classes, sqrt);
    assert s'.sigma == s.sigma;
    forall c | 0 <= c < classes ensures s'.g[c] == s.g[c] { }
  }

  /** Negating feature d0 of every embedding keeps every weight and negates
      column d0 of g, leaving the other columns as they were. */
  lemma MaxCorrNegateColumn(e: Matrix, d0: nat, labels: seq<int>, classes: nat, sqrt: real -> real)
    requires IsBatch(e) && d0 < Width(e) && ValidLabels(labels, |e|, classes)
    ensures var s := MaxCorr(e, labels, classes, sqrt);
            var s' := MaxCorr(NegateColumn(e, d0), labels, classes, sqrt);
            s'.sigma == s.sigma
            && IsMatrix(s'.g, classes, Width(e))
            && forall c, d :: 0 <= c < classes && 0 <= d < Width(e) ==>
                 s'.g[c][d] == if d == d0 then -s.g[c][d] else s.g[c][d]
  {
    var e' := NegateColumn(e, d0);
    var s, s' := MaxCorr(e, labels, classes, sqrt), MaxCorr(e', labels, classes, sqrt);
    forall d | 0 <= d < Width(e)
      ensures var r := ColumnMaxCorr(Column(e, d), labels, classes, sqrt);
              ColumnMaxCorr(Column(e', d), labels, classes, sqrt)
                == if d == d0 then ColumnStats(r.sigma, Scale(-1.0, r.g)) else r
    {
      ColumnOfNegated(e, d0, d);
      if d == d0 {
        ColumnNegation(Column(e, d), labels, classes, sqrt);
      }
    }
    assert s'.sigma == s.sigma;
  }

  /** Sign normalisation keeps every weight sigma[d] * g[c][d] of the batch
      statistics. */
  lemma MaxCorrKeepsWeight(e: Matrix, labels: seq<int>, classes: nat, sqrt: real -> real, c: nat, d: nat)
    requires IsBatch(e) && ValidLabels(labels, |e|, classes) && c < classes && d < Width(e)
    ensures Weight(MaxCorr(e, labels, classes, sqrt), c, d) == Weight(RawMaxCorr(e, labels, classes, sqrt), c, d)
  {
    var raw := RawColumnStats(Column(e, d), labels, classes, sqrt);
    var s := MaxCorr(e, labels, classes, sqrt);
    assert s.sigma[d] == SignNormalize(raw.sigma, raw.g).sigma;
    assert s.g[c][d] == SignNormalize(raw.sigma, raw.g).g[c];
  }

  /** The same for all classes and columns at once. */
  lemma MaxCorrKeepsWeights(e: Matrix, labels: seq<int>, classes: nat, sqrt: real -> real)
    requires IsBatch(e) && ValidLabels(labels, |e|, classes)
    ensures forall c, d :: 0 <= c < classes && 0 <= d < Width(e) ==>
              Weight(MaxCorr(e, labels, classes, sqrt), c, d) == Weight(RawMaxCorr(e, labels, classes, sqrt), c, d)
  {
    forall c, d | 0 <= c < classes && 0 <= d < Width(e)
      ensures Weight(MaxCorr(e, labels, classes, sqrt), c, d) == Weight(RawMaxCorr(e, labels, classes, sqrt), c, d)
    {
      MaxCorrKeepsWeight(e, labels, classes, sqrt, c, d);
    }
  }
}
