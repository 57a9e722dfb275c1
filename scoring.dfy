/** weighted_network_output and compute_square_difference of main.py: the
    score of every example against every class, from the maximal-correlation
    statistics of one task.

    Scores(e, sigma, g)[n][c] is what weighted_network_output computes:
    example n centred by the batch mean of e, multiplied feature by feature
    by sigma, and then by class row g[c] (the product with g transposed). */
module Scoring {
  import opened Linear
  import opened Tensors
  import opened Statistics
  import opened StatisticsLemmas
  import Correlation

  /** Row n of e minus mu. */
  function CenteredRow(e: Matrix, mu: Vector, n: nat): (r: Vector)
    requires n < |e| && |e[n]| == |mu|
    ensures |r| == |mu|
    ensures forall d :: 0 <= d < |mu| ==> r[d] == e[n][d] - mu[d]
  {
    seq(|mu|, d requires 0 <= d < |mu| => e[n][d] - mu[d])
  }

  /** Well-shaped statistics for a batch of width w: sigma of length w and
      g with rows of length w. */
  predicate WellShaped(sigma: Vector, g: Matrix, w: nat) {
    |sigma| == w && forall c :: 0 <= c < |g| ==> |g[c]| == w
  }

  /** The scores of one centred example x: x multiplied feature by feature by
      sigma, then dotted with every class row of g. */
  function ScoreRow(x: Vector, sigma: Vector, g: Matrix): (r: Vector)
    requires |x| == |sigma| && forall c :: 0 <= c < |g| ==> |g[c]| == |sigma|
    ensures |r| == |g|
  {
    seq(|g|, c requires 0 <= c < |g| => Dot(Hadamard(x, sigma), g[c]))
  }

  /** weighted_network_output: the N x C scores. */
  function Scores(e: Matrix, sigma: Vector, g: Matrix): (out: Matrix)
    requires IsBatch(e) && WellShaped(sigma, g, Width(e))
    ensures IsMatrix(out, |e|, |g|)
  {
    var mu := Means(e);
    seq(|e|, n requires 0 <= n < |e| => ScoreRow(CenteredRow(e, mu, n), sigma, g))
  }

  /** compute_square_difference: for every example, its offset from the given
      means dotted with class row g[t]. Despite the name, this is a dot
      product and not a squared distance. */
  function SquareDifference(e: Matrix, means: Vector, g: Matrix, t: nat): (r: Vector)
    requires IsMatrix(e, |e|, |means|) && t < |g| && |g[t]| == |means|
    ensures |r| == |e|
  {
    seq(|e|, n requires 0 <= n < |e| => Dot(CenteredRow(e, means, n), g[t]))
  }

  /** The class rows of g weighted feature by feature with sigma. */
  function WeightedClasses(sigma: Vector, g: Matrix): (h: Matrix)
    requires forall c :: 0 <= c < |g| ==> |g[c]| == |sigma|
    ensures IsMatrix(h, |g|, |sigma|)
    ensures forall c, d :: 0 <= c < |g| && 0 <= d < |sigma| ==> h[c][d] == sigma[d] * g[c][d]
  {
    seq(|g|, c requires 0 <= c < |g| => Hadamard(sigma, g[c]))
  }

  // ---------------------------------------------------------------------------
  // The imperative version

  /** An array holding the centred batch scaled by sigma holds, row by row,
      the centred rows of e multiplied feature by feature by sigma. */
  lemma CenteredScaledRows(a: array2<real>, e: Matrix, sigma: Vector)
    requires IsBatch(e) && |sigma| == Width(e) && a.Length0 == |e| && a.Length1 == Width(e)
    requires forall i, j :: 0 <= i < a.Length0 && 0 <= j < a.Length1 ==> a[i, j] == Centered(Column(e, j))[i] * sigma[j]
    ensures forall n :: 0 <= n < |e| ==> Rows(a)[n] == Hadamard(CenteredRow(e, Means(e), n), sigma)
  {
    forall n | 0 <= n < |e| ensures Rows(a)[n] == Hadamard(CenteredRow(e, Means(e), n), sigma) {
      forall d | 0 <= d < Width(e) ensures Rows(a)[n][d] == Hadamard(CenteredRow(e, Means(e), n), sigma)[d] {
        assert Column(e, d)[n] == e[n][d];
      }
    }
  }

  /** The first two steps of weighted_network_output on a fresh copy of the
      batch: outputs -= mean, then outputs *= sigma broadcast over the rows. */
  method CenteredScaled(e: Matrix, sigma: Vector) returns (outputs: array2<real>)
    requires IsBatch(e) && |sigma| == Width(e)
    ensures fresh(outputs) && outputs.Length0 == |e| && outputs.Length1 == Width(e)
    ensures forall n :: 0 <= n < |e| ==> Rows(outputs)[n] == Hadamard(CenteredRow(e, Means(e), n), sigma)
  {
    outputs := FromMatrix(e, |e|, Width(e));
    Correlation.CenterInPlace(outputs);
    MultiplyRows(outputs, sigma);
    CenteredScaledRows(outputs, e, sigma);
  }

  /** weighted_network_output as the source runs it: the centred batch scaled
      by sigma, then torch.mm with g transposed. */
  method WeightedNetworkOutput(e: Matrix, sigma: Vector, g: Matrix) returns (out: Matrix)
    requires IsBatch(e) && WellShaped(sigma, g, Width(e))
    ensures out == Scores(e, sigma, g)
  {
    var outputs := CenteredScaled(e, sigma);
    var gt := FromMatrix(g, |g|, Width(e));
    var r := MultiplyTransposed(outputs, gt);
    ProductIsScores(r, outputs, e, sigma, g);
    out := Rows(r);
  }

  /** The product of the centred, sigma-scaled batch with g transposed holds
      the scores. */
  lemma ProductIsScores(r: array2<real>, a: array2<real>, e: Matrix, sigma: Vector, g: Matrix)
    requires IsBatch(e) && WellShaped(sigma, g, Width(e))
    requires a.Length0 == r.Length0 == |e| && a.Length1 == Width(e) && r.Length1 == |g|
    requires forall n :: 0 <= n < |e| ==> Rows(a)[n] == Hadamard(CenteredRow(e, Means(e), n), sigma)
    requires forall n, c :: 0 <= n < |e| && 0 <= c < |g| ==> r[n, c] == Dot(Rows(a)[n], g[c])
    ensures Rows(r) == Scores(e, sigma, g)
  {
    forall n | 0 <= n < |e| ensures Rows(r)[n] == Scores(e, sigma, g)[n] {
      forall c | 0 <= c < |g| ensures Rows(r)[n][c] == Scores(e, sigma, g)[n][c] { }
    }
  }

  // ---------------------------------------------------------------------------
  // What the scores satisfy

  /** Score n, c is the sum over the features d of
      (e[n][d] - mean_d) * sigma[d] * g[c][d]: compute_square_difference
      against the sigma-weighted class rows. */
  lemma ScoresAreWeightedDifferences(e: Matrix, sigma: Vector, g: Matrix, n: nat, c: nat)
    requires IsBatch(e) && WellShaped(sigma, g, Width(e)) && n < |e| && c < |g|
    ensures Scores(e, sigma, g)[n][c] == SquareDifference(e, Means(e), WeightedClasses(sigma, g), c)[n]
  {
    DotHadamard(CenteredRow(e, Means(e), n), sigma, g[c]);
  }

  /** The scores depend on the statistics only through the weights
      sigma[d] * g[c][d]. */
  lemma ScoresDependOnWeights(e: Matrix, s: Stats, r: Stats)
    requires IsBatch(e) && WellShaped(s.sigma, s.g, Width(e)) && WellShaped(r.sigma, r.g, Width(e)) && |s.g| == |r.g|
    requires forall c, d :: 0 <= c < |s.g| && 0 <= d < Width(e) ==> Weight(s, c, d) == Weight(r, c, d)
    ensures Scores(e, s.sigma, s.g) == Scores(e, r.sigma, r.g)
  {
    forall c | 0 <= c < |s.g| ensures WeightedClasses(s.sigma, s.g)[c] == WeightedClasses(r.sigma, r.g)[c] {
      forall d | 0 <= d < Width(e) ensures WeightedClasses(s.sigma, s.g)[c][d] == WeightedClasses(r.sigma, r.g)[c][d] {
        assert Weight(s, c, d) == Weight(r, c, d);
      }
    }
    forall n | 0 <= n < |e| ensures Scores(e, s.sigma, s.g)[n] == Scores(e, r.sigma, r.g)[n] {
      forall c | 0 <= c < |s.g| ensures Scores(e, s.sigma, s.g)[n][c] == Scores(e, r.sigma, r.g)[n][c] {
        ScoresAreWeightedDifferences(e, s.sigma, s.g, n, c);
        ScoresAreWeightedDifferences(e, r.sigma, r.g, n, c);
      }
    }
  }

  /** Sign normalisation does not change the scores: scoring with the
      returned sigma and g equals scoring with the values before the final
      multiplication by sigma.sign(). */
  lemma SignNormalizationKeepsScores(x: Matrix, e: Matrix, labels: seq<int>, classes: nat, sqrt: real -> real)
    requires IsBatch(e) && ValidLabels(labels, |e|, classes)
    requires IsBatch(x) && Width(x) == Width(e)
    ensures var s, r := MaxCorr(e, labels, classes, sqrt), RawMaxCorr(e, labels, classes, sqrt);
            Scores(x, s.sigma, s.g) == Scores(x, r.sigma, r.g)
  {
    MaxCorrKeepsWeights(e, labels, classes, sqrt);
    ScoresDependOnWeights(x, MaxCorr(e, labels, classes, sqrt), RawMaxCorr(e, labels, classes, sqrt));
  }

  /** Adding the same vector to every embedding does not change the scores:
      weighted_network_output centres by the batch's own mean. */
  lemma ScoresTranslationInvariant(e: Matrix, v: Vector, sigma: Vector, g: Matrix)
    requires IsBatch(e) && |v| == Width(e) && WellShaped(sigma, g, Width(e))
    ensures Scores(AddToRows(e, v), sigma, g) == Scores(e, sigma, g)
  {
    var e' := AddToRows(e, v);
    forall d | 0 <= d < Width(e) ensures Means(e')[d] == Means(e)[d] + v[d] {
      ColumnOfShifted(e, v, d);
      MeanShift(Column(e, d), v[d]);
    }
    forall n | 0 <= n < |e| ensures CenteredRow(e', Means(e'), n) == CenteredRow(e, Means(e), n) { }
  }

  /** compute_square_difference sees only the offsets from the means: shifting
      the embeddings and the means by the same vector changes nothing. */
  lemma SquareDifferenceShift(e: Matrix, means: Vector, v: Vector, g: Matrix, t: nat)
    requires IsMatrix(e, |e|, |means|) && |v| == |means| && t < |g| && |g[t]| == |means|
    ensures SquareDifference(AddToRows(e, v), seq(|means|, d requires 0 <= d < |means| => means[d] + v[d]), g, t)
         == SquareDifference(e, means, g, t)
  {
    var means' := seq(|means|, d requires 0 <= d < |means| => means[d] + v[d]);
    forall n | 0 <= n < |e| ensures CenteredRow(AddToRows(e, v), means', n) == CenteredRow(e, means, n) { }
  }

  /** Flipping one feature of a centred example and of every class row keeps
      its scores. */
  lemma ScoreRowFlip(x: Vector, sigma: Vector, g: Matrix, g': Matrix, d0: nat)
    requires |x| == |sigma| && d0 < |x| && |g| == |g'|
    requires forall c :: 0 <= c < |g| ==> |g[c]| == |g'[c]| == |sigma| && g'[c] == Flip(g[c], d0)
    ensures ScoreRow(Flip(x, d0), sigma, g') == ScoreRow(x, sigma, g)
  {
    var u := Hadamard(x, sigma);
    forall d | 0 <= d < |x| ensures Hadamard(Flip(x, d0), sigma)[d] == Flip(u, d0)[d] { }
    assert Hadamard(Flip(x, d0), sigma) == Flip(u, d0);
    forall c | 0 <= c < |g| ensures ScoreRow(Flip(x, d0), sigma, g')[c] == ScoreRow(x, sigma, g)[c] {
      DotFlipBoth(u, g[c], d0);
    }
  }

  /** Negating feature d0 of a batch negates its mean and keeps the others. */
  lemma MeansNegated(x: Matrix, d0: nat)
    requires IsBatch(x) && d0 < Width(x)
    ensures forall d :: 0 <= d < Width(x) ==>
              Means(NegateColumn(x, d0))[d] == if d == d0 then -Means(x)[d] else Means(x)[d]
  {
    forall d | 0 <= d < Width(x)
      ensures Means(NegateColumn(x, d0))[d] == if d == d0 then -Means(x)[d] else Means(x)[d]
    {
      ColumnOfNegated(x, d0, d);
      if d == d0 {
        MeanNegate(Column(x, d));
      }
    }
  }

  /** Negating feature d0 of a batch flips feature d0 of every centred row. */
  lemma CenteredRowNegated(x: Matrix, d0: nat, n: nat)
    requires IsBatch(x) && d0 < Width(x) && n < |x|
    ensures CenteredRow(NegateColumn(x, d0), Means(NegateColumn(x, d0)), n) == Flip(CenteredRow(x, Means(x), n), d0)
  {
    MeansNegated(x, d0);
  }

  /** The whole engine ignores the sign convention of a feature: negating
      feature d0 both in the batch the statistics come from and in the batch
      that is scored leaves every score unchanged. */
  lemma ScoresNegationInvariant(x: Matrix, e: Matrix, d0: nat, labels: seq<int>, classes: nat, sqrt: real -> real)
    requires IsBatch(e) && ValidLabels(labels, |e|, classes) && d0 < Width(e)
    requires IsBatch(x) && Width(x) == Width(e)
    ensures var s := MaxCorr(e, labels, classes, sqrt);
            var s' := MaxCorr(NegateColumn(e, d0), labels, classes, sqrt);
            Scores(NegateColumn(x, d0), s'.sigma, s'.g) == Scores(x, s.sigma, s.g)
  {
    var s := MaxCorr(e, labels, classes, sqrt);
    var s' := MaxCorr(NegateColumn(e, d0), labels, classes, sqrt);
    MaxCorrNegateColumn(e, d0, labels, classes, sqrt);
    forall c | 0 <= c < classes ensures s'.g[c] == Flip(s.g[c], d0) { }
    forall n | 0 <= n < |x|
      ensures Scores(NegateColumn(x, d0), s'.sigma, s'.g)[n] == Scores(x, s.sigma, s.g)[n]
    {
      CenteredRowNegated(x, d0, n);
      ScoreRowFlip(CenteredRow(x, Means(x), n), s.sigma, s.g, s'.g, d0);
    }
  }
}
