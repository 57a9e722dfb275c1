/** The maximal-correlation statistics of main.py (get_means, get_std_devs,
    compute_max_corr) as specification functions, and what is proved about
    them.

    Every statistic of feature column d depends on column d of the embedding
    alone, so the statistics are first defined for one column x (a vector
    with one entry per example) and then assembled column by column into the
    D-vector sigma and the C x D matrix g. The imperative versions in module
    Correlation, which work row by row on whole tensors as the source does,
    are proved to compute exactly these values. */
module Statistics {
  import opened Linear

  /** What the model assumes of torch.sqrt: on non-negative arguments the root
      is non-negative and is zero exactly at zero. */
  ghost predicate IsRoot(sqrt: real -> real) {
    forall x {:trigger sqrt(x)} :: 0.0 <= x ==> 0.0 <= sqrt(x) && (sqrt(x) == 0.0 <==> x == 0.0)
  }

  /** n labels, each a valid row index of the class-conditional matrix g. */
  predicate ValidLabels(labels: seq<int>, n: nat, classes: nat) {
    |labels| == n && forall i :: 0 <= i < n ==> 0 <= labels[i] < classes
  }

  /** A non-empty batch of embeddings with rows of equal width. */
  predicate IsBatch(e: Matrix) {
    |e| > 0 && IsMatrix(e, |e|, |e[0]|)
  }

  function Width(e: Matrix): nat
    requires |e| > 0
  {
    |e[0]|
  }

  // ---------------------------------------------------------------------------
  // One feature column

  /** The batch mean of a column (torch mean over dim 0). */
  function Mean(x: Vector): real
    requires |x| > 0
  {
    Sum(x) / (|x| as real)
  }

  /** The column with its batch mean subtracted. */
  function Centered(x: Vector): (c: Vector)
    requires |x| > 0
    ensures |c| == |x|
  {
    Shift(x, -Mean(x))
  }

  /** get_std_devs for one column: the square root of the column's sum of
      squares (the diagonal of c^T c, with no division by N), replaced by 1
      where the root is 0. */
  function GuardedNorm(c: Vector, sqrt: real -> real): (s: real)
    ensures s != 0.0
  {
    var root := sqrt(Dot(c, c));
    if root == 0.0 then 1.0 else root
  }

  /** The centred column divided by its guarded norm. */
  function Normalized(x: Vector, sqrt: real -> real): (z: Vector)
    requires |x| > 0
    ensures |z| == |x|
  {
    var c := Centered(x);
    var s := GuardedNorm(c, sqrt);
    seq(|x|, i requires 0 <= i < |x| => c[i] / s)
  }

  /** 1 for the examples labelled c, 0 for the others. */
  function Indicator(labels: seq<int>, c: int): (r: Vector)
    ensures |r| == |labels|
  {
    seq(|labels|, i requires 0 <= i < |labels| => if labels[i] == c then 1.0 else 0.0)
  }

  /** For every class c, the sum of z over the examples labelled c. */
  function ClassTotals(z: Vector, labels: seq<int>, classes: nat): (t: Vector)
    requires |z| == |labels|
    ensures |t| == classes
  {
    seq(classes, c requires 0 <= c < classes => Dot(z, Indicator(labels, c)))
  }

  /** Column d of g_y before sign normalisation: the class totals divided by
      the size of the whole batch (not by the size of the class). */
  function ClassMeans(z: Vector, labels: seq<int>, classes: nat): (g: Vector)
    requires |z| == |labels| > 0
    ensures |g| == classes
  {
    var t := ClassTotals(z, labels, classes);
    seq(classes, c requires 0 <= c < classes => t[c] / (|z| as real))
  }

  /** w[labels[n]] for every example n. */
  function Gather(w: Vector, labels: seq<int>): (r: Vector)
    requires forall i :: 0 <= i < |labels| ==> 0 <= labels[i] < |w|
    ensures |r| == |labels|
  {
    seq(|labels|, i requires 0 <= i < |labels| => w[labels[i]])
  }

  /** sigma[d] before sign normalisation: the batch mean of z[n] * g[labels[n]]. */
  function RawSigma(z: Vector, labels: seq<int>, g: Vector): real
    requires |z| == |labels| > 0
    requires forall i :: 0 <= i < |labels| ==> 0 <= labels[i] < |g|
  {
    Dot(z, Gather(g, labels)) / (|z| as real)
  }

  /** torch.sign: note that the sign of 0 is 0. */
  function Sign(x: real): real {
    if x > 0.0 then 1.0 else if x < 0.0 then -1.0 else 0.0
  }

  function Abs(x: real): real {
    if x < 0.0 then -x else x
  }

  /** The statistics of one feature column: its weight and its class
      directions. */
  datatype ColumnStats = ColumnStats(sigma: real, g: Vector)

  /** Sign normalisation: g is multiplied by the sign of sigma first, then
      sigma by its own sign. */
  function SignNormalize(sigma: real, g: Vector): (r: ColumnStats)
    ensures |r.g| == |g|
    ensures r.sigma >= 0.0 && r.sigma == Abs(sigma)
    ensures forall c :: 0 <= c < |g| ==> r.sigma * r.g[c] == sigma * g[c]
    ensures sigma == 0.0 ==> IsZero(r.g)
    ensures sigma > 0.0 ==> r.g == g
  {
    var s := Sign(sigma);
    var g' := seq(|g|, c requires 0 <= c < |g| => g[c] * s);
    assert forall c :: 0 <= c < |g| ==> (sigma * s) * g'[c] == sigma * g[c] * (s * s);
    ColumnStats(sigma * s, g')
  }

  /** The statistics of one feature column before sign normalisation: the
      class means g of the normalised column z, and the batch mean of
      z[n] * g[labels[n]]. */
  function RawColumnStats(x: Vector, labels: seq<int>, classes: nat, sqrt: real -> real): (r: ColumnStats)
    requires |x| > 0 && ValidLabels(labels, |x|, classes)
    ensures |r.g| == classes
  {
    var z := Normalized(x, sqrt);
    var g := ClassMeans(z, labels, classes);
    ColumnStats(RawSigma(z, labels, g), g)
  }

  /** compute_max_corr restricted to one feature column x. */
  function ColumnMaxCorr(x: Vector, labels: seq<int>, classes: nat, sqrt: real -> real): (r: ColumnStats)
    requires |x| > 0 && ValidLabels(labels, |x|, classes)
    ensures |r.g| == classes
  {
    var raw := RawColumnStats(x, labels, classes, sqrt);
    SignNormalize(raw.sigma, raw.g)
  }

  // ---------------------------------------------------------------------------
  // Whole batches

  /** get_means: the per-column batch means. */
  function Means(e: Matrix): (mu: Vector)
    requires IsBatch(e)
    ensures |mu| == Width(e)
  {
    seq(Width(e), d requires 0 <= d < Width(e) => Mean(Column(e, d)))
  }

  /** get_std_devs: the per-column guarded norms of the centred batch. */
  function Norms(e: Matrix, sqrt: real -> real): (s: Vector)
    requires IsBatch(e)
    ensures |s| == Width(e)
  {
    seq(Width(e), d requires 0 <= d < Width(e) => GuardedNorm(Centered(Column(e, d)), sqrt))
  }

  /** The centred and normalised batch that compute_max_corr accumulates. */
  function NormalizedBatch(e: Matrix, sqrt: real -> real): (z: Matrix)
    requires IsBatch(e)
    ensures IsMatrix(z, |e|, Width(e))
  {
    seq(|e|, n requires 0 <= n < |e| =>
      seq(Width(e), d requires 0 <= d < Width(e) => Normalized(Column(e, d), sqrt)[n]))
  }

  /** The result of compute_max_corr: sigma (length D) and g (C x D). */
  datatype Stats = Stats(sigma: Vector, g: Matrix)

  /** The weight sigma[d] * g[c][d] that class c gives feature d. */
  function Weight(s: Stats, c: nat, d: nat): real
    requires c < |s.g| && d < |s.sigma| && d < |s.g[c]|
  {
    s.sigma[d] * s.g[c][d]
  }

  /** The per-column statistics laid out as sigma (one entry per column) and
      g (one row per class, one column per feature column). */
  function Assemble(cols: seq<ColumnStats>, classes: nat): (s: Stats)
    requires forall d :: 0 <= d < |cols| ==> |cols[d].g| == classes
    ensures |s.sigma| == |cols| && IsMatrix(s.g, classes, |cols|)
    ensures forall d :: 0 <= d < |cols| ==> s.sigma[d] == cols[d].sigma
    ensures forall c, d :: 0 <= c < classes && 0 <= d < |cols| ==> s.g[c][d] == cols[d].g[c]
  {
    Stats(
      seq(|cols|, d requires 0 <= d < |cols| => cols[d].sigma),
      seq(classes, c requires 0 <= c < classes =>
        seq(|cols|, d requires 0 <= d < |cols| => cols[d].g[c])))
  }

  /** compute_max_corr on a whole batch. */
  function MaxCorr(e: Matrix, labels: seq<int>, classes: nat, sqrt: real -> real): (s: Stats)
    requires IsBatch(e) && ValidLabels(labels, |e|, classes)
    ensures |s.sigma| == Width(e) && IsMatrix(s.g, classes, Width(e))
  {
    Assemble(seq(Width(e), d requires 0 <= d < Width(e) => ColumnMaxCorr(Column(e, d), labels, classes, sqrt)), classes)
  }

  /** sigma and g_y of compute_max_corr just before the sign normalisation. */
  function RawMaxCorr(e: Matrix, labels: seq<int>, classes: nat, sqrt: real -> real): (s: Stats)
    requires IsBatch(e) && ValidLabels(labels, |e|, classes)
    ensures |s.sigma| == Width(e) && IsMatrix(s.g, classes, Width(e))
  {
    Assemble(seq(Width(e), d requires 0 <= d < Width(e) => RawColumnStats(Column(e, d), labels, classes, sqrt)), classes)
  }
}
