/** get_means, get_std_devs and compute_max_corr of main.py as the source
    runs them: on a tensor of network outputs that is changed in place, row
    by row and column by column. The network call net(data) is replaced by
    its result e, an N x D batch of embeddings. Each method is proved to
    compute the specification function of module Statistics. */
module Correlation {
  import opened Linear
  import opened Tensors
  import opened Statistics

  /** outputs.mean(dim=0) */
  method ColumnMeans(a: array2<real>) returns (mu: Vector)
    requires a.Length0 > 0
    ensures |mu| == a.Length1
    ensures forall j :: 0 <= j < a.Length1 ==> mu[j] == Mean(Column(Rows(a), j))
  {
    var m := new real[a.Length1];
    var j := 0;
    while j < a.Length1
      modifies m
      invariant 0 <= j <= a.Length1
      invariant forall j' :: 0 <= j' < j ==> m[j'] == Mean(Column(Rows(a), j'))
    {
      var s := ColumnSum(a, j);
      m[j] := s / (a.Length0 as real);
      j := j + 1;
    }
    mu := m[..];
  }

  /** get_means: the batch mean of every feature. */
  method GetMeans(e: Matrix) returns (mu: Vector)
    requires IsBatch(e)
    ensures mu == Means(e)
  {
    var outputs := FromMatrix(e, |e|, Width(e));
    mu := ColumnMeans(outputs);
  }

  /** outputs -= outputs.mean(dim=0): every column is replaced by its centred
      version. */
  method CenterInPlace(a: array2<real>)
    requires a.Length0 > 0
    modifies a
    ensures forall i, j :: 0 <= i < a.Length0 && 0 <= j < a.Length1 ==>
      a[i, j] == Centered(Column(old(Rows(a)), j))[i]
  {
    ghost var before := Rows(a);
    var mu := ColumnMeans(a);
    SubtractFromRows(a, mu);
    forall i, j | 0 <= i < a.Length0 && 0 <= j < a.Length1
      ensures a[i, j] == Centered(Column(before, j))[i]
    {
      assert Column(before, j)[i] == before[i][j];
    }
  }

  /** torch.diag(torch.mm(a.permute(1, 0), a)): the sum of squares of every
      column of a. */
  method DiagonalOfGram(a: array2<real>) returns (diag: Vector)
    ensures |diag| == a.Length1
    ensures forall j :: 0 <= j < a.Length1 ==> diag[j] == Dot(Column(Rows(a), j), Column(Rows(a), j))
  {
    var r := new real[a.Length1];
    var j := 0;
    while j < a.Length1
      modifies r
      invariant 0 <= j <= a.Length1
      invariant forall j' :: 0 <= j' < j ==> r[j'] == Dot(Column(Rows(a), j'), Column(Rows(a), j'))
    {
      r[j] := ColumnDot(a, j, a, j);
      j := j + 1;
    }
    diag := r[..];
  }

  /** stds[stds == 0] = 1 */
  method ReplaceZerosByOne(s: array<real>)
    modifies s
    ensures forall j :: 0 <= j < s.Length ==> s[j] == if old(s[j]) == 0.0 then 1.0 else old(s[j])
  {
    var j := 0;
    while j < s.Length
      invariant 0 <= j <= s.Length
      invariant forall j' :: 0 <= j' < j ==> s[j'] == if old(s[j']) == 0.0 then 1.0 else old(s[j'])
      invariant forall j' :: j <= j' < s.Length ==> s[j'] == old(s[j'])
    {
      if s[j] == 0.0 {
        s[j] := 1.0;
      }
      j := j + 1;
    }
  }

  /** get_std_devs: the centred outputs, the square root of the diagonal of
      outputs^T . outputs (one column's sum of squares per entry, with no
      division by N), and every 0 replaced by 1. */
  method GetStdDevs(e: Matrix, sqrt: real -> real) returns (stds: Vector)
    requires IsBatch(e)
    ensures stds == Norms(e, sqrt)
  {
    var w := Width(e);
    var outputs := FromMatrix(e, |e|, w);
    CenterInPlace(outputs);
    var diag := DiagonalOfGram(outputs);
    var s := new real[w](j requires 0 <= j < w => sqrt(diag[j]));
    ReplaceZerosByOne(s);
    stds := s[..];
    forall j | 0 <= j < w ensures stds[j] == Norms(e, sqrt)[j] {
      var c := Centered(Column(e, j));
      forall i | 0 <= i < |e| ensures Column(Rows(outputs), j)[i] == c[i] { }
      assert Column(Rows(outputs), j) == c;
    }
  }

  /** The first lines of compute_max_corr: the outputs centred and divided,
      column by column, by get_std_devs. */
  method NormalizedOutputs(e: Matrix, sqrt: real -> real) returns (z: array2<real>)
    requires IsBatch(e)
    ensures fresh(z) && z.Length0 == |e| && z.Length1 == Width(e)
    ensures forall d :: 0 <= d < Width(e) ==> Column(Rows(z), d) == Normalized(Column(e, d), sqrt)
  {
    z := FromMatrix(e, |e|, Width(e));
    CenterInPlace(z);
    var stds := GetStdDevs(e, sqrt);
    DivideRows(z, stds);
    forall d | 0 <= d < Width(e) ensures Column(Rows(z), d) == Normalized(Column(e, d), sqrt) {
      assert forall i :: 0 <= i < |e| ==> Column(Rows(z), d)[i] == Normalized(Column(e, d), sqrt)[i];
    }
  }

  /** g_y[c] += z[n] (the whole row n), with c the label of example n. */
  method AddRowToClass(gy: array2<real>, c: nat, z: array2<real>, n: nat)
    requires gy != z && c < gy.Length0 && n < z.Length0 && gy.Length1 == z.Length1
    modifies gy
    ensures forall c', d :: 0 <= c' < gy.Length0 && 0 <= d < gy.Length1 ==>
      gy[c', d] == old(gy[c', d]) + (if c' == c then z[n, d] else 0.0)
  {
    var d := 0;
    while d < gy.Length1
      invariant 0 <= d <= gy.Length1
      invariant forall c', d' :: 0 <= c' < gy.Length0 && 0 <= d' < gy.Length1 ==>
        gy[c', d'] == old(gy[c', d']) + (if c' == c && d' < d then z[n, d'] else 0.0)
    {
      gy[c, d] := gy[c, d] + z[n, d];
      d := d + 1;
    }
  }

  /** For every class c and column d, the sum of the first n entries of us[d]
      over the examples labelled c: g_y after n rows of the first loop. */
  ghost function RunningTotals(us: seq<Vector>, labels: seq<int>, classes: nat, n: nat): (m: Matrix)
    requires n <= |labels| && forall d :: 0 <= d < |us| ==> |us[d]| == |labels|
    ensures IsMatrix(m, classes, |us|)
  {
    seq(classes, c requires 0 <= c < classes =>
      seq(|us|, d requires 0 <= d < |us| => Dot(us[d][..n], Indicator(labels, c)[..n])))
  }

  /** The body of the first loop of compute_max_corr, for row n: the row is
      added to the class totals of its label. */
  method AddClassTerm(gy: array2<real>, z: array2<real>, labels: seq<int>, n: nat, ghost us: seq<Vector>)
    requires gy != z && n < z.Length0 && gy.Length1 == z.Length1
    requires ValidLabels(labels, z.Length0, gy.Length0)
    requires |us| == z.Length1 && forall d :: 0 <= d < z.Length1 ==> |us[d]| == z.Length0 && us[d][n] == z[n, d]
    requires Rows(gy) == RunningTotals(us, labels, gy.Length0, n)
    modifies gy
    ensures Rows(gy) == RunningTotals(us, labels, gy.Length0, n + 1)
  {
    ghost var before := Rows(gy);
    AddRowToClass(gy, labels[n], z, n);
    ghost var next := RunningTotals(us, labels, gy.Length0, n + 1);
    forall c | 0 <= c < gy.Length0 ensures Rows(gy)[c] == next[c] {
      forall d | 0 <= d < z.Length1 ensures Rows(gy)[c][d] == next[c][d] {
        DotExtend(us[d], Indicator(labels, c), n);
      }
    }
  }

  /** A running accumulation before its first row is all zeros. */
  lemma RunningTotalsStart(us: seq<Vector>, labels: seq<int>, classes: nat)
    requires forall d :: 0 <= d < |us| ==> |us[d]| == |labels|
    ensures RunningTotals(us, labels, classes, 0) == Zeros(classes, |us|)
  {
    var m := RunningTotals(us, labels, classes, 0);
    forall c | 0 <= c < classes ensures m[c] == Zeros(classes, |us|)[c] {
      forall d | 0 <= d < |us| ensures m[c][d] == 0.0 {
        assert us[d][..0] == [];
      }
    }
  }

  /** A fresh array of zeros holds the zero matrix. */
  lemma ZeroArray(a: array2<real>)
    requires forall i, j :: 0 <= i < a.Length0 && 0 <= j < a.Length1 ==> a[i, j] == 0.0
    ensures Rows(a) == Zeros(a.Length0, a.Length1)
  {
    forall i | 0 <= i < a.Length0 ensures Rows(a)[i] == Zeros(a.Length0, a.Length1)[i] { }
  }

  /** The row loop of ClassSums. */
  method ClassLoop(gy: array2<real>, z: array2<real>, labels: seq<int>, ghost us: seq<Vector>)
    requires gy != z && gy.Length1 == z.Length1 && ValidLabels(labels, z.Length0, gy.Length0)
    requires |us| == z.Length1
    requires forall d :: 0 <= d < z.Length1 ==> |us[d]| == z.Length0
    requires forall n, d :: 0 <= n < z.Length0 && 0 <= d < z.Length1 ==> us[d][n] == z[n, d]
    requires Rows(gy) == RunningTotals(us, labels, gy.Length0, 0)
    modifies gy
    ensures Rows(gy) == RunningTotals(us, labels, gy.Length0, z.Length0)
  {
    var n := 0;
    while n < z.Length0
      invariant 0 <= n <= z.Length0
      invariant Rows(gy) == RunningTotals(us, labels, gy.Length0, n)
    {
      AddClassTerm(gy, z, labels, n, us);
      n := n + 1;
    }
  }

  /** The first loop of compute_max_corr: every row of z added into the row
      of g_y named by its label, giving the class totals of every column. */
  method ClassSums(z: array2<real>, labels: seq<int>, classes: nat) returns (gy: array2<real>)
    requires ValidLabels(labels, z.Length0, classes)
    ensures fresh(gy) && gy.Length0 == classes && gy.Length1 == z.Length1
    ensures forall c, d :: 0 <= c < classes && 0 <= d < z.Length1 ==>
      gy[c, d] == ClassTotals(Column(Rows(z), d), labels, classes)[c]
  {
    ghost var us := seq(z.Length1, d requires 0 <= d < z.Length1 reads z => Column(Rows(z), d));
    gy := new real[classes, z.Length1]((c, d) => 0.0);
    ZeroArray(gy);
    RunningTotalsStart(us, labels, classes);
    ClassLoop(gy, z, labels, us);
    forall c, d | 0 <= c < classes && 0 <= d < z.Length1
      ensures gy[c, d] == ClassTotals(Column(Rows(z), d), labels, classes)[c]
    {
      assert gy[c, d] == RunningTotals(us, labels, classes, z.Length0)[c][d];
      WholePrefix(us[d], Indicator(labels, c));
    }
  }

  /** A dot product over the full prefixes is the whole dot product. */
  lemma WholePrefix(u: Vector, v: Vector)
    requires |u| == |v|
    ensures Dot(u[..|u|], v[..|v|]) == Dot(u, v)
  {
    assert u[..|u|] == u && v[..|v|] == v;
  }

  /** sigma += z[n] * g_y[l], entry by entry. */
  method AddWeightedRow(sigma: array<real>, z: array2<real>, n: nat, gy: array2<real>, l: nat)
    requires n < z.Length0 && l < gy.Length0 && sigma.Length == z.Length1 == gy.Length1
    modifies sigma
    ensures forall d :: 0 <= d < sigma.Length ==> sigma[d] == old(sigma[d]) + z[n, d] * gy[l, d]
  {
    var d := 0;
    while d < sigma.Length
      invariant 0 <= d <= sigma.Length
      invariant forall d' :: 0 <= d' < d ==> sigma[d'] == old(sigma[d']) + z[n, d'] * gy[l, d']
      invariant forall d' :: d <= d' < sigma.Length ==> sigma[d'] == old(sigma[d'])
    {
      sigma[d] := sigma[d] + z[n, d] * gy[l, d];
      d := d + 1;
    }
  }

  /** For every column d, the dot product of the first n entries of us[d] and
      vs[d]: the state of a running accumulation after n rows. */
  ghost function RunningDots(us: seq<Vector>, vs: seq<Vector>, n: nat): (r: Vector)
    requires |us| == |vs| && forall d :: 0 <= d < |us| ==> n <= |us[d]| == |vs[d]|
    ensures |r| == |us|
  {
    seq(|us|, d requires 0 <= d < |us| => Dot(us[d][..n], vs[d][..n]))
  }

  /** The body of the second loop of compute_max_corr, for row n: every
      running sum gains the term of row n. */
  method AddCorrelationTerm(sigma: array<real>, z: array2<real>, gy: array2<real>, l: nat, n: nat,
                            ghost us: seq<Vector>, ghost vs: seq<Vector>)
    requires n < z.Length0 && l < gy.Length0 && sigma.Length == z.Length1 == gy.Length1
    requires |us| == |vs| == z.Length1 && forall d :: 0 <= d < z.Length1 ==> |us[d]| == |vs[d]| == z.Length0
    requires forall d :: 0 <= d < z.Length1 ==> us[d][n] == z[n, d] && vs[d][n] == gy[l, d]
    requires sigma[..] == RunningDots(us, vs, n)
    modifies sigma
    ensures sigma[..] == RunningDots(us, vs, n + 1)
  {
    ghost var before := sigma[..];
    AddWeightedRow(sigma, z, n, gy, l);
    forall d | 0 <= d < z.Length1 ensures sigma[d] == RunningDots(us, vs, n + 1)[d] {
      DotStep(us[d], vs[d], n, before[d], z[n, d], gy[l, d], sigma[d]);
    }
  }

  /** A running dot product before its first row is all zeros. */
  lemma RunningDotsStart(us: seq<Vector>, vs: seq<Vector>)
    requires |us| == |vs| && forall d :: 0 <= d < |us| ==> |us[d]| == |vs[d]|
    ensures RunningDots(us, vs, 0) == seq(|us|, d => 0.0)
  {
    forall d | 0 <= d < |us| ensures RunningDots(us, vs, 0)[d] == 0.0 {
      assert us[d][..0] == [];
    }
  }

  /** The row loop of CorrelationSums. */
  method CorrelationLoop(sigma: array<real>, z: array2<real>, gy: array2<real>, labels: seq<int>,
                         ghost us: seq<Vector>, ghost vs: seq<Vector>)
    requires sigma.Length == z.Length1 == gy.Length1 && ValidLabels(labels, z.Length0, gy.Length0)
    requires |us| == |vs| == z.Length1
    requires forall d :: 0 <= d < z.Length1 ==> |us[d]| == |vs[d]| == z.Length0
    requires forall n, d :: 0 <= n < z.Length0 && 0 <= d < z.Length1 ==> us[d][n] == z[n, d]
    requires forall n, d :: 0 <= n < z.Length0 && 0 <= d < z.Length1 ==> vs[d][n] == gy[labels[n], d]
    requires sigma[..] == RunningDots(us, vs, 0)
    modifies sigma
    ensures sigma[..] == RunningDots(us, vs, z.Length0)
  {
    var n := 0;
    while n < z.Length0
      invariant 0 <= n <= z.Length0
      invariant sigma[..] == RunningDots(us, vs, n)
    {
      AddCorrelationTerm(sigma, z, gy, labels[n], n, us, vs);
      n := n + 1;
    }
  }

  /** The second loop of compute_max_corr: every row of z times the row of
      g_y named by its label, summed over the rows. */
  method CorrelationSums(z: array2<real>, gy: array2<real>, labels: seq<int>) returns (sigma: array<real>)
    requires z.Length1 == gy.Length1 && ValidLabels(labels, z.Length0, gy.Length0)
    ensures fresh(sigma) && sigma.Length == z.Length1
    ensures forall d :: 0 <= d < z.Length1 ==>
      sigma[d] == Dot(Column(Rows(z), d), Gather(Column(Rows(gy), d), labels))
  {
    ghost var us := seq(z.Length1, d requires 0 <= d < z.Length1 reads z => Column(Rows(z), d));
    ghost var vs := seq(z.Length1, d requires 0 <= d < z.Length1 reads gy => Gather(Column(Rows(gy), d), labels));
    sigma := new real[z.Length1](d => 0.0);
    RunningDotsStart(us, vs);
    assert sigma[..] == seq(z.Length1, d => 0.0);
    CorrelationLoop(sigma, z, gy, labels, us, vs);
    forall d | 0 <= d < z.Length1
      ensures sigma[d] == Dot(Column(Rows(z), d), Gather(Column(Rows(gy), d), labels))
    {
      assert sigma[d] == RunningDots(us, vs, z.Length0)[d];
      WholePrefix(us[d], vs[d]);
    }
  }

  /** g_y after the first loop and g_y /= N: column d of g_y holds the class
      means of column d of z. */
  method ClassMeansOf(z: array2<real>, labels: seq<int>, classes: nat) returns (gy: array2<real>)
    requires z.Length0 > 0 && ValidLabels(labels, z.Length0, classes)
    ensures fresh(gy) && gy.Length0 == classes && gy.Length1 == z.Length1
    ensures forall d :: 0 <= d < z.Length1 ==> Column(Rows(gy), d) == ClassMeans(Column(Rows(z), d), labels, classes)
  {
    gy := ClassSums(z, labels, classes);
    DivideAll(gy, |labels| as real);
    forall d | 0 <= d < z.Length1 ensures Column(Rows(gy), d) == ClassMeans(Column(Rows(z), d), labels, classes) {
      forall c | 0 <= c < classes ensures Column(Rows(gy), d)[c] == ClassMeans(Column(Rows(z), d), labels, classes)[c] { }
    }
  }

  /** sigma after the second loop and sigma /= N: sigma[d] is the raw weight
      of column d. */
  method RawSigmas(z: array2<real>, gy: array2<real>, labels: seq<int>) returns (sigma: array<real>)
    requires z.Length0 > 0 && z.Length1 == gy.Length1 && ValidLabels(labels, z.Length0, gy.Length0)
    ensures fresh(sigma) && sigma.Length == z.Length1
    ensures forall d :: 0 <= d < z.Length1 ==> sigma[d] == RawSigma(Column(Rows(z), d), labels, Column(Rows(gy), d))
  {
    sigma := CorrelationSums(z, gy, labels);
    DivideVector(sigma, |labels| as real);
  }

  /** g_y *= sigma.sign(), then sigma *= sigma.sign(): column by column, the
      sign normalisation of (sigma[d], column d of g_y). */
  method SignNormalizeInPlace(gy: array2<real>, sigma: array<real>)
    requires sigma.Length == gy.Length1
    modifies gy, sigma
    ensures forall d :: 0 <= d < sigma.Length ==>
      ColumnStats(sigma[d], Column(Rows(gy), d)) == SignNormalize(old(sigma[d]), Column(old(Rows(gy)), d))
  {
    ghost var g0, s0 := Rows(gy), sigma[..];
    var signs := seq(sigma.Length, d requires 0 <= d < sigma.Length reads sigma => Sign(sigma[d]));
    MultiplyRows(gy, signs);
    MultiplyVector(sigma, signs);
    forall d | 0 <= d < sigma.Length
      ensures ColumnStats(sigma[d], Column(Rows(gy), d)) == SignNormalize(s0[d], Column(g0, d))
    {
      var r := SignNormalize(s0[d], Column(g0, d));
      forall c | 0 <= c < gy.Length0 ensures Column(Rows(gy), d)[c] == r.g[c] { }
    }
  }

  /** compute_max_corr: centre and normalise the outputs, accumulate g_y by
      class and divide by N, accumulate sigma and divide by N, then multiply
      g_y and sigma by the sign of sigma. The result is the specification
      MaxCorr. */
  method ComputeMaxCorr(e: Matrix, labels: seq<int>, classes: nat, sqrt: real -> real) returns (st: Stats)
    requires IsBatch(e) && ValidLabels(labels, |e|, classes)
    ensures st == MaxCorr(e, labels, classes, sqrt)
  {
    var outputs := NormalizedOutputs(e, sqrt);
    var gy := ClassMeansOf(outputs, labels, classes);
    var sigma := RawSigmas(outputs, gy, labels);
    SignNormalizeInPlace(gy, sigma);
    st := Stats(sigma[..], Rows(gy));

    ghost var spec := MaxCorr(e, labels, classes, sqrt);
    forall d | 0 <= d < Width(e)
      ensures ColumnStats(st.sigma[d], Column(st.g, d)) == ColumnMaxCorr(Column(e, d), labels, classes, sqrt)
    { }
    forall d | 0 <= d < Width(e) ensures st.sigma[d] == spec.sigma[d] { }
    forall c | 0 <= c < classes ensures st.g[c] == spec.g[c] {
      forall d | 0 <= d < Width(e) ensures st.g[c][d] == spec.g[c][d] {
        assert st.g[c][d] == Column(st.g, d)[c];
      }
    }
  }
}
