/** Real vectors and matrices (a matrix is a sequence of rows) and the finite
    sums every statistic of the maximal-correlation engine is built from. */
module Linear {

  type Vector = seq<real>
  type Matrix = seq<seq<real>>

  predicate IsMatrix(m: Matrix, rows: nat, cols: nat) {
    |m| == rows && forall i :: 0 <= i < |m| ==> |m[i]| == cols
  }

  /** Column j of m, as a vector indexed by row. */
  function Column(m: Matrix, j: nat): (v: Vector)
    requires forall i :: 0 <= i < |m| ==> j < |m[i]|
    ensures |v| == |m|
    ensures forall i :: 0 <= i < |m| ==> v[i] == m[i][j]
  {
    seq(|m|, i requires 0 <= i < |m| => m[i][j])
  }

  /** v[0] + ... + v[|v|-1] */
  function Sum(v: Vector): real {
    if |v| == 0 then 0.0 else Sum(v[..|v| - 1]) + v[|v| - 1]
  }

  /** u[0] * v[0] + ... + u[|u|-1] * v[|u|-1] */
  function Dot(u: Vector, v: Vector): real
    requires |u| == |v|
  {
    if |u| == 0 then 0.0 else Dot(u[..|u| - 1], v[..|v| - 1]) + u[|u| - 1] * v[|v| - 1]
  }

  /** x added to every entry of v. */
  function Shift(v: Vector, x: real): (r: Vector)
    ensures |r| == |v|
    ensures forall i :: 0 <= i < |v| ==> r[i] == v[i] + x
  {
    seq(|v|, i requires 0 <= i < |v| => v[i] + x)
  }

  /** Every entry of v multiplied by s. */
  function Scale(s: real, v: Vector): (r: Vector)
    ensures |r| == |v|
    ensures forall i :: 0 <= i < |v| ==> r[i] == s * v[i]
  {
    seq(|v|, i requires 0 <= i < |v| => s * v[i])
  }

  /** The entry-wise product of u and v. */
  function Hadamard(u: Vector, v: Vector): (r: Vector)
    requires |u| == |v|
    ensures |r| == |u|
    ensures forall i :: 0 <= i < |u| ==> r[i] == u[i] * v[i]
  {
    seq(|u|, i requires 0 <= i < |u| => u[i] * v[i])
  }

  /** v with the sign of entry j flipped. */
  function Flip(v: Vector, j: nat): (r: Vector)
    requires j < |v|
    ensures |r| == |v| && r[j] == -v[j]
    ensures forall i :: 0 <= i < |v| && i != j ==> r[i] == v[i]
  {
    v[j := -v[j]]
  }

  predicate IsZero(v: Vector) {
    forall i :: 0 <= i < |v| ==> v[i] == 0.0
  }

  // ---------------------------------------------------------------------------
  // Facts about the sums

  /** Shifting every entry by x shifts the sum by |v| * x. */
  lemma {:induction false} SumShift(v: Vector, x: real)
    ensures Sum(Shift(v, x)) == Sum(v) + (|v| as real) * x
  {
    if |v| > 0 {
      var n := |v|;
      assert Shift(v, x)[..n - 1] == Shift(v[..n - 1], x);
      SumShift(v[..n - 1], x);
    }
  }

  /** A vector whose entries all equal x sums to |v| * x. */
  lemma {:induction false} SumConstant(v: Vector, x: real)
    requires forall i :: 0 <= i < |v| ==> v[i] == x
    ensures Sum(v) == (|v| as real) * x
  {
    if |v| > 0 {
      SumConstant(v[..|v| - 1], x);
    }
  }

  /** Scaling every entry scales the sum. */
  lemma {:induction false} SumScale(s: real, v: Vector)
    ensures Sum(Scale(s, v)) == s * Sum(v)
  {
    if |v| > 0 {
      var n := |v|;
      forall i | 0 <= i < n - 1 ensures Scale(s, v[..n - 1])[i] == s * v[i] { }
      assert Scale(s, v)[..n - 1] == Scale(s, v[..n - 1]);
      SumScale(s, v[..n - 1]);
    }
  }

  /** A product of two non-zero reals is non-zero. */
  lemma NonZeroProduct(x: real, y: real)
    ensures x != 0.0 && y != 0.0 ==> x * y != 0.0
  {
    if x > 0.0 && y > 0.0 { assert x * y > 0.0; }
    else if x > 0.0 && y < 0.0 { assert x * y < 0.0; }
    else if x < 0.0 && y > 0.0 { assert x * y < 0.0; }
    else if x < 0.0 && y < 0.0 { assert x * y > 0.0; }
  }

  lemma ZeroProduct(x: real, y: real)
    requires x * y == 0.0
    ensures x == 0.0 || y == 0.0
  {
    NonZeroProduct(x, y);
  }

  lemma SquareNonNegative(x: real)
    ensures x * x >= 0.0
  {
  }

  /** Adding a square to a non-negative number gives a non-negative number,
      which is zero only when both parts are. (The steps go through separate
      lemmas: the solver does poorly with an equation between a square and
      zero in the same query as a sign case split.) */
  lemma AddSquare(a: real, x: real)
    requires a >= 0.0
    ensures a + x * x >= 0.0
    ensures a + x * x == 0.0 ==> a == 0.0 && x == 0.0
  {
    SquareNonNegative(x);
    if a + x * x == 0.0 {
      assert x * x == 0.0;
      ZeroProduct(x, x);
    }
  }

  /** A sum of squares is never negative, and it is zero exactly when every
      entry is zero. */
  lemma {:induction false} DotSelf(v: Vector)
    ensures Dot(v, v) >= 0.0
    ensures Dot(v, v) == 0.0 <==> IsZero(v)
  {
    if |v| > 0 {
      var n := |v|;
      var p := v[..n - 1];
      DotSelf(p);
      AddSquare(Dot(p, p), v[n - 1]);
      if Dot(v, v) == 0.0 {
        forall i | 0 <= i < n ensures v[i] == 0.0 {
          if i < n - 1 { assert p[i] == v[i]; }
        }
      }
      if IsZero(v) {
        assert IsZero(p) by {
          forall i | 0 <= i < n - 1 ensures p[i] == 0.0 { assert p[i] == v[i]; }
        }
      }
    }
  }

  /** A dot product with a zero vector is zero. */
  lemma {:induction false} DotZeroLeft(u: Vector, v: Vector)
    requires |u| == |v| && IsZero(u)
    ensures Dot(u, v) == 0.0
  {
    if |u| > 0 {
      var n := |u|;
      assert IsZero(u[..n - 1]) by {
        forall i | 0 <= i < n - 1 ensures u[i] == 0.0 { }
      }
      DotZeroLeft(u[..n - 1], v[..n - 1]);
    }
  }

  lemma {:induction false} DotZeroRight(u: Vector, v: Vector)
    requires |u| == |v| && IsZero(v)
    ensures Dot(u, v) == 0.0
  {
    if |u| > 0 {
      var n := |u|;
      assert IsZero(v[..n - 1]) by {
        forall i | 0 <= i < n - 1 ensures v[i] == 0.0 { }
      }
      DotZeroRight(u[..n - 1], v[..n - 1]);
    }
  }

  lemma {:induction false} DotScaleLeft(s: real, u: Vector, v: Vector)
    requires |u| == |v|
    ensures Dot(Scale(s, u), v) == s * Dot(u, v)
  {
    if |u| > 0 {
      var n := |u|;
      forall i | 0 <= i < n - 1 ensures Scale(s, u[..n - 1])[i] == s * u[i] { }
      assert Scale(s, u)[..n - 1] == Scale(s, u[..n - 1]);
      DotScaleLeft(s, u[..n - 1], v[..n - 1]);
    }
  }

  lemma {:induction false} DotScaleRight(s: real, u: Vector, v: Vector)
    requires |u| == |v|
    ensures Dot(u, Scale(s, v)) == s * Dot(u, v)
  {
    if |u| > 0 {
      var n := |u|;
      forall i | 0 <= i < n - 1 ensures Scale(s, v[..n - 1])[i] == s * v[i] { }
      assert Scale(s, v)[..n - 1] == Scale(s, v[..n - 1]);
      DotScaleRight(s, u[..n - 1], v[..n - 1]);
    }
  }

  /** Negating both sides of a dot product changes nothing. */
  lemma DotNegateBoth(v: Vector)
    ensures Dot(Scale(-1.0, v), Scale(-1.0, v)) == Dot(v, v)
  {
    DotScaleLeft(-1.0, v, Scale(-1.0, v));
    DotScaleRight(-1.0, v, v);
  }

  /** Adding x to entry l of the right operand adds w[l] * x to the dot
      product. */
  lemma {:induction false} DotUpdate(w: Vector, a: Vector, l: nat, x: real)
    requires |w| == |a| && l < |a|
    ensures Dot(w, a[l := a[l] + x]) == Dot(w, a) + w[l] * x
  {
    var n := |a|;
    if l == n - 1 {
      assert a[l := a[l] + x][..n - 1] == a[..n - 1];
    } else {
      assert a[l := a[l] + x][..n - 1] == a[..n - 1][l := a[l] + x];
      DotUpdate(w[..n - 1], a[..n - 1], l, x);
    }
  }

  /** (a * b) . c == a . (b * c): a weight can move from one operand to the
      other. */
  lemma {:induction false} DotHadamard(a: Vector, b: Vector, c: Vector)
    requires |a| == |b| == |c|
    ensures Dot(Hadamard(a, b), c) == Dot(a, Hadamard(b, c))
  {
    if |a| > 0 {
      var n := |a|;
      forall i | 0 <= i < n - 1 ensures Hadamard(a[..n - 1], b[..n - 1])[i] == a[i] * b[i] { }
      forall i | 0 <= i < n - 1 ensures Hadamard(b[..n - 1], c[..n - 1])[i] == b[i] * c[i] { }
      assert Hadamard(a, b)[..n - 1] == Hadamard(a[..n - 1], b[..n - 1]);
      assert Hadamard(b, c)[..n - 1] == Hadamard(b[..n - 1], c[..n - 1]);
      DotHadamard(a[..n - 1], b[..n - 1], c[..n - 1]);
      assert a[n - 1] * b[n - 1] * c[n - 1] == a[n - 1] * (b[n - 1] * c[n - 1]);
    }
  }

  /** Flipping the sign of the same entry in both operands leaves the dot
      product unchanged. */
  lemma {:induction false} DotFlipBoth(u: Vector, v: Vector, j: nat)
    requires |u| == |v| && j < |u|
    ensures Dot(Flip(u, j), Flip(v, j)) == Dot(u, v)
  {
    var n := |u|;
    if j == n - 1 {
      assert Flip(u, j)[..n - 1] == u[..n - 1];
      assert Flip(v, j)[..n - 1] == v[..n - 1];
    } else {
      assert Flip(u, j)[..n - 1] == Flip(u[..n - 1], j);
      assert Flip(v, j)[..n - 1] == Flip(v[..n - 1], j);
      DotFlipBoth(u[..n - 1], v[..n - 1], j);
    }
  }

  /** A dot product over a prefix one longer adds one term; this is what a
      running accumulation maintains. */
  lemma DotExtend(u: Vector, v: Vector, k: nat)
    requires |u| == |v| && k < |u|
    ensures Dot(u[..k + 1], v[..k + 1]) == Dot(u[..k], v[..k]) + u[k] * v[k]
  {
    assert u[..k + 1][..k] == u[..k];
    assert v[..k + 1][..k] == v[..k];
  }

  /** One step of a running dot product. */
  lemma DotStep(u: Vector, v: Vector, n: nat, sum: real, x: real, y: real, next: real)
    requires |u| == |v| && n < |u|
    requires sum == Dot(u[..n], v[..n]) && x == u[n] && y == v[n] && next == sum + x * y
    ensures next == Dot(u[..n + 1], v[..n + 1])
  {
    DotExtend(u, v, n);
  }

  /** A sum over a prefix one longer adds one term. */
  lemma SumExtend(v: Vector, k: nat)
    requires k < |v|
    ensures Sum(v[..k + 1]) == Sum(v[..k]) + v[k]
  {
    assert v[..k + 1][..k] == v[..k];
  }

  // ---------------------------------------------------------------------------
  // Matrices

  /** The rows x cols matrix of zeros. */
  function Zeros(rows: nat, cols: nat): (m: Matrix)
    ensures IsMatrix(m, rows, cols)
  {
    seq(rows, i => seq(cols, j => 0.0))
  }

  /** Entry-wise sum of two matrices of the same shape. */
  function Add(a: Matrix, b: Matrix): (m: Matrix)
    requires |a| == |b| && forall i :: 0 <= i < |a| ==> |a[i]| == |b[i]|
    ensures |m| == |a| && forall i :: 0 <= i < |a| ==> |m[i]| == |a[i]|
  {
    seq(|a|, i requires 0 <= i < |a| =>
      seq(|a[i]|, j requires 0 <= j < |a[i]| => a[i][j] + b[i][j]))
  }

  /** Every entry of a multiplied by s. */
  function ScaleMatrix(s: real, a: Matrix): (m: Matrix)
    ensures |m| == |a| && forall i :: 0 <= i < |a| ==> |m[i]| == |a[i]|
  {
    seq(|a|, i requires 0 <= i < |a| => Scale(s, a[i]))
  }

  /** Adding the zero matrix changes nothing. */
  lemma AddZeros(m: Matrix, rows: nat, cols: nat)
    requires IsMatrix(m, rows, cols)
    ensures Add(m, Zeros(rows, cols)) == m
  {
    forall i | 0 <= i < rows ensures Add(m, Zeros(rows, cols))[i] == m[i] { }
  }

  /** The entry-wise sum is associative. */
  lemma AddAssociative(a: Matrix, b: Matrix, c: Matrix, rows: nat, cols: nat)
    requires IsMatrix(a, rows, cols) && IsMatrix(b, rows, cols) && IsMatrix(c, rows, cols)
    ensures Add(Add(a, b), c) == Add(a, Add(b, c))
  {
    forall i | 0 <= i < rows ensures Add(Add(a, b), c)[i] == Add(a, Add(b, c))[i] { }
  }

  /** The entry-wise sum is commutative. */
  lemma AddCommutative(a: Matrix, b: Matrix, rows: nat, cols: nat)
    requires IsMatrix(a, rows, cols) && IsMatrix(b, rows, cols)
    ensures Add(a, b) == Add(b, a)
  {
    forall i | 0 <= i < rows ensures Add(a, b)[i] == Add(b, a)[i] { }
  }

  /** A matrix added to itself is the matrix doubled. */
  lemma AddSelf(m: Matrix, rows: nat, cols: nat)
    requires IsMatrix(m, rows, cols)
    ensures Add(m, m) == ScaleMatrix(2.0, m)
  {
    forall i | 0 <= i < rows ensures Add(m, m)[i] == ScaleMatrix(2.0, m)[i] { }
  }

  /** The entry-wise sum of a sequence of matrices of the same shape, added
      one after the other to the zero matrix. */
  function MatrixSum(ms: seq<Matrix>, rows: nat, cols: nat): (m: Matrix)
    requires forall k :: 0 <= k < |ms| ==> IsMatrix(ms[k], rows, cols)
    ensures IsMatrix(m, rows, cols)
  {
    if |ms| == 0 then Zeros(rows, cols)
    else
      assert IsMatrix(ms[|ms| - 1], rows, cols);
      Add(MatrixSum(ms[..|ms| - 1], rows, cols), ms[|ms| - 1])
  }

  /** Entry i, j of every matrix of ms. */
  function Entries(ms: seq<Matrix>, rows: nat, cols: nat, i: nat, j: nat): (v: Vector)
    requires forall k :: 0 <= k < |ms| ==> IsMatrix(ms[k], rows, cols)
    requires i < rows && j < cols
    ensures |v| == |ms| && forall k :: 0 <= k < |ms| ==> i < |ms[k]| && j < |ms[k][i]| && v[k] == ms[k][i][j]
  {
    assert forall k :: 0 <= k < |ms| ==> i < |ms[k]| && j < |ms[k][i]| by {
      forall k | 0 <= k < |ms| ensures i < |ms[k]| && j < |ms[k][i]| {
        assert IsMatrix(ms[k], rows, cols);
      }
    }
    seq(|ms|, k requires 0 <= k < |ms| => ms[k][i][j])
  }

  /** Entry i, j of the sum is the sum of the entries i, j. */
  lemma {:induction false} MatrixSumEntry(ms: seq<Matrix>, rows: nat, cols: nat, i: nat, j: nat)
    requires forall k :: 0 <= k < |ms| ==> IsMatrix(ms[k], rows, cols)
    requires i < rows && j < cols
    ensures MatrixSum(ms, rows, cols)[i][j] == Sum(Entries(ms, rows, cols, i, j))
  {
    var k := |ms|;
    if k > 0 {
      MatrixSumEntry(ms[..k - 1], rows, cols, i, j);
      assert Entries(ms, rows, cols, i, j)[..k - 1] == Entries(ms[..k - 1], rows, cols, i, j);
    }
  }

  /** Summing two sequences one after the other is adding their sums. */
  lemma {:induction false} MatrixSumAppend(a: seq<Matrix>, b: seq<Matrix>, rows: nat, cols: nat)
    requires forall k :: 0 <= k < |a| ==> IsMatrix(a[k], rows, cols)
    requires forall k :: 0 <= k < |b| ==> IsMatrix(b[k], rows, cols)
    ensures MatrixSum(a + b, rows, cols) == Add(MatrixSum(a, rows, cols), MatrixSum(b, rows, cols))
    decreases |b|
  {
    if |b| == 0 {
      assert a + b == a;
      AddZeros(MatrixSum(a, rows, cols), rows, cols);
    } else {
      var b' := b[..|b| - 1];
      assert (a + b)[..|a + b| - 1] == a + b';
      MatrixSumAppend(a, b', rows, cols);
      AddAssociative(MatrixSum(a, rows, cols), MatrixSum(b', rows, cols), b[|b| - 1], rows, cols);
    }
  }

  /** The vector v added to every row of m. */
  function AddToRows(m: Matrix, v: Vector): (r: Matrix)
    requires forall i :: 0 <= i < |m| ==> |m[i]| == |v|
    ensures IsMatrix(r, |m|, |v|)
  {
    seq(|m|, i requires 0 <= i < |m| => seq(|v|, j requires 0 <= j < |v| => m[i][j] + v[j]))
  }

  /** m with the sign of column j flipped. */
  function NegateColumn(m: Matrix, j: nat): (r: Matrix)
    requires forall i :: 0 <= i < |m| ==> j < |m[i]|
    ensures |r| == |m| && forall i :: 0 <= i < |m| ==> r[i] == Flip(m[i], j)
  {
    seq(|m|, i requires 0 <= i < |m| => Flip(m[i], j))
  }

  /** Column j of NegateColumn(m, j0) is column j of m, negated when j == j0. */
  lemma ColumnOfNegated(m: Matrix, j0: nat, j: nat)
    requires forall i :: 0 <= i < |m| ==> j0 < |m[i]| && j < |m[i]|
    ensures Column(NegateColumn(m, j0), j) == if j == j0 then Scale(-1.0, Column(m, j)) else Column(m, j)
  {
    var r := NegateColumn(m, j0);
    if j == j0 {
      forall i | 0 <= i < |m| ensures Column(r, j)[i] == Scale(-1.0, Column(m, j))[i] { }
    } else {
      forall i | 0 <= i < |m| ensures Column(r, j)[i] == Column(m, j)[i] { }
    }
  }

  /** Column j of AddToRows(m, v) is column j of m shifted by v[j]. */
  lemma ColumnOfShifted(m: Matrix, v: Vector, j: nat)
    requires forall i :: 0 <= i < |m| ==> |m[i]| == |v|
    requires j < |v|
    ensures Column(AddToRows(m, v), j) == Shift(Column(m, j), v[j])
  {
    forall i | 0 <= i < |m| ensures Column(AddToRows(m, v), j)[i] == Shift(Column(m, j), v[j])[i] { }
  }

  /** The rows of a two-dimensional array, as a matrix value. */
  function Rows(a: array2<real>): (m: Matrix)
    reads a
    ensures IsMatrix(m, a.Length0, a.Length1)
    ensures forall i, j :: 0 <= i < a.Length0 && 0 <= j < a.Length1 ==> m[i][j] == a[i, j]
  {
    seq(a.Length0, i requires 0 <= i < a.Length0 reads a =>
      seq(a.Length1, j requires 0 <= j < a.Length1 reads a => a[i, j]))
  }
}
