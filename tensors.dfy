/** The in-place tensor operations the engine applies to network outputs:
    broadcast subtraction, division and multiplication by a row vector
    (torch broadcasting of a D-vector over an N x D tensor), division of a
    whole tensor by a scalar, and the matrix product a . b^T. */
module Tensors {
  import opened Linear

  /** A fresh rows x cols array holding m. */
  method FromMatrix(m: Matrix, rows: nat, cols: nat) returns (a: array2<real>)
    requires IsMatrix(m, rows, cols)
    ensures fresh(a) && a.Length0 == rows && a.Length1 == cols
    ensures Rows(a) == m
  {
    a := new real[rows, cols]((i, j) requires 0 <= i < rows && 0 <= j < cols => m[i][j]);
    forall i | 0 <= i < rows ensures Rows(a)[i] == m[i] { }
  }

  /** a -= v, with v broadcast over the rows of a. */
  method SubtractFromRows(a: array2<real>, v: Vector)
    requires |v| == a.Length1
    modifies a
    ensures forall i, j :: 0 <= i < a.Length0 && 0 <= j < a.Length1 ==> a[i, j] == old(a[i, j]) - v[j]
  {
    var i := 0;
    while i < a.Length0
      invariant 0 <= i <= a.Length0
      invariant forall i', j :: 0 <= i' < i && 0 <= j < a.Length1 ==> a[i', j] == old(a[i', j]) - v[j]
      invariant forall i', j :: i <= i' < a.Length0 && 0 <= j < a.Length1 ==> a[i', j] == old(a[i', j])
    {
      var j := 0;
      while j < a.Length1
        invariant 0 <= j <= a.Length1
        invariant forall i', j' :: 0 <= i' < i && 0 <= j' < a.Length1 ==> a[i', j'] == old(a[i', j']) - v[j']
        invariant forall j' :: 0 <= j' < j ==> a[i, j'] == old(a[i, j']) - v[j']
        invariant forall i', j' :: i <= i' < a.Length0 && 0 <= j' < a.Length1 && (i' != i || j <= j') ==> a[i', j'] == old(a[i', j'])
      {
        a[i, j] := a[i, j] - v[j];
        j := j + 1;
      }
      i := i + 1;
    }
  }

  /** a /= v, with v broadcast over the rows of a; no entry of v is 0. */
  method DivideRows(a: array2<real>, v: Vector)
    requires |v| == a.Length1 && forall j :: 0 <= j < |v| ==> v[j] != 0.0
    modifies a
    ensures forall i, j :: 0 <= i < a.Length0 && 0 <= j < a.Length1 ==> a[i, j] == old(a[i, j]) / v[j]
  {
    var i := 0;
    while i < a.Length0
      invariant 0 <= i <= a.Length0
      invariant forall i', j :: 0 <= i' < i && 0 <= j < a.Length1 ==> a[i', j] == old(a[i', j]) / v[j]
      invariant forall i', j :: i <= i' < a.Length0 && 0 <= j < a.Length1 ==> a[i', j] == old(a[i', j])
    {
      var j := 0;
      while j < a.Length1
        invariant 0 <= j <= a.Length1
        invariant forall i', j' :: 0 <= i' < i && 0 <= j' < a.Length1 ==> a[i', j'] == old(a[i', j']) / v[j']
        invariant forall j' :: 0 <= j' < j ==> a[i, j'] == old(a[i, j']) / v[j']
        invariant forall i', j' :: i <= i' < a.Length0 && 0 <= j' < a.Length1 && (i' != i || j <= j') ==> a[i', j'] == old(a[i', j'])
      {
        a[i, j] := a[i, j] / v[j];
        j := j + 1;
      }
      i := i + 1;
    }
  }

  /** a *= v, with v broadcast over the rows of a. */
  method MultiplyRows(a: array2<real>, v: Vector)
    requires |v| == a.Length1
    modifies a
    ensures forall i, j :: 0 <= i < a.Length0 && 0 <= j < a.Length1 ==> a[i, j] == old(a[i, j]) * v[j]
  {
    var i := 0;
    while i < a.Length0
      invariant 0 <= i <= a.Length0
      invariant forall i', j :: 0 <= i' < i && 0 <= j < a.Length1 ==> a[i', j] == old(a[i', j]) * v[j]
      invariant forall i', j :: i <= i' < a.Length0 && 0 <= j < a.Length1 ==> a[i', j] == old(a[i', j])
    {
      var j := 0;
      while j < a.Length1
        invariant 0 <= j <= a.Length1
        invariant forall i', j' :: 0 <= i' < i && 0 <= j' < a.Length1 ==> a[i', j'] == old(a[i', j']) * v[j']
        invariant forall j' :: 0 <= j' < j ==> a[i, j'] == old(a[i, j']) * v[j']
        invariant forall i', j' :: i <= i' < a.Length0 && 0 <= j' < a.Length1 && (i' != i || j <= j') ==> a[i', j'] == old(a[i', j'])
      {
        a[i, j] := a[i, j] * v[j];
        j := j + 1;
      }
      i := i + 1;
    }
  }

  /** a += m, entry by entry. */
  method AddInPlace(a: array2<real>, m: Matrix)
    requires IsMatrix(m, a.Length0, a.Length1)
    modifies a
    ensures Rows(a) == Add(old(Rows(a)), m)
  {
    ghost var before := Rows(a);
    var i := 0;
    while i < a.Length0
      invariant 0 <= i <= a.Length0
      invariant forall i', j :: 0 <= i' < a.Length0 && 0 <= j < a.Length1 ==>
                  a[i', j] == if i' < i then before[i'][j] + m[i'][j] else before[i'][j]
    {
      var j := 0;
      while j < a.Length1
        invariant 0 <= j <= a.Length1
        invariant forall i', j' :: 0 <= i' < a.Length0 && 0 <= j' < a.Length1 ==>
                    a[i', j'] == if i' < i || (i' == i && j' < j) then before[i'][j'] + m[i'][j'] else before[i'][j']
      {
        a[i, j] := a[i, j] + m[i][j];
        j := j + 1;
      }
      i := i + 1;
    }
    forall i' | 0 <= i' < a.Length0 ensures Rows(a)[i'] == Add(before, m)[i'] { }
  }

  /** a[:, offset:offset + w] = x for an array a and a matrix x of width w:
      the columns of the block take the values of x, the other columns keep
      theirs. */
  method AssignColumns(a: array2<real>, offset: nat, x: Matrix, w: nat)
    requires IsMatrix(x, a.Length0, w) && offset + w <= a.Length1
    modifies a
    ensures forall i, j :: 0 <= i < a.Length0 && 0 <= j < a.Length1 ==>
              a[i, j] == if offset <= j < offset + w then x[i][j - offset] else old(a[i, j])
  {
    var i := 0;
    while i < a.Length0
      invariant 0 <= i <= a.Length0
      invariant forall i', j :: 0 <= i' < a.Length0 && 0 <= j < a.Length1 ==>
                  a[i', j] == if i' < i && offset <= j < offset + w then x[i'][j - offset] else old(a[i', j])
    {
      var k := 0;
      while k < w
        invariant 0 <= k <= w
        invariant forall i', j :: 0 <= i' < a.Length0 && 0 <= j < a.Length1 ==>
                    a[i', j] == if (i' < i || (i' == i && j < offset + k)) && offset <= j < offset + w
                                then x[i'][j - offset] else old(a[i', j])
      {
        a[i, offset + k] := x[i][k];
        k := k + 1;
      }
      i := i + 1;
    }
  }

  /** a /= x for a non-zero scalar x. */
  method DivideAll(a: array2<real>, x: real)
    requires x != 0.0
    modifies a
    ensures forall i, j :: 0 <= i < a.Length0 && 0 <= j < a.Length1 ==> a[i, j] == old(a[i, j]) / x
  {
    var i := 0;
    while i < a.Length0
      invariant 0 <= i <= a.Length0
      invariant forall i', j :: 0 <= i' < i && 0 <= j < a.Length1 ==> a[i', j] == old(a[i', j]) / x
      invariant forall i', j :: i <= i' < a.Length0 && 0 <= j < a.Length1 ==> a[i', j] == old(a[i', j])
    {
      var j := 0;
      while j < a.Length1
        invariant 0 <= j <= a.Length1
        invariant forall i', j' :: 0 <= i' < i && 0 <= j' < a.Length1 ==> a[i', j'] == old(a[i', j']) / x
        invariant forall j' :: 0 <= j' < j ==> a[i, j'] == old(a[i, j']) / x
        invariant forall i', j' :: i <= i' < a.Length0 && 0 <= j' < a.Length1 && (i' != i || j <= j') ==> a[i', j'] == old(a[i', j'])
      {
        a[i, j] := a[i, j] / x;
        j := j + 1;
      }
      i := i + 1;
    }
  }

  /** The sum of column j of a, accumulated down the rows. */
  method ColumnSum(a: array2<real>, j: nat) returns (s: real)
    requires j < a.Length1
    ensures s == Sum(Column(Rows(a), j))
  {
    ghost var v := Column(Rows(a), j);
    s := 0.0;
    var i := 0;
    while i < a.Length0
      invariant 0 <= i <= a.Length0
      invariant s == Sum(v[..i])
    {
      SumExtend(v, i);
      s := s + a[i, j];
      i := i + 1;
    }
    assert v[..a.Length0] == v;
  }

  /** The dot product of column j of a with column k of b (entry (j, k) of
      a^T . b), accumulated down the rows. */
  method ColumnDot(a: array2<real>, j: nat, b: array2<real>, k: nat) returns (s: real)
    requires j < a.Length1 && k < b.Length1 && a.Length0 == b.Length0
    ensures s == Dot(Column(Rows(a), j), Column(Rows(b), k))
  {
    ghost var u, v := Column(Rows(a), j), Column(Rows(b), k);
    s := 0.0;
    var i := 0;
    while i < a.Length0
      invariant 0 <= i <= a.Length0
      invariant s == Dot(u[..i], v[..i])
    {
      var next := s + a[i, j] * b[i, k];
      DotStep(u, v, i, s, a[i, j], b[i, k], next);
      s := next;
      i := i + 1;
    }
    assert u[..a.Length0] == u && v[..a.Length0] == v;
  }

  /** The dot product of row i of a with row k of b (entry (i, k) of a . b^T). */
  method RowDot(a: array2<real>, i: nat, b: array2<real>, k: nat) returns (s: real)
    requires i < a.Length0 && k < b.Length0 && a.Length1 == b.Length1
    ensures s == Dot(Rows(a)[i], Rows(b)[k])
  {
    ghost var u, v := Rows(a)[i], Rows(b)[k];
    s := 0.0;
    var j := 0;
    while j < a.Length1
      invariant 0 <= j <= a.Length1
      invariant s == Dot(u[..j], v[..j])
    {
      var next := s + a[i, j] * b[k, j];
      DotStep(u, v, j, s, a[i, j], b[k, j], next);
      s := next;
      j := j + 1;
    }
    assert u[..a.Length1] == u && v[..a.Length1] == v;
  }

  /** Row i of the product of a with the transpose of b, written into r. */
  method ProductRow(r: array2<real>, a: array2<real>, b: array2<real>, i: nat)
    requires r != a && r != b && a.Length1 == b.Length1
    requires i < r.Length0 == a.Length0 && r.Length1 == b.Length0
    modifies r
    ensures forall i', k :: 0 <= i' < r.Length0 && 0 <= k < r.Length1 ==>
              r[i', k] == if i' == i then Dot(Rows(a)[i], Rows(b)[k]) else old(r[i', k])
  {
    var k := 0;
    while k < b.Length0
      invariant 0 <= k <= b.Length0
      invariant forall i', k' :: 0 <= i' < r.Length0 && 0 <= k' < r.Length1 ==>
                  r[i', k'] == if i' == i && k' < k then Dot(Rows(a)[i], Rows(b)[k']) else old(r[i', k'])
    {
      var s := RowDot(a, i, b, k);
      r[i, k] := s;
      k := k + 1;
    }
  }

  /** torch.mm(a, b.permute(1, 0)): the product of a with the transpose of b. */
  method MultiplyTransposed(a: array2<real>, b: array2<real>) returns (r: array2<real>)
    requires a.Length1 == b.Length1
    ensures fresh(r) && r.Length0 == a.Length0 && r.Length1 == b.Length0
    ensures forall i, k :: 0 <= i < a.Length0 && 0 <= k < b.Length0 ==> r[i, k] == Dot(Rows(a)[i], Rows(b)[k])
  {
    r := new real[a.Length0, b.Length0]((i, k) => 0.0);
    var i := 0;
    while i < a.Length0
      invariant 0 <= i <= a.Length0
      invariant forall i', k :: 0 <= i' < i && 0 <= k < b.Length0 ==> r[i', k] == Dot(Rows(a)[i'], Rows(b)[k])
    {
      ProductRow(r, a, b, i);
      i := i + 1;
    }
  }

  /** v /= x for a non-zero scalar x. */
  method DivideVector(v: array<real>, x: real)
    requires x != 0.0
    modifies v
    ensures forall i :: 0 <= i < v.Length ==> v[i] == old(v[i]) / x
  {
    var i := 0;
    while i < v.Length
      invariant 0 <= i <= v.Length
      invariant forall i' :: 0 <= i' < i ==> v[i'] == old(v[i']) / x
      invariant forall i' :: i <= i' < v.Length ==> v[i'] == old(v[i'])
    {
      v[i] := v[i] / x;
      i := i + 1;
    }
  }

  /** v *= w, entry by entry. */
  method MultiplyVector(v: array<real>, w: Vector)
    requires |w| == v.Length
    modifies v
    ensures forall i :: 0 <= i < v.Length ==> v[i] == old(v[i]) * w[i]
  {
    var i := 0;
    while i < v.Length
      invariant 0 <= i <= v.Length
      invariant forall i' :: 0 <= i' < i ==> v[i'] == old(v[i']) * w[i']
      invariant forall i' :: i <= i' < v.Length ==> v[i'] == old(v[i'])
    {
      v[i] := v[i] * w[i];
      i := i + 1;
    }
  }
}
