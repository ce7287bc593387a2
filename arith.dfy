/** Integer facts used by the index arithmetic of the point kernels and the grid layout. */
module Arith {

  const INT32_MAX: int := 0x7FFF_FFFF
  const INT64_MAX: int := 0x7FFF_FFFF_FFFF_FFFF

  /** A value the C++ `int` type can hold. */
  predicate FitsInt32(v: int) {
    -INT32_MAX - 1 <= v <= INT32_MAX
  }

  /** A value the C++ `int64_t`/`vtkIdType` type can hold. */
  predicate FitsInt64(v: int) {
    -INT64_MAX - 1 <= v <= INT64_MAX
  }

  lemma MulMonotone(a: int, b: int, n: int)
    requires a <= b && 0 <= n
    ensures a * n <= b * n
  {
    var d := b - a;
    assert b * n == a * n + d * n;
  }

  /** Euclidean division by a positive n has exactly one quotient and remainder. */
  lemma DivModUnique(k: int, n: int, q: int, r: int)
    requires 0 < n && 0 <= r < n && k == q * n + r
    ensures k / n == q && k % n == r
  {
    var q', r' := k / n, k % n;
    assert k == q' * n + r';
    if q' < q {
      MulMonotone(q' + 1, q, n);
    } else if q < q' {
      MulMonotone(q + 1, q', n);
    }
  }

  /** The row-major offset y * n + x of a cell of an m-by-n block stays inside the block. */
  lemma OffsetBound(x: int, y: int, n: int, m: int)
    requires 0 <= x < n && 0 <= y < m
    ensures 0 <= y * n + x < n * m
  {
    MulMonotone(y + 1, m, n);
    MulMonotone(0, y, n);
    assert (y + 1) * n == y * n + n;
  }

  lemma MulPositive(a: int, b: int)
    requires 0 < a && 0 < b
    ensures 0 < a * b
  {
    MulMonotone(1, a, b);
  }

  /** Row-major index (z * ny + y) * nx + x splits into whole planes and an offset inside the plane. */
  lemma IndexSplit(x: int, y: int, z: int, nx: int, ny: int)
    ensures (z * ny + y) * nx + x == z * (nx * ny) + (y * nx + x)
  {
  }
}
