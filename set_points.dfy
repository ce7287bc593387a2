/**
 * The transform kernels of setvtkPoints.cxx: a 3x3 matrix applied row-major to every
 * point, into a new point list (copyPoints), in place through the point accessors
 * (updatePoints), or in place through a pointer that steps 3 slots at a time over the
 * raw buffer (iteratorAccess). The benchmark's matrix is `skew` = 2I.
 */
module TransformKernels {
  import opened Arith
  import opened PointBuffers
  import opened GridGenerator

  /** A 3x3 matrix as 9 entries in row-major order, the layout of std::array<double,9>. */
  type Matrix3 = m: seq<real> | |m| == 9 witness [1.0, 0.0, 0.0, 0.0, 1.0, 0.0, 0.0, 0.0, 1.0]

  const Identity: Matrix3 := [1.0, 0.0, 0.0, 0.0, 1.0, 0.0, 0.0, 0.0, 1.0]

  /** The benchmark's `skew` matrix {2,0,0, 0,2,0, 0,0,2}. */
  const Skew: Matrix3 := [2.0, 0.0, 0.0, 0.0, 2.0, 0.0, 0.0, 0.0, 2.0]

  /** vtkMatrix3x3::MultiplyPoint: out[r] = in[0] m[3r] + in[1] m[3r+1] + in[2] m[3r+2]. */
  function MultiplyPoint(m: Matrix3, p: Point<real>): Point<real> {
    Point(p.x * m[0] + p.y * m[1] + p.z * m[2],
          p.x * m[3] + p.y * m[4] + p.z * m[5],
          p.x * m[6] + p.y * m[7] + p.z * m[8])
  }

  /** The matrix product a b, row-major: entry (r, c) is row r of a times column c of b. */
  function MatMul(a: Matrix3, b: Matrix3): Matrix3 {
    [a[0] * b[0] + a[1] * b[3] + a[2] * b[6], a[0] * b[1] + a[1] * b[4] + a[2] * b[7], a[0] * b[2] + a[1] * b[5] + a[2] * b[8],
     a[3] * b[0] + a[4] * b[3] + a[5] * b[6], a[3] * b[1] + a[4] * b[4] + a[5] * b[7], a[3] * b[2] + a[4] * b[5] + a[5] * b[8],
     a[6] * b[0] + a[7] * b[3] + a[8] * b[6], a[6] * b[1] + a[7] * b[4] + a[8] * b[7], a[6] * b[2] + a[7] * b[5] + a[8] * b[8]]
  }

  /** Every point of ps multiplied by m, in order. */
  function Transform(m: Matrix3, ps: seq<Point<real>>): seq<Point<real>> {
    seq(|ps|, i requires 0 <= i < |ps| => MultiplyPoint(m, ps[i]))
  }

  /** The flat buffer whose tuples are the tuples of s multiplied by m. */
  function TransformBuffer(m: Matrix3, s: seq<real>): (r: seq<real>)
    requires |s| % 3 == 0
    ensures |r| == |s|
  {
    FlattenLength(Transform(m, PointsOf(s)));
    Flatten(Transform(m, PointsOf(s)))
  }

  /** Slots 3i, 3i+1, 3i+2 of a transformed buffer are rows 0, 1, 2 of m times tuple i of the source. */
  lemma TransformBufferAt(m: Matrix3, s: seq<real>, i: nat)
    requires |s| % 3 == 0 && 3 * i + 2 < |s|
    ensures TransformBuffer(m, s)[3 * i] == s[3 * i] * m[0] + s[3 * i + 1] * m[1] + s[3 * i + 2] * m[2]
    ensures TransformBuffer(m, s)[3 * i + 1] == s[3 * i] * m[3] + s[3 * i + 1] * m[4] + s[3 * i + 2] * m[5]
    ensures TransformBuffer(m, s)[3 * i + 2] == s[3 * i] * m[6] + s[3 * i + 1] * m[7] + s[3 * i + 2] * m[8]
  {
    var ps := Transform(m, PointsOf(s));
    var q := MultiplyPoint(m, PointAt(s, i));
    assert ps[i] == q;
    FlattenAt(ps, i, 0);
    FlattenAt(ps, i, 1);
    FlattenAt(ps, i, 2);
    var t := TransformBuffer(m, s);
    assert t[3 * i] == q.x && t[3 * i + 1] == q.y && t[3 * i + 2] == q.z;
  }

  /** The benchmark's skew doubles every slot of a buffer. */
  lemma SkewDoubles(s: seq<real>)
    requires |s| % 3 == 0
    ensures forall k :: 0 <= k < |s| ==> TransformBuffer(Skew, s)[k] == 2.0 * s[k]
  {
    forall k | 0 <= k < |s|
      ensures TransformBuffer(Skew, s)[k] == 2.0 * s[k]
    {
      TransformBufferAt(Skew, s, k / 3);
    }
  }

  /** The ring identity behind one entry of a composed product, on plain numbers. */
  lemma RowCompose(a0: real, a1: real, a2: real, b0: real, b1: real, b2: real, b3: real, b4: real, b5: real,
                   b6: real, b7: real, b8: real, x: real, y: real, z: real)
    ensures (x * b0 + y * b1 + z * b2) * a0 + (x * b3 + y * b4 + z * b5) * a1 + (x * b6 + y * b7 + z * b8) * a2
         == x * (a0 * b0 + a1 * b3 + a2 * b6) + y * (a0 * b1 + a1 * b4 + a2 * b7) + z * (a0 * b2 + a1 * b5 + a2 * b8)
  {
    assert (x * b0 + y * b1 + z * b2) * a0 == x * b0 * a0 + y * b1 * a0 + z * b2 * a0;
    assert (x * b3 + y * b4 + z * b5) * a1 == x * b3 * a1 + y * b4 * a1 + z * b5 * a1;
    assert (x * b6 + y * b7 + z * b8) * a2 == x * b6 * a2 + y * b7 * a2 + z * b8 * a2;
    assert x * (a0 * b0 + a1 * b3 + a2 * b6) == x * b0 * a0 + x * b3 * a1 + x * b6 * a2;
    assert y * (a0 * b1 + a1 * b4 + a2 * b7) == y * b1 * a0 + y * b4 * a1 + y * b7 * a2;
    assert z * (a0 * b2 + a1 * b5 + a2 * b8) == z * b2 * a0 + z * b5 * a1 + z * b8 * a2;
  }

  /** Row (a0, a1, a2) applied to b p is p times that row of the product. */
  lemma RowOfProduct(a0: real, a1: real, a2: real, b: Matrix3, p: Point<real>)
    ensures var q := MultiplyPoint(b, p);
      q.x * a0 + q.y * a1 + q.z * a2 ==
      p.x * (a0 * b[0] + a1 * b[3] + a2 * b[6]) + p.y * (a0 * b[1] + a1 * b[4] + a2 * b[7]) + p.z * (a0 * b[2] + a1 * b[5] + a2 * b[8])
  {
    RowCompose(a0, a1, a2, b[0], b[1], b[2], b[3], b[4], b[5], b[6], b[7], b[8], p.x, p.y, p.z);
  }

  /** Multiplying by b and then by a is multiplying by the product a b. */
  lemma MultiplyPointCompose(a: Matrix3, b: Matrix3, p: Point<real>)
    ensures MultiplyPoint(a, MultiplyPoint(b, p)) == MultiplyPoint(MatMul(a, b), p)
  {
    var ab := MatMul(a, b);
    var lhs, rhs := MultiplyPoint(a, MultiplyPoint(b, p)), MultiplyPoint(ab, p);
    assert lhs.x == rhs.x by {
      RowOfProduct(a[0], a[1], a[2], b, p);
      assert ab[0] == a[0] * b[0] + a[1] * b[3] + a[2] * b[6];
      assert ab[1] == a[0] * b[1] + a[1] * b[4] + a[2] * b[7];
      assert ab[2] == a[0] * b[2] + a[1] * b[5] + a[2] * b[8];
    }
    assert lhs.y == rhs.y by {
      RowOfProduct(a[3], a[4], a[5], b, p);
      assert ab[3] == a[3] * b[0] + a[4] * b[3] + a[5] * b[6];
      assert ab[4] == a[3] * b[1] + a[4] * b[4] + a[5] * b[7];
      assert ab[5] == a[3] * b[2] + a[4] * b[5] + a[5] * b[8];
    }
    assert lhs.z == rhs.z by {
      RowOfProduct(a[6], a[7], a[8], b, p);
      assert ab[6] == a[6] * b[0] + a[7] * b[3] + a[8] * b[6];
      assert ab[7] == a[6] * b[1] + a[7] * b[4] + a[8] * b[7];
      assert ab[8] == a[6] * b[2] + a[7] * b[5] + a[8] * b[8];
    }
  }

  /** Transforming twice is one transform by the product. */
  lemma TransformCompose(a: Matrix3, b: Matrix3, ps: seq<Point<real>>)
    ensures Transform(a, Transform(b, ps)) == Transform(MatMul(a, b), ps)
  {
    forall i | 0 <= i < |ps|
      ensures Transform(a, Transform(b, ps))[i] == Transform(MatMul(a, b), ps)[i]
    {
      MultiplyPointCompose(a, b, ps[i]);
    }
  }

  /** On a flat buffer, the identity matrix leaves every slot as it is. */
  lemma TransformBufferIdentity(s: seq<real>)
    requires |s| % 3 == 0
    ensures TransformBuffer(Identity, s) == s
  {
    assert Transform(Identity, PointsOf(s)) == PointsOf(s);
    FlattenPointsOf(s);
  }

  /** On a flat buffer, transforming by b and then by a is one transform by the product a b. */
  lemma TransformBufferCompose(a: Matrix3, b: Matrix3, s: seq<real>)
    requires |s| % 3 == 0
    ensures TransformBuffer(a, TransformBuffer(b, s)) == TransformBuffer(MatMul(a, b), s)
  {
    PointsOfFlatten(Transform(b, PointsOf(s)));
    TransformCompose(a, b, PointsOf(s));
  }

  /** Applying skew twice scales every coordinate by 4. */
  lemma SkewTwice(ps: seq<Point<real>>)
    ensures |Transform(Skew, Transform(Skew, ps))| == |ps|
    ensures forall i :: 0 <= i < |ps| ==>
      Transform(Skew, Transform(Skew, ps))[i] == Point(4.0 * ps[i].x, 4.0 * ps[i].y, 4.0 * ps[i].z)
  {
    TransformCompose(Skew, Skew, ps);
    var s2 := MatMul(Skew, Skew);
    assert s2 == [4.0, 0.0, 0.0, 0.0, 4.0, 0.0, 0.0, 0.0, 4.0];
  }

  /**
   * copyPoints: an empty point list with room reserved, then for each i (an `int`
   * counter) GetPoint(i), MultiplyPoint and InsertNextPoint. The source is only read.
   */
  method CopyPoints(m: Matrix3, oldPoints: array<real>) returns (newPoints: seq<Point<real>>)
    requires oldPoints.Length % 3 == 0 && oldPoints.Length / 3 <= INT32_MAX
    ensures newPoints == Transform(m, PointsOf(oldPoints[..]))
  {
    newPoints := [];
    for i := 0 to oldPoints.Length / 3
      invariant newPoints == Transform(m, PointsOf(oldPoints[..]))[..i]
    {
      var outPoint := GetPoint(oldPoints, i);
      outPoint := MultiplyPoint(m, outPoint);
      newPoints := newPoints + [outPoint];
    }
  }

  /**
   * updatePoints: for i below the point count narrowed to `int`, GetPoint(i),
   * MultiplyPoint, then InsertPoint(i) over the same tuple.
   */
  method UpdatePoints(m: Matrix3, points: array<real>)
    requires points.Length % 3 == 0 && points.Length / 3 <= INT32_MAX
    modifies points
    ensures points[..] == TransformBuffer(m, old(points[..]))
  {
    var last := points.Length / 3;
    ghost var original := points[..];
    for i := 0 to last
      invariant forall j :: 0 <= j < i ==> PointAt(points[..], j) == MultiplyPoint(m, PointAt(original, j))
      invariant forall k :: 3 * i <= k < points.Length ==> points[k] == original[k]
    {
      var outPoint := GetPoint(points, i);
      outPoint := MultiplyPoint(m, outPoint);
      SetPoint(points, i, outPoint);
    }
    assert forall j :: 0 <= j < last ==> PointAt(points[..], j) == Transform(m, PointsOf(original))[j];
    FlattenFromPointwise(points[..], Transform(m, PointsOf(original)));
  }

  /** The three values of slots o, o+1, o+2 of a flat buffer. */
  function TripleAt(s: seq<real>, o: nat): Point<real>
    requires o + 2 < |s|
  {
    Point(s[o], s[o + 1], s[o + 2])
  }

  /** Reading the tuples of a slice is reading triples of the whole buffer at an offset. */
  lemma SliceTriples(t: seq<real>, s: seq<real>, m: Matrix3, begin: nat, end: nat)
    requires begin <= end <= |t| == |s| && (end - begin) % 3 == 0
    requires forall j :: 0 <= j < (end - begin) / 3 ==>
      TripleAt(t, begin + 3 * j) == MultiplyPoint(m, TripleAt(s, begin + 3 * j))
    ensures t[begin..end] == TransformBuffer(m, s[begin..end])
  {
    var u, v := t[begin..end], s[begin..end];
    var ps := Transform(m, PointsOf(v));
    forall j | 0 <= j < |ps|
      ensures PointAt(u, j) == ps[j]
    {
      assert PointAt(u, j) == TripleAt(t, begin + 3 * j);
      assert PointAt(v, j) == TripleAt(s, begin + 3 * j);
    }
    FlattenFromPointwise(u, ps);
  }

  /**
   * One step of iteratorAccess at pointer position i: v1 = i[0], v2 = i[1], v3 = i[2]
   * are all read before i[0], i[1], i[2] are overwritten with the rows of m times them;
   * `written` logs the three writes, one entry per assignment.
   */
  method TransformTriple(m: Matrix3, a: array<real>, i: nat) returns (ghost written: seq<int>)
    requires i + 2 < a.Length
    modifies a
    ensures TripleAt(a[..], i) == MultiplyPoint(m, TripleAt(old(a[..]), i))
    ensures forall k :: 0 <= k < a.Length && (k < i || i + 2 < k) ==> a[k] == old(a[k])
    ensures written == [i, i + 1, i + 2]
  {
    var v1, v2, v3 := a[i], a[i + 1], a[i + 2];
    ghost var q := MultiplyPoint(m, Point(v1, v2, v3));
    a[i] := v1 * m[0] + v2 * m[1] + v3 * m[2];
    written := [i];
    a[i + 1] := v1 * m[3] + v2 * m[4] + v3 * m[5];
    written := written + [i + 1];
    a[i + 2] := v1 * m[6] + v2 * m[7] + v3 * m[8];
    written := written + [i + 2];
    assert q.x == a[i] && q.y == a[i + 1] && q.z == a[i + 2];
  }

  /**
   * iteratorAccess: a pointer i from begin to end in steps of 3 that reads i[0], i[1]
   * and i[2] into v1, v2, v3 before writing the three products back. The range must be
   * whole triples, or the last step reads past end. `written` logs every slot write.
   */
  method IteratorAccess(m: Matrix3, a: array<real>, begin: nat, end: nat) returns (ghost written: seq<int>)
    requires begin <= end <= a.Length && (end - begin) % 3 == 0
    modifies a
    ensures a[begin..end] == TransformBuffer(m, old(a[begin..end]))
    ensures a[..begin] == old(a[..begin]) && a[end..] == old(a[end..])
    ensures written == SlotRange(begin, end)
  {
    ghost var original := a[..];
    ghost var done := 0;
    written := [];
    var i := begin;
    while i < end
      invariant begin <= i <= end && i == begin + 3 * done
      invariant forall j :: 0 <= j < done ==> TripleAt(a[..], begin + 3 * j) == MultiplyPoint(m, TripleAt(original, begin + 3 * j))
      invariant forall k :: 0 <= k < a.Length && (k < begin || i <= k) ==> a[k] == original[k]
      invariant written == SlotRange(begin, i)
      decreases end - i
    {
      ghost var tripleWrites := TransformTriple(m, a, i);
      SlotRangeExtend(begin, i);
      written := written + tripleWrites;
      i := i + 3;
      done := done + 1;
    }
    SliceTriples(a[..], original, m, begin, end);
    assert a[..begin] == original[..begin];
    assert a[end..] == original[end..];
  }

  /** setvtkPoints' getOldPoints: the grid of 502^3 points, stored tuple by tuple. */
  method GetOldPoints() returns (points: array<real>)
    ensures fresh(points)
    ensures points.Length == 3 * (502 * 502 * 502)
    ensures points[..] == Flatten(GridPoints(SourceGrid))
  {
    assert ValidGrid(SourceGrid);
    var emitted := OldSetPoints(SourceGrid);
    points := StorePoints(emitted);
    GridPointCount(SourceGrid);
    FlattenLength(emitted);
  }

  /** On equal buffers, the per-point update and the raw-pointer loop over all slots agree. */
  method UpdateMatchesIterator(m: Matrix3, a: array<real>, b: array<real>) returns (ghost written: seq<int>)
    requires a != b && a[..] == b[..]
    requires a.Length % 3 == 0 && a.Length / 3 <= INT32_MAX
    modifies a, b
    ensures a[..] == b[..] == TransformBuffer(m, old(a[..]))
    ensures written == SlotRange(0, b.Length)
  {
    UpdatePoints(m, a);
    written := IteratorAccess(m, b, 0, b.Length);
    assert b[..] == b[0..b.Length];
    assert old(b[..]) == old(b[0..b.Length]);
  }

  /** On a flat buffer, transforming by skew twice multiplies every slot by 4. */
  lemma SkewTwiceBuffer(s: seq<real>)
    requires |s| % 3 == 0
    ensures forall k :: 0 <= k < |s| ==> TransformBuffer(Skew, TransformBuffer(Skew, s))[k] == 4.0 * s[k]
  {
    var ps := PointsOf(s);
    var once := TransformBuffer(Skew, s);
    PointsOfFlatten(Transform(Skew, ps));
    var twice := Transform(Skew, Transform(Skew, ps));
    SkewTwice(ps);
    FlattenLength(twice);
    forall k | 0 <= k < |s|
      ensures TransformBuffer(Skew, once)[k] == 4.0 * s[k]
    {
      FlattenAt(twice, k / 3, k % 3);
      assert ps[k / 3] == PointAt(s, k / 3);
    }
  }

  /**
   * The benchmark: copyPoints into a new list, then updatePoints and iteratorAccess
   * (over all numberOfTuples * 3 slots) on the same points, all with skew. The copy
   * holds each point doubled, and every coordinate of the points ends at 4 times its
   * original value.
   */
  method TransformBenchmarks(points: array<real>) returns (newPoints: seq<Point<real>>)
    requires points.Length % 3 == 0 && points.Length / 3 <= INT32_MAX
    modifies points
    ensures newPoints == Transform(Skew, PointsOf(old(points[..])))
    ensures points[..] == TransformBuffer(Skew, TransformBuffer(Skew, old(points[..])))
    ensures forall k :: 0 <= k < points.Length ==> points[k] == 4.0 * old(points[k])
  {
    newPoints := CopyPoints(Skew, points);
    UpdatePoints(Skew, points);
    ghost var once := points[..];
    ghost var written := IteratorAccess(Skew, points, 0, points.Length);
    assert points[..] == points[0..points.Length];
    assert once == once[0..points.Length];
    SkewTwiceBuffer(old(points[..]));
  }
}
