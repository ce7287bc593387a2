/**
 * The grid generator of createvtkPoints.cxx (also `getOldPoints` in the other two
 * benchmarks): (nBinsX+1)(nBinsY+1)(nBinsZ+1) points of a box, x varying fastest and
 * z slowest, built either by appending one point at a time (oldSetPoints) or by
 * writing through a pointer that advances 3 slots per point (newSetPoints).
 */
module GridGenerator {
  import opened Arith
  import opened PointBuffers

  /** One axis of the box: its bin count and its bounds. */
  datatype Axis = Axis(bins: int, min: real, max: real)

  datatype Grid = Grid(x: Axis, y: Axis, z: Axis)

  /** Bins at least 1 (the increment divides by them) and bins + 1 still an `int`. */
  predicate ValidAxis(a: Axis) {
    0 < a.bins < INT32_MAX
  }

  /** nPoints = nBins + 1 grid points on an axis. */
  function PointsOnAxis(a: Axis): int {
    a.bins + 1
  }

  function Increment(a: Axis): real
    requires ValidAxis(a)
  {
    (a.max - a.min) / (a.bins as real)
  }

  /** The coordinate of grid index idx on an axis: min + idx * increment. */
  function Coordinate(a: Axis, idx: nat): real
    requires ValidAxis(a)
  {
    a.min + (idx as real) * Increment(a)
  }

  /** The point count passed to SetNumberOfPoints, a product of three int64_t values. */
  function NumberOfPoints(g: Grid): (n: int)
    ensures ValidAxis(g.x) && ValidAxis(g.y) && ValidAxis(g.z) ==> 0 < n
  {
    var n := PointsOnAxis(g.x) * PointsOnAxis(g.y) * PointsOnAxis(g.z);
    if ValidAxis(g.x) && ValidAxis(g.y) && ValidAxis(g.z) then
      MulPositive(PointsOnAxis(g.x), PointsOnAxis(g.y));
      MulPositive(PointsOnAxis(g.x) * PointsOnAxis(g.y), PointsOnAxis(g.z));
      n
    else
      n
  }

  predicate ValidGrid(g: Grid) {
    ValidAxis(g.x) && ValidAxis(g.y) && ValidAxis(g.z) && FitsInt64(NumberOfPoints(g))
  }

  /** The grid constants of oldSetPoints, newSetPoints and setvtkPoints' getOldPoints. */
  const SourceGrid: Grid := Grid(Axis(501, -10.0, 10.0), Axis(501, -10.0, 10.0), Axis(501, -10.0, 10.0))

  /** The grid constants of copyvtkPoints' getOldPoints. */
  const CopyGrid: Grid := Grid(Axis(100, -10.0, 10.0), Axis(100, -10.0, 10.0), Axis(100, -10.0, 10.0))

  function GridPoint(g: Grid, x: nat, y: nat, z: nat): Point<real>
    requires ValidGrid(g)
  {
    Point(Coordinate(g.x, x), Coordinate(g.y, y), Coordinate(g.z, z))
  }

  /** The points the innermost loop emits for row y of plane z: x = 0 .. nPointsX-1. */
  function Row(g: Grid, z: nat, y: nat): seq<Point<real>>
    requires ValidGrid(g)
  {
    seq(PointsOnAxis(g.x), x requires 0 <= x < PointsOnAxis(g.x) => GridPoint(g, x, y, z))
  }

  /** The points of the first ny rows of plane z. */
  function Rows(g: Grid, z: nat, ny: nat): seq<Point<real>>
    requires ValidGrid(g)
  {
    if ny == 0 then [] else Rows(g, z, ny - 1) + Row(g, z, ny - 1)
  }

  /** The points of the first nz planes. */
  function Planes(g: Grid, nz: nat): seq<Point<real>>
    requires ValidGrid(g)
  {
    if nz == 0 then [] else Planes(g, nz - 1) + Rows(g, nz - 1, PointsOnAxis(g.y))
  }

  /** Every point the triple loop emits, in emission order. */
  function GridPoints(g: Grid): seq<Point<real>>
    requires ValidGrid(g)
  {
    Planes(g, PointsOnAxis(g.z))
  }

  /** Position of the point with axis indices (x, y, z) in emission order. */
  function FlatIndex(g: Grid, x: int, y: int, z: int): int {
    (z * PointsOnAxis(g.y) + y) * PointsOnAxis(g.x) + x
  }

  /** Axis indices of the k-th emitted point: x fastest, z slowest. */
  function AxisIndices(g: Grid, k: nat): (nat, nat, nat)
    requires ValidGrid(g)
  {
    var nPx, nPy := PointsOnAxis(g.x), PointsOnAxis(g.y);
    MulPositive(nPx, nPy);
    (k % nPx, (k / nPx) % nPy, k / (nPx * nPy))
  }

  lemma {:induction false} RowsLength(g: Grid, z: nat, ny: nat)
    requires ValidGrid(g)
    ensures |Rows(g, z, ny)| == ny * PointsOnAxis(g.x)
  {
    if ny > 0 {
      RowsLength(g, z, ny - 1);
    }
  }

  lemma {:induction false} PlanesLength(g: Grid, nz: nat)
    requires ValidGrid(g)
    ensures |Planes(g, nz)| == nz * (PointsOnAxis(g.x) * PointsOnAxis(g.y))
  {
    if nz > 0 {
      PlanesLength(g, nz - 1);
      RowsLength(g, nz - 1, PointsOnAxis(g.y));
    }
  }

  /** The generator emits exactly (nBinsX+1)(nBinsY+1)(nBinsZ+1) points. */
  lemma GridPointCount(g: Grid)
    requires ValidGrid(g)
    ensures |GridPoints(g)| == NumberOfPoints(g)
  {
    PlanesLength(g, PointsOnAxis(g.z));
  }

  lemma {:induction false} RowsAt(g: Grid, z: nat, ny: nat, x: nat, y: nat)
    requires ValidGrid(g) && x < PointsOnAxis(g.x) && y < ny
    ensures y * PointsOnAxis(g.x) + x < |Rows(g, z, ny)|
    ensures Rows(g, z, ny)[y * PointsOnAxis(g.x) + x] == GridPoint(g, x, y, z)
  {
    var nPx := PointsOnAxis(g.x);
    RowsLength(g, z, ny);
    RowsLength(g, z, ny - 1);
    if y < ny - 1 {
      RowsAt(g, z, ny - 1, x, y);
    } else {
      OffsetBound(x, y, nPx, ny);
    }
  }

  lemma {:induction false} PlanesAt(g: Grid, nz: nat, x: nat, y: nat, z: nat)
    requires ValidGrid(g) && x < PointsOnAxis(g.x) && y < PointsOnAxis(g.y) && z < nz
    ensures 0 <= FlatIndex(g, x, y, z) < |Planes(g, nz)|
    ensures Planes(g, nz)[FlatIndex(g, x, y, z)] == GridPoint(g, x, y, z)
  {
    var nPx, nPy := PointsOnAxis(g.x), PointsOnAxis(g.y);
    OffsetBound(x, y, nPx, nPy);
    IndexSplit(x, y, z, nPx, nPy);
    PlanesLength(g, nz - 1);
    RowsLength(g, nz - 1, nPy);
    if z < nz - 1 {
      PlanesAt(g, nz - 1, x, y, z);
    } else {
      RowsAt(g, z, nPy, x, y);
    }
  }

  /** The point with axis indices (x, y, z) is emitted at position FlatIndex(x, y, z), inside the count. */
  lemma GridPointAtIndices(g: Grid, x: nat, y: nat, z: nat)
    requires ValidGrid(g) && x < PointsOnAxis(g.x) && y < PointsOnAxis(g.y) && z < PointsOnAxis(g.z)
    ensures |GridPoints(g)| == NumberOfPoints(g)
    ensures 0 <= FlatIndex(g, x, y, z) < NumberOfPoints(g)
    ensures AxisIndices(g, FlatIndex(g, x, y, z)) == (x, y, z)
    ensures GridPoints(g)[FlatIndex(g, x, y, z)] == GridPoint(g, x, y, z)
  {
    var nPx, nPy := PointsOnAxis(g.x), PointsOnAxis(g.y);
    var k := FlatIndex(g, x, y, z);
    PlanesAt(g, PointsOnAxis(g.z), x, y, z);
    GridPointCount(g);
    var q := z * nPy + y;
    assert k == q * nPx + x;
    DivModUnique(k, nPx, q, x);
    DivModUnique(q, nPy, z, y);
    OffsetBound(x, y, nPx, nPy);
    IndexSplit(x, y, z, nPx, nPy);
    DivModUnique(k, nPx * nPy, z, y * nPx + x);
    assert k % nPx == x && (k / nPx) % nPy == y && k / (nPx * nPy) == z;
  }

  /** The k-th emitted point has axis indices (k mod nPx, (k / nPx) mod nPy, k / (nPx nPy)). */
  lemma GridPointAt(g: Grid, k: nat)
    requires ValidGrid(g) && k < NumberOfPoints(g)
    ensures |GridPoints(g)| == NumberOfPoints(g)
    ensures var (x, y, z) := AxisIndices(g, k);
      x < PointsOnAxis(g.x) && y < PointsOnAxis(g.y) && z < PointsOnAxis(g.z) &&
      FlatIndex(g, x, y, z) == k &&
      GridPoints(g)[k] == GridPoint(g, x, y, z)
  {
    GridPointCount(g);
    var nPx, nPy, nPz := PointsOnAxis(g.x), PointsOnAxis(g.y), PointsOnAxis(g.z);
    var x, q := k % nPx, k / nPx;
    var y, z := q % nPy, q / nPy;
    assert q == z * nPy + y;
    assert k == (z * nPy + y) * nPx + x;
    OffsetBound(x, y, nPx, nPy);
    IndexSplit(x, y, z, nPx, nPy);
    DivModUnique(k, nPx * nPy, z, y * nPx + x);
    assert AxisIndices(g, k) == (x, y, z);
    if nPz <= z {
      MulMonotone(nPz, z, nPx * nPy);
      assert false;
    }
    GridPointAtIndices(g, x, y, z);
  }

  /** The first point on each axis lies exactly on the box's lower bound. */
  lemma CoordinateAtZero(a: Axis)
    requires ValidAxis(a)
    ensures Coordinate(a, 0) == a.min
  {
  }

  /** The last point on each axis lies exactly on the box's upper bound (in exact arithmetic). */
  lemma CoordinateAtBins(a: Axis)
    requires ValidAxis(a)
    ensures Coordinate(a, a.bins) == a.max
  {
    var b := a.bins as real;
    assert b * ((a.max - a.min) / b) == a.max - a.min;
  }

  /** Slots 3k, 3k+1, 3k+2 of the flat grid buffer hold the x, y and z coordinates of the k-th point. */
  lemma FlatGridAt(g: Grid, k: nat)
    requires ValidGrid(g) && k < NumberOfPoints(g)
    ensures |Flatten(GridPoints(g))| == 3 * NumberOfPoints(g)
    ensures var (x, y, z) := AxisIndices(g, k);
      Flatten(GridPoints(g))[3 * k] == Coordinate(g.x, x) &&
      Flatten(GridPoints(g))[3 * k + 1] == Coordinate(g.y, y) &&
      Flatten(GridPoints(g))[3 * k + 2] == Coordinate(g.z, z)
  {
    GridPointAt(g, k);
    FlattenAt(GridPoints(g), k, 0);
    FlattenAt(GridPoints(g), k, 1);
    FlattenAt(GridPoints(g), k, 2);
  }

  /** Appending row y to the first y rows of a plane gives its first y + 1 rows. */
  lemma RowsStep(g: Grid, z: nat, y: nat, prefix: seq<Point<real>>)
    requires ValidGrid(g)
    ensures prefix + Rows(g, z, y) + Row(g, z, y) == prefix + Rows(g, z, y + 1)
  {
  }

  /** The number of points in one z plane. */
  function PlaneSize(g: Grid): (n: int)
    requires ValidGrid(g)
    ensures 0 < n
  {
    MulPositive(PointsOnAxis(g.x), PointsOnAxis(g.y));
    PointsOnAxis(g.x) * PointsOnAxis(g.y)
  }

  /** Row y of a plane ends within the plane. */
  lemma RowFits(g: Grid, z: nat, y: nat)
    requires ValidGrid(g) && y < PointsOnAxis(g.y)
    ensures |Rows(g, z, y + 1)| == |Rows(g, z, y)| + PointsOnAxis(g.x)
    ensures |Rows(g, z, y + 1)| <= PlaneSize(g)
  {
    RowsLength(g, z, y + 1);
    MulMonotone(y + 1, PointsOnAxis(g.y), PointsOnAxis(g.x));
  }

  /** Plane z ends within the grid. */
  lemma PlaneFits(g: Grid, z: nat)
    requires ValidGrid(g) && z < PointsOnAxis(g.z)
    ensures |Planes(g, z + 1)| == |Planes(g, z)| + PlaneSize(g)
    ensures |Planes(g, z + 1)| <= |GridPoints(g)|
  {
    GridPointCount(g);
    RowsLength(g, z, PointsOnAxis(g.y));
    PlanesLength(g, z + 1);
    MulMonotone(z + 1, PointsOnAxis(g.z), PlaneSize(g));
  }

  /**
   * oldSetPoints (and getOldPoints): a triple loop, z outermost and x innermost, that
   * computes each coordinate into the scratch array `in` and appends the point.
   */
  method OldSetPoints(g: Grid) returns (points: seq<Point<real>>)
    requires ValidGrid(g)
    ensures points == GridPoints(g)
  {
    var nPx, nPy, nPz := PointsOnAxis(g.x), PointsOnAxis(g.y), PointsOnAxis(g.z);
    var scratch: seq<real> := [0.0, 0.0, 0.0];
    points := [];
    for z := 0 to nPz
      invariant |scratch| == 3
      invariant points == Planes(g, z)
    {
      scratch := scratch[2 := Coordinate(g.z, z)];
      for y := 0 to nPy
        invariant |scratch| == 3 && scratch[2] == Coordinate(g.z, z)
        invariant points == Planes(g, z) + Rows(g, z, y)
      {
        scratch := scratch[1 := Coordinate(g.y, y)];
        for x := 0 to nPx
          invariant |scratch| == 3 && scratch[1] == Coordinate(g.y, y) && scratch[2] == Coordinate(g.z, z)
          invariant points == Planes(g, z) + Rows(g, z, y) + Row(g, z, y)[..x]
        {
          scratch := scratch[0 := Coordinate(g.x, x)];
          assert Row(g, z, y)[..x + 1] == Row(g, z, y)[..x] + [GridPoint(g, x, y, z)];
          points := points + [Point(scratch[0], scratch[1], scratch[2])];
        }
        assert Row(g, z, y)[..nPx] == Row(g, z, y);
      }
    }
  }

  /**
   * The three slot writes begin[0], begin[1], begin[2] of newSetPoints' innermost loop;
   * `written` logs them, one entry per assignment.
   */
  method StoreAtCursor(buffer: array<real>, begin: nat, v0: real, v1: real, v2: real)
    returns (ghost written: seq<int>)
    requires begin + 3 <= buffer.Length
    modifies buffer
    ensures buffer[..begin + 3] == old(buffer[..begin]) + [v0, v1, v2]
    ensures forall k :: begin + 3 <= k < buffer.Length ==> buffer[k] == old(buffer[k])
    ensures written == [begin, begin + 1, begin + 2]
  {
    buffer[begin] := v0;
    written := [begin];
    buffer[begin + 1] := v1;
    written := written + [begin + 1];
    buffer[begin + 2] := v2;
    written := written + [begin + 2];
    assert buffer[..begin] == old(buffer[..begin]);
  }

  /**
   * The innermost loop of newSetPoints for one (y, z): nPointsX points written through
   * the cursor, x from in-loop arithmetic and y, z from the scratch values yc, zc.
   */
  method StoreRow(g: Grid, buffer: array<real>, begin: nat, z: nat, y: nat, zc: real, yc: real,
                  ghost prefix: seq<Point<real>>)
    returns (end: nat, ghost written: seq<int>)
    requires ValidGrid(g) && yc == Coordinate(g.y, y) && zc == Coordinate(g.z, z)
    requires begin == 3 * |prefix| && begin + 3 * PointsOnAxis(g.x) <= buffer.Length
    requires buffer[..begin] == Flatten(prefix)
    modifies buffer
    ensures end == begin + 3 * PointsOnAxis(g.x)
    ensures buffer[..end] == Flatten(prefix + Row(g, z, y))
    ensures forall k :: end <= k < buffer.Length ==> buffer[k] == old(buffer[k])
    ensures written == SlotRange(begin, end)
  {
    var nPx := PointsOnAxis(g.x);
    end := begin;
    ghost var emitted := prefix;
    written := [];
    for x := 0 to nPx
      invariant emitted == prefix + Row(g, z, y)[..x]
      invariant end == 3 * |emitted| && end == begin + 3 * x
      invariant buffer[..end] == Flatten(emitted)
      invariant forall k :: end <= k < buffer.Length ==> buffer[k] == old(buffer[k])
      invariant written == SlotRange(begin, end)
    {
      ghost var pointWrites := StoreAtCursor(buffer, end, Coordinate(g.x, x), yc, zc);
      ghost var p := GridPoint(g, x, y, z);
      FlattenAppend(emitted, p);
      SlotRangeExtend(begin, end);
      written := written + pointWrites;
      assert Row(g, z, y)[..x + 1] == Row(g, z, y)[..x] + [p];
      emitted := emitted + [p];
      end := end + 3;
    }
    assert Row(g, z, y)[..nPx] == Row(g, z, y);
  }

  /**
   * The middle loop of newSetPoints for one z: nPointsY rows, each after setting in[0]
   * to its y coordinate; zc is in[1], set by the outer loop.
   */
  method StorePlane(g: Grid, buffer: array<real>, begin: nat, z: nat, zc: real)
    returns (end: nat, ghost written: seq<int>)
    requires ValidGrid(g) && zc == Coordinate(g.z, z)
    requires begin == 3 * |Planes(g, z)|
    requires begin + 3 * PlaneSize(g) <= buffer.Length
    requires buffer[..begin] == Flatten(Planes(g, z))
    modifies buffer
    ensures end == begin + 3 * PlaneSize(g)
    ensures buffer[..end] == Flatten(Planes(g, z + 1))
    ensures forall k :: end <= k < buffer.Length ==> buffer[k] == old(buffer[k])
    ensures written == SlotRange(begin, end)
  {
    var nPy := PointsOnAxis(g.y);
    var yc := 0.0;
    end := begin;
    written := [];
    ghost var prefix := Planes(g, z);
    assert prefix + Rows(g, z, 0) == prefix;
    for y := 0 to nPy
      invariant end == begin + 3 * |Rows(g, z, y)|
      invariant |Rows(g, z, y)| <= PlaneSize(g)
      invariant buffer[..end] == Flatten(prefix + Rows(g, z, y))
      invariant forall k :: end <= k < buffer.Length ==> buffer[k] == old(buffer[k])
      invariant written == SlotRange(begin, end)
    {
      yc := Coordinate(g.y, y);
      RowFits(g, z, y);
      ghost var rowWrites;
      var rowEnd;
      rowEnd, rowWrites := StoreRow(g, buffer, end, z, y, zc, yc, prefix + Rows(g, z, y));
      RowsStep(g, z, y, prefix);
      SlotRangeConcat(begin, end, rowEnd);
      written := written + rowWrites;
      end := rowEnd;
    }
    RowsLength(g, z, nPy);
  }

  /**
   * newSetPoints: the buffer is sized for all points up front and written through a
   * cursor that advances 3 slots per point, x from in-loop arithmetic and y, z from the
   * scratch array `in` (in[0] = y, in[1] = z). `written` logs every slot write.
   */
  method NewSetPoints(g: Grid) returns (buffer: array<real>, ghost written: seq<int>)
    requires ValidGrid(g)
    ensures fresh(buffer)
    ensures buffer.Length == 3 * NumberOfPoints(g)
    ensures buffer[..] == Flatten(GridPoints(g))
    ensures written == SlotRange(0, buffer.Length)
  {
    var nPz := PointsOnAxis(g.z);
    buffer := new real[3 * NumberOfPoints(g)];
    GridPointCount(g);
    ghost var initial := buffer[..];
    var zc := 0.0;
    var begin := 0;
    written := [];
    for z := 0 to nPz
      invariant begin == 3 * |Planes(g, z)| <= buffer.Length
      invariant buffer[..begin] == Flatten(Planes(g, z))
      invariant forall k :: begin <= k < buffer.Length ==> buffer[k] == initial[k]
      invariant written == SlotRange(0, begin)
    {
      zc := Coordinate(g.z, z);
      PlaneFits(g, z);
      ghost var planeWrites;
      var planeEnd;
      planeEnd, planeWrites := StorePlane(g, buffer, begin, z, zc);
      SlotRangeConcat(0, begin, planeEnd);
      written := written + planeWrites;
      begin := planeEnd;
    }
    assert buffer[..] == buffer[..begin];
  }

  /**
   * The createvtkPoints benchmark: both generators on the benchmark grid emit the same
   * points in the same order, 502^3 of them.
   */
  method CreateBenchmark() returns (oldPoints: seq<Point<real>>, newPoints: array<real>)
    ensures |oldPoints| == 502 * 502 * 502
    ensures newPoints.Length == 3 * |oldPoints|
    ensures PointsOf(newPoints[..]) == oldPoints
  {
    assert ValidGrid(SourceGrid);
    oldPoints := OldSetPoints(SourceGrid);
    ghost var written;
    newPoints, written := NewSetPoints(SourceGrid);
    GridPointCount(SourceGrid);
    PointsOfFlatten(GridPoints(SourceGrid));
  }

  /** Bins of 1 over [-1, 1]^3: exactly the 8 corners of the cube, x fastest and z slowest. */
  lemma UnitCubeCorners()
    ensures var g := Grid(Axis(1, -1.0, 1.0), Axis(1, -1.0, 1.0), Axis(1, -1.0, 1.0));
      ValidGrid(g) &&
      GridPoints(g) == [
        Point(-1.0, -1.0, -1.0), Point(1.0, -1.0, -1.0), Point(-1.0, 1.0, -1.0), Point(1.0, 1.0, -1.0),
        Point(-1.0, -1.0, 1.0), Point(1.0, -1.0, 1.0), Point(-1.0, 1.0, 1.0), Point(1.0, 1.0, 1.0)]
  {
    var g := Grid(Axis(1, -1.0, 1.0), Axis(1, -1.0, 1.0), Axis(1, -1.0, 1.0));
    assert Coordinate(g.x, 0) == -1.0 && Coordinate(g.x, 1) == 1.0;
    assert Row(g, 0, 0) == [Point(-1.0, -1.0, -1.0), Point(1.0, -1.0, -1.0)];
    assert Row(g, 0, 1) == [Point(-1.0, 1.0, -1.0), Point(1.0, 1.0, -1.0)];
    assert Row(g, 1, 0) == [Point(-1.0, -1.0, 1.0), Point(1.0, -1.0, 1.0)];
    assert Row(g, 1, 1) == [Point(-1.0, 1.0, 1.0), Point(1.0, 1.0, 1.0)];
    assert Rows(g, 0, 2) == Row(g, 0, 0) + Row(g, 0, 1);
    assert Rows(g, 1, 2) == Row(g, 1, 0) + Row(g, 1, 1);
    assert Planes(g, 2) == Rows(g, 0, 2) + Rows(g, 1, 2);
  }
}
