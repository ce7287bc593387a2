/**
 * The copy kernels of copyvtkPoints.cxx. Each allocates a destination of the source's
 * point count and fills it tuple by tuple, either in order (SequentialCopy,
 * FasterSequentialCopy) or gathering tuple order[i] of the source into tuple i
 * (RandomCopy, FunctionWorker / FastestRandomCopy, FasterRandomCopy, UnsafeRandomCopy).
 * All of them are specified by one function, GatherBuffer, on the source's contents.
 */
module CopyKernels {
  import opened Arith
  import opened PointBuffers
  import opened GridGenerator

  /** `order` names a source tuple, 0 <= order[i] < n, for each of the first n destination tuples. */
  predicate ValidOrder(order: seq<int>, n: nat) {
    n <= |order| && forall i :: 0 <= i < n ==> 0 <= order[i] < n
  }

  /** The identity order on n tuples. */
  predicate IsIdentityOrder(order: seq<int>, n: nat) {
    n <= |order| && forall i :: 0 <= i < n ==> order[i] == i
  }

  /** Destination point i is source point order[i]. */
  function Gather<T>(ps: seq<Point<T>>, order: seq<int>): seq<Point<T>>
    requires ValidOrder(order, |ps|)
  {
    seq(|ps|, i requires 0 <= i < |ps| => ps[order[i]])
  }

  /** The flat buffer a gather of the tuples of s by `order` produces. */
  function GatherBuffer<T>(s: seq<T>, order: seq<int>): (r: seq<T>)
    requires |s| % 3 == 0 && ValidOrder(order, |s| / 3)
    ensures |r| == |s|
  {
    FlattenLength(Gather(PointsOf(s), order));
    Flatten(Gather(PointsOf(s), order))
  }

  /**
   * The gathered buffer has the source's length, and its slot 3i+c is source slot
   * 3*order[i]+c: both indices lie below 3 * numPts, as the raw-pointer loop needs.
   */
  lemma GatherBufferSlot<T>(s: seq<T>, order: seq<int>, i: nat, c: nat)
    requires |s| % 3 == 0 && ValidOrder(order, |s| / 3)
    requires i < |s| / 3 && c < 3
    ensures 3 * i + c < |s| && 0 <= 3 * order[i] + c < |s|
    ensures GatherBuffer(s, order)[3 * i + c] == s[3 * order[i] + c]
  {
    var ps := Gather(PointsOf(s), order);
    FlattenAt(ps, i, c);
  }

  /** A gather by the identity order is a plain copy. */
  lemma GatherIdentity<T>(s: seq<T>, order: seq<int>)
    requires |s| % 3 == 0 && IsIdentityOrder(order, |s| / 3)
    ensures ValidOrder(order, |s| / 3)
    ensures GatherBuffer(s, order) == s
  {
    assert Gather(PointsOf(s), order) == PointsOf(s);
    FlattenPointsOf(s);
  }

  /** The order of applying `inner` and then `outer`: destination i takes inner[outer[i]]. */
  function ComposeOrders(inner: seq<int>, outer: seq<int>, n: nat): (r: seq<int>)
    requires ValidOrder(inner, n) && ValidOrder(outer, n)
    ensures ValidOrder(r, n)
  {
    seq(n, i requires 0 <= i < n => inner[outer[i]])
  }

  /** Gathering a gathered buffer again is one gather by the composed order. */
  lemma GatherTwice<T>(s: seq<T>, inner: seq<int>, outer: seq<int>)
    requires |s| % 3 == 0 && ValidOrder(inner, |s| / 3) && ValidOrder(outer, |s| / 3)
    ensures GatherBuffer(GatherBuffer(s, inner), outer) == GatherBuffer(s, ComposeOrders(inner, outer, |s| / 3))
  {
    var n := |s| / 3;
    var ps := PointsOf(s);
    PointsOfFlatten(Gather(ps, inner));
    PointsOfFlatten(Gather(Gather(ps, inner), outer));
    assert Gather(Gather(ps, inner), outer) == Gather(ps, ComposeOrders(inner, outer, n));
  }

  /** Once every destination tuple holds its source tuple, the destination is the gather. */
  lemma GatheredPointwise<T>(t: seq<T>, s: seq<T>, order: seq<int>)
    requires |s| % 3 == 0 && |t| == |s| && ValidOrder(order, |s| / 3)
    requires forall j :: 0 <= j < |s| / 3 ==> PointAt(t, j) == PointAt(s, order[j])
    ensures t == GatherBuffer(s, order)
  {
    FlattenFromPointwise(t, Gather(PointsOf(s), order));
  }

  /** SequentialCopy: GetPoint then SetPoint for i = 0 .. numPts-1 (an `int` counter). */
  method SequentialCopy<T(0)>(oldPoints: array<T>) returns (newPoints: array<T>)
    requires oldPoints.Length % 3 == 0 && oldPoints.Length / 3 <= INT32_MAX
    ensures fresh(newPoints)
    ensures newPoints[..] == oldPoints[..]
  {
    var numPts := oldPoints.Length / 3;
    newPoints := new T[3 * numPts];
    for i := 0 to numPts
      invariant forall j :: 0 <= j < i ==> PointAt(newPoints[..], j) == PointAt(oldPoints[..], j)
    {
      var outPoint := GetPoint(oldPoints, i);
      SetPoint(newPoints, i, outPoint);
    }
    FlattenFromPointwise(newPoints[..], PointsOf(oldPoints[..]));
    FlattenPointsOf(oldPoints[..]);
  }

  /** RandomCopy: GetPoint(order[i]) then SetPoint(i) for i = 0 .. numPts-1. */
  method RandomCopy<T(0)>(oldPoints: array<T>, order: seq<int>) returns (newPoints: array<T>)
    requires oldPoints.Length % 3 == 0 && oldPoints.Length / 3 <= INT32_MAX
    requires ValidOrder(order, oldPoints.Length / 3)
    ensures fresh(newPoints)
    ensures newPoints[..] == GatherBuffer(oldPoints[..], order)
  {
    var numPts := oldPoints.Length / 3;
    newPoints := new T[3 * numPts];
    for i := 0 to numPts
      invariant forall j :: 0 <= j < i ==> PointAt(newPoints[..], j) == PointAt(oldPoints[..], order[j])
    {
      var outPoint := GetPoint(oldPoints, order[i]);
      SetPoint(newPoints, i, outPoint);
    }
    GatheredPointwise(newPoints[..], oldPoints[..], order);
  }

  /** FasterSequentialCopy: one InsertPoints(0, numPts, 0, oldPoints) block copy. */
  method FasterSequentialCopy<T(0)>(oldPoints: array<T>) returns (newPoints: array<T>)
    requires oldPoints.Length % 3 == 0
    ensures fresh(newPoints)
    ensures newPoints[..] == oldPoints[..]
  {
    var numPts := oldPoints.Length / 3;
    newPoints := new T[3 * numPts];
    InsertPoints(newPoints, 0, numPts, 0, oldPoints);
    assert newPoints[..] == newPoints[0 .. 3 * numPts];
    assert oldPoints[..] == oldPoints[0 .. 3 * numPts];
  }

  /** The array-dispatch worker: it holds the order it gathers by. */
  datatype FunctionWorker = FunctionWorker(order: seq<int>)
  {
    /**
     * operator(): for every input tuple i, the three components of tuple order[i] are
     * read with the accessor's Get and written to tuple i of output with its Set. Both
     * arrays have 3 components; output has room for the input's tuples.
     */
    method Apply<T>(input: array<T>, output: array<T>)
      requires input.Length % 3 == 0 && input.Length <= output.Length
      requires input != output
      requires ValidOrder(order, input.Length / 3)
      modifies output
      ensures output[..input.Length] == GatherBuffer(input[..], order)
      ensures output[input.Length..] == old(output[input.Length..])
    {
      var numTuples := input.Length / 3;
      for i := 0 to numTuples
        invariant forall j :: 0 <= j < i ==> PointAt(output[..], j) == PointAt(input[..], order[j])
        invariant output[input.Length..] == old(output[input.Length..])
      {
        var inIdx := order[i];
        var v := GetComponent(input, inIdx, 0);
        SetComponent(output, i, 0, v);
        v := GetComponent(input, inIdx, 1);
        SetComponent(output, i, 1, v);
        v := GetComponent(input, inIdx, 2);
        SetComponent(output, i, 2, v);
      }
      GatheredPointwise(output[..input.Length], input[..], order);
    }
  }

  /** FastestRandomCopy: the worker run on the source's and the destination's data arrays. */
  method FastestRandomCopy<T(0)>(oldPoints: array<T>, order: seq<int>) returns (newPoints: array<T>)
    requires oldPoints.Length % 3 == 0
    requires ValidOrder(order, oldPoints.Length / 3)
    ensures fresh(newPoints)
    ensures newPoints[..] == GatherBuffer(oldPoints[..], order)
  {
    var numPts := oldPoints.Length / 3;
    newPoints := new T[3 * numPts];
    var worker := FunctionWorker(order);
    worker.Apply(oldPoints, newPoints);
    assert newPoints[..] == newPoints[..oldPoints.Length];
  }

  /** FasterRandomCopy: SetTuple(i, order[i], oldPoints) for i = 0 .. numPts-1. */
  method FasterRandomCopy<T(0)>(oldPoints: array<T>, order: seq<int>) returns (newPoints: array<T>)
    requires oldPoints.Length % 3 == 0 && oldPoints.Length / 3 <= INT32_MAX
    requires ValidOrder(order, oldPoints.Length / 3)
    ensures fresh(newPoints)
    ensures newPoints[..] == GatherBuffer(oldPoints[..], order)
  {
    var numPts := oldPoints.Length / 3;
    newPoints := new T[3 * numPts];
    for i := 0 to numPts
      invariant forall j :: 0 <= j < i ==> PointAt(newPoints[..], j) == PointAt(oldPoints[..], order[j])
    {
      SetTuple(newPoints, i, order[i], oldPoints);
    }
    GatheredPointwise(newPoints[..], oldPoints[..], order);
  }

  /**
   * UnsafeRandomCopy: raw float pointers, newPtr[3i+c] = oldPtr[3*order[i]+c]. The
   * write index 3i+c is computed in `int`, so it must not pass INT32_MAX.
   */
  method UnsafeRandomCopy<T(0)>(oldPoints: array<T>, order: seq<int>) returns (newPoints: array<T>)
    requires oldPoints.Length % 3 == 0 && oldPoints.Length - 1 <= INT32_MAX
    requires ValidOrder(order, oldPoints.Length / 3)
    ensures fresh(newPoints)
    ensures newPoints[..] == GatherBuffer(oldPoints[..], order)
  {
    var numPts := oldPoints.Length / 3;
    newPoints := new T[3 * numPts];
    for i := 0 to numPts
      invariant forall j :: 0 <= j < i ==> PointAt(newPoints[..], j) == PointAt(oldPoints[..], order[j])
    {
      assert FitsInt32(3 * i + 2);
      newPoints[3 * i] := oldPoints[3 * order[i]];
      newPoints[3 * i + 1] := oldPoints[3 * order[i] + 1];
      newPoints[3 * i + 2] := oldPoints[3 * order[i] + 2];
    }
    GatheredPointwise(newPoints[..], oldPoints[..], order);
  }

  /** copyvtkPoints' getOldPoints: the grid of 101^3 points, stored tuple by tuple. */
  method GetOldPoints() returns (points: array<real>)
    ensures fresh(points)
    ensures points.Length == 3 * (101 * 101 * 101)
    ensures points[..] == Flatten(GridPoints(CopyGrid))
  {
    assert ValidGrid(CopyGrid);
    var emitted := OldSetPoints(CopyGrid);
    points := StorePoints(emitted);
    GridPointCount(CopyGrid);
    FlattenLength(emitted);
  }

  /**
   * The benchmark's sequence of kernels on one source and one order. The order is drawn
   * uniformly from [0, numPts - 1], one entry per point. The two sequential copies agree
   * with the source, the four gathers with each other.
   */
  method CopyBenchmarks<T(0)>(oldPoints: array<T>, order: seq<int>)
    returns (sequential: array<T>, random: array<T>, fasterSequential: array<T>,
             fasterRandom: array<T>, fastestRandom: array<T>, unsafeRandom: array<T>)
    requires oldPoints.Length % 3 == 0 && oldPoints.Length - 1 <= INT32_MAX
    requires |order| == oldPoints.Length / 3
    requires forall i :: 0 <= i < |order| ==> 0 <= order[i] <= oldPoints.Length / 3 - 1
    ensures oldPoints[..] == old(oldPoints[..])
    ensures sequential[..] == oldPoints[..] && fasterSequential[..] == oldPoints[..]
    ensures random[..] == fasterRandom[..] == fastestRandom[..] == unsafeRandom[..]
    ensures random[..] == GatherBuffer(oldPoints[..], order)
    ensures IsIdentityOrder(order, oldPoints.Length / 3) ==> random[..] == oldPoints[..]
  {
    sequential := SequentialCopy(oldPoints);
    random := RandomCopy(oldPoints, order);
    fasterSequential := FasterSequentialCopy(oldPoints);
    fasterRandom := FasterRandomCopy(oldPoints, order);
    fastestRandom := FastestRandomCopy(oldPoints, order);
    unsafeRandom := UnsafeRandomCopy(oldPoints, order);
    if IsIdentityOrder(order, oldPoints.Length / 3) {
      GatherIdentity(oldPoints[..], order);
    }
  }
}
