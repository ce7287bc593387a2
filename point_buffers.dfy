/**
 * The storage of a vtkPoints object: a flat buffer of 3-component tuples in which
 * point i occupies slots 3i, 3i+1 and 3i+2, and the accessors the kernels read and
 * write it through, each modelled by its evident effect on that buffer.
 */
module PointBuffers {

  datatype Point<T> = Point(x: T, y: T, z: T)

  /** Component c (0 = x, 1 = y, 2 = z) of a point. */
  function Component<T>(p: Point<T>, c: nat): T
    requires c < 3
  {
    if c == 0 then p.x else if c == 1 then p.y else p.z
  }

  /** The point stored in tuple i of a flat buffer. */
  function PointAt<T>(s: seq<T>, i: nat): Point<T>
    requires 3 * i + 2 < |s|
  {
    Point(s[3 * i], s[3 * i + 1], s[3 * i + 2])
  }

  /** The points a flat buffer of 3-component tuples holds, in tuple order. */
  function PointsOf<T>(s: seq<T>): seq<Point<T>>
    requires |s| % 3 == 0
  {
    seq(|s| / 3, i requires 0 <= i < |s| / 3 => PointAt(s, i))
  }

  /** The flat buffer that holds the given points, in order (what appending them tuple by tuple builds). */
  function Flatten<T>(ps: seq<Point<T>>): seq<T>
  {
    if ps == [] then []
    else
      var p := ps[|ps| - 1];
      Flatten(ps[..|ps| - 1]) + [p.x, p.y, p.z]
  }

  lemma {:induction false} FlattenLength<T>(ps: seq<Point<T>>)
    ensures |Flatten(ps)| == 3 * |ps|
  {
    if ps != [] {
      FlattenLength(ps[..|ps| - 1]);
    }
  }

  /** Point i of a flattened sequence sits in slots 3i, 3i+1, 3i+2, in x, y, z order. */
  lemma {:induction false} FlattenAt<T>(ps: seq<Point<T>>, i: nat, c: nat)
    requires i < |ps| && c < 3
    ensures |Flatten(ps)| == 3 * |ps|
    ensures Flatten(ps)[3 * i + c] == Component(ps[i], c)
  {
    FlattenLength(ps);
    var init := ps[..|ps| - 1];
    FlattenLength(init);
    if i < |ps| - 1 {
      FlattenAt(init, i, c);
      assert init[i] == ps[i];
    }
  }

  lemma FlattenAppend<T>(ps: seq<Point<T>>, p: Point<T>)
    ensures Flatten(ps + [p]) == Flatten(ps) + [p.x, p.y, p.z]
  {
    assert (ps + [p])[..|ps|] == ps;
  }

  /** Viewing a flattened sequence as points gives the points back. */
  lemma PointsOfFlatten<T>(ps: seq<Point<T>>)
    ensures |Flatten(ps)| % 3 == 0 && PointsOf(Flatten(ps)) == ps
  {
    FlattenLength(ps);
    var s := Flatten(ps);
    forall i | 0 <= i < |ps|
      ensures PointsOf(s)[i] == ps[i]
    {
      FlattenAt(ps, i, 0);
      FlattenAt(ps, i, 1);
      FlattenAt(ps, i, 2);
    }
  }

  /** Flattening the points of a buffer gives the buffer back. */
  lemma FlattenPointsOf<T>(s: seq<T>)
    requires |s| % 3 == 0
    ensures Flatten(PointsOf(s)) == s
  {
    var ps := PointsOf(s);
    FlattenLength(ps);
    forall k | 0 <= k < |s|
      ensures Flatten(ps)[k] == s[k]
    {
      FlattenAt(ps, k / 3, k % 3);
    }
  }

  /** A buffer whose first n tuples hold the given points, one per tuple, holds exactly their flattening. */
  lemma FlattenFromPointwise<T>(s: seq<T>, ps: seq<Point<T>>)
    requires |s| == 3 * |ps|
    requires forall j :: 0 <= j < |ps| ==> PointAt(s, j) == ps[j]
    ensures s == Flatten(ps)
  {
    assert PointsOf(s) == ps;
    FlattenPointsOf(s);
  }

  /** The slots lo, lo+1, ..., hi-1, each once and in increasing order. */
  function SlotRange(lo: int, hi: int): seq<int>
    requires lo <= hi
  {
    seq(hi - lo, i requires 0 <= i < hi - lo => lo + i)
  }

  lemma SlotRangeConcat(lo: int, mid: int, hi: int)
    requires lo <= mid <= hi
    ensures SlotRange(lo, mid) + SlotRange(mid, hi) == SlotRange(lo, hi)
  {
    var s := SlotRange(lo, mid) + SlotRange(mid, hi);
    assert |s| == hi - lo;
    forall i | 0 <= i < hi - lo
      ensures s[i] == lo + i
    {
      if i < mid - lo {
        assert s[i] == SlotRange(lo, mid)[i];
      } else {
        assert s[i] == SlotRange(mid, hi)[i - (mid - lo)];
      }
    }
  }

  lemma SlotRangeExtend(lo: int, hi: int)
    requires lo <= hi
    ensures SlotRange(lo, hi) + [hi, hi + 1, hi + 2] == SlotRange(lo, hi + 3)
  {
  }

  /** vtkPoints::GetPoint: the point of tuple i (the float-to-double widening is the identity here). */
  method GetPoint<T>(a: array<T>, i: nat) returns (p: Point<T>)
    requires 3 * i + 2 < a.Length
    ensures p == PointAt(a[..], i)
  {
    p := Point(a[3 * i], a[3 * i + 1], a[3 * i + 2]);
  }

  /** vtkPoints::SetPoint (and InsertPoint at an existing index): overwrite tuple i and nothing else. */
  method SetPoint<T>(a: array<T>, i: nat, p: Point<T>)
    requires 3 * i + 2 < a.Length
    modifies a
    ensures PointAt(a[..], i) == p
    ensures forall k :: 0 <= k < a.Length && (k < 3 * i || 3 * i + 2 < k) ==> a[k] == old(a[k])
  {
    a[3 * i] := p.x;
    a[3 * i + 1] := p.y;
    a[3 * i + 2] := p.z;
  }

  /** vtkDataArrayAccessor::Get: component c of tuple i. */
  method GetComponent<T>(a: array<T>, i: nat, c: nat) returns (v: T)
    requires c < 3 && 3 * i + 2 < a.Length
    ensures v == Component(PointAt(a[..], i), c)
  {
    v := a[3 * i + c];
  }

  /** vtkDataArrayAccessor::Set: overwrite component c of tuple i and nothing else. */
  method SetComponent<T>(a: array<T>, i: nat, c: nat, v: T)
    requires c < 3 && 3 * i + 2 < a.Length
    modifies a
    ensures a[..] == old(a[..])[3 * i + c := v]
  {
    a[3 * i + c] := v;
  }

  /** vtkDataArray::SetTuple(i, j, source): tuple i of dest becomes tuple j of source. */
  method SetTuple<T>(dest: array<T>, i: nat, j: nat, source: array<T>)
    requires 3 * i + 2 < dest.Length && 3 * j + 2 < source.Length
    modifies dest
    ensures PointAt(dest[..], i) == old(PointAt(source[..], j))
    ensures forall k :: 0 <= k < dest.Length && (k < 3 * i || 3 * i + 2 < k) ==> dest[k] == old(dest[k])
  {
    var v0, v1, v2 := source[3 * j], source[3 * j + 1], source[3 * j + 2];
    dest[3 * i] := v0;
    dest[3 * i + 1] := v1;
    dest[3 * i + 2] := v2;
  }

  /** The flat storage that appending the points one by one leaves behind. */
  method StorePoints<T(0)>(ps: seq<Point<T>>) returns (a: array<T>)
    ensures fresh(a)
    ensures a[..] == Flatten(ps)
  {
    a := new T[3 * |ps|];
    for i := 0 to |ps|
      invariant forall j :: 0 <= j < i ==> PointAt(a[..], j) == ps[j]
    {
      SetPoint(a, i, ps[i]);
    }
    FlattenFromPointwise(a[..], ps);
  }

  /**
   * vtkPoints::InsertPoints(dstStart, n, srcStart, source) into storage already sized for them:
   * one block copy of n tuples; the rest of dest is untouched.
   */
  method InsertPoints<T>(dest: array<T>, dstStart: nat, n: nat, srcStart: nat, source: array<T>)
    requires 3 * (dstStart + n) <= dest.Length && 3 * (srcStart + n) <= source.Length
    modifies dest
    ensures dest[3 * dstStart .. 3 * (dstStart + n)] == old(source[3 * srcStart .. 3 * (srcStart + n)])
    ensures dest[..3 * dstStart] == old(dest[..3 * dstStart])
    ensures dest[3 * (dstStart + n)..] == old(dest[3 * (dstStart + n)..])
  {
    forall k | 0 <= k < 3 * n {
      dest[3 * dstStart + k] := source[3 * srcStart + k];
    }
  }
}
