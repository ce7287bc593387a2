# vtkPoints benchmarks, modelled in Dafny

The repository holds three small C++ benchmarks that time different ways of filling,
copying and transforming a `vtkPoints` object. A `vtkPoints` object stores its points as
one flat buffer of 3-component float tuples. Each benchmark builds a regular box grid of
points and then runs several kernels that should give the same result:

- `createvtkPoints.cxx`: `oldSetPoints` appends the grid points one at a time. `newSetPoints`
  writes them through a raw pointer that moves 3 slots per point.
- `copyvtkPoints.cxx`: two sequential copies and four "random" copies. A random copy gathers
  source tuple `order[i]` into destination tuple `i`. The six kernels are `SequentialCopy`,
  `RandomCopy`, `FasterSequentialCopy`, `FunctionWorker` / `FastestRandomCopy`,
  `FasterRandomCopy` and `UnsafeRandomCopy`.
- `setvtkPoints.cxx`: the matrix `skew` = 2I is applied to every point in three ways.
  `copyPoints` builds a new list. `updatePoints` works in place through the point accessors.
  `iteratorAccess` works in place through a pointer that steps 3 floats at a time.

The model has five modules:

- `Arith` (`arith.dfy`): integer ranges and the division and multiplication facts the index
  arithmetic needs.
- `PointBuffers` (`point_buffers.dfy`): the flat buffer as an `array`, its view as points
  (`PointsOf`, with inverse `Flatten`), and the accessors (`GetPoint`, `SetPoint`,
  `SetTuple`, the data-array accessor's `Get`/`Set`, `InsertPoints`). Each accessor is
  modelled by its effect on the buffer.
- `GridGenerator` (`create_points.dfy`): the grid and both generators. Their specification
  function is `GridPoints`, the points in emission order (x fastest, z slowest). A closed-form
  index lemma relates it to axis indices.
- `CopyKernels` (`copy_points.dfy`): each copy kernel as a method whose postcondition ties
  the new buffer to `GatherBuffer(source, order)`, or to the source itself.
- `TransformKernels` (`set_points.dfy`): each transform kernel as a method whose
  postcondition ties the result to `Transform` / `TransformBuffer` for a general 3x3 matrix.
  Matrix composition and the skew case are proved as lemmas.

The kernels' loops keep their form: each is an imperative method with loop invariants,
running the same per-tuple steps in the same order. Kernels that update a points object
in place, or fill one through a pointer, work on an `array`. `oldSetPoints` and
`copyPoints` only append points, so they build a `seq` of points. `getOldPoints` then
stores that sequence in an `array`, tuple by tuple. Exact `real` arithmetic
stands in for `float`/`double`; rounding is not modelled (see "Left out"). The copy kernels
never compute with coordinates, so they are generic in the element type.

Each benchmark hard-codes its constants: bin counts of 501 or 100, bounds of ±10, and the
matrix `skew`. The model makes these parameters (`Grid`, `Matrix3`). The source's values
are kept as `SourceGrid`, `CopyGrid` and `Skew`, and the benchmark drivers use them.

The random order in `copyvtkPoints.cxx` comes from a Mersenne-Twister draw, uniform on
`[0, numPts - 1]`. The model takes it as an input sequence with exactly that range.

`iteratorAccess` and `newSetPoints` return a ghost log of slot writes. The log is built
inside the per-point step (`TransformTriple`, `StoreAtCursor`), one entry right after each
of its three assignments. Every step is proved to change no slot outside its own three,
so no slot is written before the cursor reaches it. The log lists each slot of the range
once, in increasing order.

The benchmark code does no bounds check on `order[i]` or on tuple indices. So the
conditions it relies on, indices in range and counts that fit in `int`, are preconditions
of the kernels, not error results.

## Model

| member | source | states |
|---|---|---|
| PointBuffers.FlattenLength | copyvtkPoints.cxx:40-52 | The buffer left by appending n points has 3n slots. |
| PointBuffers.FlattenAt | copyvtkPoints.cxx:49 | Point i of an appended sequence sits in slots 3i, 3i+1, 3i+2, in x, y, z order. |
| PointBuffers.PointsOfFlatten | copyvtkPoints.cxx:61-62 | Viewing the flattened points as tuples gives the points back. |
| PointBuffers.FlattenPointsOf | copyvtkPoints.cxx:61-62 | Flattening the tuples of a buffer gives the buffer back. |
| PointBuffers.FlattenFromPointwise | copyvtkPoints.cxx:63-67 | A buffer whose every tuple i holds point i is the flattening of those points. |
| PointBuffers.SlotRangeConcat | createvtkPoints.cxx:80-91 | Consecutive runs of slot writes join into one run. |
| PointBuffers.GetPoint | copyvtkPoints.cxx:65 | GetPoint(i) returns the three slots of tuple i. |
| PointBuffers.SetPoint | copyvtkPoints.cxx:66 | SetPoint(i, p) makes tuple i equal to p and changes no other slot. |
| PointBuffers.GetComponent | copyvtkPoints.cxx:109-111 | The accessor's Get(i, c) returns component c of tuple i. |
| PointBuffers.SetComponent | copyvtkPoints.cxx:109-111 | The accessor's Set(i, c, v) overwrites exactly slot 3i+c. |
| PointBuffers.SetTuple | copyvtkPoints.cxx:144 | SetTuple(i, j, src) copies tuple j of src into tuple i and changes no other slot. |
| PointBuffers.StorePoints | copyvtkPoints.cxx:40-52 | Storing points tuple by tuple leaves exactly their flattening. |
| PointBuffers.InsertPoints | copyvtkPoints.cxx:91 | InsertPoints(0, n, 0, src) copies the first n tuples of src as one block and leaves the rest of dest as it was. |
| GridGenerator.NumberOfPoints | createvtkPoints.cxx:30-34 | The point count (nBins+1) per axis, multiplied, is positive for valid axes. |
| GridGenerator.PlaneSize | createvtkPoints.cxx:30-31 | A z plane holds a positive number of points. |
| GridGenerator.GridPoints | createvtkPoints.cxx:37-46 | Every point of the triple loop, in emission order. GridPointAt and GridPointAtIndices give its closed form. |
| GridGenerator.RowsLength | createvtkPoints.cxx:39-45 | The first ny rows of a plane hold ny * nPointsX points. |
| GridGenerator.PlanesLength | createvtkPoints.cxx:37-46 | The first nz planes hold nz * nPointsX * nPointsY points. |
| GridGenerator.GridPointCount | createvtkPoints.cxx:34-46 | The triple loop emits exactly the count passed to SetNumberOfPoints. |
| GridGenerator.RowsAt | createvtkPoints.cxx:39-45 | In plane z, the point of row y and column x is at offset y * nPointsX + x. |
| GridGenerator.PlanesAt | createvtkPoints.cxx:37-46 | The point with axis indices (x, y, z) is at the row-major offset (z nPy + y) nPx + x. |
| GridGenerator.GridPointAtIndices | createvtkPoints.cxx:37-46 | Axis indices map to an emission position inside the count, and that position maps back to the same indices. |
| GridGenerator.GridPointAt | createvtkPoints.cxx:37-46 | The k-th emitted point has axis indices (k mod nPx, (k div nPx) mod nPy, k div (nPx nPy)), each in range, and holds those coordinates. |
| GridGenerator.Increment | createvtkPoints.cxx:26-28 | Defines the spacing (max - min) / nBins of an axis, for nBins at least 1. Its properties are CoordinateAtZero and CoordinateAtBins. |
| GridGenerator.Coordinate | createvtkPoints.cxx:38-42 | Defines the coordinate min + idx * increment of grid index idx, as each loop level computes it (also createvtkPoints.cxx:81-85 and both getOldPoints). Its properties are CoordinateAtZero, CoordinateAtBins and FlatGridAt. |
| GridGenerator.CoordinateAtZero | createvtkPoints.cxx:38 | The first grid point of an axis lies on its lower bound. |
| GridGenerator.CoordinateAtBins | createvtkPoints.cxx:26-28 | In exact arithmetic, the last grid point of an axis lies on its upper bound. |
| GridGenerator.FlatGridAt | createvtkPoints.cxx:84-88 | Slots 3k, 3k+1, 3k+2 of the generated buffer hold the x, y, z coordinates of the k-th point. |
| GridGenerator.RowFits | createvtkPoints.cxx:82-89 | Each row adds nPointsX points and stays inside its plane. |
| GridGenerator.PlaneFits | createvtkPoints.cxx:80-91 | Each plane adds one plane's worth of points and stays inside the grid. |
| GridGenerator.OldSetPoints | createvtkPoints.cxx:8-48 | The appending generator emits exactly GridPoints: x fastest, z slowest, coordinates min + idx * increment taken from the scratch array. |
| GridGenerator.StoreAtCursor | createvtkPoints.cxx:85-87 | The three writes begin[0..2] extend the written prefix by exactly those three values. Every slot from begin+3 on is unchanged, and the returned log holds exactly begin, begin+1, begin+2. |
| GridGenerator.StoreRow | createvtkPoints.cxx:84-89 | The innermost cursor loop appends the flattening of one row and leaves every slot past its end unchanged. Its log is the cursor writes, each slot once and in order. |
| GridGenerator.StorePlane | createvtkPoints.cxx:82-90 | The middle loop appends the flattening of one plane and leaves every slot past its end unchanged. Its log is each slot once, in order. |
| GridGenerator.NewSetPoints | createvtkPoints.cxx:50-93 | The cursor generator fills a buffer sized to the count with the flattening of GridPoints. Its write log is every slot exactly once, in increasing order. |
| GridGenerator.CreateBenchmark | createvtkPoints.cxx:95-115 | On the benchmark grid, both generators produce the same 502^3 points in the same order. |
| GridGenerator.UnitCubeCorners | createvtkPoints.cxx:37-46 | With one bin per axis on [-1, 1], the generator emits the 8 cube corners in x-fastest order. |
| CopyKernels.GatherBuffer | copyvtkPoints.cxx:77-81 | The buffer every random copy must produce, with the source's length. GatherBufferSlot gives its contents. |
| CopyKernels.ComposeOrders | copyvtkPoints.cxx:72-83 | Composing two valid orders gives a valid order. |
| CopyKernels.GatherBufferSlot | copyvtkPoints.cxx:158-160 | Slot 3i+c of a gathered buffer is source slot 3*order[i]+c, and both indices are in range. |
| CopyKernels.GatherIdentity | copyvtkPoints.cxx:77-81 | A gather by the identity order is a plain copy. |
| CopyKernels.GatherTwice | copyvtkPoints.cxx:77-81 | Gathering twice is one gather by the composed order. |
| CopyKernels.GatheredPointwise | copyvtkPoints.cxx:77-81 | A destination whose every tuple i holds source tuple order[i] is the gathered buffer. |
| CopyKernels.SequentialCopy | copyvtkPoints.cxx:57-69 | The copy has the source's length and contents. |
| CopyKernels.RandomCopy | copyvtkPoints.cxx:71-83 | Tuple i of the result is source tuple order[i], for every i. |
| CopyKernels.FasterSequentialCopy | copyvtkPoints.cxx:85-93 | The block insert gives a copy equal to the source. |
| CopyKernels.FunctionWorker.Apply | copyvtkPoints.cxx:95-114 | The worker gathers every input tuple into output tuple i, component by component, and leaves the rest of output unchanged. |
| CopyKernels.FastestRandomCopy | copyvtkPoints.cxx:116-134 | The dispatched worker gives the gathered buffer. |
| CopyKernels.FasterRandomCopy | copyvtkPoints.cxx:137-147 | Per-tuple SetTuple gives the gathered buffer. |
| CopyKernels.UnsafeRandomCopy | copyvtkPoints.cxx:149-163 | Raw-pointer writes give the gathered buffer. The `int` index 3i+c stays in range. |
| CopyKernels.GetOldPoints | copyvtkPoints.cxx:14-54 | The source is the 101^3-point grid, stored in emission order. |
| CopyKernels.CopyBenchmarks | copyvtkPoints.cxx:165-230 | With an order drawn from [0, numPts-1], the source is untouched. Both sequential copies equal it, and all four random copies are equal to one another and to the gather. Under the identity order the gather is a copy. |
| TransformKernels.MultiplyPoint | setvtkPoints.cxx:88-90 | Defines vtkMatrix3x3::MultiplyPoint on a row-major matrix: out[r] = in[0] m[3r] + in[1] m[3r+1] + in[2] m[3r+2]. Its properties are MultiplyPointCompose and TransformBufferAt. |
| TransformKernels.TransformBuffer | setvtkPoints.cxx:67-78 | A transformed buffer has the source's length. TransformBufferAt gives its contents. |
| TransformKernels.TransformBufferAt | setvtkPoints.cxx:88-90 | Slots 3i, 3i+1, 3i+2 of a transformed buffer are rows 0, 1, 2 of the matrix times tuple i. |
| TransformKernels.TransformBufferIdentity | setvtkPoints.cxx:61 | On a flat buffer, the identity matrix leaves every slot unchanged. |
| TransformKernels.TransformBufferCompose | setvtkPoints.cxx:67-92 | On a flat buffer, a transform by b followed by one by a is one transform by the product a b. Since both in-place kernels are specified by TransformBuffer, two passes with any matrices equal one pass with their product. |
| TransformKernels.SkewDoubles | setvtkPoints.cxx:70 | The benchmark matrix doubles every slot. |
| TransformKernels.MultiplyPointCompose | setvtkPoints.cxx:61 | Multiplying a point by b and then by a equals multiplying it once by a b. |
| TransformKernels.TransformCompose | setvtkPoints.cxx:61 | Transforming a list twice equals one transform by the product. |
| TransformKernels.SkewTwice | setvtkPoints.cxx:55 | Applying skew twice scales every coordinate of every point by 4. |
| TransformKernels.SkewTwiceBuffer | setvtkPoints.cxx:110-122 | On a flat buffer, two skew passes multiply every slot by 4. |
| TransformKernels.CopyPoints | setvtkPoints.cxx:51-65 | The new list is the source's points, each multiplied by the matrix, in order. |
| TransformKernels.UpdatePoints | setvtkPoints.cxx:67-78 | The buffer becomes the transform of its old contents. Each tuple is read before it is overwritten. |
| TransformKernels.SliceTriples | setvtkPoints.cxx:83-91 | Triples transformed at 3-slot offsets from begin make the slice the transform of the old slice. |
| TransformKernels.TransformTriple | setvtkPoints.cxx:85-90 | One iterator step reads v1, v2, v3 first and then writes the three products. No other slot changes, and the returned log holds exactly i, i+1, i+2. |
| TransformKernels.IteratorAccess | setvtkPoints.cxx:80-92 | [begin, end) becomes the transform of its old contents. Slots outside it are unchanged, and each slot inside is written exactly once, in order. |
| TransformKernels.GetOldPoints | setvtkPoints.cxx:9-49 | The points are the 502^3-point grid, stored in emission order. |
| TransformKernels.UpdateMatchesIterator | setvtkPoints.cxx:67-92 | On equal buffers, updatePoints and iteratorAccess over all slots give the same buffer. |
| TransformKernels.TransformBenchmarks | setvtkPoints.cxx:94-130 | copyPoints yields the doubled points, and after updatePoints and iteratorAccess every slot of the points is 4 times its original value. |

## Left out

- Floating-point rounding: coordinates are `real`. The float-to-double widening in `GetPoint`, the later narrowing, and any rounding of `min + idx * increment` or of the matrix products are not modelled. `CoordinateAtBins` holds only in exact arithmetic.
- Timing (`std::chrono`) and the `Print` calls of each `main`: output only, no effect on the points.
- The Mersenne-Twister engine and `uniform_int_distribution`: the order is an input with the distribution's range `[0, numPts - 1]`. Which values are drawn is not modelled.
- The fallback call `worker(input, output)`, taken when `vtkArrayDispatch` fails to dispatch: it runs the same `FunctionWorker` on the same arrays, so it has the same effect as the modelled call.
- `vtkSmartPointer`, `GetData`, `GetVoidPointer` and the `float*` casts: a points object is its flat buffer, an `array`. Reference counting is not modelled.
- `SetNumberOfPoints` followed by `InsertNextPoint` in `getOldPoints` / `oldSetPoints`: the grid is modelled as the emitted sequence, stored in a buffer of its own length. The presized prefix that appending leaves in front of it on a real `vtkPoints` is not modelled.
- `Allocate` in `copyPoints`: it only reserves capacity, so the new list is modelled as a sequence that grows by appends.
- Bin counts below 1 or at `INT32_MAX` and above are excluded (`ValidAxis`). The increment divides by the bin count, and `nBins + 1` must still fit in an `int`.
- The write logs of `iteratorAccess` and `newSetPoints` are ghost bookkeeping placed by hand beside each assignment. The contracts cannot rule out an extra assignment inside a step's own three slots that is not logged and is later overwritten by the logged one.
- FunctionWorker.Apply: requires `input != output`. The aliased case, where one array is both source and destination, is not modelled, and the benchmark never uses it.
- UnsafeRandomCopy: the `int` overflow of `3*i+c` on huge inputs is excluded by a precondition, `3 * numPts - 1 <= INT32_MAX`, rather than modelled as wrap-around.
- SequentialCopy, RandomCopy, FasterRandomCopy, CopyPoints, UpdatePoints: the narrowing of the `vtkIdType` count to an `int` loop bound is excluded by a precondition, `numPts <= INT32_MAX`, rather than modelled as truncation.
- Out-of-range indices: the benchmark code does no bounds check on `order[i]` or on tuple indices, so in-range indices are preconditions, not error results.
