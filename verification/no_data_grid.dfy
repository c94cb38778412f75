/**
 * The no-data virtual grid: a grid with no storage, made of an extent (a
 * shape or a bounding box) and a sentinel value that every in-bounds index
 * reads.  A minimal dense grid is modelled beside it so that the conversion
 * into a materialised grid can be stated.
 */
module RasterGrids {
  import opened Wrappers

  /**
   * The extent of a grid.  A shape gives the size of each axis and indexes
   * from zero; a bounding box gives inclusive minimum and maximum indices.
   * Indices are signed, as `GridIdx` is.
   */
  datatype GridExtent =
    | GridShape(axisSizes: seq<nat>)
    | GridBoundingBox(minIdx: seq<int>, maxIdx: seq<int>)

  /**
   * A bounding box has one bound per axis on both sides and no axis of
   * negative size (an empty axis has its maximum just below its minimum).
   */
  predicate ValidExtent(e: GridExtent)
  {
    e.GridBoundingBox? ==>
      |e.minIdx| == |e.maxIdx| && forall i :: 0 <= i < |e.minIdx| ==> e.minIdx[i] <= e.maxIdx[i] + 1
  }

  /** `NDIM`: the number of axes. */
  function Ndim(e: GridExtent): nat
  {
    match e
    case GridShape(sizes) => |sizes|
    case GridBoundingBox(lo, _) => |lo|
  }

  function MinIndex(e: GridExtent): (r: seq<int>)
    ensures |r| == Ndim(e)
  {
    match e
    case GridShape(sizes) => seq(|sizes|, _ => 0)
    case GridBoundingBox(lo, _) => lo
  }

  function MaxIndex(e: GridExtent): (r: seq<int>)
    requires ValidExtent(e)
    ensures |r| == Ndim(e)
  {
    match e
    case GridShape(sizes) => seq(|sizes|, i requires 0 <= i < |sizes| => sizes[i] - 1)
    case GridBoundingBox(_, hi) => hi
  }

  /** Size of each axis: the number of indices from the minimum to the maximum, inclusive. */
  function AxisSize(e: GridExtent): (r: seq<nat>)
    requires ValidExtent(e)
    ensures |r| == Ndim(e)
    ensures forall i :: 0 <= i < |r| ==> r[i] == MaxIndex(e)[i] - MinIndex(e)[i] + 1
  {
    match e
    case GridShape(sizes) => sizes
    case GridBoundingBox(lo, hi) => seq(|lo|, i requires 0 <= i < |lo| && lo[i] <= hi[i] + 1 => hi[i] - lo[i] + 1)
  }

  function Product(s: seq<nat>): nat
  {
    if |s| == 0 then 1 else s[0] * Product(s[1..])
  }

  function NumberOfElements(e: GridExtent): nat
    requires ValidExtent(e)
  {
    Product(AxisSize(e))
  }

  /** `GridContains`: component-wise `min_index <= index <= max_index`. */
  predicate Contains(e: GridExtent, idx: seq<int>)
    requires ValidExtent(e)
  {
    |idx| == Ndim(e) && forall i :: 0 <= i < |idx| ==> MinIndex(e)[i] <= idx[i] <= MaxIndex(e)[i]
  }

  function AddIdx(a: seq<int>, b: seq<int>): (r: seq<int>)
    requires |a| == |b|
    ensures |r| == |a| && forall i :: 0 <= i < |a| ==> r[i] == a[i] + b[i]
  {
    seq(|a|, i requires 0 <= i < |a| => a[i] + b[i])
  }

  /** The error of a checked read outside the grid, with the index and the valid range. */
  datatype GridError = GridIndexOutOfBounds(index: seq<int>, minIndex: seq<int>, maxIndex: seq<int>)

  /** `NoDataGrid<D, T>`: an extent and the sentinel every in-bounds cell holds. */
  datatype NoDataGrid<T> = NoDataGrid(shape: GridExtent, noDataValue: T)

  /** `NoDataGrid::new` */
  function New<T>(shape: GridExtent, noDataValue: T): (g: NoDataGrid<T>)
    ensures g.shape == shape && NoDataValue(g) == Some(noDataValue)
  {
    NoDataGrid(shape, noDataValue)
  }

  /** `convert_dtype`: the sentinel is cast pixel-wise by `cast` (`as_()`); the extent is kept. */
  function ConvertDtype<T, U>(g: NoDataGrid<T>, cast: T -> U): (r: NoDataGrid<U>)
    ensures r.shape == g.shape
    ensures NoDataValue(r) == Some(cast(g.noDataValue))
  {
    New(g.shape, cast(g.noDataValue))
  }

  /** `GridSize::axis_size` and `number_of_elements`, delegated to the extent. */
  function GridAxisSize<T>(g: NoDataGrid<T>): (r: seq<nat>)
    requires ValidExtent(g.shape)
    ensures |r| == Ndim(g.shape)
    ensures forall i :: 0 <= i < |r| ==> r[i] == GridMaxIndex(g)[i] - GridMinIndex(g)[i] + 1
  {
    AxisSize(g.shape)
  }

  function GridNumberOfElements<T>(g: NoDataGrid<T>): (n: nat)
    requires ValidExtent(g.shape)
    ensures n == Product(GridAxisSize(g))
  {
    NumberOfElements(g.shape)
  }

  /** `GridBounds::min_index` and `max_index`, delegated to the extent. */
  function GridMinIndex<T>(g: NoDataGrid<T>): (r: seq<int>)
    ensures |r| == Ndim(g.shape)
    ensures g.shape.GridShape? ==> forall i :: 0 <= i < |r| ==> r[i] == 0
    ensures g.shape.GridBoundingBox? ==> r == g.shape.minIdx
  {
    MinIndex(g.shape)
  }

  function GridMaxIndex<T>(g: NoDataGrid<T>): (r: seq<int>)
    requires ValidExtent(g.shape)
    ensures |r| == Ndim(g.shape)
    ensures g.shape.GridShape? ==> forall i :: 0 <= i < |r| ==> r[i] == g.shape.axisSizes[i] as int - 1
    ensures g.shape.GridBoundingBox? ==> r == g.shape.maxIdx
  {
    MaxIndex(g.shape)
  }

  /** `get_at_grid_index_unchecked`: the sentinel, whatever the index. */
  function GetAtGridIndexUnchecked<T>(g: NoDataGrid<T>, idx: seq<int>): (v: T)
    ensures Some(v) == NoDataValue(g)
  {
    g.noDataValue
  }

  /**
   * `get_at_grid_index`: the sentinel for an index inside the extent, a
   * `GridIndexOutOfBounds` error carrying the index and the bounds otherwise.
   * The index has as many axes as the grid (the source's types ensure it).
   */
  function GetAtGridIndex<T>(g: NoDataGrid<T>, idx: seq<int>): (r: Result<T, GridError>)
    requires ValidExtent(g.shape) && |idx| == Ndim(g.shape)
    ensures r.Ok? <==> forall i :: 0 <= i < |idx| ==> GridMinIndex(g)[i] <= idx[i] <= GridMaxIndex(g)[i]
    ensures r.Ok? ==> r.value == g.noDataValue == GetAtGridIndexUnchecked(g, idx)
    ensures r.Err? ==> r.error == GridIndexOutOfBounds(idx, GridMinIndex(g), GridMaxIndex(g))
  {
    if Contains(g.shape, idx) then Ok(GetAtGridIndexUnchecked(g, idx))
    else Err(GridIndexOutOfBounds(idx, MinIndex(g.shape), MaxIndex(g.shape)))
  }

  /** `NoDataValue::no_data_value`: always present. */
  function NoDataValue<T>(g: NoDataGrid<T>): (r: Option<T>)
    ensures r.Some? && r.value == g.noDataValue
  {
    Some(g.noDataValue)
  }

  /** `shift_by_offset`: the grid over the bounding box translated by `offset`. */
  function ShiftByOffset<T>(g: NoDataGrid<T>, offset: seq<int>): (r: NoDataGrid<T>)
    requires ValidExtent(g.shape) && |offset| == Ndim(g.shape)
    ensures ValidExtent(r.shape) && Ndim(r.shape) == Ndim(g.shape)
    ensures GridMinIndex(r) == AddIdx(GridMinIndex(g), offset)
    ensures GridMaxIndex(r) == AddIdx(GridMaxIndex(g), offset)
    ensures r.noDataValue == g.noDataValue
  {
    NoDataGrid(GridBoundingBox(AddIdx(MinIndex(g.shape), offset), AddIdx(MaxIndex(g.shape), offset)), g.noDataValue)
  }

  /** `set_grid_bounds`: re-bases onto the given bounding box; it never fails. */
  function SetGridBounds<T>(g: NoDataGrid<T>, bounds: GridExtent): (r: Result<NoDataGrid<T>, GridError>)
    requires bounds.GridBoundingBox? && Ndim(bounds) == Ndim(g.shape)
    ensures r.Ok?
  {
    Ok(New(bounds, g.noDataValue))
  }

  // ----- the dense grid the no-data grid converts into -----

  /** A dense grid: an extent, a row-major buffer of cells and an optional sentinel. */
  datatype Grid<T> = Grid(shape: GridExtent, data: seq<T>, noDataValue: Option<T>)

  /** `Grid::new_filled`: every cell holds `fill`. */
  function NewFilled<T>(shape: GridExtent, fill: T, noDataValue: Option<T>): (r: Grid<T>)
    requires ValidExtent(shape)
    ensures r.shape == shape && r.noDataValue == noDataValue
    ensures |r.data| == NumberOfElements(shape)
    ensures forall k :: 0 <= k < |r.data| ==> r.data[k] == fill
  {
    Grid(shape, seq(NumberOfElements(shape), _ => fill), noDataValue)
  }

  /** `From<NoDataGrid> for Grid`: filled with the sentinel, which is also its no-data value. */
  function ToGrid<T>(g: NoDataGrid<T>): (r: Grid<T>)
    requires ValidExtent(g.shape)
    ensures r.shape == g.shape && r.noDataValue == NoDataValue(g)
    ensures |r.data| == GridNumberOfElements(g)
    ensures forall k :: 0 <= k < |r.data| ==> r.data[k] == g.noDataValue
  {
    NewFilled(g.shape, g.noDataValue, Some(g.noDataValue))
  }

  /** Row-major position of the offsets `off` in a buffer whose axes have sizes `sizes`. */
  function LinearIndex(off: seq<int>, sizes: seq<nat>): int
    requires |off| == |sizes|
  {
    if |sizes| == 0 then 0 else off[0] * Product(sizes[1..]) + LinearIndex(off[1..], sizes[1..])
  }

  lemma {:induction false} LinearIndexInRange(off: seq<int>, sizes: seq<nat>)
    requires |off| == |sizes|
    requires forall i :: 0 <= i < |off| ==> 0 <= off[i] < sizes[i]
    ensures 0 <= LinearIndex(off, sizes) < Product(sizes)
  {
    if |sizes| > 0 {
      LinearIndexInRange(off[1..], sizes[1..]);
      var p := Product(sizes[1..]);
      var rest := LinearIndex(off[1..], sizes[1..]);
      assert off[0] * p <= (sizes[0] - 1) * p by {
        assert off[0] <= sizes[0] - 1;
      }
      assert off[0] * p + rest < (sizes[0] - 1) * p + p;
      assert (sizes[0] - 1) * p + p == sizes[0] * p;
    }
  }

  /** The offset of an in-bounds index from the grid's minimum index. */
  function Offsets(e: GridExtent, idx: seq<int>): (r: seq<int>)
    requires ValidExtent(e) && |idx| == Ndim(e)
    ensures |r| == |idx|
  {
    seq(|idx|, i requires 0 <= i < |idx| => idx[i] - MinIndex(e)[i])
  }

  /** The dense grid's checked read, through the row-major buffer. */
  function GridGetAtGridIndex<T>(g: Grid<T>, idx: seq<int>): Result<T, GridError>
    requires ValidExtent(g.shape) && |g.data| == NumberOfElements(g.shape) && |idx| == Ndim(g.shape)
  {
    if Contains(g.shape, idx) then
      LinearIndexInRange(Offsets(g.shape, idx), AxisSize(g.shape));
      Ok(g.data[LinearIndex(Offsets(g.shape, idx), AxisSize(g.shape))])
    else Err(GridIndexOutOfBounds(idx, MinIndex(g.shape), MaxIndex(g.shape)))
  }

  // ----- properties -----

  /**
   * The dense grid answers every checked read exactly as the no-data grid
   * does: the virtual grid is indistinguishable from the materialised one.
   */
  lemma DenseGridIndistinguishable<T>(g: NoDataGrid<T>, idx: seq<int>)
    requires ValidExtent(g.shape) && |idx| == Ndim(g.shape)
    ensures GridGetAtGridIndex(ToGrid(g), idx) == GetAtGridIndex(g, idx)
  {
    if Contains(g.shape, idx) {
      LinearIndexInRange(Offsets(g.shape, idx), AxisSize(g.shape));
    }
  }

  /** Converting the pixel type casts the sentinel and commutes with every read. */
  lemma ConvertDtypeCommutesWithReads<T, U>(g: NoDataGrid<T>, cast: T -> U, idx: seq<int>)
    requires ValidExtent(g.shape) && |idx| == Ndim(g.shape)
    ensures ConvertDtype(g, cast).shape == g.shape
    ensures NoDataValue(ConvertDtype(g, cast)) == Some(cast(g.noDataValue))
    ensures GetAtGridIndex(ConvertDtype(g, cast), idx) ==
      match GetAtGridIndex(g, idx)
      case Ok(v) => Ok(cast(v))
      case Err(e) => Err(e)
  {
  }

  /**
   * Shifting translates the valid region by the offset and keeps the axis
   * sizes and the sentinel: reading `idx + offset` after the shift answers as
   * reading `idx` before it.
   */
  lemma ShiftTranslatesReads<T>(g: NoDataGrid<T>, offset: seq<int>, idx: seq<int>)
    requires ValidExtent(g.shape) && |offset| == Ndim(g.shape) && |idx| == Ndim(g.shape)
    ensures GridAxisSize(ShiftByOffset(g, offset)) == GridAxisSize(g)
    ensures NoDataValue(ShiftByOffset(g, offset)) == NoDataValue(g)
    ensures GetAtGridIndex(ShiftByOffset(g, offset), AddIdx(idx, offset)).Ok? <==> GetAtGridIndex(g, idx).Ok?
  {
    var s := ShiftByOffset(g, offset);
    assert forall i :: 0 <= i < |idx| ==>
      (MinIndex(s.shape)[i] <= AddIdx(idx, offset)[i] <= MaxIndex(s.shape)[i] <==> MinIndex(g.shape)[i] <= idx[i] <= MaxIndex(g.shape)[i]);
  }

  /** Re-basing adopts exactly the given bounds and keeps the sentinel. */
  lemma SetGridBoundsAdoptsBounds<T>(g: NoDataGrid<T>, bounds: GridExtent, idx: seq<int>)
    requires bounds.GridBoundingBox? && ValidExtent(bounds) && Ndim(bounds) == Ndim(g.shape) && |idx| == Ndim(bounds)
    ensures SetGridBounds(g, bounds) == Ok(NoDataGrid(bounds, g.noDataValue))
    ensures GridMinIndex(SetGridBounds(g, bounds).value) == bounds.minIdx
    ensures GridMaxIndex(SetGridBounds(g, bounds).value) == bounds.maxIdx
    ensures GetAtGridIndex(SetGridBounds(g, bounds).value, idx).Ok? <==>
      forall i :: 0 <= i < |idx| ==> bounds.minIdx[i] <= idx[i] <= bounds.maxIdx[i]
  {
  }

  /** The unit tests: a 2x2 grid with sentinel 42. */
  lemma TwoByTwoExample()
    ensures New(GridShape([2, 2]), 42) == NoDataGrid(GridShape([2, 2]), 42)
    ensures GridAxisSize(New(GridShape([2, 2]), 42)) == [2, 2]
    ensures GridNumberOfElements(New(GridShape([2, 2]), 42)) == 4
    ensures GetAtGridIndexUnchecked(New(GridShape([2, 2]), 42), [100, 100]) == 42
    ensures GetAtGridIndex(New(GridShape([2, 2]), 42), [0, 0]) == Ok(42)
    ensures GetAtGridIndex(New(GridShape([2, 2]), 42), [100, 100]).Err?
    ensures ConvertDtype(New(GridShape([2, 2]), 42), (v: int) => v as real).noDataValue == 42.0
  {
    var g := New(GridShape([2, 2]), 42);
    assert MaxIndex(g.shape) == [1, 1];
    assert Product([2, 2]) == 2 * Product([2]);
  }
}
