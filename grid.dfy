/**
 * calculateGridSize: the probe grid for each axis is the model's extent times a
 * scaling factor, truncated, capped at the maximum and then raised to the minimum.
 * The three constants are fixed in the code; the declared settings are never read.
 */
module GridSizer {
  import opened Wrappers
  import opened BoundsExtractor

  const ScalingFactor: real := 0.08
  const MinGridSize: nat := 3
  const MaxGridSize: nat := 9

  /** Python's `int()` on a finite float: truncation toward zero. */
  function Trunc(x: real): (n: int)
    ensures x >= 0.0 ==> n as real <= x < n as real + 1.0
    ensures x < 0.0 ==> n as real - 1.0 < x <= n as real
  {
    if x >= 0.0 then x.Floor else -((-x).Floor)
  }

  /** `max(min_grid_size, min(int(extent * scaling_factor), max_grid_size))`. */
  function GridDimension(extent: real): (n: nat)
    ensures MinGridSize <= n <= MaxGridSize
  {
    var raw := Trunc(extent * ScalingFactor);
    var capped := if MaxGridSize < raw then MaxGridSize else raw;
    if capped < MinGridSize then MinGridSize else capped
  }

  /** `int(-inf)` raised OverflowError: the axis had no coordinate, so its extent
      max - min was -inf - (+inf). */
  datatype GridError = InfiniteExtent(axis: char)

  function Extent(r: AxisRange): real
    requires r.Range?
  {
    r.hi - r.lo
  }

  /** The grid size for both axes; the width is converted before the height, so an
      empty X axis is reported first. */
  function GridSize(b: Bounds): (r: Result<(nat, nat), GridError>)
    ensures r.Ok? <==> b.x.Range? && b.y.Range?
    ensures r.Err? ==> r.error == InfiniteExtent(if b.x.Empty? then 'X' else 'Y')
    ensures r.Ok? ==>
      && MinGridSize <= r.value.0 <= MaxGridSize
      && MinGridSize <= r.value.1 <= MaxGridSize
  {
    if b.x.Empty? then Err(InfiniteExtent('X'))
    else if b.y.Empty? then Err(InfiniteExtent('Y'))
    else Ok((GridDimension(Extent(b.x)), GridDimension(Extent(b.y))))
  }

  /** For a non-negative extent w the grid is the minimum below 50 (w * 0.08 < 4),
      the maximum from 112.5 on (w * 0.08 >= 9), and in between the whole part of
      w * 0.08. */
  lemma GridDimensionThresholds(w: real)
    requires w >= 0.0
    ensures GridDimension(w) == MinGridSize <==> w < 50.0
    ensures GridDimension(w) == MaxGridSize <==> w >= 112.5
    ensures 50.0 <= w < 112.5 ==>
      GridDimension(w) as real <= w * ScalingFactor < GridDimension(w) as real + 1.0
  {
  }

  /** Truncation toward zero never decreases when its argument grows. */
  lemma TruncMonotone(a: real, b: real)
    requires a <= b
    ensures Trunc(a) <= Trunc(b)
  {
    if a < 0.0 && b < 0.0 {
      assert (-b).Floor <= (-a).Floor;
    }
  }

  /** A larger model never gets a coarser grid. */
  lemma GridDimensionMonotone(w1: real, w2: real)
    requires w1 <= w2
    ensures GridDimension(w1) <= GridDimension(w2)
  {
    TruncMonotone(w1 * ScalingFactor, w2 * ScalingFactor);
  }

  /** A 100 x 50 model gets an 8 x 4 grid; 200 is capped at 9, 20 raised to 3. */
  lemma GridScenarios()
    ensures GridSize(Bounds(Range(0.0, 100.0), Range(0.0, 50.0))) == Ok((8, 4))
    ensures GridDimension(200.0) == 9
    ensures GridDimension(20.0) == 3
  {
  }
}
