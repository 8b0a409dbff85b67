# Leveling Mesh Optimizer — a Dafny model

`LevelingMeshOptimizer` is a post-processing script for the G-code a slicer
produces. The host hands it the G-code as a list of text blocks. The script
works in three steps:

1. It scans block 2, the first layer, for `X` and `Y` coordinates and finds
   their bounding box (`findBounds`).
2. It sizes a bed-leveling probe grid for each axis from the box's width and
   height (`calculateGridSize`).
3. It rewrites every line of block 1, the start G-code, that begins with `G29`
   into `G29 L<xmin> R<xmax> F<ymin> B<ymax> P0 G <gx> <gy> ; Dynamic UBL Grid with Custom Settings`
   (`fillBounds`).

The model has one Dafny module per step, plus small modules for the pieces
the steps use:

- `Lines`: Python's `split("\n")`, which `findBounds` applies to the layer, and
  its inverse `Join`. `fillBounds` has no split or join of its own: its line-wise
  `re.sub` is modelled as rewriting the lines of the block and joining them again.
- `Numbers`: `float()` on the digit-and-dot runs the scanner finds, and `%d`.
- `Scanner`: `re.findall(r"([XY])([\d.]+)", line)` written out over characters.
  A reference definition states which positions start a match, and a lemma proves the scanner equals it.
- `BoundsExtractor`: `findBounds`. It is a method with the source's nested loop
  over lines and matches, proved equal to the function `BoundsOf`. Lemmas prove
  that each axis is the hull of its scanned values. They also prove that
  whether the scan succeeds, and the bounds when it does, depend only on which
  lines occur, not on their order.
- `GridSizer`: `calculateGridSize` with the constants 0.08, 3 and 9 hard-coded, as in the code.
- `CommandRewriter`: `fillBounds`, as a function over the lines of the block.
- `Optimizer`: `execute`. It is a method over the host's list, modelled as an
  `array<string>`. It rewrites index 1 in place and is proved against the function `Run`.
- `Scenarios`: worked examples. They include one-move and two-move first layers,
  and the whole run for a 100 x 50 model.

Exceptions become values. `float()` raising ValueError is
`ScanError.MalformedNumber`. `int(-inf)` raising OverflowError is
`GridError.InfiniteExtent`. Indexing a list of fewer than three blocks raises
IndexError. `Optimizer.Failure` collects all three. The `(+inf, -inf)` starting
pair of an axis is `AxisRange.Empty`.

Where the code and its documentation differ, the model follows the code:

- The grid constants 0.08, 3 and 9 are fixed in `calculateGridSize`
  (LevelingMeshOptimizer.py:82-84). The declared settings are never read.
- Coordinates carry no sign: `[XY][\d.]+` does not match `X-5`.
- `^G29` is anchored at the start of a line. So `;G29` and ` G29` are kept,
  although the comment at LevelingMeshOptimizer.py:102 speaks of "even
  commented variants" (`CommentedProbeKept`).
- An empty first layer is not turned into a default grid. `int()` raises, and
  the script aborts (`NoXCoordinateAborts`).

## Model

| member | source | states |
|---|---|---|
| `Lines.Split` | LevelingMeshOptimizer.py:66 | splitting a block on "\n" gives at least one line, and no line contains a newline |
| `Lines.Join` | LevelingMeshOptimizer.py:103 | reassembles the block after the line-wise `re.sub`; its meaning is stated by `JoinSplit` and `SplitJoin` |
| `Lines.JoinSplit` | LevelingMeshOptimizer.py:103 | joining the lines of a split with "\n" gives back the original text |
| `Lines.SplitJoin` | LevelingMeshOptimizer.py:103 | splitting newline-free lines after joining them gives back the same lines |
| `Numbers.ParseNumber` | LevelingMeshOptimizer.py:71 | `float()` of a digit-and-dot run never yields a negative value |
| `Numbers.ParseInteger` | LevelingMeshOptimizer.py:71 | a non-empty digit run is read as its decimal value |
| `Numbers.ParseFixedPoint` | LevelingMeshOptimizer.py:71 | a run "a.b" (with "7." and ".5" allowed) is read as a + b / 10^len(b) |
| `Numbers.TwoDotsRejected` | LevelingMeshOptimizer.py:71 | a run with two dots, such as "1.2.3", makes `float()` fail |
| `Numbers.NoDigitRejected` | LevelingMeshOptimizer.py:71 | a run without digits, such as ".", makes `float()` fail |
| `Numbers.Decimal` | LevelingMeshOptimizer.py:93 | `%d` of a grid size is a non-empty string of digits |
| `Numbers.DecimalRoundTrip` | LevelingMeshOptimizer.py:93 | reading back the digits written by `%d` gives the number |
| `Numbers.ParseDecimal` | LevelingMeshOptimizer.py:71 | `float()` of `%d` output returns the same number |
| `Scanner.Scan` | LevelingMeshOptimizer.py:67 | `re.findall` on one line; its meaning is stated by `ScanMatchesReference`, `NoTokenIff` and `TokensWellShaped` |
| `Scanner.RunEnd` | LevelingMeshOptimizer.py:67 | the greedy `[\d.]+` stops only at the end of the line or at a character that is neither a digit nor a dot |
| `Scanner.RunEndChars` | LevelingMeshOptimizer.py:67 | every character the greedy run takes is a digit or a dot |
| `Scanner.RunFromSlice` | LevelingMeshOptimizer.py:67 | the second group of a match is exactly the stretch of the line from after the axis letter to where the run stops |
| `Scanner.ScanMatchesReference` | LevelingMeshOptimizer.py:67 | findall yields one token per X or Y immediately followed by a digit or dot, in order, each with its maximal run; no such letter is skipped |
| `Scanner.NoTokenIff` | LevelingMeshOptimizer.py:67 | a line yields no token exactly when no X or Y in it is followed by a digit or dot (so "X-5", "x5" and "Z5" yield nothing) |
| `Scanner.TokensWellShaped` | LevelingMeshOptimizer.py:67-68 | every token has axis X or Y and a non-empty run of digits and dots |
| `Scanner.ScanNoAxisPrefix` | LevelingMeshOptimizer.py:67 | text without X or Y in front of a line adds no token |
| `Scanner.ScanToken` | LevelingMeshOptimizer.py:67 | an axis letter followed by its whole run gives one token, and scanning resumes after the run |
| `BoundsExtractor.RangeOfIsHull` | LevelingMeshOptimizer.py:61-64 | widening from (+inf, -inf) by each value gives Empty for no values; otherwise min <= max, both are scanned values, and every value lies between them |
| `BoundsExtractor.HullUnique` | LevelingMeshOptimizer.py:72-73 | the min/max pair is determined by the set of values alone |
| `BoundsExtractor.Widen` | LevelingMeshOptimizer.py:72-73 | one `min`/`max` update of an axis; its meaning is stated by `WidenSpec` and `RangeOfIsHull` |
| `BoundsExtractor.WidenSpec` | LevelingMeshOptimizer.py:72-73 | after the update the value lies between the axis's min and max, the old pair lies inside the new one, and each end is either the old end or the value |
| `BoundsExtractor.Step` | LevelingMeshOptimizer.py:68-73 | the handling of one match; its meaning is stated by `StepSpec` |
| `BoundsExtractor.StepSpec` | LevelingMeshOptimizer.py:68-73 | one match succeeds exactly when `float()` accepts its run, fails with that run otherwise, and leaves the other axis unchanged |
| `BoundsExtractor.Fold` | LevelingMeshOptimizer.py:66-73 | the pass over all matches of the layer; its meaning is stated by `FoldSpec`, `FoldErrSpec` and `FoldIgnoresOrder` |
| `BoundsExtractor.FoldSpec` | LevelingMeshOptimizer.py:66-73 | the scan succeeds exactly when `float()` accepts every X/Y run, and then each axis is the widening of its values |
| `BoundsExtractor.FoldErrSpec` | LevelingMeshOptimizer.py:71 | a failed scan reports the first rejected run |
| `BoundsExtractor.FoldErrSticky` | LevelingMeshOptimizer.py:71 | once `float()` has raised, later matches do not change the outcome |
| `BoundsExtractor.BoundsOf` | LevelingMeshOptimizer.py:60-75 | findBounds as a function; its meaning is stated by `BoundsOfSpec`, and `FindBounds` is proved equal to it |
| `BoundsExtractor.FindBounds` | LevelingMeshOptimizer.py:60-75 | the nested loop over lines and matches returns exactly `BoundsOf(data)` |
| `BoundsExtractor.BoundsOfSpec` | LevelingMeshOptimizer.py:61-75 | findBounds fails exactly on a rejected run. Otherwise each axis is the hull of its scanned values (Empty when there are none), and no bound is negative |
| `BoundsExtractor.FoldHull` | LevelingMeshOptimizer.py:61-73 | after a successful pass over the tokens, each axis is the hull of that axis's values and starts at a non-negative value |
| `BoundsExtractor.InAxisValues` | LevelingMeshOptimizer.py:67-73 | a value widens an axis exactly when some match on that axis has a run that `float()` reads as that value |
| `BoundsExtractor.FoldIgnoresOrder` | LevelingMeshOptimizer.py:72-73 | whether the fold succeeds, and the bounds when it does, depend only on which tokens occur, not on their order or repetition (which run a failure names does depend on order) |
| `BoundsExtractor.BoundsIgnoreLineOrder` | LevelingMeshOptimizer.py:66-73 | reordering or repeating the lines of the layer changes neither whether findBounds succeeds nor the bounds it returns |
| `GridSizer.Trunc` | LevelingMeshOptimizer.py:86-87 | `int()` truncates toward zero: for x >= 0 the result is the largest whole number not above x, for x < 0 the smallest not below it |
| `GridSizer.GridDimension` | LevelingMeshOptimizer.py:86-87 | each grid dimension lies in [3, 9] for every extent |
| `GridSizer.GridSize` | LevelingMeshOptimizer.py:78-89 | a grid exists exactly when both axes had a coordinate, and both sizes are then in [3, 9]; otherwise `int(-inf)` fails on X first, then on Y |
| `GridSizer.GridDimensionThresholds` | LevelingMeshOptimizer.py:82-87 | for an extent w >= 0: 3 exactly when w < 50, 9 exactly when w >= 112.5, otherwise the whole part of w * 0.08 |
| `GridSizer.TruncMonotone` | LevelingMeshOptimizer.py:86 | `int()` (truncation toward zero) is monotone |
| `GridSizer.GridDimensionMonotone` | LevelingMeshOptimizer.py:86-87 | a larger extent never gets a coarser grid |
| `GridSizer.GridScenarios` | LevelingMeshOptimizer.py:86-87 | a 100 x 50 box gives an 8 x 4 grid; width 200 is capped to 9 and width 20 raised to 3 |
| `CommandRewriter.StartsWithG29` | LevelingMeshOptimizer.py:103 | the `^G29` test on one line; its meaning is stated by `RewriteLines` and `CommentedProbeKept` |
| `CommandRewriter.RewriteLines` | LevelingMeshOptimizer.py:103 | the line count is kept; each line starting with "G29" becomes the command, and every other line is unchanged |
| `CommandRewriter.ProbeCommand` | LevelingMeshOptimizer.py:93-100 | the formatted command starts with "G29", and it has no newline when the rendered bounds have none |
| `CommandRewriter.FillBounds` | LevelingMeshOptimizer.py:92-103 | fillBounds on a whole block; its meaning is stated by `FillBoundsLines`, `FillBoundsWithoutProbe` and `FillBoundsIdempotent` |
| `CommandRewriter.FillBoundsLines` | LevelingMeshOptimizer.py:103 | with a one-line command, the lines of the result are the input lines rewritten one for one |
| `CommandRewriter.FillBoundsWithoutProbe` | LevelingMeshOptimizer.py:103 | a block with no line starting with "G29" is returned verbatim, with nothing inserted |
| `CommandRewriter.FillBoundsIdempotent` | LevelingMeshOptimizer.py:93-103 | rewriting twice with the same command gives the same block as rewriting once |
| `CommandRewriter.RewriteLinesTwice` | LevelingMeshOptimizer.py:103 | when the command itself starts with "G29", rewriting already rewritten lines changes nothing |
| `CommandRewriter.CommentedProbeKept` | LevelingMeshOptimizer.py:102-103 | a line starting with ";" or a space (e.g. ";G29") is kept unchanged |
| `Optimizer.Run` | LevelingMeshOptimizer.py:44-57 | execute succeeds exactly when there are at least three blocks, the first layer scans, and both axes have a coordinate. Then the list keeps its length, and every block except index 1 is unchanged. With fewer than three blocks it raises IndexError; a rejected run raises ValueError naming that run; an axis without coordinates raises OverflowError, on X first, then on Y |
| `Optimizer.Execute` | LevelingMeshOptimizer.py:44-57 | the host's list becomes `Run`'s result in place; on an exception it is untouched; indices other than 1 never change |
| `Optimizer.RunIdempotent` | LevelingMeshOptimizer.py:44-57 | running the script on its own output changes nothing more |
| `Optimizer.RunRewritesProbeLines` | LevelingMeshOptimizer.py:55 | in the start block, each G29 line becomes the command built from the layer's bounds and grid; the other lines and the line count are kept |
| `Optimizer.NoXCoordinateAborts` | LevelingMeshOptimizer.py:49-52 | a first layer with no X coordinate aborts with OverflowError on X |
| `Optimizer.NoYCoordinateAborts` | LevelingMeshOptimizer.py:49-52 | a first layer with X coordinates but no Y coordinate aborts with OverflowError on Y |
| `Optimizer.MalformedRunAborts` | LevelingMeshOptimizer.py:49 | a first layer with a run `float()` rejects aborts with ValueError for the first such run |
| `Scenarios.ParseTwelveAndAHalf` | LevelingMeshOptimizer.py:71 | `float("12.5")` is 12.5 |
| `Scenarios.ParseSevenAndAQuarter` | LevelingMeshOptimizer.py:71 | `float("7.25")` is 7.25 |
| `Scenarios.OneMoveBounds` | LevelingMeshOptimizer.py:66-73 | a block holding one move "G1 X<x> Y<y>" spans the single point (x, y) |
| `Scenarios.SingleLineBounds` | LevelingMeshOptimizer.py:66-73 | "G1 X12.5 Y7.25" gives X = [12.5, 12.5] and Y = [7.25, 7.25] |
| `Scenarios.TwoMovesBounds` | LevelingMeshOptimizer.py:66-73 | a layer of two moves spans the rectangle between their points |
| `Scenarios.FirstLayerBounds` | LevelingMeshOptimizer.py:60-75 | the layer "G1 X0 Y0" / "G1 X100 Y50" spans X = [0, 100] and Y = [0, 50] |
| `Scenarios.FillMiddleLine` | LevelingMeshOptimizer.py:103 | in a three-line start block, only the G29 line in the middle is replaced |
| `Scenarios.RunThreeBlocks` | LevelingMeshOptimizer.py:44-57 | for any first layer with a coordinate on both axes and a three-line start block whose only G29 line is the middle one, execute replaces just that line with the command built from the layer's bounds and grid, and keeps the other blocks |
| `Scenarios.EndToEnd` | LevelingMeshOptimizer.py:44-57 | for that layer, the G29 line of a three-line start block becomes the command with bounds 0, 100, 0, 50 and grid 8 x 4; the header and the layer are kept |

## Left out

- `getSettingDataString` (the JSON settings description for the host's UI) has no behaviour and is not modelled. The settings it declares, including the unused `spacing`, are never read by the code.
- The `Script` base class and the host application that supplies and receives the blocks are not part of this model.
- `%.3f` rendering of the four bounds is not modelled. `Optimizer.Run` and `Optimizer.Execute` take it as a parameter `fixed3: real -> string`. The lemmas that need a single-line command require its output to have no newline.
- Floating point: coordinates are exact reals. This leaves out binary rounding of `float()`, of `width * 0.08` (so a product just below a whole number may truncate differently) and of the `min`/`max` comparisons. It also leaves out `float()` returning `inf` for runs too long for a double.
- `\d` is modelled as the ASCII digits. Python's `re` on `str` also matches other Unicode decimal digits, which `float()` also accepts.
- `Numbers.ParseNumber` is `float()` only on strings of digits and dots, the only strings the scanner passes it. It rejects whitespace, signs, exponents, underscores, "inf" and "nan", which `float()` would accept.
- `re.sub` treats backslashes in the replacement as escapes. The formatted command never contains one, so the model inserts it literally.
- `CommandRewriter.ProbeCommand`: the newline-freedom of the command is stated only under the assumption on the rendered bounds, since `%.3f` is not modelled.
- `Optimizer.Execute` models the Python list as an `array<string>` updated in place. The list that `execute` returns is the same object, so it is not modelled as a separate result.
- The `if axis not in bounds: continue` branch is kept in `BoundsExtractor.Step`, but it is never taken: `Scanner.TokensWellShaped` shows the scanner yields only X and Y.
