/**
 * execute: the post-processing entry point. The host hands over the G-code as a
 * list of text blocks; block 2 (the first layer) is measured, block 1 (the start
 * G-code) is rewritten in place, and every other block is left alone.
 */
module Optimizer {
  import opened Wrappers
  import opened Lines
  import opened BoundsExtractor
  import opened GridSizer
  import opened CommandRewriter

  const StartGcode: nat := 1
  const FirstLayer: nat := 2

  /** The exceptions that escape execute. */
  datatype Failure =
    | IndexError                  // fewer than three blocks: data[2] does not exist
    | ValueError(text: string)    // float() rejected this run of the first layer
    | OverflowError(axis: char)   // int(-inf): the first layer has no coordinate on this axis

  /** The command fillBounds formats; fixed3 stands for `%.3f`. */
  function CommandFor(b: Bounds, gx: nat, gy: nat, fixed3: real -> string): string
    requires b.x.Range? && b.y.Range?
  {
    ProbeCommand(fixed3(b.x.lo), fixed3(b.x.hi), fixed3(b.y.lo), fixed3(b.y.hi), gx, gy)
  }

  /** The blocks execute leaves behind, or the exception it raises. */
  function Run(blocks: seq<string>, fixed3: real -> string): (r: Result<seq<string>, Failure>)
    ensures r.Ok? <==>
      && |blocks| > FirstLayer
      && BoundsOf(blocks[FirstLayer]).Ok?
      && BoundsOf(blocks[FirstLayer]).value.x.Range?
      && BoundsOf(blocks[FirstLayer]).value.y.Range?
    ensures r.Ok? ==>
      && |r.value| == |blocks|
      && forall i :: 0 <= i < |blocks| && i != StartGcode ==> r.value[i] == blocks[i]
    ensures |blocks| <= FirstLayer ==> r == Err(IndexError)
    ensures |blocks| > FirstLayer && BoundsOf(blocks[FirstLayer]).Err? ==>
      r == Err(ValueError(BoundsOf(blocks[FirstLayer]).error.text))
    ensures |blocks| > FirstLayer && BoundsOf(blocks[FirstLayer]).Ok? ==>
      var b := BoundsOf(blocks[FirstLayer]).value;
      && (b.x.Empty? ==> r == Err(OverflowError('X')))
      && (b.x.Range? && b.y.Empty? ==> r == Err(OverflowError('Y')))
  {
    if |blocks| <= FirstLayer then Err(IndexError)
    else
      match BoundsOf(blocks[FirstLayer])
      case Err(MalformedNumber(text)) => Err(ValueError(text))
      case Ok(b) =>
        match GridSize(b)
        case Err(InfiniteExtent(axis)) => Err(OverflowError(axis))
        case Ok((gx, gy)) =>
          Ok(blocks[StartGcode := FillBounds(blocks[StartGcode], CommandFor(b, gx, gy, fixed3))])
  }

  /** execute on the host's list, updated in place. On an exception the list is untouched. */
  method Execute(data: array<string>, fixed3: real -> string) returns (outcome: Outcome<Failure>)
    modifies data
    ensures Run(old(data[..]), fixed3).Ok? ==> outcome == Pass && data[..] == Run(old(data[..]), fixed3).value
    ensures Run(old(data[..]), fixed3).Err? ==>
      outcome == Fail(Run(old(data[..]), fixed3).error) && data[..] == old(data[..])
    ensures forall i :: 0 <= i < data.Length && i != StartGcode ==> data[i] == old(data[i])
  {
    if data.Length <= FirstLayer {
      return Fail(IndexError);
    }
    var found := FindBounds(data[FirstLayer]);
    if found.Err? {
      return Fail(ValueError(found.error.text));
    }
    var bounds := found.value;
    var grid := GridSize(bounds);
    if grid.Err? {
      return Fail(OverflowError(grid.error.axis));
    }
    var (gx, gy) := grid.value;
    data[StartGcode] := FillBounds(data[StartGcode], CommandFor(bounds, gx, gy, fixed3));
    return Pass;
  }

  /** Running the script a second time changes nothing more, as long as `%.3f`
      never produces a newline: the first layer, and so the command, is the same,
      and the start block already carries it. */
  lemma RunIdempotent(blocks: seq<string>, fixed3: real -> string)
    requires forall v :: '\n' !in fixed3(v)
    requires Run(blocks, fixed3).Ok?
    ensures Run(Run(blocks, fixed3).value, fixed3) == Run(blocks, fixed3)
  {
    var after := Run(blocks, fixed3).value;
    var b := BoundsOf(blocks[FirstLayer]).value;
    var (gx, gy) := GridSize(b).value;
    var cmd := CommandFor(b, gx, gy, fixed3);
    FillBoundsIdempotent(blocks[StartGcode], cmd);
    assert after[FirstLayer] == blocks[FirstLayer];
    assert after[StartGcode := FillBounds(after[StartGcode], cmd)] == after;
  }

  /** After a successful run the start block has as many lines as before; each line
      that began with G29 now holds the probe command, and every other line is kept. */
  lemma RunRewritesProbeLines(blocks: seq<string>, fixed3: real -> string)
    requires forall v :: '\n' !in fixed3(v)
    requires Run(blocks, fixed3).Ok?
    ensures
      var b := BoundsOf(blocks[FirstLayer]).value;
      var cmd := CommandFor(b, GridSize(b).value.0, GridSize(b).value.1, fixed3);
      var before, after := Split(blocks[StartGcode]), Split(Run(blocks, fixed3).value[StartGcode]);
      && |after| == |before|
      && forall i :: 0 <= i < |before| ==> after[i] == if StartsWithG29(before[i]) then cmd else before[i]
  {
    var b := BoundsOf(blocks[FirstLayer]).value;
    var (gx, gy) := GridSize(b).value;
    FillBoundsLines(blocks[StartGcode], CommandFor(b, gx, gy, fixed3));
  }

  /** A first layer without any X coordinate (no X token at all, or only "X-5",
      "x5" and the like) aborts with OverflowError instead of producing a grid;
      the start block is not rewritten. */
  lemma NoXCoordinateAborts(blocks: seq<string>, fixed3: real -> string)
    requires |blocks| > FirstLayer
    requires BoundsOf(blocks[FirstLayer]).Ok?
    requires ScannedValues(blocks[FirstLayer], 'X') == []
    ensures Run(blocks, fixed3) == Err(OverflowError('X'))
  {
    BoundsOfSpec(blocks[FirstLayer]);
  }

  /** A first layer with X coordinates but no Y coordinate aborts with OverflowError
      on Y, raised by the height once the width has been converted. */
  lemma NoYCoordinateAborts(blocks: seq<string>, fixed3: real -> string)
    requires |blocks| > FirstLayer
    requires BoundsOf(blocks[FirstLayer]).Ok?
    requires ScannedValues(blocks[FirstLayer], 'X') != []
    requires ScannedValues(blocks[FirstLayer], 'Y') == []
    ensures Run(blocks, fixed3) == Err(OverflowError('Y'))
  {
    BoundsOfSpec(blocks[FirstLayer]);
  }

  /** A run on the first layer that `float()` rejects, such as "1.2.3", aborts the
      script with ValueError naming the first such run. */
  lemma MalformedRunAborts(blocks: seq<string>, fixed3: real -> string)
    requires |blocks| > FirstLayer
    requires exists t :: t in AllTokens(Split(blocks[FirstLayer])) && !Accepted(t)
    ensures Run(blocks, fixed3).Err? && Run(blocks, fixed3).error.ValueError?
    ensures exists k ::
              && 0 <= k < |AllTokens(Split(blocks[FirstLayer]))|
              && Run(blocks, fixed3).error == ValueError(AllTokens(Split(blocks[FirstLayer]))[k].run)
              && !Accepted(AllTokens(Split(blocks[FirstLayer]))[k])
              && forall j :: 0 <= j < k ==> Accepted(AllTokens(Split(blocks[FirstLayer]))[j])
  {
    var toks := AllTokens(Split(blocks[FirstLayer]));
    BoundsOfSpec(blocks[FirstLayer]);
    assert BoundsOf(blocks[FirstLayer]).Err?;
    FoldErrSpec(toks);
  }
}
