/**
 * Worked examples of the pipeline: a single-line layer, the first layer of a
 * 100 x 50 model, and the start block rewritten for it.
 */
module Scenarios {
  import opened Wrappers
  import opened Lines
  import opened Numbers
  import opened Scanner
  import opened BoundsExtractor
  import opened GridSizer
  import opened CommandRewriter
  import opened Optimizer

  /** " Y<run>" holds one Y token. */
  lemma ScanSpaceY(run: string)
    requires |run| > 0 && IsNumRun(run)
    ensures Scan(" Y" + run) == [Token('Y', run)]
  {
    assert ['Y'] + run + "" == "Y" + run;
    ScanToken('Y', run, "");
    assert " Y" + run == " " + ("Y" + run);
    ScanNoAxisPrefix(" ", "Y" + run);
  }

  /** A linear move "G1 X<x> Y<y>" as a slicer writes it. */
  function MoveLine(x: string, y: string): string
  {
    "G1 X" + x + " Y" + y
  }

  /** "G1 X<x> Y<y>" holds an X token and a Y token. */
  lemma ScanMove(x: string, y: string)
    requires |x| > 0 && IsNumRun(x)
    requires |y| > 0 && IsNumRun(y)
    ensures Scan(MoveLine(x, y)) == [Token('X', x), Token('Y', y)]
  {
    ScanSpaceY(y);
    ScanToken('X', x, " Y" + y);
    assert "G1 X" + x + " Y" + y == "G1 " + (['X'] + x + (" Y" + y));
    ScanNoAxisPrefix("G1 ", ['X'] + x + (" Y" + y));
  }

  /** The value of two decimal digits. */
  lemma TwoDigits(s: string)
    requires |s| == 2 && IsDigits(s)
    ensures DigitsValue(s) == 10 * DigitValue(s[0]) + DigitValue(s[1])
  {
    var p := s[..1];
    assert p[..0] == [] && p[0] == s[0];
    assert DigitsValue(p) == DigitValue(s[0]);
  }

  lemma ParseTwelveAndAHalf()
    ensures ParseNumber("12.5") == Some(12.5)
  {
    assert "12.5" == "12" + "." + "5";
    ParseFixedPoint("12", "5");
    TwoDigits("12");
    assert FixedValue("12", "5") == 12.5;
  }

  lemma ParseSevenAndAQuarter()
    ensures ParseNumber("7.25") == Some(7.25)
  {
    assert "7.25" == "7" + "." + "25";
    ParseFixedPoint("7", "25");
    TwoDigits("25");
    assert FixedValue("7", "25") == 7.25;
  }

  lemma ParseZero()
    ensures ParseNumber("0") == Some(0.0)
  {
    ParseInteger("0");
  }

  lemma ParseHundred()
    ensures ParseNumber("100") == Some(100.0)
  {
    ParseInteger("100");
    assert DigitsValue("100") == 100 by {
      assert "100"[..2] == "10";
      assert "10"[..1] == "1";
    }
  }

  lemma ParseFifty()
    ensures ParseNumber("50") == Some(50.0)
  {
    ParseInteger("50");
    assert DigitsValue("50") == 50 by {
      assert "50"[..1] == "5";
    }
  }

  lemma AllTokensOneLine(line: string)
    ensures AllTokens([line]) == Scan(line)
  {
    assert [line][..0] == [];
    assert AllTokens([line]) == AllTokens([]) + Scan(line);
  }

  /** A block of one line is scanned as that line. */
  lemma BoundsOfOneLine(line: string)
    requires '\n' !in line
    ensures BoundsOf(line) == Fold(Scan(line))
  {
    SplitSingle(line);
    AllTokensOneLine(line);
  }

  /** One move to (x, y) from the sentinel bounds. */
  lemma FoldMove(x: string, y: string, vx: real, vy: real)
    requires ParseNumber(x) == Some(vx) && ParseNumber(y) == Some(vy)
    ensures Fold([Token('X', x), Token('Y', y)]) == Ok(Bounds(Range(vx, vx), Range(vy, vy)))
  {
    var tx, ty := Token('X', x), Token('Y', y);
    FoldSnoc([], tx);
    assert [tx, ty] == [tx] + [ty];
    FoldSnoc([tx], ty);
  }

  /** A block holding one move "G1 X<x> Y<y>" spans the single point (x, y). */
  lemma OneMoveBounds(x: string, y: string, vx: real, vy: real)
    requires |x| > 0 && IsNumRun(x) && |y| > 0 && IsNumRun(y)
    requires ParseNumber(x) == Some(vx) && ParseNumber(y) == Some(vy)
    ensures BoundsOf(MoveLine(x, y)) == Ok(Bounds(Range(vx, vx), Range(vy, vy)))
  {
    var line := MoveLine(x, y);
    MoveLineSingle(x, y);
    BoundsOfOneLine(line);
    ScanMove(x, y);
    FoldMove(x, y, vx, vy);
  }

  lemma SingleLineRuns()
    ensures IsNumRun("12.5") && IsNumRun("7.25")
  {
  }

  /** "X12.5 Y7.25" gives the box X = [12.5, 12.5], Y = [7.25, 7.25]. */
  lemma SingleLineBounds()
    ensures BoundsOf(MoveLine("12.5", "7.25")) == Ok(Bounds(Range(12.5, 12.5), Range(7.25, 7.25)))
  {
    ParseTwelveAndAHalf();
    ParseSevenAndAQuarter();
    SingleLineRuns();
    OneMoveBounds("12.5", "7.25", 12.5, 7.25);
  }

  /** A block of two lines is scanned as the first line, then the second. */
  lemma BoundsOfTwoLines(l1: string, l2: string)
    requires '\n' !in l1 && '\n' !in l2
    ensures BoundsOf(Join([l1, l2])) == Fold(Scan(l1) + Scan(l2))
  {
    SplitJoin([l1, l2]);
    assert AllTokens([l1, l2]) == AllTokens([l1]) + Scan(l2) by {
      assert [l1, l2][..1] == [l1];
    }
    AllTokensOneLine(l1);
  }

  /** Two moves widen the sentinel bounds to the rectangle between their points. */
  lemma FoldTwoMoves(x1: string, y1: string, x2: string, y2: string, vx1: real, vy1: real, vx2: real, vy2: real)
    requires ParseNumber(x1) == Some(vx1) && ParseNumber(y1) == Some(vy1)
    requires ParseNumber(x2) == Some(vx2) && ParseNumber(y2) == Some(vy2)
    ensures Fold([Token('X', x1), Token('Y', y1)] + [Token('X', x2), Token('Y', y2)])
      == Ok(Bounds(Range(Min(vx1, vx2), Max(vx1, vx2)), Range(Min(vy1, vy2), Max(vy1, vy2))))
  {
    var t1, t2, t3, t4 := Token('X', x1), Token('Y', y1), Token('X', x2), Token('Y', y2);
    assert [t1, t2] + [t3, t4] == [t1, t2, t3] + [t4];
    assert [t1, t2, t3] == [t1, t2] + [t3];
    FoldMove(x1, y1, vx1, vy1);
    FoldSnoc([t1, t2], t3);
    FoldSnoc([t1, t2, t3], t4);
  }

  /** A line of the form "G1 X<run> Y<run>" has no newline. */
  lemma MoveLineSingle(x: string, y: string)
    requires |x| > 0 && IsNumRun(x) && |y| > 0 && IsNumRun(y)
    ensures '\n' !in MoveLine(x, y)
  {
    var l := MoveLine(x, y);
    forall k | 0 <= k < |l|
      ensures l[k] != '\n'
    {
      if k >= 4 + |x| + 2 {
        assert l[k] == y[k - 4 - |x| - 2];
      } else if 4 <= k < 4 + |x| {
        assert l[k] == x[k - 4];
      }
    }
  }

  /** A first layer of two moves spans the rectangle between their points. */
  lemma TwoMovesBounds(x1: string, y1: string, x2: string, y2: string, vx1: real, vy1: real, vx2: real, vy2: real)
    requires |x1| > 0 && IsNumRun(x1) && |y1| > 0 && IsNumRun(y1) && |x2| > 0 && IsNumRun(x2) && |y2| > 0 && IsNumRun(y2)
    requires ParseNumber(x1) == Some(vx1) && ParseNumber(y1) == Some(vy1)
    requires ParseNumber(x2) == Some(vx2) && ParseNumber(y2) == Some(vy2)
    ensures BoundsOf(Join([MoveLine(x1, y1), MoveLine(x2, y2)]))
      == Ok(Bounds(Range(Min(vx1, vx2), Max(vx1, vx2)), Range(Min(vy1, vy2), Max(vy1, vy2))))
  {
    MoveLineSingle(x1, y1);
    MoveLineSingle(x2, y2);
    BoundsOfTwoLines(MoveLine(x1, y1), MoveLine(x2, y2));
    ScanMove(x1, y1);
    ScanMove(x2, y2);
    FoldTwoMoves(x1, y1, x2, y2, vx1, vy1, vx2, vy2);
  }

  /** The first layer "G1 X0 Y0", "G1 X100 Y50" spans X = [0, 100] and Y = [0, 50]. */
  lemma FirstLayerBounds()
    ensures BoundsOf(Join([MoveLine("0", "0"), MoveLine("100", "50")]))
      == Ok(Bounds(Range(0.0, 100.0), Range(0.0, 50.0)))
  {
    ParseZero();
    ParseHundred();
    ParseFifty();
    TwoMovesBounds("0", "0", "100", "50", 0.0, 0.0, 100.0, 50.0);
  }

  /** A start block of three lines whose middle one is the probe command. */
  lemma FillMiddleLine(pre: string, probe: string, post: string, cmd: string)
    requires '\n' !in pre && '\n' !in probe && '\n' !in post
    requires !StartsWithG29(pre) && StartsWithG29(probe) && !StartsWithG29(post)
    ensures FillBounds(Join([pre, probe, post]), cmd) == Join([pre, cmd, post])
  {
    SplitJoin([pre, probe, post]);
    assert RewriteLines([pre, probe, post], cmd) == [pre, cmd, post];
  }

  /** execute on a header, a three-line start block with its probe line in the
      middle, and a first layer with bounds b: only the probe line changes, into
      the command for b and its grid. */
  lemma RunThreeBlocks(header: string, pre: string, probe: string, post: string, layer: string,
                       b: Bounds, fixed3: real -> string)
    requires '\n' !in pre && '\n' !in probe && '\n' !in post
    requires !StartsWithG29(pre) && StartsWithG29(probe) && !StartsWithG29(post)
    requires BoundsOf(layer) == Ok(b) && b.x.Range? && b.y.Range?
    ensures
      var cmd := CommandFor(b, GridDimension(Extent(b.x)), GridDimension(Extent(b.y)), fixed3);
      Run([header, Join([pre, probe, post]), layer], fixed3) == Ok([header, Join([pre, cmd, post]), layer])
  {
    var cmd := CommandFor(b, GridDimension(Extent(b.x)), GridDimension(Extent(b.y)), fixed3);
    var start := Join([pre, probe, post]);
    FillMiddleLine(pre, probe, post, cmd);
    var blocks := [header, start, layer];
    assert blocks[FirstLayer] == layer;
    assert Run(blocks, fixed3) == Ok(blocks[StartGcode := FillBounds(start, cmd)]);
    assert blocks[StartGcode := Join([pre, cmd, post])] == [header, Join([pre, cmd, post]), layer];
  }

  /** For the first layer of a 100 x 50 model the script replaces the probe line of
      the start block by "G29 L0 R100 F0 B50 P0 G 8 4 ; ..." (bounds through `%.3f`)
      and keeps the other blocks. */
  lemma EndToEnd(header: string, pre: string, probe: string, post: string, fixed3: real -> string)
    requires '\n' !in pre && '\n' !in probe && '\n' !in post
    requires !StartsWithG29(pre) && StartsWithG29(probe) && !StartsWithG29(post)
    ensures
      var layer := Join([MoveLine("0", "0"), MoveLine("100", "50")]);
      var cmd := ProbeCommand(fixed3(0.0), fixed3(100.0), fixed3(0.0), fixed3(50.0), 8, 4);
      Run([header, Join([pre, probe, post]), layer], fixed3)
        == Ok([header, Join([pre, cmd, post]), layer])
  {
    var layer := Join([MoveLine("0", "0"), MoveLine("100", "50")]);
    var b := Bounds(Range(0.0, 100.0), Range(0.0, 50.0));
    FirstLayerBounds();
    GridScenarios();
    assert GridDimension(Extent(b.x)) == 8 && GridDimension(Extent(b.y)) == 4;
    RunThreeBlocks(header, pre, probe, post, layer, b, fixed3);
  }
}
