/**
 * fillBounds: `re.sub(r"^G29.*$", new_cmd, data, flags=re.MULTILINE)`. With
 * MULTILINE, `^` and `$` match at line starts and ends and `.` never crosses a
 * newline, so every line whose first three characters are "G29" is replaced as a
 * whole (a trailing carriage return included) and every other line is kept.
 */
module CommandRewriter {
  import opened Lines
  import Numbers

  /** The anchored prefix test of `^G29`: case-sensitive and positional, so
      ";G29", " G29" and "g29" do not match while "G29;disabled" and "G290" do. */
  predicate StartsWithG29(line: string)
  {
    |line| >= 3 && line[..3] == "G29"
  }

  /** The substitution applied line by line. */
  function RewriteLines(lines: seq<string>, cmd: string): (r: seq<string>)
    ensures |r| == |lines|
    ensures forall i :: 0 <= i < |lines| ==>
      r[i] == if StartsWithG29(lines[i]) then cmd else lines[i]
    decreases |lines|
  {
    if |lines| == 0 then []
    else [if StartsWithG29(lines[0]) then cmd else lines[0]] + RewriteLines(lines[1..], cmd)
  }

  /** fillBounds on a text block, given the command line it formats. */
  function FillBounds(text: string, cmd: string): string
  {
    Join(RewriteLines(Split(text), cmd))
  }

  /** The formatted command `G29 L.. R.. F.. B.. P0 G gx gy ; Dynamic UBL Grid with
      Custom Settings`, from the `%.3f` renderings of the four bounds and the two
      grid sizes rendered by `%d`. */
  function ProbeCommand(left: string, right: string, front: string, back: string, gx: nat, gy: nat): (c: string)
    ensures StartsWithG29(c)
    ensures '\n' !in left && '\n' !in right && '\n' !in front && '\n' !in back ==> '\n' !in c
  {
    var bounds := " L" + left + " R" + right + " F" + front + " B" + back;
    var grid := " P0 G " + Numbers.Decimal(gx) + " " + Numbers.Decimal(gy);
    var c := "G29" + bounds + grid + " ; Dynamic UBL Grid with Custom Settings";
    assert c[..3] == "G29";
    c
  }

  /** With a single-line command the result has the same number of lines as the
      input: the probe lines are replaced by the command, the others are untouched. */
  lemma FillBoundsLines(text: string, cmd: string)
    requires '\n' !in cmd
    ensures Split(FillBounds(text, cmd)) == RewriteLines(Split(text), cmd)
    ensures |Split(FillBounds(text, cmd))| == |Split(text)|
  {
    var ls := RewriteLines(Split(text), cmd);
    SplitJoin(ls);
  }

  /** A block without a line starting with G29 is returned verbatim; no command is inserted. */
  lemma FillBoundsWithoutProbe(text: string, cmd: string)
    requires forall i :: 0 <= i < |Split(text)| ==> !StartsWithG29(Split(text)[i])
    ensures FillBounds(text, cmd) == text
  {
    assert RewriteLines(Split(text), cmd) == Split(text);
    JoinSplit(text);
  }

  /** Rewriting twice with the same command is rewriting once: the command itself
      starts with G29 and stays on one line. */
  lemma FillBoundsIdempotent(text: string, cmd: string)
    requires StartsWithG29(cmd) && '\n' !in cmd
    ensures FillBounds(FillBounds(text, cmd), cmd) == FillBounds(text, cmd)
  {
    var ls, once := RewriteLines(Split(text), cmd), FillBounds(text, cmd);
    FillBoundsLines(text, cmd);
    assert Split(once) == ls;
    RewriteLinesTwice(Split(text), cmd);
    assert FillBounds(once, cmd) == Join(RewriteLines(ls, cmd));
  }

  /** The line-wise substitution is a fixpoint once the command itself matches. */
  lemma RewriteLinesTwice(lines: seq<string>, cmd: string)
    requires StartsWithG29(cmd)
    ensures RewriteLines(RewriteLines(lines, cmd), cmd) == RewriteLines(lines, cmd)
  {
    var once := RewriteLines(lines, cmd);
    var twice := RewriteLines(once, cmd);
    assert |twice| == |once|;
    forall i | 0 <= i < |once|
      ensures twice[i] == once[i]
    {
    }
  }

  /** A commented-out probe line such as ";G29 P1" (or one indented by a space)
      is not matched by `^G29` and comes through unchanged. */
  lemma CommentedProbeKept(text: string, cmd: string, i: nat)
    requires '\n' !in cmd
    requires i < |Split(text)| && |Split(text)[i]| > 0 && (Split(text)[i][0] == ';' || Split(text)[i][0] == ' ')
    ensures i < |Split(FillBounds(text, cmd))| && Split(FillBounds(text, cmd))[i] == Split(text)[i]
  {
    var line := Split(text)[i];
    assert !StartsWithG29(line) by {
      if |line| >= 3 {
        assert line[..3][0] == line[0];
      }
    }
    FillBoundsLines(text, cmd);
    assert RewriteLines(Split(text), cmd)[i] == line;
  }
}
