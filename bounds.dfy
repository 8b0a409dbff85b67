/**
 * findBounds: the X and Y extent of the first layer. Every line is scanned for
 * axis tokens, each token's run is converted with `float()`, and the axis's
 * (min, max) pair is widened. A run that is not a number aborts the scan.
 */
module BoundsExtractor {
  import opened Wrappers
  import opened Numbers
  import opened Scanner
  import opened Lines

  /** The extent of one axis. Empty is the initial (+inf, -inf) pair: since
      min(+inf, v) == v and max(-inf, v) == v, the first value turns it into Range(v, v),
      and an axis without any token keeps it. */
  datatype AxisRange = Empty | Range(lo: real, hi: real)

  datatype Bounds = Bounds(x: AxisRange, y: AxisRange)

  /** `float()` raised ValueError on this run. */
  datatype ScanError = MalformedNumber(text: string)

  const NoBounds := Bounds(Empty, Empty)

  /** Python's `min(a, b)` and `max(a, b)`: the first argument unless the second beats it. */
  function Min(a: real, b: real): real { if b < a then b else a }

  function Max(a: real, b: real): real { if b > a then b else a }

  /** The two updates of an axis's pair for a new value v. */
  function Widen(r: AxisRange, v: real): AxisRange
  {
    match r
    case Empty => Range(v, v)
    case Range(lo, hi) => Range(Min(lo, v), Max(hi, v))
  }

  /** The widened pair holds the new value and the old pair, and each end is either
      the new value or the old end: the smallest interval around both. */
  lemma WidenSpec(r: AxisRange, v: real)
    ensures Widen(r, v).Range? && Widen(r, v).lo <= v <= Widen(r, v).hi
    ensures r.Range? ==> Widen(r, v).lo <= r.lo && r.hi <= Widen(r, v).hi
    ensures Widen(r, v).lo == v || (r.Range? && Widen(r, v).lo == r.lo)
    ensures Widen(r, v).hi == v || (r.Range? && Widen(r, v).hi == r.hi)
  {
  }

  /** Widening, starting from the sentinel pair, by each value in turn. */
  function RangeOf(vs: seq<real>): AxisRange
    decreases |vs|
  {
    if |vs| == 0 then Empty else Widen(RangeOf(vs[..|vs| - 1]), vs[|vs| - 1])
  }

  /** r is the tightest interval around the values vs: Empty exactly when there are
      none, otherwise lo <= hi, both are among vs and every value lies in between. */
  ghost predicate IsHull(vs: seq<real>, r: AxisRange)
  {
    && (r.Empty? <==> |vs| == 0)
    && (r.Range? ==>
          && r.lo <= r.hi && r.lo in vs && r.hi in vs
          && forall i :: 0 <= i < |vs| ==> r.lo <= vs[i] <= r.hi)
  }

  lemma {:induction false} RangeOfIsHull(vs: seq<real>)
    ensures IsHull(vs, RangeOf(vs))
    decreases |vs|
  {
    if |vs| > 0 {
      var n := |vs| - 1;
      var p, v := vs[..n], vs[n];
      RangeOfIsHull(p);
      var r := RangeOf(p);
      assert RangeOf(vs) == Widen(r, v);
      if r.Range? {
        var lo, hi := Min(r.lo, v), Max(r.hi, v);
        assert lo in vs by {
          if lo != v {
            var j :| 0 <= j < |p| && p[j] == r.lo;
            assert vs[j] == lo;
          }
        }
        assert hi in vs by {
          if hi != v {
            var j :| 0 <= j < |p| && p[j] == r.hi;
            assert vs[j] == hi;
          }
        }
        forall i | 0 <= i < |vs|
          ensures lo <= vs[i] <= hi
        {
          if i < n {
            assert vs[i] == p[i];
          }
        }
      } else {
        assert |p| == 0;
      }
    }
  }

  /** The hull depends only on the set of values: neither their order nor repetitions matter. */
  lemma HullUnique(vs: seq<real>, ws: seq<real>, r1: AxisRange, r2: AxisRange)
    requires IsHull(vs, r1) && IsHull(ws, r2)
    requires forall v :: v in vs <==> v in ws
    ensures r1 == r2
  {
  }

  /** `if axis not in bounds: continue` — never taken, since the scanner only
      yields X and Y — then `float()` and the widening of the token's axis. */
  function Step(b: Bounds, t: Token): Result<Bounds, ScanError>
  {
    if !IsAxis(t.axis) then Ok(b)
    else
      match ParseNumber(t.run)
      case None => Err(MalformedNumber(t.run))
      case Some(v) =>
        if t.axis == 'X' then Ok(b.(x := Widen(b.x, v))) else Ok(b.(y := Widen(b.y, v)))
  }

  /** One match either widens its own axis and leaves the other alone, or, when
      `float()` rejects its run, raises for that run. */
  lemma StepSpec(b: Bounds, t: Token)
    ensures Step(b, t).Ok? <==> Accepted(t)
    ensures Step(b, t).Err? ==> Step(b, t).error == MalformedNumber(t.run)
    ensures Step(b, t).Ok? && t.axis != 'X' ==> Step(b, t).value.x == b.x
    ensures Step(b, t).Ok? && t.axis != 'Y' ==> Step(b, t).value.y == b.y
  {
  }

  /** The tokens processed in order from the sentinel bounds; the first error aborts. */
  function Fold(toks: seq<Token>): Result<Bounds, ScanError>
    decreases |toks|
  {
    if |toks| == 0 then Ok(NoBounds)
    else
      match Fold(toks[..|toks| - 1])
      case Err(e) => Err(e)
      case Ok(b) => Step(b, toks[|toks| - 1])
  }

  /** All tokens of all lines, line by line. */
  function AllTokens(lines: seq<string>): seq<Token>
    decreases |lines|
  {
    if |lines| == 0 then [] else AllTokens(lines[..|lines| - 1]) + Scan(lines[|lines| - 1])
  }

  /** What findBounds returns for a text block (or the error it raises). */
  function BoundsOf(data: string): Result<Bounds, ScanError>
  {
    Fold(AllTokens(Split(data)))
  }

  /** A token `float()` does not reject (tokens of other axes are skipped before it). */
  predicate Accepted(t: Token)
  {
    !IsAxis(t.axis) || ParseNumber(t.run).Some?
  }

  /** No token of the sequence is rejected. */
  predicate AllAccepted(toks: seq<Token>)
  {
    forall k :: 0 <= k < |toks| ==> Accepted(toks[k])
  }

  /** The values a token sequence contributes to one axis, in order. */
  function AxisValues(toks: seq<Token>, axis: char): seq<real>
    decreases |toks|
  {
    if |toks| == 0 then []
    else
      var t := toks[|toks| - 1];
      AxisValues(toks[..|toks| - 1], axis)
        + (if t.axis == axis && ParseNumber(t.run).Some? then [ParseNumber(t.run).value] else [])
  }

  /** The values scanned on one axis of a text block. */
  function ScannedValues(data: string, axis: char): seq<real>
  {
    AxisValues(AllTokens(Split(data)), axis)
  }

  /** The values of p + [t] on an axis: those of p, then t's if it is a number on that axis. */
  lemma AxisValuesSnoc(p: seq<Token>, t: Token, axis: char)
    ensures AxisValues(p + [t], axis) ==
      AxisValues(p, axis) + (if t.axis == axis && ParseNumber(t.run).Some? then [ParseNumber(t.run).value] else [])
  {
    assert (p + [t])[..|p|] == p;
  }

  /** Processing tokens succeeds exactly when every token is accepted, and then each
      axis holds the widening of its values. */
  lemma {:induction false} FoldSpec(toks: seq<Token>)
    ensures Fold(toks).Ok? <==> AllAccepted(toks)
    ensures Fold(toks).Ok? ==>
      Fold(toks).value == Bounds(RangeOf(AxisValues(toks, 'X')), RangeOf(AxisValues(toks, 'Y')))
    decreases |toks|
  {
    if |toks| > 0 {
      var n := |toks| - 1;
      var p, t := toks[..n], toks[n];
      assert toks == p + [t];
      FoldSpec(p);
      if Fold(p).Ok? {
        var xs, ys := AxisValues(p, 'X'), AxisValues(p, 'Y');
        AxisValuesSnoc(p, t, 'X');
        AxisValuesSnoc(p, t, 'Y');
        if t.axis == 'X' && ParseNumber(t.run).Some? {
          assert (xs + [ParseNumber(t.run).value])[..|xs|] == xs;
          assert ys + [] == ys;
        } else if t.axis == 'Y' && ParseNumber(t.run).Some? {
          assert (ys + [ParseNumber(t.run).value])[..|ys|] == ys;
          assert xs + [] == xs;
        } else {
          assert xs + [] == xs && ys + [] == ys;
        }
      } else {
        assert !AllAccepted(p);
      }
    }
  }

  /** When processing fails, the error names the first rejected run. */
  lemma {:induction false} FoldErrSpec(toks: seq<Token>)
    requires Fold(toks).Err?
    ensures exists k ::
              && 0 <= k < |toks| && !Accepted(toks[k]) && Fold(toks).error == MalformedNumber(toks[k].run)
              && forall j :: 0 <= j < k ==> Accepted(toks[j])
    decreases |toks|
  {
    var n := |toks| - 1;
    var p, t := toks[..n], toks[n];
    if Fold(p).Err? {
      FoldErrSpec(p);
      var k :| 0 <= k < |p| && !Accepted(p[k]) && Fold(p).error == MalformedNumber(p[k].run)
        && forall j :: 0 <= j < k ==> Accepted(p[j]);
      assert toks[k] == p[k];
      assert forall j :: 0 <= j < k ==> toks[j] == p[j];
    } else {
      FoldSpec(p);
      assert forall j :: 0 <= j < n ==> toks[j] == p[j];
      assert !Accepted(toks[n]);
    }
  }

  /** One more token: the step applied to the bounds so far, unless an error was already raised. */
  lemma FoldSnoc(p: seq<Token>, t: Token)
    ensures Fold(p + [t]) == (match Fold(p) case Err(e) => Err(e) case Ok(b) => Step(b, t))
  {
    assert (p + [t])[..|p|] == p;
  }

  /** Once an error is raised, later tokens change nothing. */
  lemma {:induction false} FoldErrSticky(a: seq<Token>, b: seq<Token>)
    requires Fold(a).Err?
    ensures Fold(a + b) == Fold(a)
    decreases |b|
  {
    if |b| == 0 {
      assert a + b == a;
    } else {
      var m := |b| - 1;
      assert (a + b)[..|a + b| - 1] == a + b[..m];
      FoldErrSticky(a, b[..m]);
      assert Fold(a + b) == Fold(a + b[..m]);
    }
  }

  lemma {:induction false} AllTokensAppend(a: seq<string>, b: seq<string>)
    ensures AllTokens(a + b) == AllTokens(a) + AllTokens(b)
    decreases |b|
  {
    if |b| == 0 {
      assert a + b == a;
    } else {
      var m, ab := |b| - 1, a + b;
      assert ab[..|ab| - 1] == a + b[..m] && ab[|ab| - 1] == b[m];
      assert AllTokens(ab) == AllTokens(a + b[..m]) + Scan(b[m]);
      assert AllTokens(b) == AllTokens(b[..m]) + Scan(b[m]);
      AllTokensAppend(a, b[..m]);
      Assoc(AllTokens(a), AllTokens(b[..m]), Scan(b[m]));
    }
  }

  /** Concatenation is associative. */
  lemma Assoc<T>(a: seq<T>, b: seq<T>, c: seq<T>)
    ensures (a + b) + c == a + (b + c)
  {
  }

  /** One more line. */
  lemma AllTokensSnoc(lines: seq<string>, i: nat)
    requires i < |lines|
    ensures AllTokens(lines[..i + 1]) == AllTokens(lines[..i]) + Scan(lines[i])
  {
    assert lines[..i + 1][..i] == lines[..i];
  }

  /** One more match of the current line. */
  lemma FoldNext(done: seq<Token>, ms: seq<Token>, j: nat, b: Bounds)
    requires j < |ms| && Fold(done + ms[..j]) == Ok(b)
    ensures !IsAxis(ms[j].axis) ==> Fold(done + ms[..j + 1]) == Ok(b)
    ensures IsAxis(ms[j].axis) && ParseNumber(ms[j].run).None? ==>
      Fold(done + ms[..j + 1]) == Err(MalformedNumber(ms[j].run))
    ensures ms[j].axis == 'X' && ParseNumber(ms[j].run).Some? ==>
      Fold(done + ms[..j + 1]) == Ok(b.(x := Widen(b.x, ParseNumber(ms[j].run).value)))
    ensures ms[j].axis == 'Y' && ParseNumber(ms[j].run).Some? ==>
      Fold(done + ms[..j + 1]) == Ok(b.(y := Widen(b.y, ParseNumber(ms[j].run).value)))
  {
    assert done + ms[..j + 1] == (done + ms[..j]) + [ms[j]];
    FoldSnoc(done + ms[..j], ms[j]);
  }

  /** The nested loop of findBounds: every line, every match in it, in order. */
  method FindBounds(data: string) returns (r: Result<Bounds, ScanError>)
    ensures r == BoundsOf(data)
  {
    var lines := Split(data);
    var bounds := NoBounds;
    var i := 0;
    while i < |lines|
      invariant 0 <= i <= |lines|
      invariant Fold(AllTokens(lines[..i])) == Ok(bounds)
    {
      var matches := Scan(lines[i]);
      ghost var done := AllTokens(lines[..i]);
      var j := 0;
      assert done + matches[..j] == done;
      while j < |matches|
        invariant 0 <= j <= |matches|
        invariant Fold(done + matches[..j]) == Ok(bounds)
      {
        var m := matches[j];
        FoldNext(done, matches, j, bounds);
        if IsAxis(m.axis) {
          var value := ParseNumber(m.run);
          if value.None? {
            AbortAt(lines, i, j);
            return Err(MalformedNumber(m.run));
          }
          if m.axis == 'X' {
            bounds := bounds.(x := Widen(bounds.x, value.value));
          } else {
            bounds := bounds.(y := Widen(bounds.y, value.value));
          }
        }
        j := j + 1;
      }
      assert matches[..j] == matches;
      AllTokensSnoc(lines, i);
      i := i + 1;
    }
    assert lines[..i] == lines;
    r := Ok(bounds);
  }

  /** The tokens of a block, split around match j of line i. */
  lemma AllTokensAround(lines: seq<string>, i: nat, j: nat)
    requires i < |lines| && j < |Scan(lines[i])|
    ensures AllTokens(lines) ==
      (AllTokens(lines[..i]) + Scan(lines[i])[..j + 1]) + (Scan(lines[i])[j + 1..] + AllTokens(lines[i + 1..]))
  {
    var ms, head, tail := Scan(lines[i]), lines[..i + 1], lines[i + 1..];
    assert lines == head + tail;
    AllTokensAppend(head, tail);
    assert head[..i] == lines[..i];
    assert AllTokens(head) == AllTokens(lines[..i]) + ms;
    assert ms == ms[..j + 1] + ms[j + 1..];
    Assoc(AllTokens(lines[..i]), ms[..j + 1], ms[j + 1..]);
    Assoc(AllTokens(lines[..i]) + ms[..j + 1], ms[j + 1..], AllTokens(tail));
  }

  /** A rejected run at match j of line i decides the result of the whole block. */
  lemma AbortAt(lines: seq<string>, i: nat, j: nat)
    requires i < |lines| && j < |Scan(lines[i])|
    requires Fold(AllTokens(lines[..i]) + Scan(lines[i])[..j + 1]).Err?
    ensures Fold(AllTokens(lines)) == Fold(AllTokens(lines[..i]) + Scan(lines[i])[..j + 1])
  {
    AllTokensAround(lines, i, j);
    FoldErrSticky(AllTokens(lines[..i]) + Scan(lines[i])[..j + 1], Scan(lines[i])[j + 1..] + AllTokens(lines[i + 1..]));
  }

  /** findBounds raises exactly when some X or Y run in the block is not a number,
      and then reports the first such run. Otherwise each axis is the hull of the
      values scanned for it: Empty (the sentinel pair) when there are none, else
      min <= max, both scanned values, every scanned value in between; and since
      runs carry no sign, no bound is negative. */
  lemma BoundsOfSpec(data: string)
    ensures BoundsOf(data).Ok? <==> AllAccepted(AllTokens(Split(data)))
    ensures BoundsOf(data).Ok? ==>
      && IsHull(ScannedValues(data, 'X'), BoundsOf(data).value.x)
      && IsHull(ScannedValues(data, 'Y'), BoundsOf(data).value.y)
    ensures BoundsOf(data).Ok? && BoundsOf(data).value.x.Range? ==> BoundsOf(data).value.x.lo >= 0.0
    ensures BoundsOf(data).Ok? && BoundsOf(data).value.y.Range? ==> BoundsOf(data).value.y.lo >= 0.0
  {
    FoldSpec(AllTokens(Split(data)));
    FoldHull(AllTokens(Split(data)));
  }

  /** After a successful fold each axis is the hull of its values and starts at a non-negative value. */
  lemma FoldHull(toks: seq<Token>)
    ensures Fold(toks).Ok? ==>
      && IsHull(AxisValues(toks, 'X'), Fold(toks).value.x)
      && IsHull(AxisValues(toks, 'Y'), Fold(toks).value.y)
    ensures Fold(toks).Ok? && Fold(toks).value.x.Range? ==> Fold(toks).value.x.lo >= 0.0
    ensures Fold(toks).Ok? && Fold(toks).value.y.Range? ==> Fold(toks).value.y.lo >= 0.0
  {
    FoldSpec(toks);
    if Fold(toks).Ok? {
      var b := Fold(toks).value;
      assert b.x == RangeOf(AxisValues(toks, 'X')) && b.y == RangeOf(AxisValues(toks, 'Y'));
      AxisHull(toks, 'X');
      AxisHull(toks, 'Y');
    }
  }

  /** The widening of one axis is the hull of its values, and it starts at a non-negative value. */
  lemma AxisHull(toks: seq<Token>, axis: char)
    ensures IsHull(AxisValues(toks, axis), RangeOf(AxisValues(toks, axis)))
    ensures RangeOf(AxisValues(toks, axis)).Range? ==> RangeOf(AxisValues(toks, axis)).lo >= 0.0
  {
    var vs := AxisValues(toks, axis);
    RangeOfIsHull(vs);
    AxisValuesNonNegative(toks, axis);
    if RangeOf(vs).Range? {
      assert RangeOf(vs).lo in vs;
    }
  }

  lemma {:induction false} AxisValuesNonNegative(toks: seq<Token>, axis: char)
    ensures forall v :: v in AxisValues(toks, axis) ==> v >= 0.0
    decreases |toks|
  {
    if |toks| > 0 {
      AxisValuesNonNegative(toks[..|toks| - 1], axis);
    }
  }

  lemma {:induction false} InAllTokens(lines: seq<string>, t: Token)
    ensures t in AllTokens(lines) <==> exists l :: l in lines && t in Scan(l)
    decreases |lines|
  {
    if |lines| > 0 {
      var p, last := lines[..|lines| - 1], lines[|lines| - 1];
      InAllTokens(p, t);
      assert AllTokens(lines) == AllTokens(p) + Scan(last);
      if t in AllTokens(lines) {
        if t in Scan(last) {
          assert last in lines && t in Scan(last);
        } else {
          var l :| l in p && t in Scan(l);
          assert l in lines;
        }
      }
      if exists l :: l in lines && t in Scan(l) {
        var l :| l in lines && t in Scan(l);
        if l != last {
          assert l in p by {
            var k :| 0 <= k < |lines| && lines[k] == l;
            assert k < |lines| - 1 && p[k] == l;
          }
        }
      }
    }
  }

  /** Token t contributes value v to the axis. */
  predicate Yields(t: Token, axis: char, v: real)
  {
    t.axis == axis && ParseNumber(t.run) == Some(v)
  }

  /** A value is on an axis of p + [t] when it is on that axis of p or t yields it. */
  lemma InAxisValuesSnoc(p: seq<Token>, t: Token, axis: char, v: real)
    ensures v in AxisValues(p + [t], axis) <==> v in AxisValues(p, axis) || Yields(t, axis, v)
  {
    AxisValuesSnoc(p, t, axis);
  }

  /** The values on an axis are exactly those its tokens yield. */
  lemma {:induction false} InAxisValues(toks: seq<Token>, axis: char, v: real)
    ensures v in AxisValues(toks, axis) <==> exists t :: t in toks && Yields(t, axis, v)
    decreases |toks|
  {
    if |toks| > 0 {
      var p, t := toks[..|toks| - 1], toks[|toks| - 1];
      assert toks == p + [t];
      InAxisValues(p, axis, v);
      InAxisValuesSnoc(p, t, axis, v);
    }
  }

  /** Processing the tokens is a min/max fold: whether it succeeds, and the bounds
      when it does, depend only on which tokens occur, not on their order or how
      often they occur. Which run a failure names does depend on the order, since
      the first rejected run is reported. */
  lemma FoldIgnoresOrder(t1: seq<Token>, t2: seq<Token>)
    requires forall t :: t in t1 <==> t in t2
    ensures Fold(t1).Ok? <==> Fold(t2).Ok?
    ensures Fold(t1).Ok? ==> Fold(t1) == Fold(t2)
  {
    FoldSpec(t1);
    FoldSpec(t2);
    if Fold(t2).Ok? {
      AllAcceptedIgnoresOrder(t1, t2);
    }
    if Fold(t1).Ok? {
      AllAcceptedIgnoresOrder(t2, t1);
      AxisRangeIgnoresOrder(t1, t2, 'X');
      AxisRangeIgnoresOrder(t1, t2, 'Y');
    }
  }

  lemma AllAcceptedIgnoresOrder(t1: seq<Token>, t2: seq<Token>)
    requires forall t :: t in t1 ==> t in t2
    requires AllAccepted(t2)
    ensures AllAccepted(t1)
  {
    forall k | 0 <= k < |t1| ensures Accepted(t1[k]) {
      assert t1[k] in t2;
    }
  }

  lemma AxisRangeIgnoresOrder(t1: seq<Token>, t2: seq<Token>, axis: char)
    requires forall t :: t in t1 <==> t in t2
    ensures RangeOf(AxisValues(t1, axis)) == RangeOf(AxisValues(t2, axis))
  {
    var vs, ws := AxisValues(t1, axis), AxisValues(t2, axis);
    forall v ensures v in vs <==> v in ws {
      InAxisValues(t1, axis, v);
      InAxisValues(t2, axis, v);
    }
    RangeOfIsHull(vs);
    RangeOfIsHull(ws);
    HullUnique(vs, ws, RangeOf(vs), RangeOf(ws));
  }

  /** Reordering or repeating the lines of the block changes neither whether
      findBounds succeeds nor the bounds it returns when it does. */
  lemma BoundsIgnoreLineOrder(d1: string, d2: string)
    requires forall l :: l in Split(d1) <==> l in Split(d2)
    ensures BoundsOf(d1).Ok? <==> BoundsOf(d2).Ok?
    ensures BoundsOf(d1).Ok? ==> BoundsOf(d1) == BoundsOf(d2)
  {
    forall t ensures t in AllTokens(Split(d1)) <==> t in AllTokens(Split(d2)) {
      InAllTokens(Split(d1), t);
      InAllTokens(Split(d2), t);
    }
    FoldIgnoresOrder(AllTokens(Split(d1)), AllTokens(Split(d2)));
  }
}
