/**
 * The coordinate scanner of findBounds: `re.findall(r"([XY])([\d.]+)", line)`,
 * written out over character positions. It is case-sensitive and accepts no
 * sign, so "x5", "Z5" and "X-5" contribute nothing.
 */
module Scanner {
  import Numbers

  predicate IsAxis(c: char) { c == 'X' || c == 'Y' }

  /** `[\d.]`, with `\d` taken as the ASCII digits. */
  predicate IsNumChar(c: char) { Numbers.IsDigit(c) || c == '.' }

  /** Every character of t is a digit or a dot. */
  predicate IsNumRun(t: string) { forall k :: 0 <= k < |t| ==> IsNumChar(t[k]) }

  /** One match of the pattern: the axis letter and the digit-and-dot run after it. */
  datatype Token = Token(axis: char, run: string)

  /** Where the digit-and-dot run of s starting at j ends: the greedy `[\d.]+`
      takes every such character and stops at the first other one. */
  function RunEnd(s: string, j: nat): (e: nat)
    requires j <= |s|
    ensures j <= e <= |s|
    ensures e == |s| || !IsNumChar(s[e])
    decreases |s| - j
  {
    if j == |s| || !IsNumChar(s[j]) then j else RunEnd(s, j + 1)
  }

  /** Everything the run takes is a digit or a dot. */
  lemma {:induction false} RunEndChars(s: string, j: nat)
    requires j <= |s|
    ensures forall k :: j <= k < RunEnd(s, j) ==> IsNumChar(s[k])
    decreases |s| - j
  {
    if j < |s| && IsNumChar(s[j]) {
      RunEndChars(s, j + 1);
    }
  }

  /** The digit-and-dot run of s starting at j, character by character. */
  function RunFrom(s: string, j: nat): string
    requires j <= |s|
    decreases |s| - j
  {
    if j == |s| || !IsNumChar(s[j]) then [] else [s[j]] + RunFrom(s, j + 1)
  }

  /** The run is the stretch of s from j to where the run ends. */
  lemma {:induction false} RunFromSlice(s: string, j: nat)
    requires j <= |s|
    ensures RunFrom(s, j) == s[j..RunEnd(s, j)]
    decreases |s| - j
  {
    if j < |s| && IsNumChar(s[j]) {
      RunFromSlice(s, j + 1);
      assert s[j..RunEnd(s, j)] == [s[j]] + s[j + 1..RunEnd(s, j + 1)];
    }
  }

  /** findall from position i: try a match there; after a match resume right
      after it, otherwise advance by one character. */
  function ScanFrom(s: string, i: nat): seq<Token>
    requires i <= |s|
    decreases |s| - i
  {
    if i + 1 >= |s| then []
    else if IsAxis(s[i]) && IsNumChar(s[i + 1]) then
      [Token(s[i], RunFrom(s, i + 1))] + ScanFrom(s, RunEnd(s, i + 1))
    else ScanFrom(s, i + 1)
  }

  /** `re.findall(r"([XY])([\d.]+)", s)`. */
  function Scan(s: string): seq<Token>
  {
    ScanFrom(s, 0)
  }

  /** Reference reading of the pattern: position i starts a match exactly when an
      axis letter there is immediately followed by a digit or a dot; the match
      takes the whole run after it. */
  function MatchAt(s: string, i: nat): seq<Token>
    requires i < |s|
  {
    if i + 1 < |s| && IsAxis(s[i]) && IsNumChar(s[i + 1]) then
      [Token(s[i], s[i + 1..RunEnd(s, i + 1)])]
    else []
  }

  /** The matches starting at positions i, i + 1, ... of s, in order. */
  function MatchesFrom(s: string, i: nat): seq<Token>
    requires i <= |s|
    decreases |s| - i
  {
    if i == |s| then [] else MatchAt(s, i) + MatchesFrom(s, i + 1)
  }

  /** Positions inside a digit-and-dot run start no match. */
  lemma {:induction false} SkipRun(s: string, j: nat, e: nat)
    requires j <= e <= |s|
    requires forall k :: j <= k < e ==> IsNumChar(s[k])
    ensures MatchesFrom(s, j) == MatchesFrom(s, e)
    decreases e - j
  {
    if j < e {
      assert MatchAt(s, j) == [];
      SkipRun(s, j + 1, e);
    }
  }

  /** At a match, findall takes the token and resumes after its run. */
  lemma ScanFromMatch(s: string, i: nat)
    requires i + 1 < |s| && IsAxis(s[i]) && IsNumChar(s[i + 1])
    ensures ScanFrom(s, i) == [Token(s[i], RunFrom(s, i + 1))] + ScanFrom(s, RunEnd(s, i + 1))
  {
  }

  /** At a match, the reference takes the token and finds nothing inside its run. */
  lemma MatchesFromMatch(s: string, i: nat)
    requires i + 1 < |s| && IsAxis(s[i]) && IsNumChar(s[i + 1])
    ensures MatchesFrom(s, i) == [Token(s[i], RunFrom(s, i + 1))] + MatchesFrom(s, RunEnd(s, i + 1))
  {
    var e := RunEnd(s, i + 1);
    RunFromSlice(s, i + 1);
    assert MatchesFrom(s, i) == MatchAt(s, i) + MatchesFrom(s, i + 1);
    RunEndChars(s, i + 1);
    SkipRun(s, i + 1, e);
  }

  /** Where no match starts, both advance by one character. */
  lemma NoMatchHere(s: string, i: nat)
    requires i + 1 < |s| && !(IsAxis(s[i]) && IsNumChar(s[i + 1]))
    ensures ScanFrom(s, i) == ScanFrom(s, i + 1)
    ensures MatchesFrom(s, i) == MatchesFrom(s, i + 1)
  {
    assert MatchAt(s, i) == [];
  }

  lemma {:induction false} ScanFromReference(s: string, i: nat)
    requires i <= |s|
    ensures ScanFrom(s, i) == MatchesFrom(s, i)
    decreases |s| - i
  {
    if i + 1 >= |s| {
      if i < |s| {
        assert MatchAt(s, i) == [];
      }
    } else if IsAxis(s[i]) && IsNumChar(s[i + 1]) {
      ScanFromMatch(s, i);
      MatchesFromMatch(s, i);
      ScanFromReference(s, RunEnd(s, i + 1));
    } else {
      NoMatchHere(s, i);
      ScanFromReference(s, i + 1);
    }
  }

  /** The scanner finds exactly one token per axis letter that is immediately
      followed by a digit or a dot, in order, each with its maximal run: skipping
      past a matched run loses nothing, since a run holds no axis letter. */
  lemma ScanMatchesReference(s: string)
    ensures Scan(s) == MatchesFrom(s, 0)
  {
    ScanFromReference(s, 0);
  }

  /** No match from position i on exactly when no axis letter from i on is followed by a digit or dot. */
  lemma {:induction false} NoMatchFrom(s: string, i: nat)
    requires i <= |s|
    ensures MatchesFrom(s, i) == [] <==>
      forall j :: i <= j < |s| - 1 ==> !(IsAxis(s[j]) && IsNumChar(s[j + 1]))
    decreases |s| - i
  {
    if i < |s| {
      NoMatchFrom(s, i + 1);
    }
  }

  /** A line yields no coordinate at all exactly when no X or Y in it is
      immediately followed by a digit or a dot ("X-5", "x5", "Z5", "X" alone). */
  lemma NoTokenIff(s: string)
    ensures Scan(s) == [] <==>
      forall j :: 0 <= j < |s| - 1 ==> !(IsAxis(s[j]) && IsNumChar(s[j + 1]))
  {
    ScanMatchesReference(s);
    NoMatchFrom(s, 0);
  }

  lemma {:induction false} ScanFromWellShaped(s: string, i: nat)
    requires i <= |s|
    ensures forall k :: 0 <= k < |ScanFrom(s, i)| ==>
      IsAxis(ScanFrom(s, i)[k].axis) && |ScanFrom(s, i)[k].run| > 0 && IsNumRun(ScanFrom(s, i)[k].run)
    decreases |s| - i
  {
    if i + 1 < |s| {
      if IsAxis(s[i]) && IsNumChar(s[i + 1]) {
        var e := RunEnd(s, i + 1);
        var run := s[i + 1..e];
        RunFromSlice(s, i + 1);
        RunEndChars(s, i + 1);
        assert IsNumRun(run) by {
          forall m | 0 <= m < |run|
            ensures IsNumChar(run[m])
          {
            assert run[m] == s[i + 1 + m];
          }
        }
        ScanFromWellShaped(s, e);
      } else {
        ScanFromWellShaped(s, i + 1);
      }
    }
  }

  /** Every token is an X or Y with a non-empty run of digits and dots. */
  lemma TokensWellShaped(s: string)
    ensures forall k :: 0 <= k < |Scan(s)| ==>
      IsAxis(Scan(s)[k].axis) && |Scan(s)[k].run| > 0 && IsNumRun(Scan(s)[k].run)
  {
    ScanFromWellShaped(s, 0);
  }

  /** The run starting at j ends at e when everything in between is a digit or
      dot and the character at e is not. */
  lemma {:induction false} RunEndOf(s: string, j: nat, e: nat)
    requires j <= e <= |s|
    requires forall k :: j <= k < e ==> IsNumChar(s[k])
    requires e == |s| || !IsNumChar(s[e])
    ensures RunEnd(s, j) == e
    decreases e - j
  {
    if j < e {
      RunEndOf(s, j + 1, e);
    }
  }

  /** Text in front of s moves neither where a run inside s ends nor what it holds. */
  lemma {:induction false} ShiftRun(p: string, s: string, j: nat)
    requires j <= |s|
    ensures RunEnd(p + s, |p| + j) == |p| + RunEnd(s, j)
    ensures RunFrom(p + s, |p| + j) == RunFrom(s, j)
    decreases |s| - j
  {
    if j < |s| {
      assert (p + s)[|p| + j] == s[j];
      if IsNumChar(s[j]) {
        ShiftRun(p, s, j + 1);
      }
    }
  }

  /** A match inside s is the same match inside p + s, and scanning resumes at the same place. */
  lemma ShiftMatch(p: string, s: string, i: nat)
    requires i + 1 < |s| && IsAxis(s[i]) && IsNumChar(s[i + 1])
    ensures ScanFrom(p + s, |p| + i) ==
      [Token(s[i], RunFrom(s, i + 1))] + ScanFrom(p + s, |p| + RunEnd(s, i + 1))
  {
    var t, n := p + s, |p|;
    assert t[n + i] == s[i] && t[n + i + 1] == s[i + 1];
    ShiftRun(p, s, i + 1);
    ScanFromMatch(t, n + i);
  }

  /** Where s starts no match, neither does p + s. */
  lemma ShiftNoMatch(p: string, s: string, i: nat)
    requires i + 1 < |s| && !(IsAxis(s[i]) && IsNumChar(s[i + 1]))
    ensures ScanFrom(p + s, |p| + i) == ScanFrom(p + s, |p| + i + 1)
  {
    var t, n := p + s, |p|;
    assert t[n + i] == s[i] && t[n + i + 1] == s[i + 1];
    NoMatchHere(t, n + i);
  }

  /** Scanning the tail of p + s that starts inside s is scanning s. */
  lemma {:induction false} ScanFromShift(p: string, s: string, i: nat)
    requires i <= |s|
    ensures ScanFrom(p + s, |p| + i) == ScanFrom(s, i)
    decreases |s| - i
  {
    if i + 1 < |s| {
      if IsAxis(s[i]) && IsNumChar(s[i + 1]) {
        ShiftMatch(p, s, i);
        ScanFromMatch(s, i);
        ScanFromShift(p, s, RunEnd(s, i + 1));
      } else {
        ShiftNoMatch(p, s, i);
        NoMatchHere(s, i);
        ScanFromShift(p, s, i + 1);
      }
    }
  }

  /** Positions holding no axis letter start no match. */
  lemma {:induction false} SkipNoAxis(s: string, i: nat, j: nat)
    requires i <= j <= |s|
    requires forall k :: i <= k < j ==> !IsAxis(s[k])
    ensures ScanFrom(s, i) == ScanFrom(s, j)
    decreases j - i
  {
    if i < j {
      SkipNoAxis(s, i + 1, j);
    }
  }

  /** Text without axis letters in front of s adds no token. */
  lemma ScanNoAxisPrefix(p: string, s: string)
    requires forall k :: 0 <= k < |p| ==> !IsAxis(p[k])
    ensures Scan(p + s) == Scan(s)
  {
    var t := p + s;
    forall k | 0 <= k < |p|
      ensures !IsAxis(t[k])
    {
      assert t[k] == p[k];
    }
    SkipNoAxis(t, 0, |p|);
    ScanFromShift(p, s, 0);
  }

  /** An axis letter, its whole run, then the rest: one token, and scanning resumes after the run. */
  lemma ScanToken(a: char, run: string, s: string)
    requires IsAxis(a) && |run| > 0 && IsNumRun(run)
    requires |s| == 0 || !IsNumChar(s[0])
    ensures Scan([a] + run + s) == [Token(a, run)] + Scan(s)
  {
    var p := [a] + run;
    var t := p + s;
    var e := |p|;
    assert t[0] == a && t[1] == run[0];
    forall k | 1 <= k < e
      ensures IsNumChar(t[k])
    {
      assert t[k] == run[k - 1];
    }
    if e < |t| {
      assert t[e] == s[0];
    }
    RunEndOf(t, 1, e);
    RunFromSlice(t, 1);
    assert t[1..e] == run;
    ScanFromShift(p, s, 0);
  }
}
