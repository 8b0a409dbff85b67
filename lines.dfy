/**
 * Splitting a text block into lines and joining lines back together, as Python's
 * `text.split("\n")` and `"\n".join(lines)` do.
 */
module Lines {

  /** `s.split("\n")`: the pieces between newline characters; never empty, since
      even "" splits into [""], and a trailing newline yields a trailing "". */
  function Split(s: string): (r: seq<string>)
    ensures |r| >= 1
    ensures forall i :: 0 <= i < |r| ==> '\n' !in r[i]
    decreases |s|
  {
    if |s| == 0 then [""]
    else
      var rest := Split(s[1..]);
      if s[0] == '\n' then [""] + rest
      else [[s[0]] + rest[0]] + rest[1..]
  }

  /** `"\n".join(lines)`. */
  function Join(lines: seq<string>): string
    decreases |lines|
  {
    if |lines| == 0 then ""
    else if |lines| == 1 then lines[0]
    else lines[0] + "\n" + Join(lines[1..])
  }

  /** Joining the pieces of a split gives back the text. */
  lemma {:induction false} JoinSplit(s: string)
    ensures Join(Split(s)) == s
    decreases |s|
  {
    if |s| > 0 {
      var rest := Split(s[1..]);
      JoinSplit(s[1..]);
      if s[0] == '\n' {
        assert ([""] + rest)[1..] == rest;
      } else if |rest| > 1 {
        assert ([[s[0]] + rest[0]] + rest[1..])[1..] == rest[1..];
      }
    }
  }

  /** A text without newlines is a single line. */
  lemma {:induction false} SplitSingle(a: string)
    requires '\n' !in a
    ensures Split(a) == [a]
    decreases |a|
  {
    if |a| > 0 {
      assert a[0] != '\n' && '\n' !in a[1..] by {
        assert a[0] in a;
        forall c | c in a[1..] ensures c in a { }
      }
      SplitSingle(a[1..]);
      assert [a[0]] + a[1..] == a;
    }
  }

  /** A newline-free first line followed by a newline is split off as the first piece. */
  lemma {:induction false} SplitFirstLine(a: string, t: string)
    requires '\n' !in a
    ensures Split(a + "\n" + t) == [a] + Split(t)
    decreases |a|
  {
    var s := a + "\n" + t;
    if |a| == 0 {
      assert s[1..] == t;
    } else {
      assert s[1..] == a[1..] + "\n" + t;
      SplitFirstLine(a[1..], t);
      assert [s[0]] + a[1..] == a;
    }
  }

  /** Splitting newline-free lines after joining them gives back the lines. */
  lemma {:induction false} SplitJoin(lines: seq<string>)
    requires |lines| >= 1
    requires forall i :: 0 <= i < |lines| ==> '\n' !in lines[i]
    ensures Split(Join(lines)) == lines
    decreases |lines|
  {
    if |lines| == 1 {
      SplitSingle(lines[0]);
    } else {
      SplitJoin(lines[1..]);
      SplitFirstLine(lines[0], Join(lines[1..]));
      assert [lines[0]] + lines[1..] == lines;
    }
  }
}
