/** The line splitting that text measurement relies on: .NET's
    `string.Split('\n')`, which keeps empty pieces, so "" gives one empty
    line and a trailing '\n' gives a trailing empty line. */
module StringSplit {

  const NewLine: char := '\n'

  predicate NoNewLine(s: string) {
    NewLine !in s
  }

  /** The pieces glued back together with one '\n' between neighbours. */
  function JoinLines(lines: seq<string>): string
    requires |lines| >= 1
  {
    if |lines| == 1 then lines[0] else lines[0] + [NewLine] + JoinLines(lines[1..])
  }

  /** `s.Split('\n')`: the maximal '\n'-free pieces of `s`, in order. */
  function SplitLines(s: string): (r: seq<string>)
    ensures |r| >= 1
    ensures forall i :: 0 <= i < |r| ==> NoNewLine(r[i])
    ensures JoinLines(r) == s
  {
    if s == [] then [[]]
    else
      var rest := SplitLines(s[1..]);
      assert s == [s[0]] + s[1..];
      if s[0] == NewLine then
        assert JoinLines([[]] + rest) == [NewLine] + JoinLines(rest) by {
          assert ([[]] + rest)[1..] == rest;
        }
        [[]] + rest
      else
        var r := [[s[0]] + rest[0]] + rest[1..];
        assert JoinLines(r) == [s[0]] + JoinLines(rest) by {
          JoinFirst(s[0], rest);
        }
        r
  }

  /** Prepending a character to the first line prepends it to the join. */
  lemma {:induction false} JoinFirst(c: char, lines: seq<string>)
    requires |lines| >= 1
    ensures JoinLines([[c] + lines[0]] + lines[1..]) == [c] + JoinLines(lines)
  {
    var r := [[c] + lines[0]] + lines[1..];
    if |lines| > 1 {
      assert r[1..] == lines[1..];
      calc {
        JoinLines(r);
        ([c] + lines[0]) + [NewLine] + JoinLines(lines[1..]);
        [c] + (lines[0] + [NewLine] + JoinLines(lines[1..]));
      }
    }
  }

  /** There is one more line than there are '\n' characters. */
  lemma {:induction false} SplitLinesCount(s: string)
    ensures |SplitLines(s)| == multiset(s)[NewLine] + 1
  {
    if s != [] {
      SplitLinesCount(s[1..]);
      assert s == [s[0]] + s[1..];
      assert multiset(s) == multiset([s[0]]) + multiset(s[1..]);
    }
  }

  /** A piece without '\n' followed by a separator splits off as one line. */
  lemma {:induction false} SplitFirstLine(a: string, rest: string)
    requires NoNewLine(a)
    ensures SplitLines(a + [NewLine] + rest) == [a] + SplitLines(rest)
  {
    var s := a + [NewLine] + rest;
    if a != [] {
      assert s[0] == a[0] && a[0] != NewLine;
      assert s[1..] == a[1..] + [NewLine] + rest;
      SplitFirstLine(a[1..], rest);
      var tail := SplitLines(s[1..]);
      assert tail == [a[1..]] + SplitLines(rest);
      assert SplitLines(s) == [[a[0]] + tail[0]] + tail[1..];
      assert [a[0]] + a[1..] == a;
    } else {
      assert s == [NewLine] + rest;
      assert s[1..] == rest;
    }
  }

  /** A string without '\n' is a single line. */
  lemma {:induction false} SplitSingleLine(a: string)
    requires NoNewLine(a)
    ensures SplitLines(a) == [a]
  {
    if a != [] {
      SplitSingleLine(a[1..]);
    }
  }

  /** Splitting undoes joining: '\n'-free lines joined with '\n' split back
      into exactly those lines. */
  lemma {:induction false} SplitJoin(lines: seq<string>)
    requires |lines| >= 1
    requires forall i :: 0 <= i < |lines| ==> NoNewLine(lines[i])
    ensures SplitLines(JoinLines(lines)) == lines
  {
    if |lines| == 1 {
      SplitSingleLine(lines[0]);
    } else {
      assert NoNewLine(lines[0]);
      SplitJoin(lines[1..]);
      SplitFirstLine(lines[0], JoinLines(lines[1..]));
    }
  }
}
