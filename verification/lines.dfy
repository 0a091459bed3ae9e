/** Splitting the source text into lines, as `strings.Split(input, "\n")`
    does, and joining them back. */
module Lines {
  import opened Bytes

  /** No line holds a line break. */
  predicate NoBreaks(lines: seq<seq<byte>>) {
    forall i :: 0 <= i < |lines| ==> NEWLINE !in lines[i]
  }

  /** Number of occurrences of `b` in `s`. */
  function Count(s: seq<byte>, b: byte): nat {
    if |s| == 0 then 0 else (if s[0] == b then 1 else 0) + Count(s[1..], b)
  }

  /** The lines glued back together with one line break between neighbours. */
  function JoinLines(lines: seq<seq<byte>>): seq<byte>
    requires |lines| > 0
  {
    if |lines| == 1 then lines[0] else lines[0] + [NEWLINE] + JoinLines(lines[1..])
  }

  /** `getLinesFromInput`: the text cut at every line break. There is
      always at least one line, and one more line than there are breaks. */
  function SplitLines(s: seq<byte>): (lines: seq<seq<byte>>)
    ensures |lines| == Count(s, NEWLINE) + 1
    ensures NoBreaks(lines)
    ensures JoinLines(lines) == s
  {
    if |s| == 0 then [[]]
    else
      var rest := SplitLines(s[1..]);
      if s[0] == NEWLINE then
        assert ([[]] + rest)[1..] == rest;
        [[]] + rest
      else
        var lines := [[s[0]] + rest[0]] + rest[1..];
        assert s == [s[0]] + s[1..];
        assert lines[1..] == rest[1..];
        if |rest| == 1 then lines
        else
          assert JoinLines(rest) == rest[0] + [NEWLINE] + JoinLines(rest[1..]);
          lines
  }

  /** Splitting text that starts with a break-free prefix `a` glues `a`
      onto the first line of the rest. */
  lemma {:induction false} SplitAfterPrefix(a: seq<byte>, t: seq<byte>)
    requires NEWLINE !in a
    ensures SplitLines(a + t) == [a + SplitLines(t)[0]] + SplitLines(t)[1..]
    decreases |a|
  {
    if |a| > 0 {
      assert (a + t)[1..] == a[1..] + t;
      SplitAfterPrefix(a[1..], t);
      var st := SplitLines(t);
      var r := SplitLines(a[1..] + t);
      assert r[0] == a[1..] + st[0] && r[1..] == st[1..];
      assert (a + t)[0] == a[0] && a[0] != NEWLINE;
      assert SplitLines(a + t) == [[a[0]] + r[0]] + r[1..];
      assert [a[0]] + (a[1..] + st[0]) == a + st[0];
    } else {
      var st := SplitLines(t);
      assert a + t == t && a + st[0] == st[0];
      assert st == [st[0]] + st[1..];
    }
  }

  /** The other half of the round trip: break-free lines survive
      joining and splitting unchanged. */
  lemma {:induction false} SplitJoin(lines: seq<seq<byte>>)
    requires |lines| > 0 && NoBreaks(lines)
    ensures SplitLines(JoinLines(lines)) == lines
    decreases |lines|
  {
    assert NEWLINE !in lines[0];
    if |lines| == 1 {
      SplitAfterPrefix(lines[0], []);
      assert lines[0] + [] == lines[0];
    } else {
      var rest := lines[1..];
      assert NoBreaks(rest) by {
        forall i | 0 <= i < |rest| ensures NEWLINE !in rest[i] {
          assert rest[i] == lines[i + 1];
        }
      }
      SplitJoin(rest);
      var t := [NEWLINE] + JoinLines(rest);
      assert lines[0] + [NEWLINE] + JoinLines(rest) == lines[0] + t;
      SplitAfterPrefix(lines[0], t);
      assert t[1..] == JoinLines(rest);
      assert SplitLines(t) == [[]] + rest;
      assert SplitLines(t)[0] == [] && SplitLines(t)[1..] == rest;
      assert lines[0] + [] == lines[0];
      assert lines == [lines[0]] + rest;
    }
  }

  /** Text without a line break is one line. */
  lemma OneLine(s: seq<byte>)
    requires NEWLINE !in s
    ensures SplitLines(s) == [s]
  {
    SplitAfterPrefix(s, []);
    assert s + [] == s;
  }
}
