/** Worked inputs for the lexer, including the two effects of the
    line-count guard in `peekAhead`. */
module LexerExamples {
  import opened Bytes
  import opened Tokens
  import opened Wrappers
  import opened Lexing
  import Lines
  import opened LexerLaws

  /** List facts kept apart from the lexer so that each proof stays small. */
  lemma Prepend1<T>(a: T)
    ensures [a] + [] == [a]
  {
  }

  lemma Prepend2<T>(a: T, b: T)
    ensures [a] + [b] == [a, b]
  {
  }

  lemma Prepend3<T>(a: T, b: T, c: T)
    ensures [a] + [b, c] == [a, b, c]
  {
  }

  lemma Prepend4<T>(a: T, b: T, c: T, d: T)
    ensures [a] + [b, c, d] == [a, b, c, d]
  {
  }

  /** One more step of `Run`: the emitted token followed by the rest. */
  lemma RunCons(l: Lexer, guard: PeekGuard, lookup: seq<byte> -> TokenKind, n: nat,
                t: Token, next: Lexer, ts: seq<Token>, us: seq<Token>)
    requires Valid(l) && n > 0
    requires NextToken(l, guard, lookup) == Emit(t, next)
    requires Run(next, guard, lookup, n - 1) == Some(ts)
    requires us == [t] + ts
    ensures Run(l, guard, lookup, n) == Some(us)
  {
  }

  /** A run of one step is the token that step emits. */
  lemma RunOne(l: Lexer, guard: PeekGuard, lookup: seq<byte> -> TokenKind, t: Token, next: Lexer)
    requires Valid(l)
    requires NextToken(l, guard, lookup) == Emit(t, next)
    ensures Run(l, guard, lookup, 1) == Some([t])
  {
    Prepend1(t);
    RunCons(l, guard, lookup, 1, t, next, [], [t]);
  }

  /** A panic on the second step makes a run of two steps fail. */
  lemma PanicOnSecond(guard: PeekGuard, lookup: seq<byte> -> TokenKind, l0: Lexer, l1: Lexer, t0: Token)
    requires Valid(l0) && Valid(l1)
    requires NextToken(l0, guard, lookup) == Emit(t0, l1)
    requires NextToken(l1, guard, lookup) == Panic
    ensures Run(l0, guard, lookup, 2) == None
  {
  }

  const OnePlusTwoText: seq<byte> := "1 + 2"

  lemma OnePlusTwoStart()
    ensures New(OnePlusTwoText) == Lexer([OnePlusTwoText], 0, 0, 1, '1')
  {
    Lines.OneLine(OnePlusTwoText);
  }

  lemma OnePlusTwoFirst(lookup: seq<byte> -> TokenKind)
    ensures NextToken(Lexer([OnePlusTwoText], 0, 0, 1, '1'), LineCountGuard, lookup)
         == Emit(Token(Int, "1", 0, 0), Lexer([OnePlusTwoText], 0, 1, 2, ' '))
  {
    var s := OnePlusTwoText;
    var r := ReadCharUntil(Lexer([s], 0, 0, 1, '1'), IsDigit);
    assert r.1.position == 1;
    assert r.0 == s[0..1] == "1";
  }

  lemma OnePlusTwoSecond(lookup: seq<byte> -> TokenKind)
    ensures NextToken(Lexer([OnePlusTwoText], 0, 1, 2, ' '), LineCountGuard, lookup)
         == Emit(Token(Plus, "+", 0, 2), Lexer([OnePlusTwoText], 0, 3, 4, ' '))
  {
    var s := OnePlusTwoText;
    assert SkipWhitespace(Lexer([s], 0, 1, 2, ' ')) == Lexer([s], 0, 2, 3, '+');
  }

  lemma OnePlusTwoThird(lookup: seq<byte> -> TokenKind)
    ensures NextToken(Lexer([OnePlusTwoText], 0, 3, 4, ' '), LineCountGuard, lookup)
         == Emit(Token(Int, "2", 0, 4), Lexer([OnePlusTwoText], 0, 5, 6, NUL))
  {
    var s := OnePlusTwoText;
    var s2 := Lexer([s], 0, 4, 5, '2');
    assert SkipWhitespace(Lexer([s], 0, 3, 4, ' ')) == s2;
    var r := ReadCharUntil(s2, IsDigit);
    assert r.1.position == 5;
    assert r.0 == s[4..5] == "2";
  }

  lemma OnePlusTwoEnd(lookup: seq<byte> -> TokenKind)
    ensures NextToken(Lexer([OnePlusTwoText], 0, 5, 6, NUL), LineCountGuard, lookup)
         == Emit(Token(Eof, [], 0, 5), Lexer([OnePlusTwoText], 0, 6, 7, NUL))
  {
  }

  /** `1 + 2` lexes as INT, PLUS, INT, EOF with their columns. */
  lemma OnePlusTwo(lookup: seq<byte> -> TokenKind)
    ensures Run(New("1 + 2"), LineCountGuard, lookup, 4) ==
      Some([Token(Int, "1", 0, 0), Token(Plus, "+", 0, 2), Token(Int, "2", 0, 4), Token(Eof, [], 0, 5)])
  {
    var s := OnePlusTwoText;
    var l0, l1, l2, l3, l4 :=
      Lexer([s], 0, 0, 1, '1'), Lexer([s], 0, 1, 2, ' '), Lexer([s], 0, 3, 4, ' '),
      Lexer([s], 0, 5, 6, NUL), Lexer([s], 0, 6, 7, NUL);
    var t0, t1, t2, t3 := Token(Int, "1", 0, 0), Token(Plus, "+", 0, 2), Token(Int, "2", 0, 4), Token(Eof, [], 0, 5);
    OnePlusTwoStart();
    OnePlusTwoFirst(lookup);
    OnePlusTwoSecond(lookup);
    OnePlusTwoThird(lookup);
    OnePlusTwoEnd(lookup);
    Prepend2(t2, t3);
    Prepend3(t1, t2, t3);
    Prepend4(t0, t1, t2, t3);
    RunOne(l3, LineCountGuard, lookup, t3, l4);
    RunCons(l2, LineCountGuard, lookup, 2, t2, l3, [t3], [t2, t3]);
    RunCons(l1, LineCountGuard, lookup, 3, t1, l2, [t2, t3], [t1, t2, t3]);
    RunCons(l0, LineCountGuard, lookup, 4, t0, l1, [t1, t2, t3], [t0, t1, t2, t3]);
  }

  const TwoLinesText: seq<byte> := "a\nb"

  lemma TwoLinesStart()
    ensures New(TwoLinesText) == Lexer(["a", "b"], 0, 0, 1, 'a')
  {
    var lines: seq<seq<byte>> := ["a", "b"];
    assert Lines.NoBreaks(lines);
    Lines.SplitJoin(lines);
    assert Lines.JoinLines(lines) == TwoLinesText;
  }

  lemma TwoLinesFirst(lookup: seq<byte> -> TokenKind)
    ensures NextToken(Lexer(["a", "b"], 0, 0, 1, 'a'), LineCountGuard, lookup)
         == Emit(Token(lookup("a"), "a", 0, 0), Lexer(["a", "b"], 0, 1, 2, SOH))
  {
    var l := Lexer(["a", "b"], 0, 0, 1, 'a');
    var r := ReadCharUntil(l, IsLetter);
    assert r.1.position == 1;
    assert r.0 == CurrentLine(l)[0..1] == "a";
  }

  lemma TwoLinesBreak(lookup: seq<byte> -> TokenKind)
    ensures NextToken(Lexer(["a", "b"], 0, 1, 2, SOH), LineCountGuard, lookup)
         == NextToken(Lexer(["a", "b"], 1, 0, 1, 'b'), LineCountGuard, lookup)
  {
    var l := Lexer(["a", "b"], 0, 1, 2, SOH);
    assert SkipWhitespace(l) == l;
    assert ReadChar(NextLine(l)) == Lexer(["a", "b"], 1, 0, 1, 'b');
  }

  lemma TwoLinesSecond(lookup: seq<byte> -> TokenKind)
    ensures NextToken(Lexer(["a", "b"], 1, 0, 1, 'b'), LineCountGuard, lookup)
         == Emit(Token(lookup("b"), "b", 1, 0), Lexer(["a", "b"], 1, 1, 2, NUL))
  {
    var start := Lexer(["a", "b"], 1, 0, 1, 'b');
    var r := ReadCharUntil(start, IsLetter);
    assert r.1.position == 1;
    assert r.0 == CurrentLine(start)[0..1] == "b";
  }

  /** The second token comes from line 1, with nothing emitted for the break. */
  lemma TwoLinesAcrossBreak(lookup: seq<byte> -> TokenKind)
    ensures NextToken(Lexer(["a", "b"], 0, 1, 2, SOH), LineCountGuard, lookup)
         == Emit(Token(lookup("b"), "b", 1, 0), Lexer(["a", "b"], 1, 1, 2, NUL))
  {
    TwoLinesBreak(lookup);
    TwoLinesSecond(lookup);
  }

  lemma TwoLinesEnd(lookup: seq<byte> -> TokenKind)
    ensures NextToken(Lexer(["a", "b"], 1, 1, 2, NUL), LineCountGuard, lookup)
         == Emit(Token(Eof, [], 1, 1), Lexer(["a", "b"], 1, 2, 3, NUL))
  {
  }

  /** `a` newline `b`: the identifier on the second line carries line 1,
      and the line break itself emits nothing. */
  lemma TwoLines(lookup: seq<byte> -> TokenKind)
    ensures Run(New("a\nb"), LineCountGuard, lookup, 3) ==
      Some([Token(lookup("a"), "a", 0, 0), Token(lookup("b"), "b", 1, 0), Token(Eof, [], 1, 1)])
  {
    var lines: seq<seq<byte>> := ["a", "b"];
    var l0, l1, l2, l3 :=
      Lexer(lines, 0, 0, 1, 'a'), Lexer(lines, 0, 1, 2, SOH), Lexer(lines, 1, 1, 2, NUL), Lexer(lines, 1, 2, 3, NUL);
    var t0, t1, t2 := Token(lookup("a"), "a", 0, 0), Token(lookup("b"), "b", 1, 0), Token(Eof, [], 1, 1);
    TwoLinesStart();
    TwoLinesFirst(lookup);
    TwoLinesAcrossBreak(lookup);
    TwoLinesEnd(lookup);
    Prepend2(t1, t2);
    Prepend3(t0, t1, t2);
    RunOne(l2, LineCountGuard, lookup, t2, l3);
    RunCons(l1, LineCountGuard, lookup, 2, t1, l2, [t2], [t1, t2]);
    RunCons(l0, LineCountGuard, lookup, 3, t0, l1, [t1, t2], [t0, t1, t2]);
  }

  const DoubleEqualsText: seq<byte> := "=="

  lemma DoubleEqualsStart()
    ensures New(DoubleEqualsText) == Lexer([DoubleEqualsText], 0, 0, 1, '=')
  {
    Lines.OneLine(DoubleEqualsText);
  }

  lemma DoubleEqualsEnd(guard: PeekGuard, lookup: seq<byte> -> TokenKind)
    ensures NextToken(Lexer([DoubleEqualsText], 0, 2, 3, NUL), guard, lookup)
         == Emit(Token(Eof, [], 0, 2), Lexer([DoubleEqualsText], 0, 3, 4, NUL))
  {
  }

  lemma DoubleEqualsAsWrittenFirst(lookup: seq<byte> -> TokenKind)
    ensures NextToken(Lexer([DoubleEqualsText], 0, 0, 1, '='), LineCountGuard, lookup)
         == Emit(Token(Assign, "=", 0, 0), Lexer([DoubleEqualsText], 0, 1, 2, '='))
  {
    var l := Lexer([DoubleEqualsText], 0, 0, 1, '=');
    assert SkipWhitespace(l) == l;
    assert PeekAhead(l, LineCountGuard) == Some(NUL);
    TwoByteOperators(l, LineCountGuard, lookup);
  }

  lemma DoubleEqualsAsWrittenSecond(lookup: seq<byte> -> TokenKind)
    ensures NextToken(Lexer([DoubleEqualsText], 0, 1, 2, '='), LineCountGuard, lookup)
         == Emit(Token(Assign, "=", 0, 1), Lexer([DoubleEqualsText], 0, 2, 3, NUL))
  {
    var l := Lexer([DoubleEqualsText], 0, 1, 2, '=');
    assert SkipWhitespace(l) == l;
    assert PeekAhead(l, LineCountGuard) == Some(NUL);
    TwoByteOperators(l, LineCountGuard, lookup);
  }

  /** As written, `peekAhead` compares the lookahead position with the
      number of lines, so on a one-line input it never sees the second `=`:
      `==` lexes as two ASSIGN tokens. */
  lemma DoubleEqualsOnOneLineAsWritten(lookup: seq<byte> -> TokenKind)
    ensures Run(New("=="), LineCountGuard, lookup, 3) ==
      Some([Token(Assign, "=", 0, 0), Token(Assign, "=", 0, 1), Token(Eof, [], 0, 2)])
  {
    var s := DoubleEqualsText;
    var l0, l1, l2, l3 := Lexer([s], 0, 0, 1, '='), Lexer([s], 0, 1, 2, '='), Lexer([s], 0, 2, 3, NUL), Lexer([s], 0, 3, 4, NUL);
    var t0, t1, t2 := Token(Assign, "=", 0, 0), Token(Assign, "=", 0, 1), Token(Eof, [], 0, 2);
    DoubleEqualsStart();
    DoubleEqualsAsWrittenFirst(lookup);
    DoubleEqualsAsWrittenSecond(lookup);
    DoubleEqualsEnd(LineCountGuard, lookup);
    Prepend2(t1, t2);
    Prepend3(t0, t1, t2);
    RunOne(l2, LineCountGuard, lookup, t2, l3);
    RunCons(l1, LineCountGuard, lookup, 2, t1, l2, [t2], [t1, t2]);
    RunCons(l0, LineCountGuard, lookup, 3, t0, l1, [t1, t2], [t0, t1, t2]);
  }

  lemma DoubleEqualsIntendedFirst(lookup: seq<byte> -> TokenKind)
    ensures NextToken(Lexer([DoubleEqualsText], 0, 0, 1, '='), LineLengthGuard, lookup)
         == Emit(Token(Eq, "==", 0, 0), Lexer([DoubleEqualsText], 0, 2, 3, NUL))
  {
    var l := Lexer([DoubleEqualsText], 0, 0, 1, '=');
    assert SkipWhitespace(l) == l;
    assert PeekAhead(l, LineLengthGuard) == Some('=');
    TwoByteOperators(l, LineLengthGuard, lookup);
  }

  /** With the lookahead bounded by the current line's length, `==` on one
      line is a single EQ token. */
  lemma DoubleEqualsOnOneLineIntended(lookup: seq<byte> -> TokenKind)
    ensures Run(New("=="), LineLengthGuard, lookup, 2) ==
      Some([Token(Eq, "==", 0, 0), Token(Eof, [], 0, 2)])
  {
    var s := DoubleEqualsText;
    var l0, l2, l3 := Lexer([s], 0, 0, 1, '='), Lexer([s], 0, 2, 3, NUL), Lexer([s], 0, 3, 4, NUL);
    var t0, t1 := Token(Eq, "==", 0, 0), Token(Eof, [], 0, 2);
    DoubleEqualsStart();
    DoubleEqualsIntendedFirst(lookup);
    DoubleEqualsEnd(LineLengthGuard, lookup);
    Prepend2(t0, t1);
    RunOne(l2, LineLengthGuard, lookup, t1, l3);
    RunCons(l0, LineLengthGuard, lookup, 2, t0, l2, [t1], [t0, t1]);
  }

  const TrailingEqualsText: seq<byte> := "a=\nb\nc"

  lemma TrailingEqualsStart()
    ensures New(TrailingEqualsText) == Lexer(["a=", "b", "c"], 0, 0, 1, 'a')
  {
    var lines: seq<seq<byte>> := ["a=", "b", "c"];
    assert Lines.NoBreaks(lines);
    Lines.SplitJoin(lines);
    assert Lines.JoinLines(lines) == TrailingEqualsText;
  }

  lemma TrailingEqualsFirst(lookup: seq<byte> -> TokenKind)
    ensures NextToken(Lexer(["a=", "b", "c"], 0, 0, 1, 'a'), LineCountGuard, lookup)
         == Emit(Token(lookup("a"), "a", 0, 0), Lexer(["a=", "b", "c"], 0, 1, 2, '='))
  {
    var l := Lexer(["a=", "b", "c"], 0, 0, 1, 'a');
    var r := ReadCharUntil(l, IsLetter);
    assert r.1.position == 1;
    assert r.0 == CurrentLine(l)[0..1] == "a";
  }

  lemma TrailingEqualsSecond(lookup: seq<byte> -> TokenKind)
    ensures NextToken(Lexer(["a=", "b", "c"], 0, 1, 2, '='), LineCountGuard, lookup) == Panic
  {
    var l := Lexer(["a=", "b", "c"], 0, 1, 2, '=');
    assert SkipWhitespace(l) == l;
    assert PeekAhead(l, LineCountGuard).None?;
  }

  /** As written, an `=` that ends the first of three lines makes
      `peekAhead` index one past the end of that line: the lexer panics on
      its second token. */
  lemma TrailingEqualsPanicsAsWritten(lookup: seq<byte> -> TokenKind)
    ensures Run(New("a=\nb\nc"), LineCountGuard, lookup, 2) == None
  {
    TrailingEqualsStart();
    TrailingEqualsFirst(lookup);
    TrailingEqualsSecond(lookup);
    PanicOnSecond(LineCountGuard, lookup, Lexer(["a=", "b", "c"], 0, 0, 1, 'a'), Lexer(["a=", "b", "c"], 0, 1, 2, '='),
      Token(lookup("a"), "a", 0, 0));
  }
}
