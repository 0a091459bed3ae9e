/** Properties of the lexer: how each kind of token is formed, what a line
    break does, the end of the stream, and worked inputs. */
module LexerLaws {
  import opened Bytes
  import opened Tokens
  import opened Wrappers
  import opened Lexing

  /** `literal` is the longest run of `cls` bytes of `line` starting at
      `start`. */
  predicate MaximalRun(line: seq<byte>, start: int, literal: seq<byte>, cls: byte -> bool) {
    && 0 <= start
    && start + |literal| <= |line|
    && literal == line[start..start + |literal|]
    && (forall i :: 0 <= i < |literal| ==> cls(literal[i]))
    && (start + |literal| == |line| || !cls(line[start + |literal|]))
  }

  /** A line break emits nothing: at the end of a line that is not the last,
      the next token is the first token of the following line, and it
      carries a greater line number. */
  lemma LineBreakEmitsNothing(l: Lexer, guard: PeekGuard, lookup: seq<byte> -> TokenKind)
    requires Valid(l) && !OnLastLine(l) && SkipWhitespace(l).ch == SOH
    ensures NextToken(l, guard, lookup) == NextToken(LineStart(l.lines, l.inputLine + 1), guard, lookup)
    ensures NextToken(l, guard, lookup).Emit? ==> NextToken(l, guard, lookup).token.line > l.inputLine
  {
    var s := SkipWhitespace(l);
    assert ReadChar(NextLine(s)) == LineStart(l.lines, l.inputLine + 1);
  }

  /** An identifier is the maximal run of letters at the token's column,
      classified by the keyword lookup; the lexer stops on the byte after
      it without reading further. */
  lemma WordIsMaximalRun(l: Lexer, guard: PeekGuard, lookup: seq<byte> -> TokenKind)
    requires Valid(l) && IsLetter(SkipWhitespace(l).ch)
    ensures var s := SkipWhitespace(l);
            var r := NextToken(l, guard, lookup);
            && r.Emit?
            && r.token.kind == lookup(r.token.literal)
            && r.token.line == s.inputLine && r.token.column == s.position
            && |r.token.literal| > 0
            && MaximalRun(CurrentLine(s), s.position, r.token.literal, IsLetter)
            && r.next.inputLine == s.inputLine && r.next.position == s.position + |r.token.literal|
  {
  }

  /** An integer literal is the maximal run of digits at the token's column. */
  lemma NumberIsMaximalRun(l: Lexer, guard: PeekGuard, lookup: seq<byte> -> TokenKind)
    requires Valid(l) && IsDigit(SkipWhitespace(l).ch)
    ensures var s := SkipWhitespace(l);
            var r := NextToken(l, guard, lookup);
            && r.Emit?
            && r.token.kind == Int
            && r.token.line == s.inputLine && r.token.column == s.position
            && |r.token.literal| > 0
            && MaximalRun(CurrentLine(s), s.position, r.token.literal, IsDigit)
            && r.next.inputLine == s.inputLine && r.next.position == s.position + |r.token.literal|
  {
  }

  /** `=` and `!`: a two-byte `==`/`!=` exactly when the lookahead answers
      `=`, the one-byte operator when it answers anything else, and a panic
      when the lookahead indexes past the line. */
  lemma TwoByteOperators(l: Lexer, guard: PeekGuard, lookup: seq<byte> -> TokenKind)
    requires Valid(l) && (SkipWhitespace(l).ch == '=' || SkipWhitespace(l).ch == '!')
    ensures var s := SkipWhitespace(l);
            var r := NextToken(l, guard, lookup);
            var pairKind := if s.ch == '=' then Eq else NotEq;
            var singleKind := if s.ch == '=' then Assign else Bang;
            && (r.Panic? <==> PeekAhead(s, guard).None?)
            && (PeekAhead(s, guard) == Some('=') ==>
                  r == Emit(Token(pairKind, [s.ch, '='], s.inputLine, s.position), r.next)
                  && r.next.position == s.position + 2)
            && (PeekAhead(s, guard).Some? && PeekAhead(s, guard) != Some('=') ==>
                  r == Emit(Token(singleKind, [s.ch], s.inputLine, s.position), r.next)
                  && r.next.position == s.position + 1)
  {
  }

  /** Every other byte is a one-byte token: an operator or delimiter from
      the fixed table, else `Illegal`. */
  lemma OtherByteIsOneToken(l: Lexer, guard: PeekGuard, lookup: seq<byte> -> TokenKind)
    requires Valid(l)
    requires var c := SkipWhitespace(l).ch; c !in {'=', '!', NUL, SOH} && !IsLetter(c) && !IsDigit(c)
    ensures var s := SkipWhitespace(l);
            var r := NextToken(l, guard, lookup);
            var kind := if Punctuation(s.ch).Some? then Punctuation(s.ch).value else Illegal;
            && r == Emit(Token(kind, [s.ch], s.inputLine, s.position), r.next)
            && r.next.inputLine == s.inputLine && r.next.position == s.position + 1
  {
  }

  /** Once only whitespace is left on the last line, the lexer emits an
      empty `Eof` token where the whitespace ends, under either guard, and
      stays past the end. */
  lemma EndOfInputIsSticky(l: Lexer, guard: PeekGuard, lookup: seq<byte> -> TokenKind)
    requires Valid(l) && AtEnd(SkipWhitespace(l))
    ensures var r := NextToken(l, guard, lookup);
            && r == Emit(Token(Eof, [], l.inputLine, SkipWhitespace(l).position), r.next)
            && AtEnd(r.next) && r.next.ch == NUL
  {
  }

  /** Once the end is reached, every further token is an empty `Eof` token
      on the last line. */
  lemma {:induction false} EofForever(l: Lexer, guard: PeekGuard, lookup: seq<byte> -> TokenKind, n: nat)
    requires AtEnd(l)
    ensures Run(l, guard, lookup, n).Some?
    ensures forall i :: 0 <= i < n ==>
      var t := Run(l, guard, lookup, n).value[i];
      t.kind == Eof && t.literal == [] && t.line == |l.lines| - 1
    decreases n
  {
    if n > 0 {
      EndOfInputIsSticky(l, guard, lookup);
      var next := NextToken(l, guard, lookup).next;
      EofForever(next, guard, lookup, n - 1);
    }
  }

  /** The lookahead under the code's line-count guard differs from the
      line-length guard only by answering NUL early or by panicking: inside
      both bounds the two agree, and past both they both answer NUL. */
  lemma PeekAheadGuardsAgree(l: Lexer)
    requires Valid(l)
    ensures l.peekPosition < |CurrentLine(l)| && l.peekPosition < |l.lines| ==>
      PeekAhead(l, LineCountGuard) == PeekAhead(l, LineLengthGuard) == Some(CurrentLine(l)[l.peekPosition])
    ensures l.peekPosition >= |CurrentLine(l)| && l.peekPosition >= |l.lines| ==>
      PeekAhead(l, LineCountGuard) == PeekAhead(l, LineLengthGuard) == Some(NUL)
    ensures PeekAhead(l, LineCountGuard) != PeekAhead(l, LineLengthGuard) ==>
      PeekAhead(l, LineCountGuard) == None || PeekAhead(l, LineCountGuard) == Some(NUL)
  {
  }

  /** The empty prefix of any list. */
  lemma TakeNone<T>(xs: seq<T>)
    ensures xs[..0] == []
  {
  }

  /** Taking a prefix of a list with one more element in front. */
  lemma TakeCons<T>(t: T, xs: seq<T>, n: nat)
    requires 0 < n <= |xs| + 1
    ensures ([t] + xs)[..n] == [t] + xs[..n - 1]
  {
  }

  /** One step of `Run`, stated without unfolding `NextToken`. */
  lemma RunStep(l: Lexer, guard: PeekGuard, lookup: seq<byte> -> TokenKind, m: nat, step: Step)
    requires Valid(l) && m > 0 && step == NextToken(l, guard, lookup)
    ensures step.Panic? ==> Run(l, guard, lookup, m) == None
    ensures step.Emit? && Run(step.next, guard, lookup, m - 1).None? ==> Run(l, guard, lookup, m) == None
    ensures step.Emit? && Run(step.next, guard, lookup, m - 1).Some? ==>
      Run(l, guard, lookup, m) == Some([step.token] + Run(step.next, guard, lookup, m - 1).value)
  {
  }

  /** Running one step further extends the token list: the first `n`
      tokens of a longer run are the run of `n`. */
  lemma {:induction false} RunPrefix(l: Lexer, guard: PeekGuard, lookup: seq<byte> -> TokenKind, n: nat)
    requires Valid(l)
    ensures Run(l, guard, lookup, n + 1).Some? ==>
      Run(l, guard, lookup, n) == Some(Run(l, guard, lookup, n + 1).value[..n])
    decreases n
  {
    var step := NextToken(l, guard, lookup);
    RunStep(l, guard, lookup, n + 1, step);
    if step.Emit? && Run(step.next, guard, lookup, n).Some? {
      var longer := Run(step.next, guard, lookup, n).value;
      if n == 0 {
        TakeNone([step.token] + longer);
      } else {
        RunStep(l, guard, lookup, n, step);
        RunPrefix(step.next, guard, lookup, n - 1);
        TakeCons(step.token, longer, n);
      }
    }
  }

  /** A run that panics stays panicked when asked for more tokens. */
  lemma {:induction false} PanicPersists(l: Lexer, guard: PeekGuard, lookup: seq<byte> -> TokenKind, n: nat)
    requires Valid(l)
    ensures Run(l, guard, lookup, n).None? ==> Run(l, guard, lookup, n + 1).None?
    decreases n
  {
    if n > 0 {
      var step := NextToken(l, guard, lookup);
      if step.Emit? {
        PanicPersists(step.next, guard, lookup, n - 1);
      }
    }
  }
}
