/** The multi-line lexer of lexer/lexer.go: an immutable cursor over the
    source lines, advanced by pure step functions. */
module Lexing {
  import opened Bytes
  import opened Tokens
  import opened Wrappers
  import Lines

  /** The Go `Lexer` struct: the lines, the current line index, the
      position of `ch`, the position of the next byte, and `ch` itself. */
  datatype Lexer = Lexer(lines: seq<seq<byte>>, inputLine: int, position: int, peekPosition: int, ch: byte)

  /** Shape every lexer the program builds has: a current line that exists
      and non-negative positions. */
  predicate WellFormed(l: Lexer) {
    0 <= l.inputLine < |l.lines| && 0 <= l.position && 0 <= l.peekPosition
  }

  function CurrentLine(l: Lexer): seq<byte>
    requires WellFormed(l)
  {
    l.lines[l.inputLine]
  }

  predicate OnLastLine(l: Lexer)
    requires WellFormed(l)
  {
    l.inputLine == |l.lines| - 1
  }

  /** The byte the lexer shows at index `i` of the current line: the byte
      itself inside the line, NUL past the end of the last line and SOH
      past the end of any other line. */
  function ByteAt(l: Lexer, i: nat): byte
    requires WellFormed(l)
  {
    if i < |CurrentLine(l)| then CurrentLine(l)[i]
    else if OnLastLine(l) then NUL
    else SOH
  }

  /** The invariant `readChar` establishes: the lookahead sits one past
      the current position and `ch` is the byte shown at the position. */
  predicate Valid(l: Lexer) {
    && WellFormed(l)
    && l.peekPosition == l.position + 1
    && l.ch == ByteAt(l, l.position)
  }

  /** The lexer is on its last line, past every byte of it. */
  predicate AtEnd(l: Lexer) {
    Valid(l) && OnLastLine(l) && l.position >= |CurrentLine(l)|
  }

  /** `readChar`: move to the lookahead position and load its byte, or a
      sentinel when the line is exhausted. */
  function ReadChar(l: Lexer): (r: Lexer)
    requires WellFormed(l)
    ensures Valid(r)
    ensures r.lines == l.lines && r.inputLine == l.inputLine
    ensures r.position == l.peekPosition && r.peekPosition == l.peekPosition + 1
    ensures l.peekPosition < |CurrentLine(l)| ==> r.ch == CurrentLine(l)[l.peekPosition]
    ensures l.peekPosition >= |CurrentLine(l)| && OnLastLine(l) ==> r.ch == NUL
    ensures l.peekPosition >= |CurrentLine(l)| && !OnLastLine(l) ==> r.ch == SOH
  {
    var ch :=
      if l.peekPosition >= |CurrentLine(l)| then
        (if l.inputLine == |l.lines| - 1 then NUL else SOH)
      else CurrentLine(l)[l.peekPosition];
    l.(ch := ch, position := l.peekPosition, peekPosition := l.peekPosition + 1)
  }

  /** `nextLine`: step to the start of the following line, unless this is
      the last line. The line index never leaves the range of lines. */
  function NextLine(l: Lexer): (r: Lexer)
    requires WellFormed(l)
    ensures WellFormed(r)
    ensures r.lines == l.lines && r.ch == l.ch
    ensures !OnLastLine(l) ==> r.inputLine == l.inputLine + 1 && r.position == 0 && r.peekPosition == 0
    ensures OnLastLine(l) ==> r == l
  {
    if l.inputLine < |l.lines| - 1 then
      l.(inputLine := l.inputLine + 1, peekPosition := 0, position := 0)
    else l
  }

  /** `skipWhitespace`: advance over spaces, tabs, CRs and LFs. Every
      skipped byte is whitespace of the current line and the byte it
      stops on is not. */
  function SkipWhitespace(l: Lexer): (r: Lexer)
    requires Valid(l)
    ensures Valid(r) && r.lines == l.lines && r.inputLine == l.inputLine
    ensures l.position <= r.position
    ensures !IsWhitespace(r.ch)
    ensures forall i :: l.position <= i < r.position ==> IsWhitespace(ByteAt(l, i))
    ensures !IsWhitespace(l.ch) ==> r == l
    decreases |CurrentLine(l)| - l.position
  {
    if IsWhitespace(l.ch) then
      var n := ReadChar(l);
      assert forall i: nat :: ByteAt(n, i) == ByteAt(l, i);
      SkipWhitespace(n)
    else l
  }

  /** The loop of `readCharUntil`: advance while `block` holds of `ch`. */
  function ReadWhile(l: Lexer, block: byte -> bool): (r: Lexer)
    requires Valid(l) && l.position <= |CurrentLine(l)|
    requires !block(NUL) && !block(SOH)
    ensures Valid(r) && r.lines == l.lines && r.inputLine == l.inputLine
    ensures l.position <= r.position <= |CurrentLine(l)|
    ensures forall i :: l.position <= i < r.position ==> block(CurrentLine(l)[i])
    ensures !block(r.ch)
    decreases |CurrentLine(l)| - l.position
  {
    if block(l.ch) then ReadWhile(ReadChar(l), block) else l
  }

  /** `readCharUntil`: the maximal run of `block` bytes of the current line
      that starts at the current position, and the lexer left on the first
      byte after it. The slice in the source needs the start inside the
      line; the sentinels must stop the loop. */
  function ReadCharUntil(l: Lexer, block: byte -> bool): (r: (seq<byte>, Lexer))
    requires Valid(l) && l.position <= |CurrentLine(l)|
    requires !block(NUL) && !block(SOH)
    ensures Valid(r.1) && r.1.lines == l.lines && r.1.inputLine == l.inputLine
    ensures r.1.position == l.position + |r.0| <= |CurrentLine(l)|
    ensures r.0 == CurrentLine(l)[l.position..r.1.position]
    ensures forall i :: 0 <= i < |r.0| ==> block(r.0[i])
    ensures r.1.position == |CurrentLine(l)| || !block(CurrentLine(l)[r.1.position])
  {
    var n := ReadWhile(l, block);
    var literal := CurrentLine(l)[l.position..n.position];
    assert forall i :: 0 <= i < |literal| ==> literal[i] == CurrentLine(l)[l.position + i];
    (literal, n)
  }

  /** Which bound `peekAhead` checks the lookahead position against:
      the number of lines, as lexer/lexer.go:61 is written, or the length
      of the current line, as evidently intended. */
  datatype PeekGuard = LineCountGuard | LineLengthGuard

  /** `peekAhead`: the byte after `ch`, NUL when the guard says there is
      none, and `None` when the source indexes past the end of the line
      (a run-time panic in Go). */
  function PeekAhead(l: Lexer, guard: PeekGuard): (r: Option<byte>)
    requires Valid(l)
    ensures r.None? <==> guard == LineCountGuard && |CurrentLine(l)| <= l.peekPosition < |l.lines|
    ensures guard == LineCountGuard && l.peekPosition >= |l.lines| ==> r == Some(NUL)
    ensures guard == LineLengthGuard ==> r == Some(if l.peekPosition < |CurrentLine(l)| then CurrentLine(l)[l.peekPosition] else NUL)
    ensures r.Some? && r.value != NUL ==> l.peekPosition < |CurrentLine(l)| && r.value == CurrentLine(l)[l.peekPosition]
    ensures l.peekPosition < |CurrentLine(l)| && (guard == LineLengthGuard || l.peekPosition < |l.lines|) ==>
      r == Some(CurrentLine(l)[l.peekPosition])
  {
    var bound := if guard == LineCountGuard then |l.lines| else |CurrentLine(l)|;
    if l.peekPosition >= bound then Some(NUL)
    else if l.peekPosition < |CurrentLine(l)| then Some(CurrentLine(l)[l.peekPosition])
    else None
  }

  /** The three ways `peekAheadAndReturnIf` can end: both bytes taken,
      the lookahead did not match, or the lookahead panicked. */
  datatype Lookahead = Taken(pair: seq<byte>, next: Lexer) | NotTaken | IndexPanic

  /** `peekAheadAndReturnIf`: when the next byte is `expected`, consume it
      and return the two bytes; otherwise leave the lexer alone. */
  function PeekAheadAndReturnIf(l: Lexer, expected: byte, guard: PeekGuard): (r: Lookahead)
    requires Valid(l)
    ensures r.IndexPanic? <==> PeekAhead(l, guard).None?
    ensures r.Taken? <==> PeekAhead(l, guard) == Some(expected)
    ensures r.Taken? ==> r.next == ReadChar(l) && r.pair == [l.ch, r.next.ch]
    ensures r.Taken? && expected != NUL ==> r.next.ch == expected && r.next.position == l.position + 1
  {
    match PeekAhead(l, guard)
    case None => IndexPanic
    case Some(b) =>
      if b == expected then
        var n := ReadChar(l);
        Taken([l.ch, n.ch], n)
      else NotTaken
  }

  /** A lexer loaded with the first byte of line `i`, as `New` leaves it
      for line 0 and a line advance leaves it for the next line. */
  function LineStart(lines: seq<seq<byte>>, i: int): (l: Lexer)
    requires 0 <= i < |lines|
    ensures Valid(l) && l.lines == lines && l.inputLine == i && l.position == 0
  {
    ReadChar(Lexer(lines, i, 0, 0, NUL))
  }

  /** `New`: split the input into lines and load the first byte. */
  function New(input: seq<byte>): (l: Lexer)
    ensures Valid(l) && l.lines == Lines.SplitLines(input)
    ensures l.inputLine == 0 && l.position == 0
  {
    LineStart(Lines.SplitLines(input), 0)
  }

  /** The outcome of one `NextToken` call: a token and the advanced lexer,
      or a Go run-time panic. */
  datatype Step = Emit(token: Token, next: Lexer) | Panic

  /** The kinds of the single-byte operators and delimiters. */
  function Punctuation(c: byte): (r: Option<TokenKind>)
    ensures r.Some? ==> !IsLetter(c) && !IsDigit(c) && !IsWhitespace(c) && c !in {NUL, SOH, '=', '!'}
  {
    if c == '+' then Some(Plus)
    else if c == '-' then Some(Minus)
    else if c == '/' then Some(Slash)
    else if c == '*' then Some(Asterisk)
    else if c == '<' then Some(Lt)
    else if c == '>' then Some(Gt)
    else if c == ';' then Some(Semicolon)
    else if c == ',' then Some(Comma)
    else if c == '(' then Some(LParen)
    else if c == ')' then Some(RParen)
    else if c == '{' then Some(LBrace)
    else if c == '}' then Some(RBrace)
    else None
  }

  /** The token `tok` is found verbatim in `lines` at its line and column. */
  predicate LexemeAt(lines: seq<seq<byte>>, tok: Token) {
    && 0 <= tok.line < |lines|
    && 0 <= tok.column
    && tok.column + |tok.literal| <= |lines[tok.line]|
    && lines[tok.line][tok.column..tok.column + |tok.literal|] == tok.literal
  }

  /** `r` emits a non-empty token found verbatim at the position of `s`,
      and leaves the lexer just past it on the same line. */
  predicate Emitted(s: Lexer, r: Step)
    requires Valid(s) && r.Emit?
  {
    && Valid(r.next) && r.next.lines == s.lines && r.next.inputLine == s.inputLine
    && r.token.line == s.inputLine && r.token.column == s.position
    && r.token.literal != [] && LexemeAt(s.lines, r.token)
    && r.next.position == s.position + |r.token.literal|
  }

  /** The identifier branch: the run of letters, classified by `lookup`. */
  function Word(s: Lexer, lookup: seq<byte> -> TokenKind): (r: Step)
    requires Valid(s) && IsLetter(s.ch)
    ensures r.Emit? && Emitted(s, r)
  {
    var (literal, n) := ReadCharUntil(s, IsLetter);
    Emit(Token(lookup(literal), literal, s.inputLine, s.position), n)
  }

  /** The integer branch: the run of digits. */
  function Number(s: Lexer): (r: Step)
    requires Valid(s) && IsDigit(s.ch)
    ensures r.Emit? && Emitted(s, r)
  {
    var (literal, n) := ReadCharUntil(s, IsDigit);
    Emit(Token(Int, literal, s.inputLine, s.position), n)
  }

  /** A one-byte token of the given kind. */
  function OneByte(s: Lexer, kind: TokenKind): (r: Step)
    requires Valid(s) && s.ch != NUL && s.ch != SOH
    ensures r.Emit? && Emitted(s, r)
  {
    Emit(Token(kind, [s.ch], s.inputLine, s.position), ReadChar(s))
  }

  /** The `=`/`!` branch: a two-byte operator when the lookahead is `=`,
      otherwise the one-byte operator. */
  function TwoByteOperator(s: Lexer, guard: PeekGuard, pairKind: TokenKind, singleKind: TokenKind): (r: Step)
    requires Valid(s) && s.position < |CurrentLine(s)|
    ensures r.Emit? ==> Emitted(s, r)
    ensures guard == LineLengthGuard ==> r.Emit?
  {
    match PeekAheadAndReturnIf(s, '=', guard)
    case IndexPanic => Panic
    case Taken(pair, n) => Emit(Token(pairKind, pair, s.inputLine, s.position), ReadChar(n))
    case NotTaken => Emit(Token(singleKind, [s.ch], s.inputLine, s.position), ReadChar(s))
  }

  /** `NextToken`: skip whitespace, stamp the position, and emit the token
      that starts there. At the end of a non-final line it moves to the next
      line and tries again; `lookup` classifies identifiers (the keyword
      table lives outside this model). */
  function NextToken(l: Lexer, guard: PeekGuard, lookup: seq<byte> -> TokenKind): (r: Step)
    requires Valid(l)
    ensures r.Emit? ==> Valid(r.next) && r.next.lines == l.lines
    ensures r.Emit? ==> l.inputLine <= r.token.line == r.next.inputLine
    ensures r.Emit? && SkipWhitespace(l).ch != SOH ==>
      r.token.line == l.inputLine && r.token.column == SkipWhitespace(l).position
    ensures r.Emit? && r.token.literal != [] ==>
      LexemeAt(l.lines, r.token) && r.next.position == r.token.column + |r.token.literal|
    ensures r.Emit? && r.token.literal == [] ==>
      r.token.kind == Eof && r.next.position == r.token.column + 1
    ensures guard == LineLengthGuard ==> r.Emit?
    decreases |l.lines| - l.inputLine, |CurrentLine(l)| - l.position
  {
    var s := SkipWhitespace(l);
    if s.ch == '=' then TwoByteOperator(s, guard, Eq, Assign)
    else if s.ch == '!' then TwoByteOperator(s, guard, NotEq, Bang)
    else if s.ch == SOH then NextToken(ReadChar(NextLine(s)), guard, lookup)
    else if s.ch == NUL then Emit(Token(Eof, [], s.inputLine, s.position), ReadChar(s))
    else if IsLetter(s.ch) then Word(s, lookup)
    else if IsDigit(s.ch) then Number(s)
    else
      var kind := match Punctuation(s.ch) case Some(k) => k case None => Illegal;
      OneByte(s, kind)
  }

  /** The first `n` tokens the lexer produces from `l`, or `None` when it
      panics before producing them. */
  function Run(l: Lexer, guard: PeekGuard, lookup: seq<byte> -> TokenKind, n: nat): (r: Option<seq<Token>>)
    requires Valid(l)
    ensures r.Some? ==> |r.value| == n
    ensures guard == LineLengthGuard ==> r.Some?
    ensures n > 0 && r.Some? ==>
      NextToken(l, guard, lookup).Emit? && r.value[0] == NextToken(l, guard, lookup).token
    decreases n
  {
    if n == 0 then Some([])
    else
      match NextToken(l, guard, lookup)
      case Panic => None
      case Emit(t, next) =>
        match Run(next, guard, lookup, n - 1)
        case None => None
        case Some(ts) => Some([t] + ts)
  }
}
