/**
 * The lexer of interpreter.py (class Lexer): a cursor over the source text whose
 * position and line advance while tokens are appended.  The functions below are the
 * specification of each scanning step; class Lexer performs the same steps in place
 * and is proved to compute exactly what they describe.
 */
module Lexing {
  import opened Wrappers
  import opened Tokens
  import opened Errors
  import opened Decimal

  // ---------------------------------------------------------------------------
  // Character classes (ASCII: see README, "Left out")

  predicate IsAlpha(c: char) { 'a' <= c <= 'z' || 'A' <= c <= 'Z' }
  predicate IsAlnum(c: char) { IsDigit(c) || IsAlpha(c) }
  predicate IsSpace(c: char) { c == ' ' || c == '\t' || c == '\n' || c == '\r' }
  predicate IsQuote(c: char) { c == '"' || c == '\'' }
  predicate InNumber(c: char) { IsDigit(c) || c == '.' }
  predicate InWord(c: char) { IsAlnum(c) || c == '_' }
  predicate StartsWord(c: char) { IsAlpha(c) || c == '_' }

  /** The text of a NUMBER token: a digit, then digits and dots. */
  predicate NumberShaped(s: string)
  {
    |s| > 0 && IsDigit(s[0]) && forall i :: 0 <= i < |s| ==> InNumber(s[i])
  }

  /** Punctuation that is always a one-character token. */
  function SingleKind(c: char): Option<TokenKind>
  {
    match c
    case '+' => Some(Plus) case '-' => Some(Minus) case '*' => Some(Multiply)
    case '/' => Some(Divide) case '%' => Some(Modulo)
    case '(' => Some(LParen) case ')' => Some(RParen) case '{' => Some(LBrace)
    case '}' => Some(RBrace) case '[' => Some(LBracket) case ']' => Some(RBracket)
    case ',' => Some(Comma) case ':' => Some(Colon) case '.' => Some(Dot)
    case _ => None
  }

  /** Characters that form a two-character operator when '=' follows:
      the kind with '=' and the kind alone. */
  function PairKinds(c: char): Option<(TokenKind, TokenKind)>
  {
    match c
    case '=' => Some((Equal, Assign))
    case '!' => Some((NotEqual, Not))
    case '<' => Some((LessEqual, Less))
    case '>' => Some((GreaterEqual, Greater))
    case _ => None
  }

  /** Python's repr() of a one-character string, as used in "Unexpected character":
      the characters below U+0100 that str.isprintable() rejects (the C0 and C1
      controls, DEL, the no-break space and the soft hyphen) are written as \xhh. */
  function CharRepr(c: char): string
  {
    if c == '\'' then "\"'\""
    else if c == '\\' then "'\\\\'"
    else if c == '\n' then "'\\n'"
    else if c == '\t' then "'\\t'"
    else if c == '\r' then "'\\r'"
    else if c as int < 0x20 || 0x7f <= c as int <= 0xa0 || c as int == 0xad then
      "'\\x" + [HexDigits[c as int / 16], HexDigits[c as int % 16]] + "'"
    else "'" + [c] + "'"
  }

  const HexDigits := "0123456789abcdef"

  // ---------------------------------------------------------------------------
  // The scanning steps as functions of the text and a cursor

  /** The lexer's position and the line it has reached there. */
  datatype Cursor = Cursor(pos: nat, line: nat)

  /** A value read by a step and the cursor after it. */
  datatype Scanned<T> = Scanned(value: T, next: Cursor)

  function LexError(line: nat, message: string): Error
  {
    Error(SyntaxError, "Lexer error at line " + NatToString(line) + ": " + message)
  }

  const UnterminatedString := "Unterminated string"
  const NoneConcatenation := "can only concatenate str (not \"NoneType\") to str"
  const LineUnbound := "cannot access local variable 'line' where it is not associated with a value"

  /** The number of newlines in s. */
  function NewlineCount(s: string): nat
  {
    if |s| == 0 then 0 else NewlineCount(s[..|s| - 1]) + (if s[|s| - 1] == '\n' then 1 else 0)
  }

  /** A cursor whose line is 1 plus the newlines before its position: the lexer's
      line counter always says on which line the position lies. */
  ghost predicate Tracks(src: string, c: Cursor)
  {
    c.pos <= |src| && c.line == 1 + NewlineCount(src[..c.pos])
  }

  lemma StepTracks(src: string, c: Cursor)
    requires Tracks(src, c) && c.pos < |src|
    ensures Tracks(src, Step(src, c))
  {
    assert src[..c.pos + 1][..c.pos] == src[..c.pos];
  }

  /** advance(): one character consumed, the line counted when it is a newline. */
  function Step(src: string, c: Cursor): (r: Cursor)
    requires c.pos < |src|
    ensures r.pos == c.pos + 1
    ensures r.line == if src[c.pos] == '\n' then c.line + 1 else c.line
  {
    Cursor(c.pos + 1, if src[c.pos] == '\n' then c.line + 1 else c.line)
  }

  /** skip_whitespace(): the cursor after the run of blanks at c. */
  function SkipBlanks(src: string, c: Cursor): (r: Cursor)
    requires c.pos <= |src|
    ensures c.pos <= r.pos <= |src|
    ensures r.pos == |src| || !IsSpace(src[r.pos])
    ensures forall i :: c.pos <= i < r.pos ==> IsSpace(src[i])
    ensures r.line >= c.line
    decreases |src| - c.pos
  {
    if c.pos < |src| && IsSpace(src[c.pos]) then SkipBlanks(src, Step(src, c)) else c
  }

  /** The cursor at the newline ending the line at c, or at the end of the text. */
  function SkipToNewline(src: string, c: Cursor): (r: Cursor)
    requires c.pos <= |src|
    ensures c.pos <= r.pos <= |src| && r.line == c.line
    ensures r.pos == |src| || src[r.pos] == '\n'
    ensures forall i :: c.pos <= i < r.pos ==> src[i] != '\n'
    decreases |src| - c.pos
  {
    if c.pos < |src| && src[c.pos] != '\n' then SkipToNewline(src, Step(src, c)) else c
  }

  /** skip_comment(): from a '#', everything up to and including the next newline. */
  function SkipComment(src: string, c: Cursor): (r: Cursor)
    requires c.pos < |src| && src[c.pos] == '#'
    ensures c.pos < r.pos <= |src|
    ensures r.pos == |src| || src[r.pos - 1] == '\n'
    ensures forall i :: c.pos <= i < r.pos - 1 ==> src[i] != '\n'
    ensures r.line == if src[r.pos - 1] == '\n' then c.line + 1 else c.line
  {
    var e := SkipToNewline(src, c);
    if e.pos < |src| then Step(src, e) else e
  }

  /** What an escaped character stands for inside a string literal. */
  function Unescape(c: char): char
  {
    if c == 'n' then '\n' else if c == 't' then '\t' else if c == 'r' then '\r' else c
  }

  /** The loop of read_string(): the decoded text so far is acc; stops at the
      closing quote (returning the cursor after it) or fails. */
  function StringBody(src: string, c: Cursor, quote: char, acc: string): (r: Result<Scanned<string>, Error>)
    requires c.pos <= |src|
    ensures r.Ok? ==> c.pos < r.value.next.pos <= |src| && r.value.next.line >= c.line
    ensures r.Ok? ==> src[r.value.next.pos - 1] == quote
    decreases |src| - c.pos
  {
    if c.pos < |src| && src[c.pos] != quote then
      if src[c.pos] == '\\' then
        var c1 := Step(src, c);
        if c1.pos < |src| then
          StringBody(src, Step(src, c1), quote, acc + [Unescape(src[c1.pos])])
        else
          Err(Error(TypeError, NoneConcatenation))
      else
        StringBody(src, Step(src, c), quote, acc + [src[c.pos]])
    else if c.pos < |src| then
      Ok(Scanned(acc, Step(src, c)))
    else
      Err(LexError(c.line, UnterminatedString))
  }

  /** read_string(): c is at the opening quote. */
  function ScanString(src: string, c: Cursor): (r: Result<Scanned<string>, Error>)
    requires c.pos < |src| && IsQuote(src[c.pos])
    ensures r.Ok? ==> c.pos + 1 < r.value.next.pos <= |src| && r.value.next.line >= c.line
  {
    StringBody(src, Step(src, c), src[c.pos], "")
  }

  /** The end of the run of digits and dots at pos (read_number()). */
  function NumberEnd(src: string, pos: nat): (e: nat)
    requires pos <= |src|
    ensures pos <= e <= |src|
    ensures e == |src| || !InNumber(src[e])
    ensures forall i :: pos <= i < e ==> InNumber(src[i])
    decreases |src| - pos
  {
    if pos < |src| && InNumber(src[pos]) then NumberEnd(src, pos + 1) else pos
  }

  /** The end of the run of letters, digits and underscores at pos (read_identifier()). */
  function WordEnd(src: string, pos: nat): (e: nat)
    requires pos <= |src|
    ensures pos <= e <= |src|
    ensures e == |src| || !InWord(src[e])
    ensures forall i :: pos <= i < e ==> InWord(src[i])
    decreases |src| - pos
  {
    if pos < |src| && InWord(src[pos]) then WordEnd(src, pos + 1) else pos
  }

  /** One token of tokenize()'s dispatch, starting at c, which holds neither a blank
      nor '#'.  The token is tagged with the line at c. */
  function ScanToken(src: string, c: Cursor): (r: Result<Scanned<Token>, Error>)
    requires c.pos < |src|
    ensures r.Ok? ==> c.pos < r.value.next.pos <= |src| && r.value.next.line >= c.line
    ensures r.Ok? ==> r.value.value.kind != EOF && r.value.value.line == c.line
  {
    var ch := src[c.pos];
    if IsQuote(ch) then
      match ScanString(src, c)
      case Ok(Scanned(text, next)) => Ok(Scanned(Token(String, text, c.line), next))
      case Err(e) => Err(e)
    else if IsDigit(ch) then
      var e := NumberEnd(src, c.pos);
      Ok(Scanned(Token(Number, src[c.pos..e], c.line), Cursor(e, c.line)))
    else if StartsWord(ch) then
      var e := WordEnd(src, c.pos);
      var word := src[c.pos..e];
      Ok(Scanned(Token(WordKind(word), word, c.line), Cursor(e, c.line)))
    else if SingleKind(ch).Some? then
      Ok(Scanned(Token(SingleKind(ch).value, [ch], c.line), Cursor(c.pos + 1, c.line)))
    else if PairKinds(ch).Some? then
      if c.pos + 1 < |src| && src[c.pos + 1] == '=' then
        Ok(Scanned(Token(PairKinds(ch).value.0, [ch, '='], c.line), Cursor(c.pos + 2, c.line)))
      else
        Ok(Scanned(Token(PairKinds(ch).value.1, [ch], c.line), Cursor(c.pos + 1, c.line)))
    else
      Err(LexError(c.line, "Unexpected character: " + CharRepr(ch)))
  }

  /** The EOF token appended after the loop; `last` is the local variable `line`
      of tokenize(), bound only once a token has been started. */
  function Finish(last: Option<nat>): Result<seq<Token>, Error>
  {
    if last.Some? then Ok([Token(EOF, "", last.value)])
    else Err(Error(UnboundLocalError, LineUnbound))
  }

  /** Prefix already produced tokens to the outcome of the rest of the scan. */
  function Prepend(ts: seq<Token>, r: Result<seq<Token>, Error>): Result<seq<Token>, Error>
  {
    if r.Ok? then Ok(ts + r.value) else r
  }

  /** The main loop of tokenize() from cursor c. */
  function ScanFrom(src: string, c: Cursor, last: Option<nat>): Result<seq<Token>, Error>
    requires c.pos <= |src|
    decreases |src| - c.pos
  {
    if c.pos >= |src| then Finish(last)
    else
      var c1 := SkipBlanks(src, c);
      if c1.pos >= |src| then Finish(last)
      else if src[c1.pos] == '#' then ScanFrom(src, SkipComment(src, c1), last)
      else
        match ScanToken(src, c1)
        case Err(e) => Err(e)
        case Ok(Scanned(tok, c2)) => Prepend([tok], ScanFrom(src, c2, Some(tok.line)))
  }

  lemma PrependNothing(r: Result<seq<Token>, Error>)
    ensures Prepend([], r) == r
  {
    if r.Ok? {
      assert [] + r.value == r.value;
    }
  }

  lemma PrependAssoc(ts: seq<Token>, t: Token, r: Result<seq<Token>, Error>)
    ensures Prepend(ts, Prepend([t], r)) == Prepend(ts + [t], r)
  {
    if r.Ok? {
      assert ts + ([t] + r.value) == (ts + [t]) + r.value;
    }
  }

  lemma ScanFromAtEnd(src: string, c: Cursor, last: Option<nat>)
    requires c.pos < |src| && SkipBlanks(src, c).pos >= |src|
    ensures ScanFrom(src, c, last) == Finish(last)
  {
  }

  lemma ScanFromComment(src: string, c: Cursor, last: Option<nat>)
    requires c.pos < |src|
    requires SkipBlanks(src, c).pos < |src| && src[SkipBlanks(src, c).pos] == '#'
    ensures ScanFrom(src, c, last) == ScanFrom(src, SkipComment(src, SkipBlanks(src, c)), last)
  {
  }

  /** The token case of the loop; tok is the token read, if any. */
  lemma ScanFromToken(src: string, c: Cursor, c1: Cursor, last: Option<nat>, tok: Option<Token>)
    requires c.pos < |src| && c1 == SkipBlanks(src, c)
    requires c1.pos < |src| && src[c1.pos] != '#'
    requires tok.None? ==> ScanToken(src, c1).Err?
    requires tok.Some? ==> ScanToken(src, c1).Ok? && ScanToken(src, c1).value.value == tok.value
    ensures tok.None? ==> ScanFrom(src, c, last) == Err(ScanToken(src, c1).error)
    ensures tok.Some? ==>
      ScanFrom(src, c, last) == Prepend([tok.value], ScanFrom(src, ScanToken(src, c1).value.next, Some(c1.line)))
  {
  }

  /** ScanToken reads t at c and leaves the cursor at next. */
  ghost predicate ScansTo(src: string, c: Cursor, t: Token, next: Cursor)
    requires c.pos < |src|
  {
    && ScanToken(src, c).Ok?
    && ScanToken(src, c).value.value == t
    && ScanToken(src, c).value.next == next
  }

  /** One turn of the main loop that reads a token. */
  lemma ScanFromStep(src: string, c: Cursor, last: Option<nat>, c1: Cursor, t: Token, c2: Cursor)
    requires c.pos < |src| && SkipBlanks(src, c) == c1 && c1.pos < |src| && src[c1.pos] != '#'
    requires ScansTo(src, c1, t, c2)
    ensures c2.pos <= |src|
    ensures ScanFrom(src, c, last) == Prepend([t], ScanFrom(src, c2, Some(t.line)))
  {
  }

  /** tokenize() on a fresh lexer: position 0, line 1, no token yet. */
  function Lex(src: string): Result<seq<Token>, Error>
  {
    ScanFrom(src, Cursor(0, 1), None)
  }

  // ---------------------------------------------------------------------------
  // The lexer object

  class Lexer {
    const source: string
    var position: nat
    var line: nat
    var tokens: seq<Token>

    ghost predicate Valid()
      reads this
    {
      Tracks(source, Cur())
    }

    function Cur(): Cursor
      reads this
    {
      Cursor(position, line)
    }

    constructor (source: string)
      ensures Valid() && this.source == source
      ensures position == 0 && line == 1 && tokens == []
    {
      this.source := source;
      position := 0;
      line := 1;
      tokens := [];
    }

    /** error(): the exception raised, tagged with the current line. */
    function Fail(message: string): (e: Error)
      reads this
      ensures e == LexError(line, message)
    {
      LexError(line, message)
    }

    /** peek(offset): the character offset places ahead, if any. */
    function Peek(offset: nat): (r: Option<char>)
      reads this
      ensures r.Some? <==> position + offset < |source|
      ensures r.Some? ==> r.value == source[position + offset]
    {
      if position + offset < |source| then Some(source[position + offset]) else None
    }

    /** advance(): consume one character, counting newlines. */
    method Advance() returns (ch: Option<char>)
      requires Valid()
      modifies this`position, this`line
      ensures Valid()
      ensures ch == old(Peek(0))
      ensures old(position) < |source| ==> Cur() == Step(source, old(Cur()))
      ensures old(position) == |source| ==> Cur() == old(Cur())
    {
      if position < |source| {
        StepTracks(source, Cur());
        var c := source[position];
        if c == '\n' {
          line := line + 1;
        }
        position := position + 1;
        return Some(c);
      }
      return None;
    }

    method SkipWhitespace()
      requires Valid()
      modifies this`position, this`line
      ensures Valid() && Cur() == SkipBlanks(source, old(Cur()))
    {
      while Peek(0).Some? && IsSpace(Peek(0).value)
        invariant Valid()
        invariant SkipBlanks(source, Cur()) == SkipBlanks(source, old(Cur()))
        decreases |source| - position
      {
        var _ := Advance();
      }
    }

    method SkipCommentIfAny()
      requires Valid()
      modifies this`position, this`line
      ensures Valid()
      ensures old(Peek(0)) == Some('#') ==> Cur() == SkipComment(source, old(Cur()))
      ensures old(Peek(0)) != Some('#') ==> Cur() == old(Cur())
    {
      if Peek(0) == Some('#') {
        ghost var c0 := Cur();
        while Peek(0).Some? && Peek(0).value != '\n'
          invariant Valid()
          invariant SkipToNewline(source, Cur()) == SkipToNewline(source, c0)
          decreases |source| - position
        {
          var _ := Advance();
        }
        if Peek(0) == Some('\n') {
          var _ := Advance();
        }
      }
    }

    method ReadString(quote: char) returns (r: Result<string, Error>)
      requires Valid() && Peek(0) == Some(quote) && IsQuote(quote)
      modifies this`position, this`line
      ensures Valid()
      ensures var spec := ScanString(source, old(Cur()));
        && r.Ok? == spec.Ok?
        && (r.Ok? ==> r.value == spec.value.value && Cur() == spec.value.next)
        && (r.Err? ==> r.error == spec.error)
    {
      var value := "";
      var _ := Advance();
      ghost var c0 := Cur();
      while Peek(0).Some? && Peek(0).value != quote
        invariant Valid()
        invariant StringBody(source, Cur(), quote, value) == StringBody(source, c0, quote, "")
        decreases |source| - position
      {
        if Peek(0) == Some('\\') {
          var _ := Advance();
          var next := Advance();
          if next.None? {
            return Err(Error(TypeError, NoneConcatenation));
          }
          value := value + [Unescape(next.value)];
        } else {
          var c := Advance();
          value := value + [c.value];
        }
      }
      if Peek(0) != Some(quote) {
        return Err(Fail(UnterminatedString));
      }
      var _ := Advance();
      return Ok(value);
    }

    method ReadNumber() returns (text: string)
      requires Valid()
      modifies this`position, this`line
      ensures Valid() && line == old(line)
      ensures position == NumberEnd(source, old(position))
      ensures text == source[old(position)..position]
    {
      text := "";
      ghost var p0 := position;
      while Peek(0).Some? && InNumber(Peek(0).value)
        invariant Valid() && p0 <= position && line == old(line)
        invariant NumberEnd(source, position) == NumberEnd(source, p0)
        invariant text == source[p0..position]
        decreases |source| - position
      {
        var c := Advance();
        text := text + [c.value];
      }
    }

    method ReadIdentifier() returns (text: string)
      requires Valid()
      modifies this`position, this`line
      ensures Valid() && line == old(line)
      ensures position == WordEnd(source, old(position))
      ensures text == source[old(position)..position]
    {
      text := "";
      ghost var p0 := position;
      while Peek(0).Some? && InWord(Peek(0).value)
        invariant Valid() && p0 <= position && line == old(line)
        invariant WordEnd(source, position) == WordEnd(source, p0)
        invariant text == source[p0..position]
        decreases |source| - position
      {
        var c := Advance();
        text := text + [c.value];
      }
    }

    /** Appends one token, read by the same dispatch as ScanToken; c is at neither
        a blank nor '#'. */
    method ReadToken() returns (r: Result<Token, Error>)
      requires Valid() && position < |source|
      modifies this
      ensures Valid()
      ensures var spec := ScanToken(source, old(Cur()));
        && r.Ok? == spec.Ok?
        && (r.Ok? ==> r.value == spec.value.value && Cur() == spec.value.next
                      && tokens == old(tokens) + [r.value])
        && (r.Err? ==> r.error == spec.error)
    {
      var ch := Peek(0).value;
      var ln := line;
      ghost var c0 := Cur();
      if IsQuote(ch) {
        var s := ReadString(ch);
        if s.Err? {
          return Err(s.error);
        }
        r := Ok(Token(String, s.value, ln));
      } else if IsDigit(ch) {
        var text := ReadNumber();
        r := Ok(Token(Number, text, ln));
      } else if StartsWord(ch) {
        var word := ReadIdentifier();
        r := Ok(Token(WordKind(word), word, ln));
      } else if SingleKind(ch).Some? {
        var _ := Advance();
        r := Ok(Token(SingleKind(ch).value, [ch], ln));
      } else if PairKinds(ch).Some? {
        var _ := Advance();
        assert Cur() == Cursor(c0.pos + 1, ln);
        if Peek(0) == Some('=') {
          var _ := Advance();
          r := Ok(Token(PairKinds(ch).value.0, [ch, '='], ln));
          assert ScanToken(source, c0) == Ok(Scanned(r.value, Cur()));
        } else {
          r := Ok(Token(PairKinds(ch).value.1, [ch], ln));
          assert ScanToken(source, c0) == Ok(Scanned(r.value, Cur()));
        }
      } else {
        return Err(Fail("Unexpected character: " + CharRepr(ch)));
      }
      tokens := tokens + [r.value];
    }

    /** tokenize(): the whole token stream, ending with EOF. */
    method Tokenize() returns (r: Result<seq<Token>, Error>)
      requires Valid() && position == 0 && line == 1 && tokens == []
      modifies this
      ensures r == Lex(source)
      ensures r.Ok? ==> tokens == r.value
    {
      var last: Option<nat> := None;
      ghost var goal := Lex(source);
      PrependNothing(goal);
      while position < |source|
        invariant Valid()
        invariant goal == Prepend(tokens, ScanFrom(source, Cur(), last))
        decreases |source| - position
      {
        ghost var c0 := Cur();
        SkipWhitespace();
        if position >= |source| {
          ScanFromAtEnd(source, c0, last);
          break;
        }
        if Peek(0) == Some('#') {
          SkipCommentIfAny();
          ScanFromComment(source, c0, last);
          continue;
        }
        ghost var c1 := Cur();
        ghost var before, lastBefore := tokens, last;
        last := Some(line);
        var t := ReadToken();
        if t.Err? {
          ScanFromToken(source, c0, c1, lastBefore, None);
          return Err(t.error);
        }
        ScanFromToken(source, c0, c1, lastBefore, Some(t.value));
        PrependAssoc(before, t.value, ScanFrom(source, Cur(), last));
      }
      if last.None? {
        return Err(Error(UnboundLocalError, LineUnbound));
      }
      tokens := tokens + [Token(EOF, "", last.value)];
      return Ok(tokens);
    }
  }
}
