/**
 * Properties of the lexer specification (module Lexing): the shape of every token
 * stream it produces, its failure cases, and a round trip: rendering a sequence of
 * well-formed tokens as text, each on its own line, and lexing that text gives the
 * tokens back, followed by EOF.
 */
module LexerProperties {
  import opened Wrappers
  import opened Tokens
  import opened Errors
  import opened Decimal
  import opened Lexing

  // ---------------------------------------------------------------------------
  // Shape of every successful scan

  /** One EOF token with empty text, at the end; lines ascending and at least floor. */
  ghost predicate WellShaped(ts: seq<Token>, floor: nat)
  {
    && |ts| >= 1 && ts[|ts| - 1].kind == EOF && ts[|ts| - 1].text == ""
    && (forall i :: 0 <= i < |ts| - 1 ==> ts[i].kind != EOF)
    && (forall i :: 0 <= i < |ts| ==> floor <= ts[i].line)
    && (forall i, j :: 0 <= i <= j < |ts| ==> ts[i].line <= ts[j].line)
  }

  /** The shape claimed of a scan from a cursor whose last token line is last. */
  ghost predicate ScanShaped(ts: seq<Token>, floor: nat, last: Option<nat>)
  {
    && WellShaped(ts, floor)
    && (|ts| == 1 ==> last.Some? && ts[0].line == last.value)
    && (|ts| >= 2 ==> ts[|ts| - 1].line == ts[|ts| - 2].line)
  }

  lemma ShapeOfFinish(last: Option<nat>, floor: nat)
    requires Finish(last).Ok? && (last.Some? ==> floor <= last.value)
    ensures ScanShaped(Finish(last).value, floor, last)
  {
  }

  lemma ShapeCons(tok: Token, rest: seq<Token>, floor: nat, last: Option<nat>)
    requires tok.kind != EOF && floor <= tok.line
    requires ScanShaped(rest, tok.line, Some(tok.line))
    ensures ScanShaped([tok] + rest, floor, last)
  {
    var ts := [tok] + rest;
    assert forall i :: 1 <= i < |ts| ==> ts[i] == rest[i - 1];
  }

  lemma {:induction false} ScanFromShape(src: string, c: Cursor, last: Option<nat>)
    requires c.pos <= |src|
    requires last.Some? ==> last.value <= c.line
    requires ScanFrom(src, c, last).Ok?
    ensures ScanShaped(ScanFrom(src, c, last).value, if last.Some? then last.value else c.line, last)
    decreases |src| - c.pos
  {
    var floor := if last.Some? then last.value else c.line;
    if c.pos >= |src| {
      ShapeOfFinish(last, floor);
    } else {
      var c1 := SkipBlanks(src, c);
      if c1.pos >= |src| {
        ScanFromAtEnd(src, c, last);
        ShapeOfFinish(last, floor);
      } else if src[c1.pos] == '#' {
        ScanFromComment(src, c, last);
        ScanFromShape(src, SkipComment(src, c1), last);
      } else if ScanToken(src, c1).Err? {
        ScanFromToken(src, c, c1, last, None);
      } else {
        var Scanned(tok, c2) := ScanToken(src, c1).value;
        ScanFromStep(src, c, last, c1, tok, c2);
        ScanFromShape(src, c2, Some(tok.line));
        ShapeCons(tok, ScanFrom(src, c2, Some(tok.line)).value, floor, last);
      }
    }
  }

  /** tokenize() on success: at least one real token, then exactly one EOF, with empty
      text and the line of the last real token; lines start at 1 and never decrease. */
  lemma LexShape(src: string)
    requires Lex(src).Ok?
    ensures var ts := Lex(src).value;
      && WellShaped(ts, 1) && |ts| >= 2 && ts[|ts| - 1].line == ts[|ts| - 2].line
  {
    ScanFromShape(src, Cursor(0, 1), None);
  }

  /** Every NUMBER token is a digit followed by digits and dots. */
  ghost predicate NumbersShaped(ts: seq<Token>)
  {
    forall i :: 0 <= i < |ts| && ts[i].kind == Number ==> NumberShaped(ts[i].text)
  }

  lemma WordKindNotNumber(word: string)
    ensures WordKind(word) != Number
  {
  }

  /** read_number() is the only way to a NUMBER token, and it reads a digit first. */
  lemma ScanTokenNumber(src: string, c: Cursor)
    requires c.pos < |src|
    ensures var r := ScanToken(src, c);
      r.Ok? && r.value.value.kind == Number ==> NumberShaped(r.value.value.text)
  {
    var ch := src[c.pos];
    if IsDigit(ch) {
      var e := NumberEnd(src, c.pos);
      var text := src[c.pos..e];
      assert forall i :: 0 <= i < |text| ==> text[i] == src[c.pos + i];
    } else if StartsWord(ch) {
      WordKindNotNumber(src[c.pos..WordEnd(src, c.pos)]);
    }
  }

  lemma NumbersCons(tok: Token, rest: seq<Token>)
    requires tok.kind == Number ==> NumberShaped(tok.text)
    requires NumbersShaped(rest)
    ensures NumbersShaped([tok] + rest)
  {
    var ts := [tok] + rest;
    assert forall i :: 1 <= i < |ts| ==> ts[i] == rest[i - 1];
  }

  lemma {:induction false} ScanFromNumbers(src: string, c: Cursor, last: Option<nat>)
    requires c.pos <= |src|
    requires ScanFrom(src, c, last).Ok?
    ensures NumbersShaped(ScanFrom(src, c, last).value)
    decreases |src| - c.pos
  {
    if c.pos < |src| {
      var c1 := SkipBlanks(src, c);
      if c1.pos >= |src| {
        ScanFromAtEnd(src, c, last);
      } else if src[c1.pos] == '#' {
        ScanFromComment(src, c, last);
        ScanFromNumbers(src, SkipComment(src, c1), last);
      } else if ScanToken(src, c1).Err? {
        ScanFromToken(src, c, c1, last, None);
      } else {
        var Scanned(tok, c2) := ScanToken(src, c1).value;
        ScanFromStep(src, c, last, c1, tok, c2);
        ScanTokenNumber(src, c1);
        ScanFromNumbers(src, c2, Some(tok.line));
        NumbersCons(tok, ScanFrom(src, c2, Some(tok.line)).value);
      }
    }
  }

  /** tokenize() on success gives NUMBER tokens of digits and dots only. */
  lemma LexNumbers(src: string)
    requires Lex(src).Ok?
    ensures NumbersShaped(Lex(src).value)
  {
    ScanFromNumbers(src, Cursor(0, 1), None);
  }

  // ---------------------------------------------------------------------------
  // Failures

  /** Text with no token at all (only blanks) leaves the variable `line` unbound. */
  lemma BlankSourceFails(src: string)
    requires forall i :: 0 <= i < |src| ==> IsSpace(src[i])
    ensures Lex(src) == Err(Error(UnboundLocalError, LineUnbound))
  {
  }

  lemma CommentLayout(src: string)
    requires |src| > 0 && src[0] == '#'
    requires forall i :: 0 <= i < |src| ==> src[i] != '\n'
    ensures SkipBlanks(src, Cursor(0, 1)) == Cursor(0, 1)
    ensures SkipComment(src, Cursor(0, 1)) == Cursor(|src|, 1)
  {
    SkipToNewlineAt(src, Cursor(0, 1), |src|);
  }

  /** The same holds for a source that is one comment. */
  lemma CommentOnlySourceFails(src: string)
    requires |src| > 0 && src[0] == '#'
    requires forall i :: 0 <= i < |src| ==> src[i] != '\n'
    ensures Lex(src) == Err(Error(UnboundLocalError, LineUnbound))
  {
    CommentLayout(src);
    ScanFromComment(src, Cursor(0, 1), None);
  }

  lemma {:induction false} NewlineCountConcat(a: string, b: string)
    ensures NewlineCount(a + b) == NewlineCount(a) + NewlineCount(b)
    decreases |b|
  {
    if |b| == 0 {
      assert a + b == a;
    } else {
      var b' := b[..|b| - 1];
      NewlineCountConcat(a, b');
      assert (a + b)[..|a + b| - 1] == a + b';
    }
  }

  /** A string literal that reaches the end of the input without its closing quote
      fails with "Unterminated string", tagged with the line reached at the end. */
  lemma {:induction false} UnterminatedStringLine(src: string, c: Cursor, quote: char, acc: string)
    requires c.pos <= |src|
    requires forall i :: c.pos <= i < |src| ==> src[i] != quote && src[i] != '\\'
    ensures StringBody(src, c, quote, acc)
         == Err(LexError(c.line + NewlineCount(src[c.pos..]), UnterminatedString))
    decreases |src| - c.pos
  {
    if c.pos < |src| {
      UnterminatedStringLine(src, Step(src, c), quote, acc + [src[c.pos]]);
      assert src[c.pos..] == [src[c.pos]] + src[c.pos + 1..];
      NewlineCountConcat([src[c.pos]], src[c.pos + 1..]);
      assert NewlineCount([src[c.pos]]) == if src[c.pos] == '\n' then 1 else 0 by {
        assert [src[c.pos]][..0] == [];
      }
    } else {
      assert src[c.pos..] == [];
    }
  }

  /** A backslash as the last character of an open string literal is a TypeError
      (the missing character is None), not "Unterminated string". */
  lemma TrailingBackslash()
    ensures ScanString("\"ab\\", Cursor(0, 1)) == Err(Error(TypeError, NoneConcatenation))
  {
    var src := "\"ab\\";
    assert StringBody(src, Cursor(1, 1), '"', "") == StringBody(src, Cursor(2, 1), '"', "a");
    assert StringBody(src, Cursor(2, 1), '"', "a") == StringBody(src, Cursor(3, 1), '"', "ab");
  }

  /** A character that starts no token fails with its repr and the current line. */
  lemma UnexpectedCharacter(src: string, c: Cursor)
    requires c.pos < |src|
    requires !IsQuote(src[c.pos]) && !IsDigit(src[c.pos]) && !StartsWord(src[c.pos])
    requires SingleKind(src[c.pos]).None? && PairKinds(src[c.pos]).None?
    ensures ScanToken(src, c).Err?
    ensures ScanToken(src, c).error == LexError(c.line, "Unexpected character: " + CharRepr(src[c.pos]))
  {
  }

  // ---------------------------------------------------------------------------
  // Operators and comments

  /** '=', '!', '<' and '>' followed by '=' make the two-character operator;
      otherwise the one-character one. */
  lemma TwoCharacterOperators(src: string, c: Cursor)
    requires c.pos < |src| && PairKinds(src[c.pos]).Some?
    ensures var (two, one) := PairKinds(src[c.pos]).value;
      if c.pos + 1 < |src| && src[c.pos + 1] == '=' then
        ScanToken(src, c) == Ok(Scanned(Token(two, [src[c.pos], '='], c.line), Cursor(c.pos + 2, c.line)))
      else
        ScanToken(src, c) == Ok(Scanned(Token(one, [src[c.pos]], c.line), Cursor(c.pos + 1, c.line)))
  {
  }

  lemma {:induction false} SkipToNewlineAt(src: string, c: Cursor, e: nat)
    requires c.pos <= e <= |src|
    requires forall i :: c.pos <= i < e ==> src[i] != '\n'
    requires e == |src| || src[e] == '\n'
    ensures SkipToNewline(src, c) == Cursor(e, c.line)
    decreases e - c.pos
  {
    if c.pos < e {
      SkipToNewlineAt(src, Step(src, c), e);
    }
  }

  lemma CommentChars(src: string, p: nat, text: string)
    requires p + |text| + 2 <= |src|
    requires src[p..p + |text| + 2] == "#" + text + "\n"
    requires forall i :: 0 <= i < |text| ==> text[i] != '\n'
    ensures src[p] == '#' && src[p + |text| + 1] == '\n'
    ensures forall i :: p <= i < p + |text| + 1 ==> src[i] != '\n'
  {
    var e := p + |text| + 1;
    assert src[p] == ("#" + text + "\n")[0];
    assert src[e] == ("#" + text + "\n")[|text| + 1];
    forall i | p <= i < e ensures src[i] != '\n' {
      assert src[i] == ("#" + text + "\n")[i - p];
    }
  }

  /** Where a comment of the form '#' text newline ends. */
  lemma CommentEnd(src: string, c: Cursor, text: string)
    requires c.pos + |text| + 2 <= |src|
    requires src[c.pos..c.pos + |text| + 2] == "#" + text + "\n"
    requires forall i :: 0 <= i < |text| ==> text[i] != '\n'
    ensures src[c.pos] == '#' && SkipBlanks(src, c) == c
    ensures SkipComment(src, c) == Cursor(c.pos + |text| + 2, c.line + 1)
  {
    CommentChars(src, c.pos, text);
    SkipToNewlineAt(src, c, c.pos + |text| + 1);
  }

  /** A comment produces no token: scanning resumes on the next line as if the
      comment and its newline were not there. */
  lemma CommentProducesNoToken(src: string, c: Cursor, last: Option<nat>, text: string)
    requires c.pos + |text| + 2 <= |src|
    requires src[c.pos..c.pos + |text| + 2] == "#" + text + "\n"
    requires forall i :: 0 <= i < |text| ==> text[i] != '\n'
    ensures ScanFrom(src, c, last) == ScanFrom(src, Cursor(c.pos + |text| + 2, c.line + 1), last)
  {
    CommentEnd(src, c, text);
    ScanFromComment(src, c, last);
  }

  // ---------------------------------------------------------------------------
  // Rendering tokens as text

  /** The escape a string literal needs for each character so that read_string
      decodes it back. */
  function EscapeChar(c: char): (s: string)
    ensures 1 <= |s| <= 2
  {
    if c == '\\' then "\\\\" else if c == '"' then "\\\"" else if c == '\n' then "\\n"
    else if c == '\t' then "\\t" else if c == '\r' then "\\r" else [c]
  }

  function Escape(s: string): string
  {
    if |s| == 0 then "" else EscapeChar(s[0]) + Escape(s[1..])
  }

  /** Each escape decodes to its character and holds no raw quote, backslash or
      newline of its own. */
  lemma EscapeCharDecodes(x: char)
    ensures |EscapeChar(x)| == 2 ==>
      EscapeChar(x)[0] == '\\' && Unescape(EscapeChar(x)[1]) == x && EscapeChar(x)[1] != '\n'
    ensures |EscapeChar(x)| == 1 ==> EscapeChar(x) == [x] && x != '"' && x != '\\' && x != '\n'
  {
  }

  /** One escaped character of a string literal: decoded and consumed, same line. */
  lemma StringBodyStep(src: string, c: Cursor, acc: string, x: char, tail: string)
    requires c.pos <= |src|
    requires src[c.pos..] == EscapeChar(x) + tail
    ensures c.pos + |EscapeChar(x)| <= |src|
    ensures StringBody(src, c, '"', acc)
         == StringBody(src, Cursor(c.pos + |EscapeChar(x)|, c.line), '"', acc + [x])
  {
    var ex := EscapeChar(x);
    EscapeCharDecodes(x);
    assert src[c.pos] == ex[0];
    if |ex| == 2 {
      assert src[c.pos + 1] == ex[1];
    }
  }

  lemma EscapeCons(s: string, after: string)
    requires |s| > 0
    ensures Escape(s) + "\"" + after == EscapeChar(s[0]) + (Escape(s[1..]) + "\"" + after)
    ensures |Escape(s)| == |EscapeChar(s[0])| + |Escape(s[1..])|
  {
    assert Escape(s) == EscapeChar(s[0]) + Escape(s[1..]);
  }

  lemma ClosingQuote(src: string, p: nat, s: string, after: string)
    requires p <= |src| && |s| == 0 && src[p..] == Escape(s) + "\"" + after
    ensures p < |src| && src[p] == '"' && |Escape(s)| == 0
  {
    assert src[p..] == "\"" + after;
    assert src[p] == src[p..][0];
  }

  lemma AccCons(acc: string, s: string)
    requires |s| > 0
    ensures acc + [s[0]] + s[1..] == acc + s
  {
  }

  lemma {:induction false} StringBodyOfEscape(src: string, c: Cursor, acc: string, s: string, after: string)
    requires c.pos <= |src|
    requires src[c.pos..] == Escape(s) + "\"" + after
    ensures StringBody(src, c, '"', acc).Ok?
    ensures StringBody(src, c, '"', acc).value.value == acc + s
    ensures StringBody(src, c, '"', acc).value.next == Cursor(c.pos + |Escape(s)| + 1, c.line)
    decreases |s|
  {
    if |s| == 0 {
      ClosingQuote(src, c.pos, s, after);
      assert acc + s == acc;
    } else {
      var x := s[0];
      var tail := Escape(s[1..]) + "\"" + after;
      EscapeCons(s, after);
      StringBodyStep(src, c, acc, x, tail);
      DropPrefix(src, c.pos, EscapeChar(x), tail);
      StringBodyOfEscape(src, Cursor(c.pos + |EscapeChar(x)|, c.line), acc + [x], s[1..], after);
      AccCons(acc, s);
    }
  }

  predicate WordShaped(s: string)
  {
    |s| > 0 && StartsWord(s[0]) && forall i :: 0 <= i < |s| ==> InWord(s[i])
  }

  predicate OperatorShaped(t: Token)
  {
    || (|t.text| == 1 && SingleKind(t.text[0]) == Some(t.kind))
    || (|t.text| == 1 && PairKinds(t.text[0]).Some? && PairKinds(t.text[0]).value.1 == t.kind)
    || (|t.text| == 2 && t.text[1] == '=' && PairKinds(t.text[0]).Some?
        && PairKinds(t.text[0]).value.0 == t.kind)
  }

  /** A token the lexer can produce: a string with any text, a number made of digits
      and dots, a word whose kind is the keyword table's verdict, or an operator. */
  predicate Renderable(t: Token)
  {
    || t.kind == String
    || (t.kind == Number && NumberShaped(t.text))
    || (WordShaped(t.text) && WordKind(t.text) == t.kind)
    || OperatorShaped(t)
  }

  function RenderToken(t: Token): string
  {
    if t.kind == String then "\"" + Escape(t.text) + "\"" else t.text
  }

  function Newlines(n: nat): (s: string)
    ensures |s| == n && forall i :: 0 <= i < n ==> s[i] == '\n'
  {
    if n == 0 then "" else "\n" + Newlines(n - 1)
  }

  /** The blanks before a token: a space on the same line, else the newlines that
      reach its line. */
  function Gap(from: nat, to: nat): string
  {
    if to <= from then " " else Newlines(to - from)
  }

  /** The tokens as text, the first one starting after line `line`. */
  function Render(ts: seq<Token>, line: nat): string
  {
    if |ts| == 0 then "" else Gap(line, ts[0].line) + RenderToken(ts[0]) + Render(ts[1..], ts[0].line)
  }

  ghost predicate Ascending(ts: seq<Token>, line: nat)
  {
    (forall i :: 0 <= i < |ts| ==> line <= ts[i].line)
    && (forall i, j :: 0 <= i <= j < |ts| ==> ts[i].line <= ts[j].line)
  }

  lemma {:induction false} SkipNewlinesRun(src: string, c: Cursor, d: nat)
    requires c.pos + d < |src|
    requires forall i :: c.pos <= i < c.pos + d ==> src[i] == '\n'
    requires !IsSpace(src[c.pos + d])
    ensures SkipBlanks(src, c) == Cursor(c.pos + d, c.line + d)
    decreases d
  {
    if d > 0 {
      SkipNewlinesRun(src, Step(src, c), d - 1);
    }
  }

  lemma {:induction false} NumberEndAt(src: string, p: nat, e: nat)
    requires p <= e <= |src|
    requires forall i :: p <= i < e ==> InNumber(src[i])
    requires e == |src| || !InNumber(src[e])
    ensures NumberEnd(src, p) == e
    decreases e - p
  {
    if p < e {
      NumberEndAt(src, p + 1, e);
    }
  }

  lemma {:induction false} WordEndAt(src: string, p: nat, e: nat)
    requires p <= e <= |src|
    requires forall i :: p <= i < e ==> InWord(src[i])
    requires e == |src| || !InWord(src[e])
    ensures WordEnd(src, p) == e
    decreases e - p
  {
    if p < e {
      WordEndAt(src, p + 1, e);
    }
  }

  lemma PunctuationClass(ch: char)
    requires SingleKind(ch).Some? || PairKinds(ch).Some?
    ensures !IsQuote(ch) && !IsDigit(ch) && !StartsWord(ch) && !IsSpace(ch) && ch != '#'
    ensures PairKinds(ch).Some? ==> SingleKind(ch).None?
  {
  }

  // Each branch of the token dispatch, from facts about single characters.

  lemma StringTokenAt(src: string, c: Cursor, t: Token, e: nat)
    requires c.pos < |src| && src[c.pos] == '"' && t.kind == String && t.line == c.line
    requires ScanString(src, c).Ok?
    requires ScanString(src, c).value.value == t.text
    requires ScanString(src, c).value.next == Cursor(e, c.line)
    ensures ScanToken(src, c).Ok?
    ensures ScanToken(src, c).value.value == t
    ensures ScanToken(src, c).value.next == Cursor(e, c.line)
  {
  }

  lemma NumberTokenAt(src: string, c: Cursor, e: nat)
    requires c.pos < |src| && IsDigit(src[c.pos]) && NumberEnd(src, c.pos) == e
    ensures ScanToken(src, c).Ok?
    ensures ScanToken(src, c).value.value == Token(Number, src[c.pos..e], c.line)
    ensures ScanToken(src, c).value.next == Cursor(e, c.line)
  {
  }

  lemma WordTokenAt(src: string, c: Cursor, e: nat)
    requires c.pos < |src| && StartsWord(src[c.pos]) && WordEnd(src, c.pos) == e
    ensures ScanToken(src, c).Ok?
    ensures ScanToken(src, c).value.value.text == src[c.pos..e]
    ensures ScanToken(src, c).value.value.kind == WordKind(src[c.pos..e])
    ensures ScanToken(src, c).value.value.line == c.line
    ensures ScanToken(src, c).value.next == Cursor(e, c.line)
  {
  }

  lemma SingleTokenAt(src: string, c: Cursor)
    requires c.pos < |src| && SingleKind(src[c.pos]).Some?
    ensures ScanToken(src, c).Ok?
    ensures ScanToken(src, c).value.value == Token(SingleKind(src[c.pos]).value, [src[c.pos]], c.line)
    ensures ScanToken(src, c).value.next == Cursor(c.pos + 1, c.line)
  {
    PunctuationClass(src[c.pos]);
  }

  lemma PairTokenAt(src: string, c: Cursor, two: bool)
    requires c.pos < |src| && PairKinds(src[c.pos]).Some?
    requires two == (c.pos + 1 < |src| && src[c.pos + 1] == '=')
    ensures ScanToken(src, c).Ok?
    ensures ScanToken(src, c).value.value
         == if two then Token(PairKinds(src[c.pos]).value.0, [src[c.pos], '='], c.line)
            else Token(PairKinds(src[c.pos]).value.1, [src[c.pos]], c.line)
    ensures ScanToken(src, c).value.next == Cursor(c.pos + if two then 2 else 1, c.line)
  {
    PunctuationClass(src[c.pos]);
  }

  lemma OperatorTokenAt(src: string, c: Cursor, t: Token)
    requires c.pos < |src| && OperatorShaped(t) && t.line == c.line && src[c.pos] == t.text[0]
    requires |t.text| == 2 ==> c.pos + 1 < |src| && src[c.pos + 1] == '='
    requires |t.text| == 1 && PairKinds(t.text[0]).Some? ==> c.pos + 1 == |src| || src[c.pos + 1] != '='
    ensures ScanToken(src, c).Ok?
    ensures ScanToken(src, c).value.value == t
    ensures ScanToken(src, c).value.next == Cursor(c.pos + |t.text|, c.line)
  {
    var ch := t.text[0];
    PunctuationClass(ch);
    if |t.text| == 2 {
      assert t.text == [ch, '='];
      PairTokenAt(src, c, true);
    } else {
      assert t.text == [ch];
      if SingleKind(ch).Some? {
        SingleTokenAt(src, c);
      } else {
        PairTokenAt(src, c, false);
      }
    }
  }

  /** The body of a rendered string literal decodes to its text. */
  lemma StringLiteralDecodes(src: string, p: nat, line: nat, text: string, after: string)
    requires p <= |src| && src[p..] == Escape(text) + "\"" + after
    ensures StringBody(src, Cursor(p, line), '"', "").Ok?
    ensures StringBody(src, Cursor(p, line), '"', "").value.value == text
    ensures StringBody(src, Cursor(p, line), '"', "").value.next == Cursor(p + |Escape(text)| + 1, line)
  {
    EmptyConcat(text);
    StringBodyOfEscape(src, Cursor(p, line), "", text, after);
  }

  lemma EmptyConcat(s: string)
    ensures "" + s == s
  {
  }

  lemma RenderStringShape(t: Token, after: string)
    requires t.kind == String
    ensures RenderToken(t) + after == "\"" + (Escape(t.text) + "\"" + after)
    ensures |RenderToken(t)| == |Escape(t.text)| + 2
  {
  }

  lemma OpeningQuote(src: string, p: nat, rest: string)
    requires p <= |src| && src[p..] == "\"" + rest
    ensures p < |src| && src[p] == '"' && src[p + 1..] == rest
  {
    assert src[p] == src[p..][0];
    DropPrefix(src, p, "\"", rest);
  }

  /** read_string() decodes a rendered string literal back to its text. */
  lemma ScanStringOfRendered(src: string, c: Cursor, t: Token, after: string)
    requires c.pos <= |src| && t.kind == String
    requires src[c.pos..] == RenderToken(t) + after
    ensures c.pos < |src| && src[c.pos] == '"'
    ensures ScanString(src, c).Ok?
    ensures ScanString(src, c).value.value == t.text
    ensures ScanString(src, c).value.next == Cursor(c.pos + |RenderToken(t)|, c.line)
  {
    RenderStringShape(t, after);
    OpeningQuote(src, c.pos, Escape(t.text) + "\"" + after);
    StringLiteralDecodes(src, c.pos + 1, c.line, t.text, after);
    assert Step(src, c) == Cursor(c.pos + 1, c.line);
  }

  lemma ScanRenderedString(src: string, c: Cursor, t: Token, after: string)
    requires c.pos <= |src| && t.kind == String && t.line == c.line
    requires src[c.pos..] == RenderToken(t) + after
    ensures c.pos < |src| && ScansTo(src, c, t, Cursor(c.pos + |RenderToken(t)|, c.line))
  {
    ScanStringOfRendered(src, c, t, after);
    StringTokenAt(src, c, t, c.pos + |RenderToken(t)|);
  }

  /** The characters of a token rendered as its own text. */
  lemma PlainLayout(src: string, p: nat, text: string, after: string)
    requires p <= |src| && |text| > 0 && src[p..] == text + after
    requires after == "" || IsSpace(after[0])
    ensures p + |text| <= |src| && src[p..p + |text|] == text
    ensures forall i :: p <= i < p + |text| ==> src[i] == text[i - p]
    ensures p + |text| == |src| || IsSpace(src[p + |text|])
  {
    forall i | p <= i < p + |text| ensures src[i] == text[i - p] {
      assert src[i] == src[p..][i - p];
    }
    if p + |text| < |src| {
      assert src[p + |text|] == src[p..][|text|];
    }
    assert src[p..p + |text|] == src[p..][..|text|];
  }

  lemma ScanRenderedNumber(src: string, c: Cursor, t: Token, after: string)
    requires c.pos <= |src| && t.kind == Number && NumberShaped(t.text) && t.line == c.line
    requires src[c.pos..] == t.text + after
    requires after == "" || IsSpace(after[0])
    ensures c.pos < |src| && ScansTo(src, c, t, Cursor(c.pos + |t.text|, c.line))
  {
    var e := c.pos + |t.text|;
    PlainLayout(src, c.pos, t.text, after);
    NumberEndAt(src, c.pos, e);
    NumberTokenAt(src, c, e);
  }

  lemma ScanRenderedWord(src: string, c: Cursor, t: Token, after: string)
    requires c.pos <= |src| && WordShaped(t.text) && WordKind(t.text) == t.kind && t.line == c.line
    requires src[c.pos..] == t.text + after
    requires after == "" || IsSpace(after[0])
    ensures c.pos < |src| && ScansTo(src, c, t, Cursor(c.pos + |t.text|, c.line))
  {
    var e := c.pos + |t.text|;
    PlainLayout(src, c.pos, t.text, after);
    assert src[c.pos] == t.text[0];
    forall i | c.pos <= i < e
      ensures InWord(src[i])
    {
      assert src[i] == t.text[i - c.pos];
    }
    WordEndAt(src, c.pos, e);
    WordTokenAt(src, c, e);
    assert src[c.pos..e] == t.text;
  }

  lemma ScanRenderedOperator(src: string, c: Cursor, t: Token, after: string)
    requires c.pos <= |src| && OperatorShaped(t) && t.line == c.line
    requires src[c.pos..] == t.text + after
    requires after == "" || IsSpace(after[0])
    ensures c.pos < |src| && ScansTo(src, c, t, Cursor(c.pos + |t.text|, c.line))
  {
    PlainLayout(src, c.pos, t.text, after);
    OperatorTokenAt(src, c, t);
  }

  /** A rendered token followed by a blank or the end of the text scans back to itself. */
  lemma ScanRenderedToken(src: string, c: Cursor, t: Token, after: string)
    requires c.pos <= |src| && Renderable(t) && t.line == c.line
    requires src[c.pos..] == RenderToken(t) + after
    requires after == "" || IsSpace(after[0])
    ensures c.pos < |src| && ScansTo(src, c, t, Cursor(c.pos + |RenderToken(t)|, c.line))
  {
    if t.kind == String {
      ScanRenderedString(src, c, t, after);
    } else if t.kind == Number && NumberShaped(t.text) {
      ScanRenderedNumber(src, c, t, after);
    } else if WordShaped(t.text) && WordKind(t.text) == t.kind {
      ScanRenderedWord(src, c, t, after);
    } else {
      PunctuationClass(t.text[0]);
      ScanRenderedOperator(src, c, t, after);
    }
  }

  /** A rendered token starts with neither a blank nor '#'. */
  lemma RenderedTokenStart(src: string, p: nat, t: Token, after: string)
    requires p <= |src| && Renderable(t)
    requires src[p..] == RenderToken(t) + after
    ensures p < |src| && !IsSpace(src[p]) && src[p] != '#'
  {
    if t.kind != String && !(t.kind == Number && NumberShaped(t.text))
       && !(WordShaped(t.text) && WordKind(t.text) == t.kind) {
      PunctuationClass(t.text[0]);
    }
    assert src[p] == RenderToken(t)[0];
  }

  /** The blanks Render puts before a token are skipped, counting their newlines. */
  lemma SkipGap(src: string, c: Cursor, line: nat, after: string)
    requires c.pos <= |src| && c.line <= line
    requires src[c.pos..] == Gap(c.line, line) + after
    requires c.pos + |Gap(c.line, line)| < |src| && !IsSpace(src[c.pos + |Gap(c.line, line)|])
    ensures SkipBlanks(src, c) == Cursor(c.pos + |Gap(c.line, line)|, line)
  {
    var g := Gap(c.line, line);
    var p1 := c.pos + |g|;
    if line == c.line {
      assert src[c.pos] == ' ';
      assert SkipBlanks(src, Step(src, c)) == Step(src, c);
    } else {
      forall i | c.pos <= i < p1 ensures src[i] == '\n' {
        assert src[i] == g[i - c.pos];
      }
      SkipNewlinesRun(src, c, line - c.line);
    }
  }

  lemma DropPrefix(src: string, p: nat, a: string, b: string)
    requires p <= |src| && src[p..] == a + b
    ensures p + |a| <= |src| && src[p + |a|..] == b
  {
    assert src[p + |a|..] == src[p..][|a|..];
  }

  /** Render on a non-empty sequence: the gap, the first token, the rest. */
  lemma RenderCons(ts: seq<Token>, line: nat)
    requires |ts| > 0
    ensures Render(ts, line) == Gap(line, ts[0].line) + (RenderToken(ts[0]) + Render(ts[1..], ts[0].line))
    ensures var rest := Render(ts[1..], ts[0].line); rest == "" || IsSpace(rest[0])
  {
    assert |ts[1..]| > 0 ==> ts[1..][0] == ts[1];
  }

  /** The token list of the inductive step: the first token before the rest's. */
  lemma AppendEof(ts: seq<Token>, r: Result<seq<Token>, Error>, rest: Result<seq<Token>, Error>, last: Option<nat>)
    requires |ts| > 0
    requires r == Prepend([ts[0]], rest)
    requires rest == Ok(ts[1..] + [Token(EOF, "", if |ts| > 1 then ts[1..][|ts[1..]| - 1].line else ts[0].line)])
    ensures r == Ok(ts + [Token(EOF, "", ts[|ts| - 1].line)])
  {
    assert [ts[0]] + ts[1..] == ts;
    assert [ts[0]] + (ts[1..] + [Token(EOF, "", ts[|ts| - 1].line)]) == ts + [Token(EOF, "", ts[|ts| - 1].line)];
  }

  lemma EmptyRest(src: string, pos: nat)
    requires pos <= |src| && src[pos..] == ""
    ensures pos == |src|
  {
  }

  /** Before the first rendered token: its blanks are skipped, counting the lines. */
  lemma HeadLayout(src: string, c: Cursor, t: Token, rest: string, p1: nat)
    requires c.pos <= |src| && Renderable(t) && c.line <= t.line
    requires src[c.pos..] == Gap(c.line, t.line) + (RenderToken(t) + rest)
    requires p1 == c.pos + |Gap(c.line, t.line)|
    ensures p1 < |src| && SkipBlanks(src, c) == Cursor(p1, t.line)
    ensures src[p1] != '#' && src[p1..] == RenderToken(t) + rest
  {
    var g := Gap(c.line, t.line);
    DropPrefix(src, c.pos, g, RenderToken(t) + rest);
    RenderedTokenStart(src, p1, t, rest);
    SkipGap(src, c, t.line, RenderToken(t) + rest);
  }

  /** The first token of a rendering: its blanks are skipped, it is read back, and
      the rest of the rendering follows it. */
  lemma ScanRenderHead(src: string, c: Cursor, t: Token, rest: string, p1: nat, p2: nat)
    requires c.pos <= |src| && Renderable(t) && c.line <= t.line
    requires src[c.pos..] == Gap(c.line, t.line) + (RenderToken(t) + rest)
    requires rest == "" || IsSpace(rest[0])
    requires p1 == c.pos + |Gap(c.line, t.line)| && p2 == p1 + |RenderToken(t)|
    ensures c.pos < |src|
    ensures SkipBlanks(src, c) == Cursor(p1, t.line)
    ensures p1 < |src| && src[p1] != '#'
    ensures ScansTo(src, Cursor(p1, t.line), t, Cursor(p2, t.line))
    ensures p2 <= |src| && src[p2..] == rest
  {
    HeadLayout(src, c, t, rest, p1);
    ScanRenderedToken(src, Cursor(p1, t.line), t, rest);
    DropPrefix(src, p1, RenderToken(t), rest);
  }

  lemma TailRenderable(ts: seq<Token>, line: nat)
    requires |ts| > 0
    requires forall i :: 0 <= i < |ts| ==> Renderable(ts[i])
    requires Ascending(ts, line)
    ensures Renderable(ts[0]) && line <= ts[0].line
    ensures forall i :: 0 <= i < |ts[1..]| ==> Renderable(ts[1..][i])
    ensures Ascending(ts[1..], ts[0].line)
  {
    assert forall i :: 0 <= i < |ts[1..]| ==> ts[1..][i] == ts[i + 1];
  }

  /** Renderable tokens whose lines never decrease, stated one token at a time. */
  ghost predicate RenderableFrom(ts: seq<Token>, line: nat)
    decreases |ts|
  {
    |ts| == 0 || (Renderable(ts[0]) && line <= ts[0].line && RenderableFrom(ts[1..], ts[0].line))
  }

  lemma {:induction false} RenderableFromAll(ts: seq<Token>, line: nat)
    requires forall i :: 0 <= i < |ts| ==> Renderable(ts[i])
    requires Ascending(ts, line)
    ensures RenderableFrom(ts, line)
    decreases |ts|
  {
    if |ts| > 0 {
      TailRenderable(ts, line);
      RenderableFromAll(ts[1..], ts[0].line);
    }
  }

  /** Scanning a rendering from its start gives the tokens and then EOF. */
  lemma {:induction false} ScanRender(src: string, c: Cursor, last: Option<nat>, ts: seq<Token>)
    requires c.pos <= |src|
    requires src[c.pos..] == Render(ts, c.line)
    requires RenderableFrom(ts, c.line)
    requires |ts| == 0 ==> last.Some?
    ensures ScanFrom(src, c, last)
         == Ok(ts + [Token(EOF, "", if |ts| > 0 then ts[|ts| - 1].line else last.value)])
    decreases |ts|
  {
    if |ts| == 0 {
      EmptyRest(src, c.pos);
      assert ts + [Token(EOF, "", last.value)] == [Token(EOF, "", last.value)];
    } else {
      var t := ts[0];
      var c1 := Cursor(c.pos + |Gap(c.line, t.line)|, t.line);
      var c2 := Cursor(c1.pos + |RenderToken(t)|, t.line);
      RenderCons(ts, c.line);
      ScanRenderHead(src, c, t, Render(ts[1..], t.line), c1.pos, c2.pos);
      ScanFromStep(src, c, last, c1, t, c2);
      ScanRender(src, c2, Some(t.line), ts[1..]);
      AppendEof(ts, ScanFrom(src, c, last), ScanFrom(src, c2, Some(t.line)), last);
    }
  }

  /** The round trip: tokens rendered one after another, each on its own line
      (or after a space when it shares the line), lex back to themselves plus EOF.
      Blanks produce no tokens, every token carries the line where it starts,
      keywords are recognised exactly, and string escapes decode. */
  lemma LexRender(ts: seq<Token>)
    requires |ts| > 0
    requires forall i :: 0 <= i < |ts| ==> Renderable(ts[i])
    requires Ascending(ts, 1)
    ensures Lex(Render(ts, 1)) == Ok(ts + [Token(EOF, "", ts[|ts| - 1].line)])
  {
    var src := Render(ts, 1);
    WholeSlice(src);
    RenderableFromAll(ts, 1);
    ScanRender(src, Cursor(0, 1), None, ts);
  }

  lemma WholeSlice(s: string)
    ensures s[0..] == s
  {
  }
}
