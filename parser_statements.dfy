/**
 * Properties of the statement parsers (blocks, 'else', 'return'), and concrete
 * expressions read back with the precedence and associativity of the grammar.
 */
module StatementParsing {
  import opened Wrappers
  import opened Tokens
  import opened Errors
  import opened Decimal
  import opened Lexing
  import opened Syntax
  import opened Parsing
  import opened ParserProperties

  /** A block not opened by '{' is exactly one statement. */
  lemma SingleStatementBlock(toks: seq<Token>, p: nat)
    requires ValidTokens(toks) && p < |toks| && toks[p].kind != LBrace
    ensures ParseBlock(toks, p).Ok? <==> ParseStatement(toks, p).Ok?
    ensures ParseBlock(toks, p).Ok? ==>
      ParseBlock(toks, p).value.value == [ParseStatement(toks, p).value.value]
      && ParseBlock(toks, p).value.next == ParseStatement(toks, p).value.next
    ensures ParseBlock(toks, p).Err? ==> ParseBlock(toks, p).error == ParseStatement(toks, p).error
  {
  }

  /** A brace block ends right after the first '}' at which a statement could
      start, and the statements before it are those of the loop. */
  lemma BraceBlock(toks: seq<Token>, p: nat)
    requires ValidTokens(toks) && p < |toks| && toks[p].kind == LBrace
    requires ParseBlock(toks, p).Ok?
    ensures var b := ParseBlock(toks, p).value;
      p + 1 < b.next && toks[b.next - 1].kind == RBrace
      && ParseBlockRest(toks, p + 1, []) == Ok(Parsed(b.value, b.next - 1))
  {
    var r := ParseBlockRest(toks, p + 1, []);
    assert r.Ok? && toks[r.value.next].kind == RBrace;
    assert ParseBlock(toks, p).value == Parsed(r.value.value, r.value.next + 1);
  }

  /** The statement loop of a brace block stops at a '}' and adds nothing there. */
  lemma BlockStopsAtBrace(toks: seq<Token>, p: nat, acc: seq<Stmt>)
    requires ValidTokens(toks) && p < |toks| && toks[p].kind == RBrace
    ensures ParseBlockRest(toks, p, acc) == Ok(Parsed(acc, p))
  {
  }

  /** Without 'else' the else branch is empty and nothing is consumed; with it,
      'else' and ':' are consumed before the block. */
  lemma ElseIsOptional(toks: seq<Token>, p: nat)
    requires ValidTokens(toks) && p < |toks|
    ensures toks[p].kind != Else ==> ParseElse(toks, p) == Ok(Parsed([], p))
    ensures toks[p].kind == Else && ParseElse(toks, p).Ok? ==>
      p + 1 < |toks| && toks[p + 1].kind == Colon && ParseElse(toks, p) == ParseBlock(toks, p + 2)
    ensures ParseElse(toks, p).Ok? && ParseElse(toks, p).value.value != [] ==> toks[p].kind == Else
  {
  }

  /** 'return' has no value exactly when EOF or '}' follows it; otherwise its
      value is the expression that follows. */
  lemma ReturnValue(toks: seq<Token>, p: nat)
    requires ValidTokens(toks) && p < |toks| && toks[p].kind == Return
    requires ParseReturn(toks, p).Ok?
    ensures p + 1 < |toks|
    ensures var s := ParseReturn(toks, p).value;
      s.value.ReturnStmt?
      && (s.value.result.None? <==> toks[p + 1].kind == EOF || toks[p + 1].kind == RBrace)
      && (s.value.result.None? ==> s.next == p + 1)
      && (s.value.result.Some? ==> ParseExpression(toks, p + 1) == Ok(Parsed(s.value.result.value, s.next)))
  {
  }

  /** A NUMBER token is an int literal exactly when it has no '.'. */
  lemma NumberKinds(text: string)
    requires NumberShaped(text)
    ensures NumberLiteral(text).Ok? && NumberLiteral(text).value.IntLit? <==> '.' !in text
    ensures NumberLiteral(text).Ok? && NumberLiteral(text).value.FloatLit? ==> '.' in text
  {
  }

  function Num(n: nat): Expr
  {
    Lit(IntLit(n))
  }

  function NumTok(n: nat): Token
  {
    Tok(Number, NatToString(n))
  }

  lemma PrintNum(n: nat, m: nat)
    requires m <= 7
    ensures Printable(Num(n))
    ensures ParserProperties.Print(Num(n)) == [NumTok(n)] && Wrap(Num(n), m) == [NumTok(n)]
  {
  }

  lemma ReadsBack(e: Expr, toks: seq<Token>, n: nat)
    requires Printable(e) && toks == ParserProperties.Print(e) + [EofToken] && n == |ParserProperties.Print(e)|
    ensures ValidTokens(toks) && ParseExpression(toks, 0) == Ok(Parsed(e, n))
  {
    ExpressionRoundTrip(e);
  }

  /** 2 + 3 * 4 is 2 + (3 * 4). */
  lemma MultiplicationBindsTighter()
    ensures ParseExpression([NumTok(2), Tok(Plus, "+"), NumTok(3), Tok(Multiply, "*"), NumTok(4), EofToken], 0)
         == Ok(Parsed(Binary(Add, Num(2), Binary(Mul, Num(3), Num(4))), 5))
  {
    var m := Binary(Mul, Num(3), Num(4));
    var e := Binary(Add, Num(2), m);
    PrintNum(3, 5);
    PrintNum(4, 6);
    PrintBinaryShape(Mul, Num(3), Num(4));
    var pm := ParserProperties.Print(m);
    assert pm == [NumTok(3), Tok(Multiply, "*"), NumTok(4)];
    assert Wrap(m, 5) == pm;
    PrintNum(2, 4);
    PrintBinaryShape(Add, Num(2), m);
    ReadsBack(e, [NumTok(2), Tok(Plus, "+"), NumTok(3), Tok(Multiply, "*"), NumTok(4), EofToken], 5);
  }

  /** 1 - 2 - 3 is (1 - 2) - 3. */
  lemma SubtractionIsLeftAssociative()
    ensures ParseExpression([NumTok(1), Tok(Minus, "-"), NumTok(2), Tok(Minus, "-"), NumTok(3), EofToken], 0)
         == Ok(Parsed(Binary(Sub, Binary(Sub, Num(1), Num(2)), Num(3)), 5))
  {
    var l := Binary(Sub, Num(1), Num(2));
    var e := Binary(Sub, l, Num(3));
    PrintNum(1, 4);
    PrintNum(2, 5);
    PrintBinaryShape(Sub, Num(1), Num(2));
    var pl := ParserProperties.Print(l);
    assert pl == [NumTok(1), Tok(Minus, "-"), NumTok(2)];
    assert Wrap(l, 4) == pl;
    PrintNum(3, 5);
    PrintBinaryShape(Sub, l, Num(3));
    ReadsBack(e, [NumTok(1), Tok(Minus, "-"), NumTok(2), Tok(Minus, "-"), NumTok(3), EofToken], 5);
  }
}
