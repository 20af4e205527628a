/**
 * The parser of interpreter.py (class Parser): recursive descent over the token list
 * with a position cursor.  The functions below describe each parse_* method as a
 * function of the tokens and the position it starts at, giving the node built and
 * the position after it; class Parser performs the same steps in place and is
 * proved to compute exactly what they describe.
 */
module Parsing {
  import opened Wrappers
  import opened Tokens
  import opened Errors
  import opened Decimal
  import opened Lexing
  import opened Syntax

  /** Token lists as tokenize() returns them: they end with EOF, and every NUMBER
      token is a digit followed by digits and dots. */
  predicate ValidTokens(toks: seq<Token>)
  {
    && |toks| > 0 && toks[|toks| - 1].kind == EOF
    && forall i {:trigger NumberShaped(toks[i].text)} ::
         0 <= i < |toks| && toks[i].kind == Number ==> NumberShaped(toks[i].text)
  }

  /** A node read by a parse step and the position after it. */
  datatype Parsed<T> = Parsed(value: T, next: nat)

  /** error(): the SyntaxError raised, tagged with the line of the current token. */
  function ParseError(t: Token, message: string): Error
  {
    Error(SyntaxError, "Parser error at line " + NatToString(t.line) + ": " + message)
  }

  /** advance(): the position after the current token; EOF is never passed. */
  function Advance(toks: seq<Token>, p: nat): (q: nat)
    requires ValidTokens(toks) && p < |toks|
    ensures q < |toks|
    ensures toks[p].kind == EOF ==> q == p
    ensures toks[p].kind != EOF ==> q == p + 1
  {
    if toks[p].kind != EOF then p + 1 else p
  }

  /** expect(kind): the current token if it has that kind, consumed. */
  function Expect(toks: seq<Token>, p: nat, k: TokenKind): (r: Result<Parsed<Token>, Error>)
    requires ValidTokens(toks) && p < |toks|
    ensures r.Ok? <==> toks[p].kind == k
    ensures r.Ok? ==> r.value.value == toks[p] && r.value.next == (if k == EOF then p else p + 1)
    ensures r.Err? ==> r.error.kind == SyntaxError
    ensures r.Err? ==> r.error.message == "Parser error at line " + NatToString(toks[p].line) + ": "
                                          + ("Expected " + KindName(k) + ", got " + KindName(toks[p].kind))
  {
    if toks[p].kind != k then
      Err(ParseError(toks[p], "Expected " + KindName(k) + ", got " + KindName(toks[p].kind)))
    else
      Ok(Parsed(toks[p], Advance(toks, p)))
  }

  // ---------------------------------------------------------------------------
  // Number literals: int() of the text, or float() when it holds a dot

  /** The position of the first '.' in s, if any. */
  function DotIndex(s: string): (r: Option<nat>)
    ensures r.None? <==> '.' !in s
    ensures r.Some? ==> r.value < |s| && s[r.value] == '.' && '.' !in s[..r.value]
  {
    if |s| == 0 then None
    else if s[0] == '.' then Some(0)
    else
      match DotIndex(s[1..])
      case None => None
      case Some(k) =>
        assert s[..k + 1] == [s[0]] + s[1..][..k];
        Some(k + 1)
  }

  /** The text has (at least) two dots. */
  predicate TwoDots(s: string)
  {
    exists i, j :: 0 <= i < j < |s| && s[i] == '.' && s[j] == '.'
  }

  /** With the first dot at k, a second dot is one after k. */
  lemma TwoDotsAfterFirst(s: string, k: nat)
    requires k < |s| && s[k] == '.' && '.' !in s[..k]
    ensures TwoDots(s) <==> '.' in s[k + 1..]
  {
    if TwoDots(s) {
      var i, j :| 0 <= i < j < |s| && s[i] == '.' && s[j] == '.';
      assert s[k + 1..][j - k - 1] == '.';
    }
    if '.' in s[k + 1..] {
      var j :| k + 1 <= j < |s| && s[j] == '.' by {
        var m :| 0 <= m < |s[k + 1..]| && s[k + 1..][m] == '.';
        assert s[k + 1 + m] == '.';
      }
      assert 0 <= k < j < |s| && s[k] == '.' && s[j] == '.';
    }
  }

  /** The literal a NUMBER token denotes: an int when its text has no '.', else the
      float whose digits are before and after the dot; a second dot is a ValueError. */
  function NumberLiteral(text: string): (r: Result<Literal, Error>)
    requires NumberShaped(text)
    ensures '.' !in text ==> r.Ok? && r.value.IntLit? && r.value.i == DigitsValue(text)
    ensures '.' in text ==> r.Err? || r.value.FloatLit?
    ensures r.Err? <==> TwoDots(text)
    ensures r.Err? ==> r.error == Error(ValueError, "could not convert string to float: '" + text + "'")
  {
    match DotIndex(text)
    case None =>
      Ok(IntLit(DigitsValue(text)))
    case Some(k) =>
      var whole, fraction := text[..k], text[k + 1..];
      TwoDotsAfterFirst(text, k);
      if '.' in fraction then
        Err(Error(ValueError, "could not convert string to float: '" + text + "'"))
      else
        Ok(FloatLit(DigitsValue(whole) as real + DigitsValue(fraction) as real / Pow10(|fraction|) as real))
  }

  // ---------------------------------------------------------------------------
  // Expressions: or < and < equality < comparison < additive < multiplicative < unary

  /** The binary operator the token stands for at precedence level lvl (0 is 'or',
      5 is multiplicative); 'or' and 'and' are identifiers with that text. */
  function LevelOp(lvl: nat, t: Token): Option<BinOp>
  {
    if lvl == 0 then
      if t.kind == Identifier && t.text == "or" then Some(Or) else None
    else if lvl == 1 then
      if t.kind == Identifier && t.text == "and" then Some(And) else None
    else if lvl == 2 then
      if t.kind == Equal then Some(Eq) else if t.kind == NotEqual then Some(Ne) else None
    else if lvl == 3 then
      if t.kind == Less then Some(Lt) else if t.kind == Greater then Some(Gt)
      else if t.kind == LessEqual then Some(Le) else if t.kind == GreaterEqual then Some(Ge)
      else None
    else if lvl == 4 then
      if t.kind == Plus then Some(Add) else if t.kind == Minus then Some(Sub) else None
    else if lvl == 5 then
      if t.kind == Multiply then Some(Mul) else if t.kind == Divide then Some(Div)
      else if t.kind == Modulo then Some(Mod) else None
    else None
  }

  lemma LevelOpNotEof(lvl: nat, t: Token)
    requires LevelOp(lvl, t).Some?
    ensures t.kind != EOF
  {
  }

  /** parse_expression(). */
  function ParseExpression(toks: seq<Token>, p: nat): (r: Result<Parsed<Expr>, Error>)
    requires ValidTokens(toks) && p < |toks|
    ensures r.Ok? ==> p < r.value.next < |toks|
    decreases |toks| - p, 9, 0
  {
    ParseLevel(toks, p, 0)
  }

  /** The operand of level lvl: the next level, or parse_unary() below level 5. */
  function ParseOperand(toks: seq<Token>, p: nat, lvl: nat): (r: Result<Parsed<Expr>, Error>)
    requires ValidTokens(toks) && p < |toks| && lvl <= 5
    ensures r.Ok? ==> p < r.value.next < |toks|
    decreases |toks| - p, 8 - lvl, 1
  {
    if lvl < 5 then ParseLevel(toks, p, lvl + 1) else ParseUnary(toks, p)
  }

  /** parse_or() ... parse_multiplicative(): an operand, then the loop. */
  function ParseLevel(toks: seq<Token>, p: nat, lvl: nat): (r: Result<Parsed<Expr>, Error>)
    requires ValidTokens(toks) && p < |toks| && lvl <= 5
    ensures r.Ok? ==> p < r.value.next < |toks|
    decreases |toks| - p, 8 - lvl, 2
  {
    var left :- ParseOperand(toks, p, lvl);
    ParseLevelRest(toks, left.next, lvl, left.value)
  }

  /** The loop of a precedence level: while the current token is an operator of the
      level, consume it and an operand, and make the node with the left so far. */
  function ParseLevelRest(toks: seq<Token>, p: nat, lvl: nat, left: Expr): (r: Result<Parsed<Expr>, Error>)
    requires ValidTokens(toks) && p < |toks| && lvl <= 5
    ensures r.Ok? ==> p <= r.value.next < |toks|
    decreases |toks| - p, 8 - lvl, 0
  {
    match LevelOp(lvl, toks[p])
    case None => Ok(Parsed(left, p))
    case Some(op) =>
      LevelOpNotEof(lvl, toks[p]);
      var right :- ParseOperand(toks, p + 1, lvl);
      ParseLevelRest(toks, right.next, lvl, Binary(op, left, right.value))
  }

  /** parse_unary(): '!' and '-' prefixes, then a primary. */
  function ParseUnary(toks: seq<Token>, p: nat): (r: Result<Parsed<Expr>, Error>)
    requires ValidTokens(toks) && p < |toks|
    ensures r.Ok? ==> p < r.value.next < |toks|
    decreases |toks| - p, 2, 0
  {
    if toks[p].kind == Not then
      var e :- ParseUnary(toks, p + 1);
      Ok(Parsed(Unary(LogicalNot, e.value), e.next))
    else if toks[p].kind == Minus then
      var e :- ParseUnary(toks, p + 1);
      Ok(Parsed(Unary(Neg, e.value), e.next))
    else
      ParsePrimary(toks, p)
  }

  /** parse_primary(). */
  function ParsePrimary(toks: seq<Token>, p: nat): (r: Result<Parsed<Expr>, Error>)
    requires ValidTokens(toks) && p < |toks|
    ensures r.Ok? ==> p < r.value.next < |toks|
    decreases |toks| - p, 1, 0
  {
    var t := toks[p];
    if t.kind == Number then
      var lit :- NumberLiteral(t.text);
      Ok(Parsed(Lit(lit), p + 1))
    else if t.kind == String then Ok(Parsed(Lit(StrLit(t.text)), p + 1))
    else if t.kind == True then Ok(Parsed(Lit(BoolLit(true)), p + 1))
    else if t.kind == False then Ok(Parsed(Lit(BoolLit(false)), p + 1))
    else if t.kind == Identifier then ParseNamed(toks, p)
    else if t.kind == LParen then
      var e :- ParseExpression(toks, p + 1);
      var close :- Expect(toks, e.next, RParen);
      Ok(Parsed(e.value, close.next))
    else
      Err(ParseError(t, "Unexpected token in expression: " + KindName(t.kind)))
  }

  /** The identifier case of parse_primary(): a member chain when '.' follows the
      name; otherwise a call when '(' follows; otherwise the identifier itself. */
  function ParseNamed(toks: seq<Token>, p: nat): (r: Result<Parsed<Expr>, Error>)
    requires ValidTokens(toks) && p < |toks| && toks[p].kind == Identifier
    ensures r.Ok? ==> p < r.value.next < |toks|
    decreases |toks| - p, 0, 2
  {
    var name := toks[p].text;
    if toks[p + 1].kind == Dot then
      ParseMembers(toks, p + 1, Ident(name))
    else if toks[p + 1].kind == LParen then
      var args :- ParseArgList(toks, p + 1);
      Ok(Parsed(Call(name, args.value), args.next))
    else
      Ok(Parsed(Ident(name), p + 1))
  }

  /** The member loop of parse_primary(): member steps as long as a '.' comes next. */
  function ParseMembers(toks: seq<Token>, p: nat, obj: Expr): (r: Result<Parsed<Expr>, Error>)
    requires ValidTokens(toks) && p < |toks|
    ensures r.Ok? ==> p <= r.value.next < |toks|
    decreases |toks| - p, 0, 1
  {
    if toks[p].kind != Dot then Ok(Parsed(obj, p))
    else
      var m :- ParseMember(toks, p, obj);
      ParseMembers(toks, m.next, m.value)
  }

  /** One pass of the member loop, at a '.': the member name, and an argument list
      when '(' follows it. */
  function ParseMember(toks: seq<Token>, p: nat, obj: Expr): (r: Result<Parsed<Expr>, Error>)
    requires ValidTokens(toks) && p < |toks| && toks[p].kind == Dot
    ensures r.Ok? ==> p < r.value.next < |toks|
    decreases |toks| - p, 0, 0
  {
    var member :- Expect(toks, p + 1, Identifier);
    var q := member.next;
    if toks[q].kind == LParen then
      var args :- ParseArgList(toks, q);
      Ok(Parsed(MemberCall(obj, member.value.text, args.value), args.next))
    else
      Ok(Parsed(Member(obj, member.value.text), q))
  }

  /** A parenthesised argument list, at its '('.  The loop stops at the ')', so the
      expect(')') after it always succeeds. */
  function ParseArgList(toks: seq<Token>, p: nat): (r: Result<Parsed<seq<Expr>>, Error>)
    requires ValidTokens(toks) && p < |toks| && toks[p].kind == LParen
    ensures r.Ok? ==> p < r.value.next < |toks|
    decreases |toks| - p, 10, 1
  {
    var args :- ParseArgs(toks, p + 1, []);
    Ok(Parsed(args.value, Advance(toks, args.next)))
  }

  /** An argument loop: expressions up to ')', each optionally followed by ','.
      Stops at the ')' without consuming it. */
  function ParseArgs(toks: seq<Token>, p: nat, acc: seq<Expr>): (r: Result<Parsed<seq<Expr>>, Error>)
    requires ValidTokens(toks) && p < |toks|
    ensures r.Ok? ==> p <= r.value.next < |toks| && toks[r.value.next].kind == RParen
    decreases |toks| - p, 10, 0
  {
    if toks[p].kind == RParen then Ok(Parsed(acc, p))
    else
      var e :- ParseExpression(toks, p);
      ParseArgs(toks, SkipComma(toks, e.next), acc + [e.value])
  }

  /** The optional comma after a parameter or an argument. */
  function SkipComma(toks: seq<Token>, p: nat): (q: nat)
    requires ValidTokens(toks) && p < |toks|
    ensures q < |toks|
    ensures toks[p].kind == Comma ==> q == p + 1
    ensures toks[p].kind != Comma ==> q == p
  {
    if toks[p].kind == Comma then Advance(toks, p) else p
  }

  // ---------------------------------------------------------------------------
  // Statements

  /** parse_statement(): dispatch on the current token. */
  function ParseStatement(toks: seq<Token>, p: nat): (r: Result<Parsed<Stmt>, Error>)
    requires ValidTokens(toks) && p < |toks|
    ensures r.Ok? ==> p < r.value.next < |toks|
    decreases |toks| - p, 13, 0
  {
    var k := toks[p].kind;
    if k == Var then ParseVarDecl(toks, p)
    else if k == Function then ParseFunctionDecl(toks, p)
    else if k == Print then ParsePrint(toks, p)
    else if k == If then ParseIf(toks, p)
    else if k == While then ParseWhile(toks, p)
    else if k == For then ParseFor(toks, p)
    else if k == Return then ParseReturn(toks, p)
    else if k == Identifier then ParseAssignmentOrCall(toks, p)
    else Err(ParseError(toks[p], "Unexpected token: " + KindName(k)))
  }

  /** parse_var_declaration(): var name = expression. */
  function ParseVarDecl(toks: seq<Token>, p: nat): (r: Result<Parsed<Stmt>, Error>)
    requires ValidTokens(toks) && p < |toks|
    ensures r.Ok? ==> p < r.value.next < |toks|
    decreases |toks| - p, 11, 0
  {
    var kw :- Expect(toks, p, Var);
    var name :- Expect(toks, kw.next, Identifier);
    var eq :- Expect(toks, name.next, Assign);
    var value :- ParseExpression(toks, eq.next);
    Ok(Parsed(VarDecl(name.value.text, value.value), value.next))
  }

  /** The parameter loop: names up to ')', each optionally followed by ','. */
  function ParseParams(toks: seq<Token>, p: nat, acc: seq<string>): (r: Result<Parsed<seq<string>>, Error>)
    requires ValidTokens(toks) && p < |toks|
    ensures r.Ok? ==> p <= r.value.next < |toks| && toks[r.value.next].kind == RParen
    decreases |toks| - p
  {
    if toks[p].kind == RParen then Ok(Parsed(acc, p))
    else
      var id :- Expect(toks, p, Identifier);
      ParseParams(toks, SkipComma(toks, id.next), acc + [id.value.text])
  }

  /** parse_function_declaration(): function name(params): block. */
  function ParseFunctionDecl(toks: seq<Token>, p: nat): (r: Result<Parsed<Stmt>, Error>)
    requires ValidTokens(toks) && p < |toks|
    ensures r.Ok? ==> p < r.value.next < |toks|
    decreases |toks| - p, 11, 0
  {
    var kw :- Expect(toks, p, Function);
    var name :- Expect(toks, kw.next, Identifier);
    var open :- Expect(toks, name.next, LParen);
    var params :- ParseParams(toks, open.next, []);
    var body :- ParseClosedBlock(toks, params.next);
    Ok(Parsed(FunctionDecl(name.value.text, params.value, body.value), body.next))
  }

  /** parse_block(): statements in braces, or else exactly one statement. */
  function ParseBlock(toks: seq<Token>, p: nat): (r: Result<Parsed<seq<Stmt>>, Error>)
    requires ValidTokens(toks) && p < |toks|
    ensures r.Ok? ==> p < r.value.next < |toks|
    decreases |toks| - p, 14, 0
  {
    if toks[p].kind == LBrace then
      var body :- ParseBlockRest(toks, p + 1, []);
      Ok(Parsed(body.value, Advance(toks, body.next)))
    else
      var s :- ParseStatement(toks, p);
      Ok(Parsed([s.value], s.next))
  }

  /** The loop of a brace block: statements up to '}', which is left unconsumed. */
  function ParseBlockRest(toks: seq<Token>, p: nat, acc: seq<Stmt>): (r: Result<Parsed<seq<Stmt>>, Error>)
    requires ValidTokens(toks) && p < |toks|
    ensures r.Ok? ==> p <= r.value.next < |toks| && toks[r.value.next].kind == RBrace
    decreases |toks| - p, 15, 0
  {
    if toks[p].kind == RBrace then Ok(Parsed(acc, p))
    else
      var s :- ParseStatement(toks, p);
      ParseBlockRest(toks, s.next, acc + [s.value])
  }

  /** parse_print(): print(expression). */
  function ParsePrint(toks: seq<Token>, p: nat): (r: Result<Parsed<Stmt>, Error>)
    requires ValidTokens(toks) && p < |toks|
    ensures r.Ok? ==> p < r.value.next < |toks|
    decreases |toks| - p, 11, 0
  {
    var kw :- Expect(toks, p, Print);
    var open :- Expect(toks, kw.next, LParen);
    var value :- ParseExpression(toks, open.next);
    var close :- Expect(toks, value.next, RParen);
    Ok(Parsed(PrintStmt(value.value), close.next))
  }

  /** The '(' condition ')' ':' header shared by if and while. */
  function ParseCondition(toks: seq<Token>, p: nat): (r: Result<Parsed<Expr>, Error>)
    requires ValidTokens(toks) && p < |toks|
    ensures r.Ok? ==> p < r.value.next < |toks|
    decreases |toks| - p, 10, 0
  {
    var open :- Expect(toks, p, LParen);
    var cond :- ParseExpression(toks, open.next);
    CloseCondition(toks, cond)
  }

  /** The ')' ':' after a condition. */
  function CloseCondition(toks: seq<Token>, cond: Parsed<Expr>): (r: Result<Parsed<Expr>, Error>)
    requires ValidTokens(toks) && cond.next < |toks|
    ensures r.Ok? ==> cond.next < r.value.next < |toks|
  {
    var close :- Expect(toks, cond.next, RParen);
    var colon :- Expect(toks, close.next, Colon);
    Ok(Parsed(cond.value, colon.next))
  }

  /** parse_if(): if (condition): block, then optionally else: block. */
  function ParseIf(toks: seq<Token>, p: nat): (r: Result<Parsed<Stmt>, Error>)
    requires ValidTokens(toks) && p < |toks|
    ensures r.Ok? ==> p < r.value.next < |toks|
    decreases |toks| - p, 11, 0
  {
    var kw :- Expect(toks, p, If);
    var cond :- ParseCondition(toks, kw.next);
    var thenBody :- ParseBlock(toks, cond.next);
    var elseBody :- ParseElse(toks, thenBody.next);
    Ok(Parsed(IfStmt(cond.value, thenBody.value, elseBody.value), elseBody.next))
  }

  /** The optional else part of parse_if(): else: block, or no statements. */
  function ParseElse(toks: seq<Token>, p: nat): (r: Result<Parsed<seq<Stmt>>, Error>)
    requires ValidTokens(toks) && p < |toks|
    ensures r.Ok? ==> p <= r.value.next < |toks|
    decreases |toks| - p, 12, 0
  {
    if toks[p].kind == Else then
      var colon :- Expect(toks, p + 1, Colon);
      ParseBlock(toks, colon.next)
    else
      Ok(Parsed([], p))
  }

  /** parse_while(): while (condition): block. */
  function ParseWhile(toks: seq<Token>, p: nat): (r: Result<Parsed<Stmt>, Error>)
    requires ValidTokens(toks) && p < |toks|
    ensures r.Ok? ==> p < r.value.next < |toks|
    decreases |toks| - p, 11, 0
  {
    var kw :- Expect(toks, p, While);
    var cond :- ParseCondition(toks, kw.next);
    var body :- ParseBlock(toks, cond.next);
    Ok(Parsed(WhileStmt(cond.value, body.value), body.next))
  }

  /** The optional init clause of a for loop: a var declaration when VAR comes next. */
  function ParseForInit(toks: seq<Token>, p: nat): (r: Result<Parsed<Option<Stmt>>, Error>)
    requires ValidTokens(toks) && p < |toks|
    ensures r.Ok? ==> p <= r.value.next < |toks|
    ensures r.Ok? && r.value.value.Some? ==> r.value.value.value.VarDecl?
    decreases |toks| - p, 12, 0
  {
    if toks[p].kind == Var then
      var init :- ParseVarDecl(toks, p);
      assert init.value.VarDecl?;
      Ok(Parsed(Some(init.value), init.next))
    else
      Ok(Parsed(None, p))
  }

  /** parse_for(): for (init : condition : update): block. */
  function ParseFor(toks: seq<Token>, p: nat): (r: Result<Parsed<Stmt>, Error>)
    requires ValidTokens(toks) && p < |toks|
    ensures r.Ok? ==> p < r.value.next < |toks|
    decreases |toks| - p, 12, 2
  {
    var kw :- Expect(toks, p, For);
    var open :- Expect(toks, kw.next, LParen);
    var header :- ParseForHeader(toks, open.next);
    var update :- ParseAssignmentOrCall(toks, header.next);
    var body :- ParseClosedBlock(toks, update.next);
    Ok(Parsed(ForStmt(header.value.0, header.value.1, update.value, body.value), body.next))
  }

  /** The init and condition clauses of parse_for(), each closed by ':'. */
  function ParseForHeader(toks: seq<Token>, p: nat): (r: Result<Parsed<(Option<Stmt>, Expr)>, Error>)
    requires ValidTokens(toks) && p < |toks|
    ensures r.Ok? ==> p < r.value.next < |toks|
    ensures r.Ok? && r.value.value.0.Some? ==> r.value.value.0.value.VarDecl?
    decreases |toks| - p, 12, 1
  {
    var init :- ParseForInit(toks, p);
    var colon1 :- Expect(toks, init.next, Colon);
    var cond :- ParseExpression(toks, colon1.next);
    var colon2 :- Expect(toks, cond.next, Colon);
    Ok(Parsed((init.value, cond.value), colon2.next))
  }

  /** The ') :' block that ends a function declaration and a for loop. */
  function ParseClosedBlock(toks: seq<Token>, p: nat): (r: Result<Parsed<seq<Stmt>>, Error>)
    requires ValidTokens(toks) && p < |toks|
    ensures r.Ok? ==> p < r.value.next < |toks|
    decreases |toks| - p, 15, 0
  {
    var close :- Expect(toks, p, RParen);
    var colon :- Expect(toks, close.next, Colon);
    ParseBlock(toks, colon.next)
  }

  /** parse_return(): return, with a value unless EOF or '}' comes next. */
  function ParseReturn(toks: seq<Token>, p: nat): (r: Result<Parsed<Stmt>, Error>)
    requires ValidTokens(toks) && p < |toks|
    ensures r.Ok? ==> p < r.value.next < |toks|
    decreases |toks| - p, 11, 0
  {
    var kw :- Expect(toks, p, Return);
    var q := kw.next;
    if toks[q].kind != EOF && toks[q].kind != RBrace then
      var value :- ParseExpression(toks, q);
      Ok(Parsed(ReturnStmt(Some(value.value)), value.next))
    else
      Ok(Parsed(ReturnStmt(None), q))
  }

  /** parse_assignment_or_call(): an expression, and when '=' follows, the value
      assigned to it. */
  function ParseAssignmentOrCall(toks: seq<Token>, p: nat): (r: Result<Parsed<Stmt>, Error>)
    requires ValidTokens(toks) && p < |toks|
    ensures r.Ok? ==> p < r.value.next < |toks|
    decreases |toks| - p, 11, 0
  {
    var target :- ParseExpression(toks, p);
    if toks[target.next].kind == Assign then
      var value :- ParseExpression(toks, target.next + 1);
      Ok(Parsed(AssignStmt(target.value, value.value), value.next))
    else
      Ok(Parsed(ExprStmt(target.value), target.next))
  }

  /** The loop of parse(): statements until EOF. */
  function ParseStatements(toks: seq<Token>, p: nat, acc: seq<Stmt>): (r: Result<seq<Stmt>, Error>)
    requires ValidTokens(toks) && p < |toks|
    decreases |toks| - p, 16, 0
  {
    if toks[p].kind == EOF then Ok(acc)
    else
      var s :- ParseStatement(toks, p);
      ParseStatements(toks, s.next, acc + [s.value])
  }

  /** parse() on a fresh parser. */
  function Parse(toks: seq<Token>): Result<seq<Stmt>, Error>
    requires ValidTokens(toks)
  {
    ParseStatements(toks, 0, [])
  }
}
