/**
 * Properties of the grammar functions of module Parsing.
 *
 * The central one is a round trip through a printer: Print writes an expression
 * as tokens, putting parentheses only where the precedence ladder
 * or < and < equality < comparison < additive < multiplicative < unary
 * requires them (a left operand at the level of its operator needs none, a right
 * operand at that level does).  ParseExpression reads every printed expression back
 * as the same tree, which is precedence and left associativity in one statement.
 */
module ParserProperties {
  import opened Wrappers
  import opened Tokens
  import opened Errors
  import opened Decimal
  import opened Lexing
  import opened Syntax
  import opened Parsing

  // ---------------------------------------------------------------------------
  // Printing expressions as tokens

  function Tok(k: TokenKind, text: string): Token { Token(k, text, 1) }

  const EofToken := Tok(EOF, "")

  /** The precedence level of a binary operator, as LevelOp numbers them. */
  function BinLevel(op: BinOp): nat
  {
    match op
    case Or => 0
    case And => 1
    case Eq | Ne => 2
    case Lt | Gt | Le | Ge => 3
    case Add | Sub => 4
    case Mul | Div | Mod => 5
  }

  function OpToken(op: BinOp): Token
  {
    match op
    case Or => Tok(Identifier, "or")
    case And => Tok(Identifier, "and")
    case Eq => Tok(Equal, "==")
    case Ne => Tok(NotEqual, "!=")
    case Lt => Tok(Less, "<")
    case Gt => Tok(Greater, ">")
    case Le => Tok(LessEqual, "<=")
    case Ge => Tok(GreaterEqual, ">=")
    case Add => Tok(Plus, "+")
    case Sub => Tok(Minus, "-")
    case Mul => Tok(Multiply, "*")
    case Div => Tok(Divide, "/")
    case Mod => Tok(Modulo, "%")
  }

  function UnToken(u: UnOp): Token
  {
    match u
    case Neg => Tok(Minus, "-")
    case LogicalNot => Tok(Not, "!")
  }

  /** How tightly an expression binds: its operator's level, 6 for a unary
      expression, 7 for a primary. */
  function Prec(e: Expr): nat
  {
    match e
    case Binary(op, _, _) => BinLevel(op)
    case Unary(_, _) => 6
    case _ => 7
  }

  /** Member chains: parse_primary() reads '.' members only after a name. */
  predicate Chain(e: Expr)
  {
    match e
    case Ident(_) => true
    case Member(obj, _) => Chain(obj)
    case MemberCall(obj, _, _) => Chain(obj)
    case _ => false
  }

  /** The name a member chain starts with. */
  function Base(e: Expr): string
    requires Chain(e)
  {
    match e
    case Ident(name) => name
    case Member(obj, _) => Base(obj)
    case MemberCall(obj, _, _) => Base(obj)
  }

  /** The nodes of e without a token form: a negative integer literal (the parser
      reads "-n" as a unary minus applied to n), a float literal (left to
      NumberLiteral's own lemmas), and a member hanging off anything but a chain. */
  function Unprintable(e: Expr): nat
    decreases e, 1
  {
    match e
    case Lit(lit) => if lit.FloatLit? || (lit.IntLit? && lit.i < 0) then 1 else 0
    case Ident(_) => 0
    case Binary(_, left, right) => Unprintable(left) + Unprintable(right)
    case Unary(_, operand) => Unprintable(operand)
    case Call(_, args) => UnprintableArgs(args)
    case Member(obj, _) => (if Chain(obj) then 0 else 1) + Unprintable(obj)
    case MemberCall(obj, _, args) =>
      (if Chain(obj) then 0 else 1) + Unprintable(obj) + UnprintableArgs(args)
  }

  function UnprintableArgs(args: seq<Expr>): nat
    decreases args, 0
  {
    if |args| == 0 then 0 else Unprintable(args[0]) + UnprintableArgs(args[1..])
  }

  /** Expressions that have a token form. */
  predicate Printable(e: Expr)
  {
    Unprintable(e) == 0
  }

  predicate PrintableArgs(args: seq<Expr>)
  {
    UnprintableArgs(args) == 0
  }

  /** Names and literals with a token form. */
  predicate Leaf(e: Expr)
  {
    e.Ident? || (e.Lit? && !e.lit.FloatLit? && !(e.lit.IntLit? && e.lit.i < 0))
  }

  function LeafToken(e: Expr): Token
    requires Leaf(e)
  {
    match e
    case Ident(name) => Tok(Identifier, name)
    case Lit(lit) =>
      match lit
      case IntLit(n) => Tok(Number, NatToString(n))
      case StrLit(s) => Tok(String, s)
      case BoolLit(b) => if b then Tok(True, "true") else Tok(False, "false")
  }

  function Print(e: Expr): seq<Token>
    requires Printable(e)
    decreases e, 1
  {
    match e
    case Lit(_) => [LeafToken(e)]
    case Ident(_) => [LeafToken(e)]
    case Binary(op, left, right) =>
      Wrap(left, BinLevel(op)) + [OpToken(op)] + Wrap(right, BinLevel(op) + 1)
    case Unary(u, operand) => [UnToken(u)] + Wrap(operand, 6)
    case Call(name, args) =>
      [Tok(Identifier, name), Tok(LParen, "(")] + PrintArgs(args) + [Tok(RParen, ")")]
    case Member(obj, member) => Print(obj) + [Tok(Dot, "."), Tok(Identifier, member)]
    case MemberCall(obj, member, args) =>
      Print(obj) + [Tok(Dot, "."), Tok(Identifier, member), Tok(LParen, "(")]
      + PrintArgs(args) + [Tok(RParen, ")")]
  }

  /** e printed where an operand of level m is read: in parentheses exactly when e
      binds more loosely than m. */
  function Wrap(e: Expr, m: nat): seq<Token>
    requires Printable(e)
    decreases e, 2
  {
    if Prec(e) >= m then Print(e) else [Tok(LParen, "(")] + Print(e) + [Tok(RParen, ")")]
  }

  function PrintArgs(args: seq<Expr>): seq<Token>
    requires PrintableArgs(args)
    decreases args, 0
  {
    if |args| == 0 then []
    else if |args| == 1 then Print(args[0])
    else Print(args[0]) + [Tok(Comma, ",")] + PrintArgs(args[1..])
  }

  // ---------------------------------------------------------------------------
  // Token positions

  /** The tokens s sit in toks from position p up to position q. */
  predicate Span(toks: seq<Token>, p: nat, s: seq<Token>, q: nat)
    decreases s
  {
    if |s| == 0 then p == q else p < |toks| && toks[p] == s[0] && Span(toks, p + 1, s[1..], q)
  }

  lemma {:induction false} SpanSplit(toks: seq<Token>, p: nat, a: seq<Token>, b: seq<Token>, q: nat)
    requires Span(toks, p, a + b, q) == true
    ensures Span(toks, p, a, p + |a|) && Span(toks, p + |a|, b, q)
    decreases a
  {
    if |a| > 0 {
      assert (a + b)[0] == a[0];
      assert (a + b)[1..] == a[1..] + b;
      SpanSplit(toks, p + 1, a[1..], b, q);
    } else {
      assert a + b == b;
    }
  }

  lemma SpanSingle(toks: seq<Token>, p: nat, t: Token, q: nat)
    requires Span(toks, p, [t], q) == true
    ensures p < |toks| && toks[p] == t && q == p + 1
  {
    assert [t][1..] == [];
  }

  lemma SpanFirst(toks: seq<Token>, p: nat, s: seq<Token>, q: nat)
    requires Span(toks, p, s, q) == true && |s| > 0
    ensures p < |toks| && toks[p] == s[0]
  {
  }

  lemma {:induction false} SpanShift(a: seq<Token>, s: seq<Token>, t: seq<Token>)
    ensures Span(a + s + t, |a|, s, |a| + |s|)
    decreases s
  {
    if |s| > 0 {
      assert (a + s + t)[|a|] == s[0];
      assert a + s + t == (a + [s[0]]) + s[1..] + t;
      SpanShift(a + [s[0]], s[1..], t);
    }
  }

  lemma SpanPrefix(s: seq<Token>, t: seq<Token>)
    ensures Span(s + t, 0, s, |s|)
  {
    SpanShift([], s, t);
    assert [] + s + t == s + t;
  }

  /** The level of the operator a token stands for, if any. */
  function OpLevel(t: Token): Option<nat>
  {
    match t.kind
    case Identifier => if t.text == "or" then Some(0) else if t.text == "and" then Some(1) else None
    case Equal => Some(2)
    case NotEqual => Some(2)
    case Less => Some(3)
    case Greater => Some(3)
    case LessEqual => Some(3)
    case GreaterEqual => Some(3)
    case Plus => Some(4)
    case Minus => Some(4)
    case Multiply => Some(5)
    case Divide => Some(5)
    case Modulo => Some(5)
    case _ => None
  }

  lemma OpLevelOf(j: nat, t: Token)
    requires LevelOp(j, t).Some?
    ensures OpLevel(t) == Some(j)
  {
  }

  /** A token that cannot extend an operand read at level m: no operator of a
      tighter level, no '.' and no '('. */
  predicate Ends(t: Token, m: nat)
  {
    t.kind != Dot && t.kind != LParen && (OpLevel(t).None? || OpLevel(t).value <= m)
  }

  lemma NoTighterOp(t: Token, m: nat, j: nat)
    requires Ends(t, m) && m < j
    ensures LevelOp(j, t).None?
  {
    if LevelOp(j, t).Some? {
      OpLevelOf(j, t);
    }
  }

  lemma OpTokenLevel(op: BinOp)
    ensures LevelOp(BinLevel(op), OpToken(op)) == Some(op)
    ensures OpLevel(OpToken(op)) == Some(BinLevel(op))
    ensures Ends(OpToken(op), BinLevel(op))
  {
    OpLevelOf(BinLevel(op), OpToken(op));
  }

  // ---------------------------------------------------------------------------
  // Single parse steps, stated without the printer

  lemma RestEnds(toks: seq<Token>, q: nat, k: nat, e: Expr)
    requires ValidTokens(toks) && q < |toks| && k <= 5 && LevelOp(k, toks[q]).None?
    ensures ParseLevelRest(toks, q, k, e) == Ok(Parsed(e, q))
  {
  }

  lemma RestStep(toks: seq<Token>, pl: nat, q: nat, k: nat, op: BinOp, left: Expr, right: Expr)
    requires ValidTokens(toks) && pl + 1 < q < |toks| && k <= 5
    requires LevelOp(k, toks[pl]) == Some(op)
    requires ParseOperand(toks, pl + 1, k) == Ok(Parsed(right, q))
    ensures ParseLevelRest(toks, pl, k, left) == ParseLevelRest(toks, q, k, Binary(op, left, right))
  {
    LevelOpNotEof(k, toks[pl]);
  }

  lemma LevelOfOperand(toks: seq<Token>, p: nat, q: nat, m: nat, e: Expr)
    requires ValidTokens(toks) && p < q < |toks| && m <= 5
    requires ParseOperand(toks, p, m) == Ok(Parsed(e, q))
    ensures ParseLevel(toks, p, m) == ParseLevelRest(toks, q, m, e)
  {
  }

  lemma OperandOfLevel(toks: seq<Token>, p: nat, q: nat, k: nat, e: Expr)
    requires ValidTokens(toks) && p < q < |toks| && k < 5
    requires ParseLevel(toks, p, k + 1) == ParseLevelRest(toks, q, k + 1, e)
    requires LevelOp(k + 1, toks[q]).None?
    ensures ParseOperand(toks, p, k) == Ok(Parsed(e, q))
  {
    RestEnds(toks, q, k + 1, e);
  }

  lemma OperandOfUnary(toks: seq<Token>, p: nat, q: nat, e: Expr)
    requires ValidTokens(toks) && p < q < |toks|
    requires ParseUnary(toks, p) == Ok(Parsed(e, q))
    ensures ParseOperand(toks, p, 5) == Ok(Parsed(e, q))
  {
  }

  lemma UnaryOfPrimary(toks: seq<Token>, p: nat, q: nat, e: Expr)
    requires ValidTokens(toks) && p < q < |toks| && toks[p].kind != Not && toks[p].kind != Minus
    requires ParsePrimary(toks, p) == Ok(Parsed(e, q))
    ensures ParseUnary(toks, p) == Ok(Parsed(e, q))
  {
  }

  lemma UnaryStep(toks: seq<Token>, p: nat, q: nat, u: UnOp, e: Expr)
    requires ValidTokens(toks) && p + 1 < q < |toks| && toks[p] == UnToken(u)
    requires ParseUnary(toks, p + 1) == Ok(Parsed(e, q))
    ensures ParseUnary(toks, p) == Ok(Parsed(Unary(u, e), q))
  {
  }

  /** '(' expression ')' is a primary, and so an operand of parse_unary(). */
  lemma ParenStep(toks: seq<Token>, p: nat, q: nat, e: Expr)
    requires ValidTokens(toks) && p + 2 < q < |toks|
    requires toks[p].kind == LParen && toks[q - 1].kind == RParen
    requires ParseExpression(toks, p + 1) == Ok(Parsed(e, q - 1))
    ensures ParseUnary(toks, p) == Ok(Parsed(e, q))
  {
    ParenPrimaryStep(toks, p, q, e);
    UnaryOfPrimary(toks, p, q, e);
  }

  lemma ParenPrimaryStep(toks: seq<Token>, p: nat, q: nat, e: Expr)
    requires ValidTokens(toks) && p + 2 < q < |toks|
    requires toks[p].kind == LParen && toks[q - 1].kind == RParen
    requires ParseExpression(toks, p + 1) == Ok(Parsed(e, q - 1))
    ensures ParsePrimary(toks, p) == Ok(Parsed(e, q))
  {
    ExpectClose(toks, q - 1);
  }

  lemma ExpectClose(toks: seq<Token>, i: nat)
    requires ValidTokens(toks) && i + 1 < |toks| && toks[i].kind == RParen
    ensures Expect(toks, i, RParen) == Ok(Parsed(toks[i], i + 1))
  {
  }

  lemma ExpressionOfLevel(toks: seq<Token>, p: nat, q: nat, e: Expr)
    requires ValidTokens(toks) && p < q < |toks|
    requires ParseLevel(toks, p, 0) == ParseLevelRest(toks, q, 0, e)
    requires LevelOp(0, toks[q]).None?
    ensures ParseExpression(toks, p) == Ok(Parsed(e, q))
  {
    RestEnds(toks, q, 0, e);
  }

  /** A non-negative integer literal reads back as itself. */
  lemma NumberOfNat(n: nat)
    ensures NumberShaped(NatToString(n))
    ensures NumberLiteral(NatToString(n)) == Ok(IntLit(n))
  {
    var s := NatToString(n);
    assert IsDigit(s[0]);
    assert forall i :: 0 <= i < |s| ==> s[i] != '.' by {
      forall i | 0 <= i < |s| ensures s[i] != '.' {
        assert IsDigit(s[i]);
      }
    }
    DigitsValueOfNatToString(n);
  }

  lemma LiteralStep(toks: seq<Token>, p: nat, e: Expr)
    requires ValidTokens(toks) && p + 1 < |toks| && e.Lit? && Leaf(e)
    requires toks[p] == LeafToken(e) && toks[p + 1].kind != Dot && toks[p + 1].kind != LParen
    ensures ParsePrimary(toks, p) == Ok(Parsed(e, p + 1))
  {
    if e.lit.IntLit? {
      NumberOfNat(e.lit.i);
    }
  }

  lemma IdentStep(toks: seq<Token>, p: nat, name: string)
    requires ValidTokens(toks) && p + 1 < |toks| && toks[p] == Tok(Identifier, name)
    requires toks[p + 1].kind != Dot && toks[p + 1].kind != LParen
    ensures ParsePrimary(toks, p) == Ok(Parsed(Ident(name), p + 1))
  {
  }

  lemma CallStep(toks: seq<Token>, p: nat, q: nat, name: string, args: seq<Expr>)
    requires ValidTokens(toks) && p + 2 < q < |toks|
    requires toks[p] == Tok(Identifier, name) && toks[p + 1].kind == LParen
    requires toks[q - 1].kind == RParen
    requires ParseArgs(toks, p + 2, []) == Ok(Parsed(args, q - 1))
    ensures ParsePrimary(toks, p) == Ok(Parsed(Call(name, args), q))
  {
    ArgListStep(toks, p + 1, q, args);
  }

  lemma ArgListStep(toks: seq<Token>, l: nat, q: nat, args: seq<Expr>)
    requires ValidTokens(toks) && l + 1 < q < |toks| && toks[l].kind == LParen
    requires ParseArgs(toks, l + 1, []) == Ok(Parsed(args, q - 1))
    ensures ParseArgList(toks, l) == Ok(Parsed(args, q))
  {
  }

  lemma SkipNoComma(toks: seq<Token>, q: nat)
    requires ValidTokens(toks) && q < |toks| && toks[q].kind == RParen
    ensures SkipComma(toks, q) == q
  {
  }

  lemma SkipOneComma(toks: seq<Token>, q: nat)
    requires ValidTokens(toks) && q < |toks| && toks[q].kind == Comma
    ensures SkipComma(toks, q) == q + 1
  {
  }

  lemma ArgsEnd(toks: seq<Token>, p: nat, acc: seq<Expr>)
    requires ValidTokens(toks) && p < |toks| && toks[p].kind == RParen
    ensures ParseArgs(toks, p, acc) == Ok(Parsed(acc, p))
  {
  }

  lemma ArgsLast(toks: seq<Token>, p: nat, q: nat, a: Expr, acc: seq<Expr>)
    requires ValidTokens(toks) && p < q < |toks| && toks[p].kind != RParen && toks[q].kind == RParen
    requires ParseExpression(toks, p) == Ok(Parsed(a, q))
    ensures ParseArgs(toks, p, acc) == Ok(Parsed(acc + [a], q))
  {
    SkipNoComma(toks, q);
    ArgsEnd(toks, q, acc + [a]);
  }

  lemma ArgsMore(toks: seq<Token>, p: nat, q: nat, a: Expr, acc: seq<Expr>)
    requires ValidTokens(toks) && p < q && q + 1 < |toks| && toks[p].kind != RParen
    requires toks[q].kind == Comma
    requires ParseExpression(toks, p) == Ok(Parsed(a, q))
    ensures ParseArgs(toks, p, acc) == ParseArgs(toks, q + 1, acc + [a])
  {
    SkipOneComma(toks, q);
  }

  lemma NamedMembers(toks: seq<Token>, p: nat, name: string)
    requires ValidTokens(toks) && p + 1 < |toks|
    requires toks[p] == Tok(Identifier, name) && toks[p + 1].kind == Dot
    ensures ParsePrimary(toks, p) == ParseMembers(toks, p + 1, Ident(name))
  {
  }

  lemma MembersEnd(toks: seq<Token>, q: nat, obj: Expr)
    requires ValidTokens(toks) && q < |toks| && toks[q].kind != Dot
    ensures ParseMembers(toks, q, obj) == Ok(Parsed(obj, q))
  {
  }

  /** '.' name, not followed by '(': a member access. */
  lemma MemberStep(toks: seq<Token>, q: nat, obj: Expr, member: string)
    requires ValidTokens(toks) && 2 <= q < |toks|
    requires toks[q - 2].kind == Dot && toks[q - 1] == Tok(Identifier, member) && toks[q].kind != LParen
    ensures ParseMembers(toks, q - 2, obj) == ParseMembers(toks, q, Member(obj, member))
  {
  }

  /** '.' name '(' arguments ')': a member call. */
  lemma MemberCallParsed(toks: seq<Token>, d: nat, q: nat, obj: Expr, member: string, args: seq<Expr>)
    requires ValidTokens(toks) && d + 3 < q < |toks|
    requires toks[d].kind == Dot && toks[d + 1] == Tok(Identifier, member) && toks[d + 2].kind == LParen
    requires ParseArgList(toks, d + 2) == Ok(Parsed(args, q))
    ensures ParseMember(toks, d, obj) == Ok(Parsed(MemberCall(obj, member, args), q))
  {
  }

  lemma MemberCallStep(toks: seq<Token>, d: nat, q: nat, obj: Expr, member: string, args: seq<Expr>)
    requires ValidTokens(toks) && d + 3 < q < |toks|
    requires toks[d].kind == Dot && toks[d + 1] == Tok(Identifier, member) && toks[d + 2].kind == LParen
    requires toks[q - 1].kind == RParen
    requires ParseArgs(toks, d + 3, []) == Ok(Parsed(args, q - 1))
    ensures ParseMembers(toks, d, obj) == ParseMembers(toks, q, MemberCall(obj, member, args))
  {
    ArgListStep(toks, d + 2, q, args);
    MemberCallParsed(toks, d, q, obj, member, args);
  }

  /** Once level k has read e up to q, every looser level m reads the same e and
      goes on at q with its own operators. */
  lemma {:induction false} Climb(toks: seq<Token>, p: nat, q: nat, e: Expr, m: nat, k: nat)
    requires ValidTokens(toks) && p < q < |toks| && m <= k <= 5
    requires ParseLevel(toks, p, k) == ParseLevelRest(toks, q, k, e)
    requires Ends(toks[q], m)
    ensures ParseLevel(toks, p, m) == ParseLevelRest(toks, q, m, e)
    decreases k - m
  {
    if m < k {
      Climb(toks, p, q, e, m + 1, k);
      NoTighterOp(toks[q], m, m + 1);
      OperandOfLevel(toks, p, q, m, e);
      LevelOfOperand(toks, p, q, m, e);
    }
  }

  /** A unary expression read by parse_unary() is read by every level m, which goes
      on with its own operators. */
  lemma LevelOfUnary(toks: seq<Token>, p: nat, q: nat, e: Expr, m: nat)
    requires ValidTokens(toks) && p < q < |toks| && m <= 5
    requires ParseUnary(toks, p) == Ok(Parsed(e, q)) && Ends(toks[q], m)
    ensures ParseLevel(toks, p, m) == ParseLevelRest(toks, q, m, e)
  {
    OperandOfUnary(toks, p, q, e);
    LevelOfOperand(toks, p, q, 5, e);
    Climb(toks, p, q, e, m, 5);
  }

  lemma BinaryStep(toks: seq<Token>, p: nat, pl: nat, q: nat, op: BinOp, left: Expr, right: Expr)
    requires ValidTokens(toks) && p < pl && pl + 1 < q < |toks|
    requires toks[pl] == OpToken(op)
    requires ParseLevel(toks, p, BinLevel(op)) == ParseLevelRest(toks, pl, BinLevel(op), left)
    requires ParseOperand(toks, pl + 1, BinLevel(op)) == Ok(Parsed(right, q))
    ensures ParseLevel(toks, p, BinLevel(op)) == ParseLevelRest(toks, q, BinLevel(op), Binary(op, left, right))
  {
    OpTokenLevel(op);
    RestStep(toks, pl, q, BinLevel(op), op, left, right);
  }

  // ---------------------------------------------------------------------------
  // Where the printer puts the parts of an expression, stated without the parser

  /** The tokens of a + [t] + b, in place. */
  lemma SpanMiddle(toks: seq<Token>, p: nat, a: seq<Token>, t: Token, b: seq<Token>, q: nat)
    requires Span(toks, p, a + ([t] + b), q) == true
    ensures Span(toks, p, a, p + |a|) && p + |a| < |toks| && toks[p + |a|] == t
    ensures Span(toks, p + |a| + 1, b, q)
  {
    SpanSplit(toks, p, a, [t] + b, q);
    SpanSplit(toks, p + |a|, [t], b, q);
    SpanSingle(toks, p + |a|, t, p + |a| + 1);
  }

  /** The tokens of [t] + b, in place. */
  lemma SpanCons(toks: seq<Token>, p: nat, t: Token, b: seq<Token>, q: nat)
    requires Span(toks, p, [t] + b, q) == true
    ensures p < |toks| && toks[p] == t && Span(toks, p + 1, b, q)
  {
    assert ([t] + b)[1..] == b;
  }

  /** The tokens of a + [t], in place. */
  lemma SpanSnoc(toks: seq<Token>, p: nat, a: seq<Token>, t: Token, q: nat)
    requires Span(toks, p, a + [t], q) == true
    ensures p + 1 <= q && q - 1 < |toks| && toks[q - 1] == t && Span(toks, p, a, q - 1)
  {
    SpanSplit(toks, p, a, [t], q);
    SpanSingle(toks, p + |a|, t, q);
  }

  lemma PrintBinaryShape(op: BinOp, l: Expr, r: Expr)
    requires Printable(Binary(op, l, r))
    ensures Printable(l) && Printable(r)
    ensures Print(Binary(op, l, r)) == Wrap(l, BinLevel(op)) + ([OpToken(op)] + Wrap(r, BinLevel(op) + 1))
  {
  }

  lemma PrintUnaryShape(u: UnOp, x: Expr)
    requires Printable(Unary(u, x))
    ensures Printable(x) && Print(Unary(u, x)) == [UnToken(u)] + Wrap(x, 6)
  {
  }

  lemma WrapParenShape(e: Expr, m: nat)
    requires Printable(e) && Prec(e) < m
    ensures Wrap(e, m) == [Tok(LParen, "(")] + (Print(e) + [Tok(RParen, ")")])
  {
  }

  lemma PrintCallShape(name: string, args: seq<Expr>)
    requires Printable(Call(name, args))
    ensures PrintableArgs(args)
    ensures Print(Call(name, args))
      == [Tok(Identifier, name)] + ([Tok(LParen, "(")] + (PrintArgs(args) + [Tok(RParen, ")")]))
  {
  }

  lemma PrintMemberShape(obj: Expr, member: string)
    requires Printable(Member(obj, member))
    ensures Printable(obj) && Chain(obj)
    ensures Print(Member(obj, member)) == Print(obj) + [Tok(Dot, ".")] + [Tok(Identifier, member)]
  {
  }

  lemma PrintMemberCallShape(obj: Expr, member: string, args: seq<Expr>)
    requires Printable(MemberCall(obj, member, args))
    ensures Printable(obj) && Chain(obj) && PrintableArgs(args)
    ensures Print(MemberCall(obj, member, args))
      == Print(obj) + ([Tok(Dot, ".")] + ([Tok(Identifier, member)] + ([Tok(LParen, "(")]
         + (PrintArgs(args) + [Tok(RParen, ")")]))))
  {
  }

  lemma PrintArgsShape(args: seq<Expr>)
    requires PrintableArgs(args) && |args| >= 1
    ensures Printable(args[0]) && PrintableArgs(args[1..])
    ensures |args| == 1 ==> PrintArgs(args) == Print(args[0])
    ensures |args| > 1 ==> PrintArgs(args) == Print(args[0]) + ([Tok(Comma, ",")] + PrintArgs(args[1..]))
  {
    PrintableArgsHead(args);
    if |args| > 1 {
      PrintArgsCons(args);
    }
  }

  lemma PrintableArgsHead(args: seq<Expr>)
    requires PrintableArgs(args) && |args| >= 1
    ensures Printable(args[0]) && PrintableArgs(args[1..])
  {
    assert UnprintableArgs(args) == Unprintable(args[0]) + UnprintableArgs(args[1..]);
  }

  lemma PrintArgsCons(args: seq<Expr>)
    requires PrintableArgs(args) && |args| > 1 && Printable(args[0]) && PrintableArgs(args[1..])
    ensures PrintArgs(args) == Print(args[0]) + ([Tok(Comma, ",")] + PrintArgs(args[1..]))
  {
    var head, rest := Print(args[0]), PrintArgs(args[1..]);
    assert PrintArgs(args) == head + [Tok(Comma, ",")] + rest;
    ConcatAssoc(head, [Tok(Comma, ",")], rest);
  }

  lemma ConcatAssoc<T>(a: seq<T>, b: seq<T>, c: seq<T>)
    ensures a + b + c == a + (b + c)
  {
  }

  lemma LayoutBinary(toks: seq<Token>, p: nat, mid: nat, q: nat, e: Expr)
    requires Printable(e) && e.Binary? && Span(toks, p, Print(e), q) == true
    requires mid == p + |Wrap(e.left, BinLevel(e.op))|
    ensures Printable(e.left) && Printable(e.right)
    ensures Span(toks, p, Wrap(e.left, BinLevel(e.op)), mid) == true
    ensures mid < |toks| && toks[mid] == OpToken(e.op)
    ensures Span(toks, mid + 1, Wrap(e.right, BinLevel(e.op) + 1), q) == true
  {
    PrintBinaryShape(e.op, e.left, e.right);
    SpanMiddle(toks, p, Wrap(e.left, BinLevel(e.op)), OpToken(e.op), Wrap(e.right, BinLevel(e.op) + 1), q);
  }

  lemma LayoutUnary(toks: seq<Token>, p: nat, q: nat, e: Expr)
    requires Printable(e) && e.Unary? && Span(toks, p, Print(e), q) == true
    ensures Printable(e.operand)
    ensures p < |toks| && toks[p] == UnToken(e.uop) && Span(toks, p + 1, Wrap(e.operand, 6), q)
  {
    PrintUnaryShape(e.uop, e.operand);
    SpanCons(toks, p, UnToken(e.uop), Wrap(e.operand, 6), q);
  }

  lemma LayoutParen(toks: seq<Token>, p: nat, q: nat, e: Expr, m: nat)
    requires Printable(e) && Prec(e) < m && Span(toks, p, Wrap(e, m), q) == true
    ensures p + 2 <= q && p < |toks| && toks[p].kind == LParen
    ensures Span(toks, p + 1, Print(e), q - 1)
    ensures q - 1 < |toks| && toks[q - 1].kind == RParen
  {
    WrapParenShape(e, m);
    SpanCons(toks, p, Tok(LParen, "("), Print(e) + [Tok(RParen, ")")], q);
    SpanSnoc(toks, p + 1, Print(e), Tok(RParen, ")"), q);
  }

  lemma LayoutSingle(toks: seq<Token>, p: nat, q: nat, e: Expr)
    requires Printable(e) && (e.Lit? || e.Ident?) && Span(toks, p, Print(e), q) == true
    ensures Leaf(e) && p < |toks| && toks[p] == LeafToken(e) && q == p + 1
  {
    SpanSingle(toks, p, LeafToken(e), q);
  }

  lemma LayoutCall(toks: seq<Token>, p: nat, q: nat, e: Expr)
    requires Printable(e) && e.Call? && Span(toks, p, Print(e), q) == true
    ensures PrintableArgs(e.args)
    ensures p + 3 <= q && p + 1 < |toks|
    ensures toks[p] == Tok(Identifier, e.callee) && toks[p + 1].kind == LParen
    ensures Span(toks, p + 2, PrintArgs(e.args), q - 1)
    ensures q - 1 < |toks| && toks[q - 1].kind == RParen
  {
    PrintCallShape(e.callee, e.args);
    var pa := PrintArgs(e.args);
    SpanCons(toks, p, Tok(Identifier, e.callee), [Tok(LParen, "(")] + (pa + [Tok(RParen, ")")]), q);
    SpanCons(toks, p + 1, Tok(LParen, "("), pa + [Tok(RParen, ")")], q);
    SpanSnoc(toks, p + 2, pa, Tok(RParen, ")"), q);
  }

  lemma LayoutMember(toks: seq<Token>, p: nat, q: nat, e: Expr)
    requires Printable(e) && e.Member? && Span(toks, p, Print(e), q) == true
    ensures Printable(e.obj) && Chain(e.obj)
    ensures 2 <= q && Span(toks, p, Print(e.obj), q - 2)
    ensures q - 1 < |toks| && toks[q - 2].kind == Dot && toks[q - 1] == Tok(Identifier, e.member)
  {
    PrintMemberShape(e.obj, e.member);
    SpanSnoc(toks, p, Print(e.obj) + [Tok(Dot, ".")], Tok(Identifier, e.member), q);
    SpanSnoc(toks, p, Print(e.obj), Tok(Dot, "."), q - 1);
  }

  lemma LayoutMemberCall(toks: seq<Token>, p: nat, d: nat, q: nat, e: Expr)
    requires Printable(e) && e.MemberCall? && Span(toks, p, Print(e), q) == true
    requires d == p + |Print(e.obj)|
    ensures Printable(e.obj) && Chain(e.obj) && PrintableArgs(e.args)
    ensures Span(toks, p, Print(e.obj), d) == true
    ensures d + 3 < q && q - 1 < |toks|
    ensures toks[d].kind == Dot && toks[d + 1] == Tok(Identifier, e.member) && toks[d + 2].kind == LParen
    ensures Span(toks, d + 3, PrintArgs(e.args), q - 1) == true && toks[q - 1].kind == RParen
  {
    PrintMemberCallShape(e.obj, e.member, e.args);
    MemberCallTail(toks, p, d, Print(e.obj), Tok(Identifier, e.member), PrintArgs(e.args), q);
  }

  /** The tokens of a '.' name '(' b ')', in place. */
  lemma MemberCallTail(toks: seq<Token>, p: nat, d: nat, a: seq<Token>, name: Token, b: seq<Token>, q: nat)
    requires Span(toks, p, a + ([Tok(Dot, ".")] + ([name] + ([Tok(LParen, "(")] + (b + [Tok(RParen, ")")])))), q) == true
    requires d == p + |a|
    ensures Span(toks, p, a, d) == true
    ensures d + 3 < q && q - 1 < |toks|
    ensures toks[d].kind == Dot && toks[d + 1] == name && toks[d + 2].kind == LParen
    ensures Span(toks, d + 3, b, q - 1) == true && toks[q - 1].kind == RParen
  {
    var rest := [name] + ([Tok(LParen, "(")] + (b + [Tok(RParen, ")")]));
    SpanMiddle(toks, p, a, Tok(Dot, "."), rest, q);
    SpanCons(toks, d + 1, name, [Tok(LParen, "(")] + (b + [Tok(RParen, ")")]), q);
    SpanCons(toks, d + 2, Tok(LParen, "("), b + [Tok(RParen, ")")], q);
    SpanSnoc(toks, d + 3, b, Tok(RParen, ")"), q);
  }

  lemma LayoutArgs(toks: seq<Token>, p: nat, q: nat, args: seq<Expr>)
    requires PrintableArgs(args) && |args| >= 1 && Span(toks, p, PrintArgs(args), q) == true
    ensures Printable(args[0]) && PrintableArgs(args[1..])
    ensures |args| == 1 ==> Span(toks, p, Print(args[0]), q)
    ensures |args| > 1 ==>
      && Span(toks, p, Print(args[0]), p + |Print(args[0])|)
      && p + |Print(args[0])| < |toks| && toks[p + |Print(args[0])|].kind == Comma
      && Span(toks, p + |Print(args[0])| + 1, PrintArgs(args[1..]), q)
  {
    PrintArgsShape(args);
    if |args| > 1 {
      SpanMiddle(toks, p, Print(args[0]), Tok(Comma, ","), PrintArgs(args[1..]), q);
    }
  }

  // ---------------------------------------------------------------------------
  // The printed layout as token facts

  /** The number of tokens Print writes for e. */
  function Size(e: Expr): nat
    decreases e, 1
  {
    match e
    case Lit(_) => 1
    case Ident(_) => 1
    case Binary(op, left, right) => WSize(left, BinLevel(op)) + 1 + WSize(right, BinLevel(op) + 1)
    case Unary(_, operand) => 1 + WSize(operand, 6)
    case Call(_, args) => 3 + ArgsSize(args)
    case Member(obj, _) => Size(obj) + 2
    case MemberCall(obj, _, args) => Size(obj) + 4 + ArgsSize(args)
  }

  function WSize(e: Expr, m: nat): nat
    decreases e, 2
  {
    if Prec(e) >= m then Size(e) else Size(e) + 2
  }

  function ArgsSize(args: seq<Expr>): nat
    decreases args, 0
  {
    if |args| == 0 then 0
    else if |args| == 1 then Size(args[0])
    else Size(args[0]) + 1 + ArgsSize(args[1..])
  }

  lemma {:induction false} PrintSize(e: Expr)
    requires Printable(e)
    ensures |Print(e)| == Size(e)
    ensures forall m: nat :: |Wrap(e, m)| == WSize(e, m)
    decreases e, 1
  {    if e.Binary? {
      PrintSize(e.left);
      PrintSize(e.right);
    } else if e.Unary? {
      PrintSize(e.operand);
    } else if e.Call? {
      ArgsPrintSize(e.args);
    } else if e.Member? {
      PrintSize(e.obj);
    } else if e.MemberCall? {
      PrintSize(e.obj);
      ArgsPrintSize(e.args);
    }
  }

  lemma {:induction false} ArgsPrintSize(args: seq<Expr>)
    requires PrintableArgs(args)
    ensures |PrintArgs(args)| == ArgsSize(args)
    decreases args, 0
  {
    if |args| >= 1 {
      PrintArgsShape(args);
      PrintSize(args[0]);
      if |args| > 1 {
        ArgsPrintSize(args[1..]);
      }
    }
  }

  /** e is printed in toks from position p up to position q, stated token by token
      with the positions of its parts. */
  predicate Laid(toks: seq<Token>, p: nat, e: Expr, q: nat)
    decreases e, 1
  {
    match e
    case Lit(_) => Leaf(e) && p < |toks| && toks[p] == LeafToken(e) && q == p + 1
    case Ident(_) => p < |toks| && toks[p] == LeafToken(e) && q == p + 1
    case Binary(op, left, right) =>
      && LaidW(toks, p, left, BinLevel(op), p + WSize(left, BinLevel(op)))
      && OpRight(toks, p + WSize(left, BinLevel(op)), op, right, q)
    case Unary(u, operand) =>
      p < |toks| && toks[p] == UnToken(u) && LaidW(toks, p + 1, operand, 6, q)
    case Call(name, args) =>
      && p + 3 <= q && q - 1 < |toks|
      && toks[p] == Tok(Identifier, name) && toks[p + 1].kind == LParen
      && LaidArgs(toks, p + 2, args, q - 1) && toks[q - 1].kind == RParen
    case Member(obj, member) =>
      && Chain(obj) && 2 <= q && q - 1 < |toks|
      && Laid(toks, p, obj, q - 2)
      && toks[q - 2].kind == Dot && toks[q - 1] == Tok(Identifier, member)
    case MemberCall(obj, member, args) =>
      Chain(obj) && Laid(toks, p, obj, p + Size(obj)) && CallTail(toks, p + Size(obj), member, args, q)
  }

  /** '.' member '(' args ')' printed in toks from position d up to position q. */
  predicate CallTail(toks: seq<Token>, d: nat, member: string, args: seq<Expr>, q: nat)
    decreases args, 1
  {
    && d + 3 < q && q - 1 < |toks|
    && toks[d].kind == Dot && toks[d + 1] == Tok(Identifier, member) && toks[d + 2].kind == LParen
    && LaidArgs(toks, d + 3, args, q - 1) && toks[q - 1].kind == RParen
  }

  /** The operator token of op at position mid, then its right operand up to q. */
  predicate OpRight(toks: seq<Token>, mid: nat, op: BinOp, right: Expr, q: nat)
    decreases right, 3
  {
    mid < |toks| && toks[mid] == OpToken(op) && LaidW(toks, mid + 1, right, BinLevel(op) + 1, q)
  }

  /** e printed as an operand of level m, in parentheses or not. */
  predicate LaidW(toks: seq<Token>, p: nat, e: Expr, m: nat, q: nat)
    decreases e, 2
  {
    if Prec(e) >= m then Laid(toks, p, e, q)
    else
      && p + 2 <= q && q - 1 < |toks|
      && toks[p].kind == LParen && Laid(toks, p + 1, e, q - 1) && toks[q - 1].kind == RParen
  }

  predicate LaidArgs(toks: seq<Token>, p: nat, args: seq<Expr>, q: nat)
    decreases args, 0
  {
    if |args| == 0 then p == q
    else if |args| == 1 then Laid(toks, p, args[0], q)
    else
      && p + Size(args[0]) < |toks|
      && Laid(toks, p, args[0], p + Size(args[0]))
      && toks[p + Size(args[0])].kind == Comma
      && LaidArgs(toks, p + Size(args[0]) + 1, args[1..], q)
  }

  lemma {:induction false} LaidOfSpan(toks: seq<Token>, p: nat, q: nat, e: Expr)
    requires Printable(e) && Span(toks, p, Print(e), q) == true
    ensures Laid(toks, p, e, q) == true
    decreases e, 2
  {
    if e.Lit? || e.Ident? {
      LayoutSingle(toks, p, q, e);
    } else if e.Binary? {
      BinaryLaid(toks, p, q, e);
    } else if e.Unary? {
      LayoutUnary(toks, p, q, e);
      LaidWOfSpan(toks, p + 1, q, e.operand, 6);
    } else if e.Call? {
      LayoutCall(toks, p, q, e);
      LaidArgsOfSpan(toks, p + 2, q - 1, e.args);
    } else if e.Member? {
      LayoutMember(toks, p, q, e);
      LaidOfSpan(toks, p, q - 2, e.obj);
    } else {
      MemberCallLaid(toks, p, q, e);
    }
  }

  lemma {:induction false} BinaryLaid(toks: seq<Token>, p: nat, q: nat, e: Expr)
    requires Printable(e) && e.Binary? && Span(toks, p, Print(e), q) == true
    ensures Laid(toks, p, e, q) == true
    decreases e, 0
  {
    PrintSize(e.left);
    var k := BinLevel(e.op);
    var mid := p + |Wrap(e.left, k)|;
    LayoutBinary(toks, p, mid, q, e);
    LaidWOfSpan(toks, p, mid, e.left, k);
    LaidWOfSpan(toks, mid + 1, q, e.right, k + 1);
    FoldOpRight(toks, mid, q, e.op, e.right);
    FoldBinary(toks, p, mid, q, e);
  }

  lemma FoldBinary(toks: seq<Token>, p: nat, mid: nat, q: nat, e: Expr)
    requires e.Binary? && mid == p + WSize(e.left, BinLevel(e.op))
    requires LaidW(toks, p, e.left, BinLevel(e.op), mid) == true
    requires OpRight(toks, mid, e.op, e.right, q) == true
    ensures Laid(toks, p, e, q) == true
  {
  }

  lemma FoldOpRight(toks: seq<Token>, mid: nat, q: nat, op: BinOp, right: Expr)
    requires mid < |toks| && toks[mid] == OpToken(op)
    requires LaidW(toks, mid + 1, right, BinLevel(op) + 1, q) == true
    ensures OpRight(toks, mid, op, right, q) == true
  {
  }

  lemma OpRightParts(toks: seq<Token>, mid: nat, q: nat, op: BinOp, right: Expr)
    requires OpRight(toks, mid, op, right, q) == true
    ensures mid < |toks| && toks[mid] == OpToken(op)
    ensures LaidW(toks, mid + 1, right, BinLevel(op) + 1, q) == true
  {
  }

  lemma {:induction false} MemberCallLaid(toks: seq<Token>, p: nat, q: nat, e: Expr)
    requires Printable(e) && e.MemberCall? && Span(toks, p, Print(e), q) == true
    ensures Laid(toks, p, e, q) == true
    decreases e, 1
  {
    PrintSize(e.obj);
    var d := p + |Print(e.obj)|;
    LayoutMemberCall(toks, p, d, q, e);
    MemberCallLaidAt(toks, p, d, q, e);
  }

  lemma {:induction false} MemberCallLaidAt(toks: seq<Token>, p: nat, d: nat, q: nat, e: Expr)
    requires e.MemberCall? && Printable(e.obj) && Chain(e.obj) && PrintableArgs(e.args)
    requires d == p + Size(e.obj) && Span(toks, p, Print(e.obj), d) == true
    requires d + 3 < q && q - 1 < |toks| && toks[d].kind == Dot
    requires toks[d + 1] == Tok(Identifier, e.member) && toks[d + 2].kind == LParen
    requires Span(toks, d + 3, PrintArgs(e.args), q - 1) == true && toks[q - 1].kind == RParen
    ensures Laid(toks, p, e, q) == true
    decreases e, 0
  {
    LaidOfSpan(toks, p, d, e.obj);
    LaidArgsOfSpan(toks, d + 3, q - 1, e.args);
    FoldCallTail(toks, d, q, e.member, e.args);
    FoldMemberCall(toks, p, d, q, e);
  }

  lemma FoldMemberCall(toks: seq<Token>, p: nat, d: nat, q: nat, e: Expr)
    requires e.MemberCall? && Chain(e.obj) && d == p + Size(e.obj)
    requires Laid(toks, p, e.obj, d) == true && CallTail(toks, d, e.member, e.args, q) == true
    ensures Laid(toks, p, e, q) == true
  {
  }

  lemma FoldCallTail(toks: seq<Token>, d: nat, q: nat, member: string, args: seq<Expr>)
    requires d + 3 < q && q - 1 < |toks|
    requires toks[d].kind == Dot && toks[d + 1] == Tok(Identifier, member) && toks[d + 2].kind == LParen
    requires LaidArgs(toks, d + 3, args, q - 1) == true && toks[q - 1].kind == RParen
    ensures CallTail(toks, d, member, args, q) == true
  {
  }

  lemma CallTailBounds(toks: seq<Token>, d: nat, q: nat, member: string, args: seq<Expr>)
    requires CallTail(toks, d, member, args, q) == true
    ensures d + 3 < q && q - 1 < |toks| && toks[d].kind == Dot
  {
  }

  lemma {:induction false} LaidWOfSpan(toks: seq<Token>, p: nat, q: nat, e: Expr, m: nat)
    requires Printable(e) && Span(toks, p, Wrap(e, m), q) == true
    ensures LaidW(toks, p, e, m, q) == true
    decreases e, 3
  {
    if Prec(e) >= m {
      LaidOfSpan(toks, p, q, e);
    } else {
      LayoutParen(toks, p, q, e, m);
      LaidOfSpan(toks, p + 1, q - 1, e);
    }
  }

  lemma {:induction false} LaidArgsOfSpan(toks: seq<Token>, p: nat, q: nat, args: seq<Expr>)
    requires PrintableArgs(args) && Span(toks, p, PrintArgs(args), q) == true
    ensures LaidArgs(toks, p, args, q) == true
    decreases args, 0
  {
    if |args| == 0 {
      assert PrintArgs(args) == [];
    } else {
      LayoutArgs(toks, p, q, args);
      if |args| == 1 {
        LaidOfSpan(toks, p, q, args[0]);
      } else {
        PrintSize(args[0]);
        var d := p + |Print(args[0])|;
        LaidOfSpan(toks, p, d, args[0]);
        LaidArgsOfSpan(toks, d + 1, q, args[1..]);
        FoldArgs(toks, p, d, args, q);
      }
    }
  }

  lemma FoldArgs(toks: seq<Token>, p: nat, d: nat, args: seq<Expr>, q: nat)
    requires |args| > 1 && d == p + Size(args[0]) && d < |toks|
    requires Laid(toks, p, args[0], d) == true && toks[d].kind == Comma
    requires LaidArgs(toks, d + 1, args[1..], q) == true
    ensures LaidArgs(toks, p, args, q) == true
  {
  }

  /** A laid-out expression takes at least one token and starts with neither ')'
      nor, when it is a primary, '!' or '-'. */
  lemma {:induction false} LaidStart(toks: seq<Token>, p: nat, q: nat, e: Expr)
    requires Laid(toks, p, e, q) == true
    ensures p < q && p < |toks| && toks[p].kind != RParen
    ensures Prec(e) == 7 ==> toks[p].kind != Not && toks[p].kind != Minus
    decreases e, 1
  {
    if e.Binary? || e.Unary? {
      OperatorStart(toks, p, q, e);
    } else if e.Member? || e.MemberCall? {
      MemberStart(toks, p, q, e);
    }
  }

  lemma {:induction false} OperatorStart(toks: seq<Token>, p: nat, q: nat, e: Expr)
    requires (e.Binary? || e.Unary?) && Laid(toks, p, e, q) == true
    ensures p < q && p < |toks| && toks[p].kind != RParen
    decreases e, 0
  {
    if e.Binary? {
      var k := BinLevel(e.op);
      var mid := p + WSize(e.left, k);
      OpRightParts(toks, mid, q, e.op, e.right);
      LaidWStart(toks, p, mid, e.left, k);
      LaidWStart(toks, mid + 1, q, e.right, k + 1);
    } else {
      LaidWStart(toks, p + 1, q, e.operand, 6);
    }
  }

  lemma {:induction false} MemberStart(toks: seq<Token>, p: nat, q: nat, e: Expr)
    requires (e.Member? || e.MemberCall?) && Laid(toks, p, e, q) == true
    ensures p < q && p < |toks| && toks[p].kind != RParen && toks[p].kind != Not && toks[p].kind != Minus
    decreases e, 0
  {
    LaidChainPrec(e.obj);
    if e.Member? {
      LaidStart(toks, p, q - 2, e.obj);
    } else {
      var d := p + Size(e.obj);
      LaidStart(toks, p, d, e.obj);
      CallTailBounds(toks, d, q, e.member, e.args);
    }
  }

  lemma {:induction false} LaidWStart(toks: seq<Token>, p: nat, q: nat, e: Expr, m: nat)
    requires LaidW(toks, p, e, m, q) == true
    ensures p < q && p < |toks| && toks[p].kind != RParen
    decreases e, 2
  {
    if Prec(e) >= m {
      LaidStart(toks, p, q, e);
    }
  }

  lemma LaidChainPrec(e: Expr)
    requires Chain(e)
    ensures Prec(e) == 7
  {
  }

  /** A laid-out member chain starts with its name, then '.' if it has members. */
  lemma {:induction false} LaidChainHead(toks: seq<Token>, p: nat, q: nat, e: Expr)
    requires Chain(e) && Laid(toks, p, e, q) == true
    ensures p < |toks| && toks[p] == Tok(Identifier, Base(e))
    ensures !e.Ident? ==> p + 1 < |toks| && toks[p + 1].kind == Dot
    decreases e
  {
    if e.Member? {
      LaidChainHead(toks, p, q - 2, e.obj);
    } else if e.MemberCall? {
      var d := p + Size(e.obj);
      LaidChainHead(toks, p, d, e.obj);
      CallTailBounds(toks, d, q, e.member, e.args);
    }
  }

  // ---------------------------------------------------------------------------
  // Reading laid-out expressions back

  lemma LaidArgsStart(toks: seq<Token>, p: nat, q: nat, args: seq<Expr>)
    requires LaidArgs(toks, p, args, q) == true && |args| >= 1
    ensures p < |toks| && toks[p].kind != RParen
  {
    if |args| == 1 {
      LaidStart(toks, p, q, args[0]);
    } else {
      var d := p + Size(args[0]);
      LaidStart(toks, p, d, args[0]);
    }
  }

  lemma {:induction false} ArgsPrinted(toks: seq<Token>, p: nat, q: nat, args: seq<Expr>, acc: seq<Expr>)
    requires ValidTokens(toks) && p < |toks| && LaidArgs(toks, p, args, q) == true
    requires q < |toks| && toks[q].kind == RParen
    ensures ParseArgs(toks, p, acc) == Ok(Parsed(acc + args, q))
    decreases args, 2
  {
    if |args| == 0 {
      ArgsEnd(toks, p, acc);
      assert acc + args == acc;
    } else if |args| == 1 {
      ExprPrinted(toks, p, q, args[0]);
      ArgsLast(toks, p, q, args[0], acc);
      assert acc + [args[0]] == acc + args;
    } else {
      ArgsConsPrinted(toks, p, q, args, acc);
    }
  }

  lemma {:induction false} ArgsConsPrinted(toks: seq<Token>, p: nat, q: nat, args: seq<Expr>, acc: seq<Expr>)
    requires ValidTokens(toks) && p < |toks| && |args| > 1 && LaidArgs(toks, p, args, q) == true
    requires q < |toks| && toks[q].kind == RParen
    ensures ParseArgs(toks, p, acc) == Ok(Parsed(acc + args, q))
    decreases args, 1
  {
    var d := p + Size(args[0]);
    ArgsParts(toks, p, d, args, q);
    LaidArgsStart(toks, d + 1, q, args[1..]);
    ArgsHeadPrinted(toks, p, d, args[0], acc);
    ArgsPrinted(toks, d + 1, q, args[1..], acc + [args[0]]);
    AppendFirst(acc, args);
  }

  /** The first of several arguments, with the comma after it. */
  lemma {:induction false} ArgsHeadPrinted(toks: seq<Token>, p: nat, d: nat, a: Expr, acc: seq<Expr>)
    requires ValidTokens(toks) && p < |toks| && Laid(toks, p, a, d) == true
    requires d + 1 < |toks| && toks[d].kind == Comma
    ensures ParseArgs(toks, p, acc) == ParseArgs(toks, d + 1, acc + [a])
    decreases a, 8
  {
    CommaCloses(toks[d]);
    ExprPrinted(toks, p, d, a);
    ArgsMore(toks, p, d, a, acc);
  }

  lemma ArgsParts(toks: seq<Token>, p: nat, d: nat, args: seq<Expr>, q: nat)
    requires |args| > 1 && LaidArgs(toks, p, args, q) == true && d == p + Size(args[0])
    ensures d < |toks| && Laid(toks, p, args[0], d) == true && toks[d].kind == Comma
    ensures LaidArgs(toks, d + 1, args[1..], q) == true
  {
  }

  lemma CommaCloses(t: Token)
    requires t.kind == Comma
    ensures Closes(t)
  {
  }

  lemma AppendFirst(acc: seq<Expr>, args: seq<Expr>)
    requires |args| > 0
    ensures acc + [args[0]] + args[1..] == acc + args
  {
    assert [args[0]] + args[1..] == args;
  }

  /** An argument list read from its first argument on. */
  lemma ArgListPrinted(toks: seq<Token>, p: nat, q: nat, args: seq<Expr>)
    requires ValidTokens(toks) && p < |toks| && LaidArgs(toks, p, args, q) == true
    requires q < |toks| && toks[q].kind == RParen
    ensures ParseArgs(toks, p, []) == Ok(Parsed(args, q))
    decreases args, 3
  {
    ArgsPrinted(toks, p, q, args, []);
    assert [] + args == args;
  }

  /** A member chain is read one member at a time, from the name it starts with. */
  lemma {:induction false} MembersPrinted(toks: seq<Token>, p: nat, q: nat, e: Expr)
    requires ValidTokens(toks) && Chain(e) && Laid(toks, p, e, q) == true
    requires q < |toks| && toks[q].kind != LParen
    ensures p + 1 < |toks|
    ensures ParseMembers(toks, p + 1, Ident(Base(e))) == ParseMembers(toks, q, e)
    decreases e, 1
  {
    if e.Member? {
      MemberAccessPrinted(toks, p, q, e);
    } else if e.MemberCall? {
      MemberCallPrinted(toks, p, q, e);
    }
  }

  lemma {:induction false} MemberAccessPrinted(toks: seq<Token>, p: nat, q: nat, e: Expr)
    requires ValidTokens(toks) && e.Member? && Chain(e) && Laid(toks, p, e, q) == true
    requires q < |toks| && toks[q].kind != LParen
    ensures p + 1 < |toks|
    ensures ParseMembers(toks, p + 1, Ident(Base(e.obj))) == ParseMembers(toks, q, e)
    decreases e, 0
  {
    MembersPrinted(toks, p, q - 2, e.obj);
    MemberStep(toks, q, e.obj, e.member);
  }

  lemma {:induction false} MemberCallPrinted(toks: seq<Token>, p: nat, q: nat, e: Expr)
    requires ValidTokens(toks) && e.MemberCall? && Chain(e) && Laid(toks, p, e, q) == true
    requires q < |toks| && toks[q].kind != LParen
    ensures p + 1 < |toks|
    ensures ParseMembers(toks, p + 1, Ident(Base(e.obj))) == ParseMembers(toks, q, e)
    decreases e, 0
  {
    var d := p + Size(e.obj);
    CallTailBounds(toks, d, q, e.member, e.args);
    MemberCallTailPrinted(toks, d, q, e.obj, e.member, e.args);
    MembersPrinted(toks, p, d, e.obj);
  }

  /** '.' name '(' arguments ')' after a member chain, read as one member call. */
  lemma {:induction false} MemberCallTailPrinted(toks: seq<Token>, d: nat, q: nat, obj: Expr, member: string, args: seq<Expr>)
    requires ValidTokens(toks) && q < |toks| && CallTail(toks, d, member, args, q) == true
    ensures ParseMembers(toks, d, obj) == ParseMembers(toks, q, MemberCall(obj, member, args))
    decreases args, 4
  {
    CallTailParts(toks, d, q, member, args);
    ArgListPrinted(toks, d + 3, q - 1, args);
    MemberCallStep(toks, d, q, obj, member, args);
  }

  lemma CallTailParts(toks: seq<Token>, d: nat, q: nat, member: string, args: seq<Expr>)
    requires CallTail(toks, d, member, args, q) == true
    ensures d + 3 < q && q - 1 < |toks|
    ensures toks[d].kind == Dot && toks[d + 1] == Tok(Identifier, member) && toks[d + 2].kind == LParen
    ensures LaidArgs(toks, d + 3, args, q - 1) == true && toks[q - 1].kind == RParen
  {
  }

  lemma {:induction false} ChainPrimary(toks: seq<Token>, p: nat, q: nat, e: Expr)
    requires ValidTokens(toks) && p < q && Chain(e) && !e.Ident? && Laid(toks, p, e, q) == true
    requires q < |toks| && toks[q].kind != Dot && toks[q].kind != LParen
    ensures ParsePrimary(toks, p) == Ok(Parsed(e, q))
    decreases e, 2
  {
    LaidChainHead(toks, p, q, e);
    NamedMembers(toks, p, Base(e));
    MembersPrinted(toks, p, q, e);
    MembersEnd(toks, q, e);
  }

  /** parse_primary() reads a laid-out primary. */
  lemma {:induction false} PrimaryPrinted(toks: seq<Token>, p: nat, q: nat, e: Expr)
    requires ValidTokens(toks) && p < q && Prec(e) == 7 && Laid(toks, p, e, q) == true
    requires q < |toks| && toks[q].kind != Dot && toks[q].kind != LParen
    ensures ParsePrimary(toks, p) == Ok(Parsed(e, q))
    decreases e, 3
  {    if e.Lit? {
      LiteralStep(toks, p, e);
    } else if e.Ident? {
      IdentStep(toks, p, e.name);
    } else if e.Call? {
      ArgListPrinted(toks, p + 2, q - 1, e.args);
      CallStep(toks, p, q, e.callee, e.args);
    } else {
      ChainPrimary(toks, p, q, e);
    }
  }

  /** parse_unary() reads a laid-out unary expression or primary. */
  lemma {:induction false} UnaryPrinted(toks: seq<Token>, p: nat, q: nat, e: Expr)
    requires ValidTokens(toks) && p < q && Prec(e) >= 6 && Laid(toks, p, e, q) == true
    requires q < |toks| && toks[q].kind != Dot && toks[q].kind != LParen
    ensures ParseUnary(toks, p) == Ok(Parsed(e, q))
    decreases e, 4
  {
    if e.Unary? {
      LaidWStart(toks, p + 1, q, e.operand, 6);
      OperandPrinted(toks, p + 1, q, e.operand);
      UnaryStep(toks, p, q, e.uop, e.operand);
    } else {
      PrimaryPrinted(toks, p, q, e);
      LaidStart(toks, p, q, e);
      UnaryOfPrimary(toks, p, q, e);
    }
  }

  /** The level of a binary operator reads the operator with its operands. */
  lemma {:induction false} BinaryPrinted(toks: seq<Token>, p: nat, q: nat, e: Expr)
    requires ValidTokens(toks) && p < q && e.Binary? && Laid(toks, p, e, q) == true
    requires q < |toks| && Ends(toks[q], BinLevel(e.op))
    ensures ParseLevel(toks, p, BinLevel(e.op)) == ParseLevelRest(toks, q, BinLevel(e.op), e)
    decreases e, 5
  {
    var k := BinLevel(e.op);
    var mid := p + WSize(e.left, k);
    OpRightParts(toks, mid, q, e.op, e.right);
    LeftOperandPrinted(toks, p, mid, e);
    RightOperandPrinted(toks, mid, q, e);
    BinaryStep(toks, p, mid, q, e.op, e.left, e.right);
  }

  lemma {:induction false} LeftOperandPrinted(toks: seq<Token>, p: nat, mid: nat, e: Expr)
    requires ValidTokens(toks) && e.Binary? && LaidW(toks, p, e.left, BinLevel(e.op), mid) == true
    requires mid < |toks| && toks[mid] == OpToken(e.op)
    ensures p < mid
    ensures ParseLevel(toks, p, BinLevel(e.op)) == ParseLevelRest(toks, mid, BinLevel(e.op), e.left)
    decreases e, 4
  {
    var k := BinLevel(e.op);
    LaidWStart(toks, p, mid, e.left, k);
    OpTokenLevel(e.op);
    WrappedPrinted(toks, p, mid, e.left, k);
  }

  lemma {:induction false} RightOperandPrinted(toks: seq<Token>, mid: nat, q: nat, e: Expr)
    requires ValidTokens(toks) && e.Binary? && LaidW(toks, mid + 1, e.right, BinLevel(e.op) + 1, q) == true
    requires q < |toks| && Ends(toks[q], BinLevel(e.op))
    ensures mid + 1 < q
    ensures ParseOperand(toks, mid + 1, BinLevel(e.op)) == Ok(Parsed(e.right, q))
    decreases e, 4
  {
    var k := BinLevel(e.op);
    LaidWStart(toks, mid + 1, q, e.right, k + 1);
    RightPrinted(toks, mid + 1, q, e.right, k);
  }

  /** Level m reads a laid-out expression that binds at least as tightly as m, and
      goes on at the token after it. */
  lemma {:induction false} LevelPrinted(toks: seq<Token>, p: nat, q: nat, e: Expr, m: nat)
    requires ValidTokens(toks) && p < q && m <= 5 && Prec(e) >= m && Laid(toks, p, e, q) == true
    requires q < |toks| && Ends(toks[q], m)
    ensures ParseLevel(toks, p, m) == ParseLevelRest(toks, q, m, e)
    decreases e, 6
  {
    if Prec(e) >= 6 {
      UnaryPrinted(toks, p, q, e);
      LevelOfUnary(toks, p, q, e, m);
    } else {
      var k := BinLevel(e.op);
      assert Prec(e) == k;
      BinaryPrinted(toks, p, q, e);
      Climb(toks, p, q, e, m, k);
    }
  }

  /** A token that cannot continue an expression: no operator, no '.' and no '('. */
  predicate Closes(t: Token)
  {
    Ends(t, 0) && LevelOp(0, t).None?
  }

  /** parse_expression() reads a laid-out expression followed by a token that
      cannot continue it. */
  lemma {:induction false} ExprPrinted(toks: seq<Token>, p: nat, q: nat, e: Expr)
    requires ValidTokens(toks) && Laid(toks, p, e, q) == true && q < |toks| && Closes(toks[q])
    ensures p < q && toks[p].kind != RParen
    ensures ParseExpression(toks, p) == Ok(Parsed(e, q))
    decreases e, 7
  {
    LaidStart(toks, p, q, e);
    LevelPrinted(toks, p, q, e, 0);
    ExpressionOfLevel(toks, p, q, e);
  }

  /** A parenthesised expression is read by parse_unary(). */
  lemma {:induction false} ParenPrinted(toks: seq<Token>, p: nat, q: nat, e: Expr, m: nat)
    requires ValidTokens(toks) && p < q && Prec(e) < m && LaidW(toks, p, e, m, q) == true && q < |toks|
    ensures ParseUnary(toks, p) == Ok(Parsed(e, q))
    decreases e, 8
  {
    ExprPrinted(toks, p + 1, q - 1, e);
    ParenStep(toks, p, q, e);
  }

  /** parse_unary() reads an operand laid out at the unary level. */
  lemma {:induction false} OperandPrinted(toks: seq<Token>, p: nat, q: nat, e: Expr)
    requires ValidTokens(toks) && p < q && LaidW(toks, p, e, 6, q) == true
    requires q < |toks| && toks[q].kind != Dot && toks[q].kind != LParen
    ensures ParseUnary(toks, p) == Ok(Parsed(e, q))
    decreases e, 9
  {
    if Prec(e) >= 6 {
      UnaryPrinted(toks, p, q, e);
    } else {
      ParenPrinted(toks, p, q, e, 6);
    }
  }

  /** Level m reads an operand laid out for level m, in parentheses or not. */
  lemma {:induction false} WrappedPrinted(toks: seq<Token>, p: nat, q: nat, e: Expr, m: nat)
    requires ValidTokens(toks) && p < q && m <= 5 && LaidW(toks, p, e, m, q) == true
    requires q < |toks| && Ends(toks[q], m)
    ensures ParseLevel(toks, p, m) == ParseLevelRest(toks, q, m, e)
    decreases e, 10
  {
    if Prec(e) >= m {
      LevelPrinted(toks, p, q, e, m);
    } else {
      ParenPrinted(toks, p, q, e, m);
      LevelOfUnary(toks, p, q, e, m);
    }
  }

  /** The right operand of a level-k operator, laid out for level k + 1, is what
      the operand reader of level k returns. */
  lemma {:induction false} RightPrinted(toks: seq<Token>, p: nat, q: nat, e: Expr, k: nat)
    requires ValidTokens(toks) && p < q && k <= 5 && LaidW(toks, p, e, k + 1, q) == true
    requires q < |toks| && Ends(toks[q], k)
    ensures ParseOperand(toks, p, k) == Ok(Parsed(e, q))
    decreases e, 11
  {
    if k < 5 {
      WrappedPrinted(toks, p, q, e, k + 1);
      NoTighterOp(toks[q], k, k + 1);
      OperandOfLevel(toks, p, q, k, e);
    } else {
      OperandPrinted(toks, p, q, e);
      OperandOfUnary(toks, p, q, e);
    }
  }

  // ---------------------------------------------------------------------------
  // The round trip

  predicate NumbersShaped(ts: seq<Token>)
  {
    forall i :: 0 <= i < |ts| && ts[i].kind == Number ==> NumberShaped(ts[i].text)
  }

  lemma NumbersShapedConcat(a: seq<Token>, b: seq<Token>)
    requires NumbersShaped(a) && NumbersShaped(b)
    ensures NumbersShaped(a + b)
  {
    forall i | 0 <= i < |a + b| && (a + b)[i].kind == Number
      ensures NumberShaped((a + b)[i].text)
    {
      if i >= |a| {
        assert (a + b)[i] == b[i - |a|];
      }
    }
  }

  lemma {:induction false} PrintNumbersShaped(e: Expr)
    requires Printable(e)
    ensures NumbersShaped(Print(e))
    ensures forall m: nat :: NumbersShaped(Wrap(e, m))
    decreases e, 2
  {
    PrintedNumbersShaped(e);
    var paren, close := [Tok(LParen, "(")], [Tok(RParen, ")")];
    NumbersShapedConcat(paren, Print(e));
    NumbersShapedConcat(paren + Print(e), close);
  }

  lemma {:induction false} PrintedNumbersShaped(e: Expr)
    requires Printable(e)
    ensures NumbersShaped(Print(e))
    decreases e, 1
  {
    if e.Lit? {
      if e.lit.IntLit? {
        NumberOfNat(e.lit.i);
      }
    } else if e.Binary? {
      BinaryNumbersShaped(e);
    } else if e.Unary? {
      PrintNumbersShaped(e.operand);
      NumbersShapedConcat([UnToken(e.uop)], Wrap(e.operand, 6));
    } else if e.Call? {
      CallNumbersShaped(e);
    } else if e.Member? {
      PrintNumbersShaped(e.obj);
      NumbersShapedConcat(Print(e.obj), [Tok(Dot, "."), Tok(Identifier, e.member)]);
    } else if e.MemberCall? {
      MemberCallNumbersShaped(e);
    }
  }

  lemma {:induction false} BinaryNumbersShaped(e: Expr)
    requires Printable(e) && e.Binary?
    ensures NumbersShaped(Print(e))
    decreases e, 0
  {
    var k := BinLevel(e.op);
    PrintNumbersShaped(e.left);
    PrintNumbersShaped(e.right);
    NumbersShapedConcat(Wrap(e.left, k), [OpToken(e.op)]);
    NumbersShapedConcat(Wrap(e.left, k) + [OpToken(e.op)], Wrap(e.right, k + 1));
  }

  lemma {:induction false} CallNumbersShaped(e: Expr)
    requires Printable(e) && e.Call?
    ensures NumbersShaped(Print(e))
    decreases e, 0
  {
    var head := [Tok(Identifier, e.callee), Tok(LParen, "(")];
    ArgsNumbersShaped(e.args);
    NumbersShapedConcat(head, PrintArgs(e.args));
    NumbersShapedConcat(head + PrintArgs(e.args), [Tok(RParen, ")")]);
  }

  lemma {:induction false} MemberCallNumbersShaped(e: Expr)
    requires Printable(e) && e.MemberCall?
    ensures NumbersShaped(Print(e))
    decreases e, 0
  {
    var head := [Tok(Dot, "."), Tok(Identifier, e.member), Tok(LParen, "(")];
    PrintNumbersShaped(e.obj);
    ArgsNumbersShaped(e.args);
    NumbersShapedConcat(Print(e.obj), head);
    NumbersShapedConcat(Print(e.obj) + head, PrintArgs(e.args));
    NumbersShapedConcat(Print(e.obj) + head + PrintArgs(e.args), [Tok(RParen, ")")]);
  }

  lemma {:induction false} ArgsNumbersShaped(args: seq<Expr>)
    requires PrintableArgs(args)
    ensures NumbersShaped(PrintArgs(args))
    decreases args, 0
  {
    if |args| == 1 {
      PrintNumbersShaped(args[0]);
    } else if |args| > 1 {
      PrintNumbersShaped(args[0]);
      ArgsNumbersShaped(args[1..]);
      NumbersShapedConcat(Print(args[0]), [Tok(Comma, ",")]);
      NumbersShapedConcat(Print(args[0]) + [Tok(Comma, ",")], PrintArgs(args[1..]));
    }
  }

  /** parse_expression() reads every printed expression back as itself, consuming
      exactly its tokens. */
  lemma {:induction false} ExpressionRoundTrip(e: Expr)
    requires Printable(e)
    ensures ValidTokens(Print(e) + [EofToken])
    ensures ParseExpression(Print(e) + [EofToken], 0) == Ok(Parsed(e, |Print(e)|))
  {
    var toks, n := Print(e) + [EofToken], |Print(e)|;
    PrintedTokens(e);
    ReadBack(toks, n, e);
  }

  lemma ReadBack(toks: seq<Token>, n: nat, e: Expr)
    requires ValidTokens(toks) && Laid(toks, 0, e, n) == true && n < |toks| && toks[n] == EofToken
    ensures ParseExpression(toks, 0) == Ok(Parsed(e, n))
  {
    EofCloses();
    ExprPrinted(toks, 0, n, e);
  }

  lemma EofCloses()
    ensures Closes(EofToken)
  {
  }

  /** A printed expression followed by EOF meets the parser's precondition on
      token lists (EOF last, every NUMBER number-shaped), with the expression
      laid out up to the EOF. */
  lemma PrintedTokens(e: Expr)
    requires Printable(e)
    ensures ValidTokens(Print(e) + [EofToken])
    ensures Laid(Print(e) + [EofToken], 0, e, |Print(e)|)
    ensures (Print(e) + [EofToken])[|Print(e)|] == EofToken
  {
    PrintNumbersShaped(e);
    NumbersShapedConcat(Print(e), [EofToken]);
    SpanPrefix(Print(e), [EofToken]);
    LaidOfSpan(Print(e) + [EofToken], 0, |Print(e)|, e);
  }
}
