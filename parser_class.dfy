/**
 * class Parser of interpreter.py: the token list and a position cursor that the
 * parse methods advance.  Every method is proved to leave the cursor where the
 * grammar functions of module Parsing say, and to return their node or error.
 */
module ParserClass {
  import opened Wrappers
  import opened Tokens
  import opened Errors
  import opened Syntax
  import opened Parsing

  /** A method's result r and final position pos are those the grammar function
      computes: the node and the position after it, or the same error. */
  ghost predicate Agrees<T>(r: Result<T, Error>, s: Result<Parsed<T>, Error>, pos: nat)
  {
    match s
    case Ok(parsed) => r == Ok(parsed.value) && pos == parsed.next
    case Err(e) => r == Err(e)
  }

  class Parser {
    const tokens: seq<Token>
    var position: nat

    /** The cursor always stays on a token: advance() never passes EOF. */
    ghost predicate Valid()
      reads this
    {
      ValidTokens(tokens) && position < |tokens|
    }

    constructor (tokens: seq<Token>)
      requires ValidTokens(tokens)
      ensures Valid() && this.tokens == tokens && position == 0
    {
      this.tokens := tokens;
      position := 0;
    }

    /** current_token().  Since the cursor stays on a token, the fallback to the
        last token is never taken. */
    function Current(): (t: Token)
      reads this
      requires Valid()
      ensures t == tokens[position]
    {
      tokens[position]
    }

    /** peek_token(offset): the token offset places ahead, or the final EOF token. */
    function PeekToken(offset: nat): (t: Token)
      reads this
      requires Valid()
      ensures position + offset < |tokens| ==> t == tokens[position + offset]
      ensures position + offset >= |tokens| ==> t.kind == EOF
    {
      if position + offset < |tokens| then tokens[position + offset] else tokens[|tokens| - 1]
    }

    /** advance(): return the current token and move past it unless it is EOF. */
    method Advance() returns (t: Token)
      requires Valid()
      modifies this
      ensures Valid()
      ensures t == old(tokens[position])
      ensures position == Parsing.Advance(tokens, old(position))
    {
      t := tokens[position];
      if t.kind != EOF {
        position := position + 1;
      }
    }

    /** expect(kind). */
    method Expect(k: TokenKind) returns (r: Result<Token, Error>)
      requires Valid()
      modifies this
      ensures Valid()
      ensures Agrees(r, Parsing.Expect(tokens, old(position), k), position)
      ensures r.Err? ==> position == old(position)
    {
      var t := tokens[position];
      if t.kind != k {
        return Err(ParseError(t, "Expected " + KindName(k) + ", got " + KindName(t.kind)));
      }
      t := Advance();
      return Ok(t);
    }

    /** parse(): statements until EOF. */
    method Parse() returns (r: Result<seq<Stmt>, Error>)
      requires Valid()
      modifies this
      ensures Valid()
      ensures r == ParseStatements(tokens, old(position), [])
    {
      ghost var spec := ParseStatements(tokens, position, []);
      var statements: seq<Stmt> := [];
      while tokens[position].kind != EOF
        invariant Valid()
        invariant ParseStatements(tokens, position, statements) == spec
        decreases |tokens| - position
      {
        var s := ParseStatement();
        if s.Err? {
          return Err(s.error);
        }
        statements := statements + [s.value];
      }
      return Ok(statements);
    }

    /** parse_statement(). */
    method ParseStatement() returns (r: Result<Stmt, Error>)
      requires Valid()
      modifies this
      ensures Valid()
      ensures Agrees(r, Parsing.ParseStatement(tokens, old(position)), position)
      decreases |tokens| - position, 13, 0
    {
      var k := tokens[position].kind;
      if k == Var {
        r := ParseVarDecl();
      } else if k == Function {
        r := ParseFunctionDecl();
      } else if k == Print {
        r := ParsePrint();
      } else if k == If {
        r := ParseIf();
      } else if k == While {
        r := ParseWhile();
      } else if k == For {
        r := ParseFor();
      } else if k == Return {
        r := ParseReturn();
      } else if k == Identifier {
        r := ParseAssignmentOrCall();
      } else {
        r := Err(ParseError(tokens[position], "Unexpected token: " + KindName(k)));
      }
    }

    /** parse_var_declaration(). */
    method ParseVarDecl() returns (r: Result<Stmt, Error>)
      requires Valid()
      modifies this
      ensures Valid()
      ensures Agrees(r, Parsing.ParseVarDecl(tokens, old(position)), position)
      decreases |tokens| - position, 11, 0
    {
      var kw := Expect(Var);
      if kw.Err? { return Err(kw.error); }
      var name := Expect(Identifier);
      if name.Err? { return Err(name.error); }
      var eq := Expect(Assign);
      if eq.Err? { return Err(eq.error); }
      var value := ParseExpression();
      if value.Err? { return Err(value.error); }
      return Ok(VarDecl(name.value.text, value.value));
    }

    /** parse_function_declaration(). */
    method ParseFunctionDecl() returns (r: Result<Stmt, Error>)
      requires Valid()
      modifies this
      ensures Valid()
      ensures Agrees(r, Parsing.ParseFunctionDecl(tokens, old(position)), position)
      decreases |tokens| - position, 11, 0
    {
      var kw := Expect(Function);
      if kw.Err? { return Err(kw.error); }
      var name := Expect(Identifier);
      if name.Err? { return Err(name.error); }
      var open := Expect(LParen);
      if open.Err? { return Err(open.error); }
      var params := ParseParams();
      if params.Err? { return Err(params.error); }
      var body := ParseClosedBlock();
      if body.Err? { return Err(body.error); }
      return Ok(FunctionDecl(name.value.text, params.value, body.value));
    }

    /** The parameter loop of parse_function_declaration(): names up to ')', each
        optionally followed by ','; the ')' is left for expect(). */
    method ParseParams() returns (r: Result<seq<string>, Error>)
      requires Valid()
      modifies this
      ensures Valid()
      ensures Agrees(r, Parsing.ParseParams(tokens, old(position), []), position)
    {
      ghost var spec := Parsing.ParseParams(tokens, position, []);
      var params: seq<string> := [];
      while tokens[position].kind != RParen
        invariant Valid()
        invariant Parsing.ParseParams(tokens, position, params) == spec
        decreases |tokens| - position
      {
        var id := Expect(Identifier);
        if id.Err? { return Err(id.error); }
        params := params + [id.value.text];
        if tokens[position].kind == Comma {
          var _ := Advance();
        }
      }
      return Ok(params);
    }

    /** The ') :' block that ends parse_function_declaration() and parse_for(). */
    method ParseClosedBlock() returns (r: Result<seq<Stmt>, Error>)
      requires Valid()
      modifies this
      ensures Valid()
      ensures Agrees(r, Parsing.ParseClosedBlock(tokens, old(position)), position)
      decreases |tokens| - position, 15, 0
    {
      var close := Expect(RParen);
      if close.Err? { return Err(close.error); }
      var colon := Expect(Colon);
      if colon.Err? { return Err(colon.error); }
      r := ParseBlock();
    }

    /** parse_block(). */
    method ParseBlock() returns (r: Result<seq<Stmt>, Error>)
      requires Valid()
      modifies this
      ensures Valid()
      ensures Agrees(r, Parsing.ParseBlock(tokens, old(position)), position)
      decreases |tokens| - position, 14, 0
    {
      if tokens[position].kind == LBrace {
        var _ := Advance();
        ghost var restSpec := ParseBlockRest(tokens, position, []);
        var statements: seq<Stmt> := [];
        while tokens[position].kind != RBrace
          invariant Valid()
          invariant ParseBlockRest(tokens, position, statements) == restSpec
          decreases |tokens| - position
        {
          var s := ParseStatement();
          if s.Err? { return Err(s.error); }
          statements := statements + [s.value];
        }
        var _ := Advance();
        return Ok(statements);
      } else {
        var s := ParseStatement();
        if s.Err? { return Err(s.error); }
        return Ok([s.value]);
      }
    }

    /** parse_print(). */
    method ParsePrint() returns (r: Result<Stmt, Error>)
      requires Valid()
      modifies this
      ensures Valid()
      ensures Agrees(r, Parsing.ParsePrint(tokens, old(position)), position)
      decreases |tokens| - position, 11, 0
    {
      var kw := Expect(Print);
      if kw.Err? { return Err(kw.error); }
      var open := Expect(LParen);
      if open.Err? { return Err(open.error); }
      var value := ParseExpression();
      if value.Err? { return Err(value.error); }
      var close := Expect(RParen);
      if close.Err? { return Err(close.error); }
      return Ok(PrintStmt(value.value));
    }

    /** The '(' condition ')' ':' header of parse_if() and parse_while(). */
    method ParseCondition() returns (r: Result<Expr, Error>)
      requires Valid()
      modifies this
      ensures Valid()
      ensures Agrees(r, Parsing.ParseCondition(tokens, old(position)), position)
      decreases |tokens| - position, 10, 0
    {
      var open := Expect(LParen);
      if open.Err? { return Err(open.error); }
      var cond := ParseExpression();
      if cond.Err? { return Err(cond.error); }
      var close := Expect(RParen);
      if close.Err? { return Err(close.error); }
      var colon := Expect(Colon);
      if colon.Err? { return Err(colon.error); }
      return Ok(cond.value);
    }

    /** parse_if(). */
    method ParseIf() returns (r: Result<Stmt, Error>)
      requires Valid()
      modifies this
      ensures Valid()
      ensures Agrees(r, Parsing.ParseIf(tokens, old(position)), position)
      decreases |tokens| - position, 11, 0
    {
      var kw := Expect(If);
      if kw.Err? { return Err(kw.error); }
      var cond := ParseCondition();
      if cond.Err? { return Err(cond.error); }
      var thenBody := ParseBlock();
      if thenBody.Err? { return Err(thenBody.error); }
      var elseBody := ParseElse();
      if elseBody.Err? { return Err(elseBody.error); }
      return Ok(IfStmt(cond.value, thenBody.value, elseBody.value));
    }

    /** The optional else part of parse_if(). */
    method ParseElse() returns (r: Result<seq<Stmt>, Error>)
      requires Valid()
      modifies this
      ensures Valid()
      ensures Agrees(r, Parsing.ParseElse(tokens, old(position)), position)
      decreases |tokens| - position, 12, 0
    {
      if tokens[position].kind == Else {
        var _ := Advance();
        var colon := Expect(Colon);
        if colon.Err? { return Err(colon.error); }
        r := ParseBlock();
      } else {
        r := Ok([]);
      }
    }

    /** parse_while(). */
    method ParseWhile() returns (r: Result<Stmt, Error>)
      requires Valid()
      modifies this
      ensures Valid()
      ensures Agrees(r, Parsing.ParseWhile(tokens, old(position)), position)
      decreases |tokens| - position, 11, 0
    {
      var kw := Expect(While);
      if kw.Err? { return Err(kw.error); }
      var cond := ParseCondition();
      if cond.Err? { return Err(cond.error); }
      var body := ParseBlock();
      if body.Err? { return Err(body.error); }
      return Ok(WhileStmt(cond.value, body.value));
    }

    /** parse_for(). */
    method ParseFor() returns (r: Result<Stmt, Error>)
      requires Valid()
      modifies this
      ensures Valid()
      ensures Agrees(r, Parsing.ParseFor(tokens, old(position)), position)
      decreases |tokens| - position, 12, 2
    {
      var kw := Expect(For);
      if kw.Err? { return Err(kw.error); }
      var open := Expect(LParen);
      if open.Err? { return Err(open.error); }
      var header := ParseForHeader();
      if header.Err? { return Err(header.error); }
      var update := ParseAssignmentOrCall();
      if update.Err? { return Err(update.error); }
      var body := ParseClosedBlock();
      if body.Err? { return Err(body.error); }
      return Ok(ForStmt(header.value.0, header.value.1, update.value, body.value));
    }

    /** The init and condition clauses of parse_for(). */
    method ParseForHeader() returns (r: Result<(Option<Stmt>, Expr), Error>)
      requires Valid()
      modifies this
      ensures Valid()
      ensures Agrees(r, Parsing.ParseForHeader(tokens, old(position)), position)
      decreases |tokens| - position, 12, 1
    {
      var init: Option<Stmt> := None;
      if tokens[position].kind == Var {
        var decl := ParseVarDecl();
        if decl.Err? { return Err(decl.error); }
        init := Some(decl.value);
      }
      var colon1 := Expect(Colon);
      if colon1.Err? { return Err(colon1.error); }
      var cond := ParseExpression();
      if cond.Err? { return Err(cond.error); }
      var colon2 := Expect(Colon);
      if colon2.Err? { return Err(colon2.error); }
      return Ok((init, cond.value));
    }

    /** parse_return(). */
    method ParseReturn() returns (r: Result<Stmt, Error>)
      requires Valid()
      modifies this
      ensures Valid()
      ensures Agrees(r, Parsing.ParseReturn(tokens, old(position)), position)
      decreases |tokens| - position, 11, 0
    {
      var kw := Expect(Return);
      if kw.Err? { return Err(kw.error); }
      var k := tokens[position].kind;
      if k != EOF && k != RBrace {
        var value := ParseExpression();
        if value.Err? { return Err(value.error); }
        return Ok(ReturnStmt(Some(value.value)));
      }
      return Ok(ReturnStmt(None));
    }

    /** parse_assignment_or_call(). */
    method ParseAssignmentOrCall() returns (r: Result<Stmt, Error>)
      requires Valid()
      modifies this
      ensures Valid()
      ensures Agrees(r, Parsing.ParseAssignmentOrCall(tokens, old(position)), position)
      decreases |tokens| - position, 11, 0
    {
      var target := ParseExpression();
      if target.Err? { return Err(target.error); }
      if tokens[position].kind == Assign {
        var _ := Advance();
        var value := ParseExpression();
        if value.Err? { return Err(value.error); }
        return Ok(AssignStmt(target.value, value.value));
      }
      return Ok(ExprStmt(target.value));
    }

    /** parse_expression(). */
    method ParseExpression() returns (r: Result<Expr, Error>)
      requires Valid()
      modifies this
      ensures Valid()
      ensures Agrees(r, Parsing.ParseExpression(tokens, old(position)), position)
      decreases |tokens| - position, 9, 0
    {
      r := ParseLevel(0);
    }

    /** parse_or(), parse_and(), parse_equality(), parse_comparison(),
        parse_additive() and parse_multiplicative(): level lvl of the precedence
        ladder, a left-associative loop over the operators of that level. */
    method ParseLevel(lvl: nat) returns (r: Result<Expr, Error>)
      requires Valid() && lvl <= 5
      modifies this
      ensures Valid()
      ensures Agrees(r, Parsing.ParseLevel(tokens, old(position), lvl), position)
      decreases |tokens| - position, 8 - lvl, 2
    {
      ghost var start := position;
      var first: Result<Expr, Error>;
      if lvl < 5 {
        first := ParseLevel(lvl + 1);
      } else {
        first := ParseUnary();
      }
      if first.Err? { return Err(first.error); }
      var left := first.value;
      while LevelOp(lvl, tokens[position]).Some?
        invariant Valid() && start < position
        invariant ParseLevelRest(tokens, position, lvl, left) == Parsing.ParseLevel(tokens, start, lvl)
        decreases |tokens| - position
      {
        var op := LevelOp(lvl, tokens[position]).value;
        LevelOpNotEof(lvl, tokens[position]);
        var _ := Advance();
        var right: Result<Expr, Error>;
        if lvl < 5 {
          right := ParseLevel(lvl + 1);
        } else {
          right := ParseUnary();
        }
        if right.Err? { return Err(right.error); }
        left := Binary(op, left, right.value);
      }
      return Ok(left);
    }

    /** parse_unary(). */
    method ParseUnary() returns (r: Result<Expr, Error>)
      requires Valid()
      modifies this
      ensures Valid()
      ensures Agrees(r, Parsing.ParseUnary(tokens, old(position)), position)
      decreases |tokens| - position, 2, 0
    {
      var k := tokens[position].kind;
      if k == Not || k == Minus {
        var _ := Advance();
        var e := ParseUnary();
        if e.Err? { return Err(e.error); }
        return Ok(Unary(if k == Not then LogicalNot else Neg, e.value));
      }
      r := ParsePrimary();
    }

    /** An argument list of parse_primary(), from its '(' to its ')'. */
    method ParseArgList() returns (r: Result<seq<Expr>, Error>)
      requires Valid() && tokens[position].kind == LParen
      modifies this
      ensures Valid()
      ensures Agrees(r, Parsing.ParseArgList(tokens, old(position)), position)
      decreases |tokens| - position, 10, 1
    {
      var _ := Advance();
      ghost var spec := Parsing.ParseArgs(tokens, position, []);
      var args: seq<Expr> := [];
      while tokens[position].kind != RParen
        invariant Valid()
        invariant Parsing.ParseArgs(tokens, position, args) == spec
        decreases |tokens| - position
      {
        var e := ParseExpression();
        if e.Err? { return Err(e.error); }
        args := args + [e.value];
        if tokens[position].kind == Comma {
          var _ := Advance();
        }
      }
      var _ := Advance();
      return Ok(args);
    }

    /** parse_primary(). */
    method ParsePrimary() returns (r: Result<Expr, Error>)
      requires Valid()
      modifies this
      ensures Valid()
      ensures Agrees(r, Parsing.ParsePrimary(tokens, old(position)), position)
      decreases |tokens| - position, 1, 0
    {
      var t := tokens[position];
      if t.kind == Number {
        var _ := Advance();
        var lit := NumberLiteral(t.text);
        if lit.Err? { return Err(lit.error); }
        return Ok(Lit(lit.value));
      } else if t.kind == String {
        var _ := Advance();
        return Ok(Lit(StrLit(t.text)));
      } else if t.kind == True {
        var _ := Advance();
        return Ok(Lit(BoolLit(true)));
      } else if t.kind == False {
        var _ := Advance();
        return Ok(Lit(BoolLit(false)));
      } else if t.kind == Identifier {
        r := ParseNamed();
        return;
      } else if t.kind == LParen {
        var _ := Advance();
        var e := ParseExpression();
        if e.Err? { return Err(e.error); }
        var close := Expect(RParen);
        if close.Err? { return Err(close.error); }
        return Ok(e.value);
      }
      return Err(ParseError(t, "Unexpected token in expression: " + KindName(t.kind)));
    }

    /** The identifier case of parse_primary(). */
    method ParseNamed() returns (r: Result<Expr, Error>)
      requires Valid() && tokens[position].kind == Identifier
      modifies this
      ensures Valid()
      ensures Agrees(r, Parsing.ParseNamed(tokens, old(position)), position)
      decreases |tokens| - position, 0, 2
    {
      var name := tokens[position].text;
      var _ := Advance();
      if tokens[position].kind == Dot {
        r := ParseMembers(Ident(name));
      } else if tokens[position].kind == LParen {
        var args := ParseArgList();
        if args.Err? { return Err(args.error); }
        r := Ok(Call(name, args.value));
      } else {
        r := Ok(Ident(name));
      }
    }

    /** The member loop of parse_primary(). */
    method ParseMembers(obj: Expr) returns (r: Result<Expr, Error>)
      requires Valid()
      modifies this
      ensures Valid()
      ensures Agrees(r, Parsing.ParseMembers(tokens, old(position), obj), position)
      decreases |tokens| - position, 0, 1
    {
      ghost var spec := Parsing.ParseMembers(tokens, position, obj);
      var node := obj;
      while tokens[position].kind == Dot
        invariant Valid()
        invariant Parsing.ParseMembers(tokens, position, node) == spec
        decreases |tokens| - position
      {
        var next := ParseMember(node);
        if next.Err? { return Err(next.error); }
        node := next.value;
      }
      return Ok(node);
    }

    /** One pass of the member loop: '.', the member name, and an argument list
        when '(' follows it. */
    method ParseMember(obj: Expr) returns (r: Result<Expr, Error>)
      requires Valid() && tokens[position].kind == Dot
      modifies this
      ensures Valid()
      ensures Agrees(r, Parsing.ParseMember(tokens, old(position), obj), position)
      decreases |tokens| - position, 0, 0
    {
      var _ := Advance();
      var member := Expect(Identifier);
      if member.Err? { return Err(member.error); }
      var name := member.value.text;
      if tokens[position].kind != LParen {
        return Ok(Member(obj, name));
      }
      var args := ParseArgList();
      if args.Err? { return Err(args.error); }
      return Ok(MemberCall(obj, name, args.value));
    }
  }
}
