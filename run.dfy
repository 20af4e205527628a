/**
 * run_code() of interpreter.py: lex, parse and execute a source text on a fresh
 * Executor, and return what it printed.  The exceptions its `except` clause
 * names (SyntaxError, NameError, TypeError, RuntimeError and their subclasses)
 * are re-raised as RuntimeError with the same message; any other exception, and
 * a ReturnException from a 'return' outside a function, leaves run_code as it is.
 */
module Running {
  import opened Wrappers
  import opened Errors
  import opened Tokens
  import opened Lexing
  import opened LexerProperties
  import opened Syntax
  import opened Parsing
  import opened ParserClass
  import opened Values
  import opened Semantics
  import opened ExecutorClass

  /** How run_code ends: the printed text, an exception, a ReturnException that
      escaped to top level, or (in this model only) the fuel ran out.  The text
      printed before an exception is lost with the StringIO that held it. */
  datatype Outcome = Output(text: string) | Failed(error: Error) | EscapedReturn(value: Value) | OutOfFuel

  /** The `except` clause of run_code. */
  function Converted(e: Error): (r: Error)
    ensures r.message == e.message
    ensures ConvertedByRunCode(r.kind) ==> r.kind == RuntimeError
    ensures r.kind != e.kind ==> r.kind == RuntimeError
    ensures !ConvertedByRunCode(e.kind) ==> r == e
  {
    if ConvertedByRunCode(e.kind) then Error(RuntimeError, e.message) else e
  }

  /** Converting twice is converting once: what leaves run_code is never
      converted again. */
  lemma ConvertedIdempotent(e: Error)
    ensures Converted(Converted(e)) == Converted(e)
    ensures ConvertedByRunCode(e.kind) <==> Converted(e).kind == RuntimeError
  {
  }

  /** What the lexer produces is what the parser accepts. */
  lemma LexedTokensValid(src: string)
    requires Lex(src).Ok?
    ensures ValidTokens(Lex(src).value)
  {
    LexShape(src);
    LexNumbers(src);
  }

  function Finished(x: Executed): Outcome
  {
    match x.completion
    case Normal(_) => Output(x.st.out)
    case Returning(v) => EscapedReturn(v)
    case Abrupt(Thrown(e)) => Failed(Converted(e))
    case Abrupt(Exhausted) => OutOfFuel
  }

  function RunCode(h: Host, src: string, fuel: nat): (o: Outcome)
    ensures o.Failed? ==> o.error.kind == RuntimeError || !ConvertedByRunCode(o.error.kind)
    ensures Lex(src).Err? ==> o == Failed(Converted(Lex(src).error))
  {
    match Lex(src)
    case Err(e) => Failed(Converted(e))
    case Ok(toks) =>
      LexedTokensValid(src);
      match Parse(toks)
      case Err(e) => Failed(Converted(e))
      case Ok(statements) => Finished(ExecBlock(h, statements, Initial, fuel, NoneVal))
  }

  /** run_code itself: a Lexer, a Parser and an Executor, used once each. */
  method Run(h: Host, src: string, fuel: nat) returns (o: Outcome)
    ensures o == RunCode(h, src, fuel)
  {
    var lexer := new Lexer(src);
    var tokens := lexer.Tokenize();
    if tokens.Err? {
      return Failed(Converted(tokens.error));
    }
    LexedTokensValid(src);
    var parser := new Parser(tokens.value);
    var statements := parser.Parse();
    if statements.Err? {
      return Failed(Converted(statements.error));
    }
    var executor := new Executor(h);
    var c := executor.Execute(statements.value, fuel);
    match c
    case Normal(_) => o := Output(executor.out);
    case Returning(v) => o := EscapedReturn(v);
    case Abrupt(Thrown(e)) => o := Failed(Converted(e));
    case Abrupt(Exhausted) => o := OutOfFuel;
  }

  /** A source without a single token fails: tokenize() reads its `line`
      variable, which only the token loop assigns, and the resulting
      UnboundLocalError is a NameError that run_code converts. */
  lemma EmptySource(h: Host, fuel: nat)
    ensures RunCode(h, "", fuel) == Failed(Error(RuntimeError, LineUnbound))
  {
  }
}
