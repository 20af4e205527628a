/**
 * Small NovaScript programs, as the syntax trees the parser builds, and what
 * executing them does.
 */
module SamplePrograms {
  import opened Wrappers
  import opened Errors
  import opened Decimal
  import opened Syntax
  import opened Values
  import opened Semantics
  import opened Running
  import opened ExecutorProperties

  function Int(i: int): Expr { Lit(IntLit(i)) }

  /** The arithmetic test: print(2 + 3) prints 5. */
  lemma PrintSum(h: Host)
    ensures ExecBlock(h, [PrintStmt(Binary(Add, Int(2), Int(3)))], Initial, 0, NoneVal).st.out == "5\n"
  {
  }

  /** The variables test: var x = 10  print(x) prints 10. */
  lemma VariablesTest(h: Host)
    ensures ExecBlock(h, [VarDecl("x", Int(10)), PrintStmt(Ident("x"))], Initial, 0, NoneVal).st.out == "10\n"
  {
    var st1 := Initial.(globals := map["x" := IntVal(10)]);
    assert ExecStmt(h, VarDecl("x", Int(10)), Initial, 0) == Executed(Normal(NoneVal), st1);
    assert IntToString(10) == "10";
    assert ExecBlock(h, [PrintStmt(Ident("x"))], st1, 0, NoneVal).st.out == "10\n";
    assert [VarDecl("x", Int(10)), PrintStmt(Ident("x"))][1..] == [PrintStmt(Ident("x"))];
  }

  /** print("n=" + 5): '+' with a string operand concatenates the to_string() forms. */
  lemma PrintConcatenation(h: Host)
    ensures ExecBlock(h, [PrintStmt(Binary(Add, Lit(StrLit("n=")), Int(5)))], Initial, 0, NoneVal).st.out == "n=5\n"
  {
  }

  /** The string concatenation test: var name = "World"  print("Hello, " + name). */
  lemma StringConcatenationTest(h: Host)
    ensures ExecBlock(h, [VarDecl("name", Lit(StrLit("World"))), PrintStmt(Binary(Add, Lit(StrLit("Hello, ")), Ident("name")))],
                      Initial, 0, NoneVal).st.out == "Hello, World\n"
  {
    var decl := VarDecl("name", Lit(StrLit("World")));
    var printIt := PrintStmt(Binary(Add, Lit(StrLit("Hello, ")), Ident("name")));
    var st1 := Initial.(globals := map["name" := StrVal("World")]);
    assert ExecStmt(h, decl, Initial, 0) == Executed(Normal(NoneVal), st1);
    assert ExecBlock(h, [printIt], st1, 0, NoneVal).st.out == "Hello, World\n";
    assert [decl, printIt][1..] == [printIt];
  }

  /** The functions test: function add(a, b) { return a + b }  print(add(3, 5)) prints 8. */
  lemma CallReturns(h: Host)
    ensures ExecBlock(h, [AddDecl, PrintStmt(Call("add", [Int(3), Int(5)]))], Initial, 1, NoneVal).st.out == "8\n"
  {
    var st1 := Initial.(globals := map["add" := FuncVal("add", ["a", "b"], AddBody)]);
    assert ExecStmt(h, AddDecl, Initial, 1) == Executed(Normal(NoneVal), st1);
    AddCall(h, st1);
    var printCall := PrintStmt(Call("add", [Int(3), Int(5)]));
    assert IntToString(8) == "8";
    assert ExecStmt(h, printCall, st1, 1) == Executed(Normal(NoneVal), st1.(out := "8\n"));
    assert [AddDecl, printCall][1..] == [printCall];
    assert ExecBlock(h, [printCall], st1, 1, NoneVal).st.out == "8\n";
  }

  const AddBody := [ReturnStmt(Some(Binary(Add, Ident("a"), Ident("b"))))]

  const AddDecl := FunctionDecl("add", ["a", "b"], AddBody)

  /** The arguments 3, 5 evaluate in order, changing nothing. */
  lemma AddArguments(h: Host, st: State, fuel: nat)
    ensures EvalArgs(h, [Int(3), Int(5)], st, fuel, []) == EvaluatedArgs(Ok([IntVal(3), IntVal(5)]), st)
  {
    assert [Int(3), Int(5)][1..] == [Int(5)] && [Int(5)][1..] == [];
    assert [] + [IntVal(3)] == [IntVal(3)] && [IntVal(3)] + [IntVal(5)] == [IntVal(3), IntVal(5)];
    assert EvalArgs(h, [], st, fuel, [IntVal(3), IntVal(5)]) == EvaluatedArgs(Ok([IntVal(3), IntVal(5)]), st);
    assert EvalArgs(h, [Int(5)], st, fuel, [IntVal(3)]) == EvaluatedArgs(Ok([IntVal(3), IntVal(5)]), st);
  }

  /** return a + b, with a bound to 3 and b to 5, returns 8. */
  lemma AddBodyReturns(h: Host, inside: State, fuel: nat)
    requires inside.locals == Some(map["a" := IntVal(3), "b" := IntVal(5)])
    ensures ExecBlock(h, AddBody, inside, fuel, NoneVal) == Executed(Returning(IntVal(8)), inside)
  {
    assert LookupVar(inside, "a") == Ok(IntVal(3)) && LookupVar(inside, "b") == Ok(IntVal(5));
    IntLeaves(h, "a", inside, fuel, 3, 0);
    IntLeaves(h, "b", inside, fuel, 5, 0);
    IntOperators(h, 3, 5);
    IntBinary(h, Add, Ident("a"), Ident("b"), inside, fuel, 3, 5);
    assert ExecStmt(h, AddBody[0], inside, fuel) == Executed(Returning(IntVal(8)), inside);
  }

  /** add(3, 5) yields 8 and leaves the state as it was. */
  lemma AddCall(h: Host, st1: State)
    requires st1 == Initial.(globals := map["add" := FuncVal("add", ["a", "b"], AddBody)])
    ensures EvalCall(h, "add", [Int(3), Int(5)], st1, 1) == Evaluated(Ok(IntVal(8)), st1)
  {
    AddArguments(h, st1, 1);
    var c := Callee(["a", "b"], AddBody);
    assert CalleeOf("add", st1.globals["add"], 2) == Ok(c);
    var inside := st1.(locals := Some(map["a" := IntVal(3), "b" := IntVal(5)]));
    assert Enter(st1, c, [IntVal(3), IntVal(5)]) == inside;
    AddBodyReturns(h, inside, 0);
    assert "add"[0] != "require"[0];
  }

  /** function outer() { function inner() {}  inner() }  outer():
      inner is bound in outer's local scope, and calls look in the global scope. */
  lemma NestedFunctionNotCallable(h: Host)
    ensures ExecBlock(h, [FunctionDecl("outer", [], [FunctionDecl("inner", [], []), ExprStmt(Call("inner", []))]),
                          ExprStmt(Call("outer", []))], Initial, 1, NoneVal).completion
      == Abrupt(Thrown(Error(NameError, "Undefined function: " + "inner")))
  {
    var body := [FunctionDecl("inner", [], []), ExprStmt(Call("inner", []))];
    var st1 := Initial.(globals := map["outer" := FuncVal("outer", [], body)]);
    var inside := st1.(locals := Some(map[]));
    var inside2 := st1.(locals := Some(map["inner" := FuncVal("inner", [], [])]));
    assert ExecStmt(h, body[0], inside, 0).st == inside2;
    assert "inner"[0] != "require"[0] && "inner"[0] != "outer"[0];
    assert EvalArgs(h, [], inside2, 0, []) == EvaluatedArgs(Ok([]), inside2);
    assert EvalCall(h, "inner", [], inside2, 0).result == Err(Thrown(Error(NameError, "Undefined function: " + "inner")));
    assert ExecBlock(h, body, inside, 0, NoneVal).completion == Abrupt(Thrown(Error(NameError, "Undefined function: " + "inner")));
  }

  /** return 1  print(2): a 'return' at top level leaves run_code as a
      ReturnException, and what follows it does not run. */
  lemma TopLevelReturn(h: Host)
    ensures Finished(ExecBlock(h, [ReturnStmt(Some(Int(1))), PrintStmt(Int(2))], Initial, 0, NoneVal))
      == EscapedReturn(IntVal(1))
  {
  }

  /** print(1 / 0): ZeroDivisionError is not among the exceptions run_code converts. */
  lemma DivisionByZero(h: Host)
    ensures Finished(ExecBlock(h, [PrintStmt(Binary(Div, Int(1), Int(0)))], Initial, 0, NoneVal))
      == Failed(Error(ZeroDivisionError, "integer division or modulo by zero"))
  {
  }

  /** print(undefined): NameError becomes RuntimeError. */
  lemma UndefinedVariable(h: Host)
    ensures Finished(ExecBlock(h, [PrintStmt(Ident("x"))], Initial, 0, NoneVal))
      == Failed(Error(RuntimeError, "Undefined variable: " + "x"))
  {
  }

  // ---------------------------------------------------------------------------
  // Evaluation steps on ints

  lemma IntOperators(h: Host, a: int, b: int)
    ensures BinaryValue(h, Le, IntVal(a), IntVal(b)) == Ok(BoolVal(a <= b))
    ensures BinaryValue(h, Add, IntVal(a), IntVal(b)) == Ok(IntVal(a + b))
    ensures BinaryValue(h, Sub, IntVal(a), IntVal(b)) == Ok(IntVal(a - b))
    ensures BinaryValue(h, Mul, IntVal(a), IntVal(b)) == Ok(IntVal(a * b))
  {
    assert (a as real <= b as real) == (a <= b);
  }

  /** A binary expression whose operands evaluate to ints without changing the state. */
  lemma IntBinary(h: Host, op: BinOp, l: Expr, r: Expr, st: State, fuel: nat, a: int, b: int)
    requires Eval(h, l, st, fuel) == Evaluated(Ok(IntVal(a)), st)
    requires Eval(h, r, st, fuel) == Evaluated(Ok(IntVal(b)), st)
    ensures Eval(h, Binary(op, l, r), st, fuel) == Evaluated(Raise(BinaryValue(h, op, IntVal(a), IntVal(b))), st)
  {
  }

  /** A variable bound to an int, and an int literal, evaluate without changing the state. */
  lemma IntLeaves(h: Host, name: string, st: State, fuel: nat, a: int, i: int)
    requires LookupVar(st, name) == Ok(IntVal(a))
    ensures Eval(h, Ident(name), st, fuel) == Evaluated(Ok(IntVal(a)), st)
    ensures Eval(h, Int(i), st, fuel) == Evaluated(Ok(IntVal(i)), st)
  {
  }

  // ---------------------------------------------------------------------------
  // Recursion: the factorial program

  function Fact(n: int): int
    decreases n
  {
    if n <= 1 then 1 else n * Fact(n - 1)
  }

  /** if (n <= 1): { return 1 }  return n * factorial(n - 1) */
  const FactorialBody := [IfStmt(Binary(Le, Ident("n"), Int(1)), [ReturnStmt(Some(Int(1)))], []),
                          ReturnStmt(Some(Binary(Mul, Ident("n"), Call("factorial", [Binary(Sub, Ident("n"), Int(1))]))))]

  const FactorialDecl := FunctionDecl("factorial", ["n"], FactorialBody)

  const FactorialArg := Binary(Sub, Ident("n"), Int(1))

  /** The scope of a call of factorial(n). */
  function CallScope(g: map<string, Value>, out: string, n: int): State
  {
    State(g, Some(map["n" := IntVal(n)]), out)
  }

  /** The 'if' at the top of the body returns 1 exactly when n <= 1. */
  lemma FactorialTest(h: Host, g: map<string, Value>, out: string, n: int, fuel: nat)
    ensures var inside := CallScope(g, out, n);
      ExecStmt(h, FactorialBody[0], inside, fuel)
        == if n <= 1 then Executed(Returning(IntVal(1)), inside) else Executed(Normal(NoneVal), inside)
  {
    var inside := CallScope(g, out, n);
    var test := FactorialBody[0];
    assert LookupVar(inside, "n") == Ok(IntVal(n));
    IntLeaves(h, "n", inside, fuel, n, 1);
    IntOperators(h, n, 1);
    IntBinary(h, Le, Ident("n"), Int(1), inside, fuel, n, 1);
    assert Eval(h, test.cond, inside, fuel) == Evaluated(Ok(BoolVal(n <= 1)), inside);
    if n <= 1 {
      var r := ReturnStmt(Some(Int(1)));
      assert ExecStmt(h, r, inside, fuel) == Executed(Returning(IntVal(1)), inside);
      assert ExecBlock(h, [r], inside, fuel, NoneVal) == Executed(Returning(IntVal(1)), inside);
    } else {
      assert ExecBlock(h, [], inside, fuel, NoneVal) == Executed(Normal(NoneVal), inside);
    }
  }

  /** The argument n - 1 of the recursive call. */
  lemma FactorialArgument(h: Host, g: map<string, Value>, out: string, n: int, fuel: nat)
    ensures EvalArgs(h, [FactorialArg], CallScope(g, out, n), fuel, [])
      == EvaluatedArgs(Ok([IntVal(n - 1)]), CallScope(g, out, n))
  {
    var inside := CallScope(g, out, n);
    assert LookupVar(inside, "n") == Ok(IntVal(n));
    IntLeaves(h, "n", inside, fuel, n, 1);
    IntOperators(h, n, 1);
    IntBinary(h, Sub, Ident("n"), Int(1), inside, fuel, n, 1);
    assert [FactorialArg][1..] == [] && [] + [IntVal(n - 1)] == [IntVal(n - 1)];
    assert EvalArgs(h, [], inside, fuel, [IntVal(n - 1)]) == EvaluatedArgs(Ok([IntVal(n - 1)]), inside);
  }

  /** The final 'return', once the recursive call has yielded m. */
  lemma FactorialReturn(h: Host, g: map<string, Value>, out: string, n: int, m: int, fuel: nat)
    requires EvalCall(h, "factorial", [FactorialArg], CallScope(g, out, n), fuel)
      == Evaluated(Ok(IntVal(m)), CallScope(g, out, n))
    ensures ExecStmt(h, FactorialBody[1], CallScope(g, out, n), fuel)
      == Executed(Returning(IntVal(n * m)), CallScope(g, out, n))
  {
    var inside := CallScope(g, out, n);
    assert LookupVar(inside, "n") == Ok(IntVal(n));
    IntLeaves(h, "n", inside, fuel, n, 1);
    IntOperators(h, n, m);
    IntBinary(h, Mul, Ident("n"), Call("factorial", [FactorialArg]), inside, fuel, n, m);
  }

  /** The body of factorial, run with n bound in a fresh local scope, returns n!
      when the fuel covers the n - 1 nested calls, and changes nothing. */
  lemma {:induction false} FactorialComputes(h: Host, g: map<string, Value>, out: string, n: int, fuel: nat)
    requires "factorial" in g && g["factorial"] == FuncVal("factorial", ["n"], FactorialBody)
    requires n <= 1 || fuel >= n - 1
    ensures ExecBlock(h, FactorialBody, CallScope(g, out, n), fuel, NoneVal)
      == Executed(Returning(IntVal(Fact(n))), CallScope(g, out, n))
    decreases fuel, 1
  {
    var inside := CallScope(g, out, n);
    FactorialTest(h, g, out, n, fuel);
    if n > 1 {
      FactorialArgument(h, g, out, n, fuel);
      FactorialCallOf(h, inside, [FactorialArg], n - 1, fuel);
      FactorialReturn(h, g, out, n, Fact(n - 1), fuel);
      assert FactorialBody[1..] == [FactorialBody[1]];
      assert ExecBlock(h, FactorialBody[1..], inside, fuel, NoneVal) == Executed(Returning(IntVal(Fact(n))), inside);
    }
  }

  /** factorial(...) with arguments that evaluate to the single int n, without
      changing the state, yields n! given fuel for the nested calls. */
  lemma {:induction false} FactorialCallOf(h: Host, st: State, args: seq<Expr>, n: int, fuel: nat)
    requires "factorial" in st.globals && st.globals["factorial"] == FuncVal("factorial", ["n"], FactorialBody)
    requires EvalArgs(h, args, st, fuel, []) == EvaluatedArgs(Ok([IntVal(n)]), st)
    requires fuel >= 1 && fuel >= n
    ensures EvalCall(h, "factorial", args, st, fuel) == Evaluated(Ok(IntVal(Fact(n))), st)
    decreases fuel, 0
  {
    var c := Callee(["n"], FactorialBody);
    assert CalleeOf("factorial", st.globals["factorial"], 1) == Ok(c);
    assert Enter(st, c, [IntVal(n)]) == CallScope(st.globals, st.out, n);
    FactorialComputes(h, st.globals, st.out, n, fuel - 1);
    assert "factorial"[0] != "require"[0];
  }

  /** factorial(n) yields n! and leaves the state as it was, given fuel for the
      n nested calls. */
  lemma FactorialCall(h: Host, st: State, n: int, fuel: nat)
    requires "factorial" in st.globals && st.globals["factorial"] == FuncVal("factorial", ["n"], FactorialBody)
    requires fuel >= 1 && fuel >= n
    ensures EvalCall(h, "factorial", [Int(n)], st, fuel) == Evaluated(Ok(IntVal(Fact(n))), st)
  {
    assert [Int(n)][1..] == [] && [] + [IntVal(n)] == [IntVal(n)];
    assert EvalArgs(h, [], st, fuel, [IntVal(n)]) == EvaluatedArgs(Ok([IntVal(n)]), st);
    assert EvalArgs(h, [Int(n)], st, fuel, []) == EvaluatedArgs(Ok([IntVal(n)]), st);
    FactorialCallOf(h, st, [Int(n)], n, fuel);
  }

  /** The recursion test: print(factorial(5)) after the declaration prints 120. */
  lemma FactorialOfFive(h: Host)
    ensures ExecBlock(h, [FactorialDecl, PrintStmt(Call("factorial", [Int(5)]))], Initial, 5, NoneVal).st.out == "120\n"
  {
    var st1 := Initial.(globals := map["factorial" := FuncVal("factorial", ["n"], FactorialBody)]);
    assert ExecStmt(h, FactorialDecl, Initial, 5) == Executed(Normal(NoneVal), st1);
    FactorialCall(h, st1, 5, 5);
    assert Fact(5) == 120;
    assert ToString(h, IntVal(120)) == "120";
    var printCall := PrintStmt(Call("factorial", [Int(5)]));
    assert ExecStmt(h, printCall, st1, 5) == Executed(Normal(NoneVal), st1.(out := "120\n"));
    assert ExecBlock(h, [printCall], st1, 5, NoneVal).st.out == "120\n";
    assert [FactorialDecl, printCall][1..] == [printCall];
  }

  // ---------------------------------------------------------------------------
  // Loops: counting with 'while' and with 'for'

  /** The lines "k", "k+1", ..., "n", each ended by a newline. */
  function Lines(k: int, n: int): string
    decreases n - k
  {
    if k > n then "" else IntToString(k) + "\n" + Lines(k + 1, n)
  }

  const PrintI := PrintStmt(Ident("i"))

  /** i = i + 1 */
  const Increment := AssignStmt(Ident("i"), Binary(Add, Ident("i"), Int(1)))

  /** while (i <= n): { print(i)  i = i + 1 } */
  function CountingWhile(n: int): Stmt
  {
    WhileStmt(Binary(Le, Ident("i"), Int(n)), [PrintI, Increment])
  }

  /** for (var i = start : i <= n : i = i + 1): { print(i) } */
  function CountingFor(start: int, n: int): Stmt
  {
    ForStmt(Some(VarDecl("i", Int(start))), Binary(Le, Ident("i"), Int(n)), Increment, [PrintI])
  }

  /** The loop condition i <= n at top level, with the global i at k. */
  lemma CountingCondition(h: Host, g: map<string, Value>, out: string, k: int, n: int, fuel: nat)
    requires "i" in g && g["i"] == IntVal(k)
    ensures Eval(h, CountingWhile(n).cond, State(g, None, out), fuel) == Evaluated(Ok(BoolVal(k <= n)), State(g, None, out))
  {
    var st := State(g, None, out);
    assert LookupVar(st, "i") == Ok(IntVal(k));
    IntLeaves(h, "i", st, fuel, k, n);
    IntOperators(h, k, n);
    IntBinary(h, Le, Ident("i"), Int(n), st, fuel, k, n);
  }

  /** print(i) with the global i at k. */
  lemma PrintIStep(h: Host, g: map<string, Value>, out: string, k: int, fuel: nat)
    requires "i" in g && g["i"] == IntVal(k)
    ensures ExecStmt(h, PrintI, State(g, None, out), fuel)
      == Executed(Normal(NoneVal), State(g, None, out + IntToString(k) + "\n"))
  {
    assert LookupVar(State(g, None, out), "i") == Ok(IntVal(k));
  }

  /** i = i + 1 with the global i at k. */
  lemma IncrementStep(h: Host, g: map<string, Value>, out: string, k: int, fuel: nat)
    requires "i" in g && g["i"] == IntVal(k)
    ensures ExecStmt(h, Increment, State(g, None, out), fuel)
      == Executed(Normal(NoneVal), State(g["i" := IntVal(k + 1)], None, out))
  {
    var st := State(g, None, out);
    assert LookupVar(st, "i") == Ok(IntVal(k));
    IntLeaves(h, "i", st, fuel, k, 1);
    IntOperators(h, k, 1);
    IntBinary(h, Add, Ident("i"), Int(1), st, fuel, k, 1);
    assert AssignVar(st, "i", IntVal(k + 1)) == State(g["i" := IntVal(k + 1)], None, out);
  }

  /** One pass through the loop body: k printed, i moved to k + 1. */
  lemma CountingBody(h: Host, g: map<string, Value>, out: string, k: int, fuel: nat)
    requires "i" in g && g["i"] == IntVal(k)
    ensures ExecBlock(h, [PrintI, Increment], State(g, None, out), fuel, NoneVal)
      == Executed(Normal(NoneVal), State(g["i" := IntVal(k + 1)], None, out + IntToString(k) + "\n"))
  {
    var out1 := out + IntToString(k) + "\n";
    PrintIStep(h, g, out, k, fuel);
    IncrementStep(h, g, out1, k, fuel);
    var st2 := State(g["i" := IntVal(k + 1)], None, out1);
    assert ExecBlock(h, [Increment], State(g, None, out1), fuel, NoneVal) == Executed(Normal(NoneVal), st2);
    assert [PrintI, Increment][1..] == [Increment];
  }

  /** With i past n the counting loop stops at once. */
  lemma CountingExit(h: Host, g: map<string, Value>, out: string, k: int, n: int, fuel: nat)
    requires "i" in g && g["i"] == IntVal(k) && k > n
    ensures ExecWhile(h, CountingWhile(n), State(g, None, out), fuel) == Executed(Normal(NoneVal), State(g, None, out))
  {
    CountingCondition(h, g, out, k, n, fuel);
    assert !IsTruthy(BoolVal(false));
  }

  /** With i at most n the counting loop runs its body once and starts over. */
  lemma CountingIteration(h: Host, g: map<string, Value>, out: string, k: int, n: int, fuel: nat)
    requires "i" in g && g["i"] == IntVal(k) && k <= n && fuel > 0
    ensures ExecWhile(h, CountingWhile(n), State(g, None, out), fuel)
      == ExecWhile(h, CountingWhile(n), State(g["i" := IntVal(k + 1)], None, out + IntToString(k) + "\n"), fuel - 1)
  {
    CountingCondition(h, g, out, k, n, fuel);
    assert IsTruthy(BoolVal(true));
    CountingBody(h, g, out, k, fuel - 1);
  }

  /** At top level, with the global i at k, the counting loop prints k up to n,
      one per line, and leaves i at n + 1; it needs one unit of fuel per line. */
  lemma {:induction false} CountingWhilePrints(h: Host, g: map<string, Value>, out: string, k: int, n: int, fuel: nat)
    requires "i" in g && g["i"] == IntVal(k)
    requires k <= n + 1 && fuel >= n - k + 1
    ensures ExecWhile(h, CountingWhile(n), State(g, None, out), fuel)
      == Executed(Normal(NoneVal), State(g["i" := IntVal(n + 1)], None, out + Lines(k, n)))
    decreases n - k + 1
  {
    if k == n + 1 {
      CountingExit(h, g, out, k, n, fuel);
      assert g["i" := IntVal(n + 1)] == g;
      assert Lines(k, n) == "";
      assert out + Lines(k, n) == out;
    } else {
      var out1 := out + IntToString(k) + "\n";
      var g1 := g["i" := IntVal(k + 1)];
      CountingIteration(h, g, out, k, n, fuel);
      CountingWhilePrints(h, g1, out1, k + 1, n, fuel - 1);
      assert g1["i" := IntVal(n + 1)] == g["i" := IntVal(n + 1)];
      LinesStep(out, k, n);
    }
  }

  /** Appending line k and then the lines after it is appending the lines from k. */
  lemma LinesStep(out: string, k: int, n: int)
    requires k <= n
    ensures out + IntToString(k) + "\n" + Lines(k + 1, n) == out + Lines(k, n)
  {
    var line, rest := IntToString(k), Lines(k + 1, n);
    assert Lines(k, n) == line + "\n" + rest;
    AppendThree(out, line, "\n", rest);
  }

  lemma AppendThree(s: string, a: string, b: string, c: string)
    ensures s + a + b + c == s + (a + b + c)
  {
    assert s + a + b == s + (a + b);
  }

  /** The 'for' version prints the same lines: its loop is the 'while' loop
      above once the init clause has bound i. */
  lemma CountingForPrints(h: Host, g: map<string, Value>, out: string, start: int, n: int, fuel: nat)
    requires start <= n + 1 && fuel >= n - start + 1
    ensures ExecStmt(h, CountingFor(start, n), State(g, None, out), fuel)
      == Executed(Normal(NoneVal), State(g["i" := IntVal(n + 1)], None, out + Lines(start, n)))
  {
    var f := CountingFor(start, n);
    var g0 := g["i" := IntVal(start)];
    assert ExecStmt(h, f.init.value, State(g, None, out), fuel) == Executed(Normal(NoneVal), State(g0, None, out));
    ForIsWhile(h, f, State(g0, None, out), fuel);
    assert f.body + [f.update] == [PrintI, Increment];
    CountingWhilePrints(h, g0, out, start, n, fuel);
    assert g0["i" := IntVal(n + 1)] == g["i" := IntVal(n + 1)];
  }

  /** The lines 1, 2, 3. */
  lemma OneToThree()
    ensures Lines(1, 3) == "1\n2\n3\n"
  {
    assert IntToString(1) == "1" && IntToString(2) == "2" && IntToString(3) == "3";
    assert Lines(4, 3) == "";
  }

  /** The while-loop test: var i = 1, then the loop up to 3, prints 1, 2 and 3. */
  lemma WhileLoopTest(h: Host)
    ensures ExecBlock(h, [VarDecl("i", Int(1)), CountingWhile(3)], Initial, 3, NoneVal).st.out == "1\n2\n3\n"
  {
    var st1 := Initial.(globals := map["i" := IntVal(1)]);
    assert ExecStmt(h, VarDecl("i", Int(1)), Initial, 3) == Executed(Normal(NoneVal), st1);
    CountingWhilePrints(h, st1.globals, "", 1, 3, 3);
    OneToThree();
    assert [VarDecl("i", Int(1)), CountingWhile(3)][1..] == [CountingWhile(3)];
  }

  /** The for-loop test: the loop from 1 to 3 prints 1, 2 and 3. */
  lemma ForLoopTest(h: Host)
    ensures ExecBlock(h, [CountingFor(1, 3)], Initial, 3, NoneVal).st.out == "1\n2\n3\n"
  {
    CountingForPrints(h, map[], "", 1, 3, 3);
    OneToThree();
  }
}
