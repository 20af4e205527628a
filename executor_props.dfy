/**
 * Properties of the executor's semantics: what a run can and cannot change,
 * how statement lists compose, the scope rules, and the Python arithmetic the
 * operators inherit.
 */
module ExecutorProperties {
  import opened Wrappers
  import opened Errors
  import opened Syntax
  import opened Values
  import opened Semantics

  // ---------------------------------------------------------------------------
  // Nothing is ever taken back: output is only appended to, and no binding is
  // ever removed from a scope

  /** b is a later state than a in the same call: a's output is a prefix of b's,
      every name bound in a is still bound in b, and the call is still active or
      still absent. */
  predicate Grows(a: State, b: State)
  {
    a.out <= b.out
    && a.globals.Keys <= b.globals.Keys
    && a.locals.Some? == b.locals.Some?
    && (a.locals.Some? ==> a.locals.value.Keys <= b.locals.value.Keys)
  }

  lemma GrowsTrans(a: State, b: State, c: State)
    requires Grows(a, b) && Grows(b, c)
    ensures Grows(a, c)
  {
    assert b.out[..|a.out|] == a.out;
    assert c.out[..|b.out|] == b.out;
    assert c.out[..|a.out|] == c.out[..|b.out|][..|a.out|];
  }

  lemma {:induction false} EvalGrows(h: Host, e: Expr, st: State, fuel: nat)
    ensures Grows(st, Eval(h, e, st, fuel).st)
    decreases fuel, e, 2
  {
    match e
    case Lit(_) =>
    case Ident(_) =>
    case Member(obj, _) =>
      EvalGrows(h, obj, st, fuel);
    case MemberCall(obj, _, args) =>
      EvalGrows(h, obj, st, fuel);
      var o := Eval(h, obj, st, fuel);
      if o.result.Ok? {
        EvalArgsGrows(h, args, o.st, fuel, []);
        GrowsTrans(st, o.st, EvalArgs(h, args, o.st, fuel, []).st);
      }
    case Binary(_, _, _) =>
      EvalBinaryGrows(h, e, st, fuel);
    case Unary(_, operand) =>
      EvalGrows(h, operand, st, fuel);
    case Call(name, args) =>
      EvalCallGrows(h, name, args, st, fuel);
  }

  lemma {:induction false} EvalBinaryGrows(h: Host, e: Expr, st: State, fuel: nat)
    requires e.Binary?
    ensures Grows(st, EvalBinary(h, e, st, fuel).st)
    decreases fuel, e, 1
  {
    EvalGrows(h, e.left, st, fuel);
    var l := Eval(h, e.left, st, fuel);
    if l.result.Ok? {
      EvalGrows(h, e.right, l.st, fuel);
      GrowsTrans(st, l.st, Eval(h, e.right, l.st, fuel).st);
    }
  }

  lemma {:induction false} EvalArgsGrows(h: Host, args: seq<Expr>, st: State, fuel: nat, done: seq<Value>)
    ensures Grows(st, EvalArgs(h, args, st, fuel, done).st)
    decreases fuel, args, 0
  {
    if |args| > 0 {
      EvalGrows(h, args[0], st, fuel);
      var a := Eval(h, args[0], st, fuel);
      if a.result.Ok? {
        EvalArgsGrows(h, args[1..], a.st, fuel, done + [a.result.value]);
        GrowsTrans(st, a.st, EvalArgs(h, args[1..], a.st, fuel, done + [a.result.value]).st);
      }
    }
  }

  lemma {:induction false} EvalCallGrows(h: Host, name: string, args: seq<Expr>, st: State, fuel: nat)
    ensures Grows(st, EvalCall(h, name, args, st, fuel).st)
    decreases fuel, args, 1
  {
    EvalArgsGrows(h, args, st, fuel, []);
    var a := EvalArgs(h, args, st, fuel, []);
    if a.result.Ok? && name != "require" && name in a.st.globals && fuel > 0 {
      var vs := a.result.value;
      var callee := CalleeOf(name, a.st.globals[name], |vs|);
      if callee.Ok? {
        var inner := Enter(a.st, callee.value, vs);
        ExecBlockGrows(h, callee.value.body, inner, fuel - 1, NoneVal);
        var body := ExecBlock(h, callee.value.body, inner, fuel - 1, NoneVal);
        GrowsTrans(st, a.st, Returned(body, a.st).st);
      }
    }
  }

  lemma {:induction false} ExecBlockGrows(h: Host, ss: seq<Stmt>, st: State, fuel: nat, last: Value)
    ensures Grows(st, ExecBlock(h, ss, st, fuel, last).st)
    decreases fuel, ss, 0
  {
    if |ss| > 0 {
      ExecStmtGrows(h, ss[0], st, fuel);
      var x := ExecStmt(h, ss[0], st, fuel);
      if x.completion.Normal? {
        ExecBlockGrows(h, ss[1..], x.st, fuel, x.completion.value);
        GrowsTrans(st, x.st, ExecBlock(h, ss[1..], x.st, fuel, x.completion.value).st);
      }
    }
  }

  lemma DeclareGrows(st: State, name: string, v: Value)
    ensures Grows(st, Declare(st, name, v)) && Grows(st, AssignVar(st, name, v))
  {
  }

  lemma {:induction false} ExecStmtGrows(h: Host, s: Stmt, st: State, fuel: nat)
    ensures Grows(st, ExecStmt(h, s, st, fuel).st)
    decreases fuel, s, 1
  {
    match s
    case VarDecl(name, e) =>
      EvalGrows(h, e, st, fuel);
      var v := Eval(h, e, st, fuel);
      if v.result.Ok? {
        DeclareGrows(v.st, name, v.result.value);
        GrowsTrans(st, v.st, Declare(v.st, name, v.result.value));
      }
    case FunctionDecl(name, params, body) =>
      DeclareGrows(st, name, FuncVal(name, params, body));
    case PrintStmt(e) =>
      EvalGrows(h, e, st, fuel);
      var v := Eval(h, e, st, fuel);
      if v.result.Ok? {
        var printed := v.st.(out := v.st.out + ToString(h, v.result.value) + "\n");
        assert printed.out[..|v.st.out|] == v.st.out;
        GrowsTrans(st, v.st, printed);
      }
    case IfStmt(cond, thenBody, elseBody) =>
      EvalGrows(h, cond, st, fuel);
      var c := Eval(h, cond, st, fuel);
      if c.result.Ok? {
        ExecBlockGrows(h, thenBody, c.st, fuel, NoneVal);
        ExecBlockGrows(h, elseBody, c.st, fuel, NoneVal);
        GrowsTrans(st, c.st, ExecBlock(h, thenBody, c.st, fuel, NoneVal).st);
        GrowsTrans(st, c.st, ExecBlock(h, elseBody, c.st, fuel, NoneVal).st);
      }
    case WhileStmt(_, _) =>
      ExecWhileGrows(h, s, st, fuel);
    case ForStmt(init, _, _, _) =>
      if init.Some? {
        ExecStmtGrows(h, init.value, st, fuel);
        var i := ExecStmt(h, init.value, st, fuel);
        ExecForGrows(h, s, i.st, fuel);
        GrowsTrans(st, i.st, ExecFor(h, s, i.st, fuel).st);
      } else {
        ExecForGrows(h, s, st, fuel);
      }
    case ReturnStmt(result) =>
      if result.Some? {
        EvalGrows(h, result.value, st, fuel);
      }
    case AssignStmt(target, e) =>
      if target.Ident? {
        EvalGrows(h, e, st, fuel);
        var v := Eval(h, e, st, fuel);
        if v.result.Ok? {
          DeclareGrows(v.st, target.name, v.result.value);
          GrowsTrans(st, v.st, AssignVar(v.st, target.name, v.result.value));
        }
      }
    case ExprStmt(e) =>
      EvalGrows(h, e, st, fuel);
  }

  lemma {:induction false} ExecWhileGrows(h: Host, s: Stmt, st: State, fuel: nat)
    requires s.WhileStmt?
    ensures Grows(st, ExecWhile(h, s, st, fuel).st)
    decreases fuel, s, 0
  {
    EvalGrows(h, s.cond, st, fuel);
    var c := Eval(h, s.cond, st, fuel);
    if c.result.Ok? && IsTruthy(c.result.value) && fuel > 0 {
      ExecBlockGrows(h, s.body, c.st, fuel - 1, NoneVal);
      var b := ExecBlock(h, s.body, c.st, fuel - 1, NoneVal);
      GrowsTrans(st, c.st, b.st);
      if b.completion.Normal? {
        ExecWhileGrows(h, s, b.st, fuel - 1);
        GrowsTrans(st, b.st, ExecWhile(h, s, b.st, fuel - 1).st);
      }
    }
  }

  lemma {:induction false} ExecForGrows(h: Host, s: Stmt, st: State, fuel: nat)
    requires s.ForStmt?
    ensures Grows(st, ExecFor(h, s, st, fuel).st)
    decreases fuel, s, 0
  {
    EvalGrows(h, s.cond, st, fuel);
    var c := Eval(h, s.cond, st, fuel);
    if c.result.Ok? && IsTruthy(c.result.value) && fuel > 0 {
      ExecBlockGrows(h, s.body, c.st, fuel - 1, NoneVal);
      var b := ExecBlock(h, s.body, c.st, fuel - 1, NoneVal);
      GrowsTrans(st, c.st, b.st);
      if b.completion.Normal? {
        ExecStmtGrows(h, s.update, b.st, fuel - 1);
        var u := ExecStmt(h, s.update, b.st, fuel - 1);
        GrowsTrans(st, b.st, u.st);
        if u.completion.Normal? {
          ExecForGrows(h, s, u.st, fuel - 1);
          GrowsTrans(st, u.st, ExecFor(h, s, u.st, fuel - 1).st);
        }
      }
    }
  }

  // ---------------------------------------------------------------------------
  // Evaluating an expression never changes the caller's local scope: a call
  // restores it on every path (the `finally` of evaluate_call())

  lemma {:induction false} EvalKeepsLocals(h: Host, e: Expr, st: State, fuel: nat)
    ensures Eval(h, e, st, fuel).st.locals == st.locals
    decreases fuel, e, 2
  {
    match e
    case Lit(_) =>
    case Ident(_) =>
    case Member(obj, _) =>
      EvalKeepsLocals(h, obj, st, fuel);
    case MemberCall(obj, _, args) =>
      EvalKeepsLocals(h, obj, st, fuel);
      var o := Eval(h, obj, st, fuel);
      if o.result.Ok? {
        EvalArgsKeepLocals(h, args, o.st, fuel, []);
      }
    case Binary(_, left, right) =>
      EvalKeepsLocals(h, left, st, fuel);
      var l := Eval(h, left, st, fuel);
      if l.result.Ok? {
        EvalKeepsLocals(h, right, l.st, fuel);
      }
    case Unary(_, operand) =>
      EvalKeepsLocals(h, operand, st, fuel);
    case Call(name, args) =>
      EvalArgsKeepLocals(h, args, st, fuel, []);
  }

  lemma {:induction false} EvalArgsKeepLocals(h: Host, args: seq<Expr>, st: State, fuel: nat, done: seq<Value>)
    ensures EvalArgs(h, args, st, fuel, done).st.locals == st.locals
    decreases fuel, args, 0
  {
    if |args| > 0 {
      EvalKeepsLocals(h, args[0], st, fuel);
      var a := Eval(h, args[0], st, fuel);
      if a.result.Ok? {
        EvalArgsKeepLocals(h, args[1..], a.st, fuel, done + [a.result.value]);
      }
    }
  }

  // ---------------------------------------------------------------------------
  // execute(): statement lists compose

  /** Running ss1 + ss2 is running ss1 and, if it completed normally, ss2 after it. */
  lemma {:induction false} ExecBlockAppend(h: Host, ss1: seq<Stmt>, ss2: seq<Stmt>, st: State, fuel: nat, last: Value)
    ensures var x := ExecBlock(h, ss1, st, fuel, last);
      ExecBlock(h, ss1 + ss2, st, fuel, last)
        == if x.completion.Normal? then ExecBlock(h, ss2, x.st, fuel, x.completion.value) else x
    decreases |ss1|
  {
    if |ss1| > 0 {
      assert (ss1 + ss2)[0] == ss1[0];
      assert (ss1 + ss2)[1..] == ss1[1..] + ss2;
      var x := ExecStmt(h, ss1[0], st, fuel);
      if x.completion.Normal? {
        ExecBlockAppend(h, ss1[1..], ss2, x.st, fuel, x.completion.value);
      }
    } else {
      assert ss1 + ss2 == ss2;
    }
  }

  /** The value of a statement list that completes normally is that of its last
      statement: None unless the last statement is an expression statement. */
  lemma {:induction false} ExecBlockValue(h: Host, ss: seq<Stmt>, st: State, fuel: nat, last: Value)
    requires |ss| > 0 && !ss[|ss| - 1].ExprStmt?
    ensures ExecBlock(h, ss, st, fuel, last).completion.Normal? ==>
              ExecBlock(h, ss, st, fuel, last).completion.value == NoneVal
    decreases |ss|
  {
    var x := ExecStmt(h, ss[0], st, fuel);
    if |ss| == 1 {
      NonExpressionValue(h, ss[0], st, fuel);
    } else if x.completion.Normal? {
      assert ss[1..][|ss[1..]| - 1] == ss[|ss| - 1];
      ExecBlockValue(h, ss[1..], x.st, fuel, x.completion.value);
    }
  }

  /** Only an expression statement has a value (the `return None` at the end of
      execute_statement()). */
  lemma NonExpressionValue(h: Host, s: Stmt, st: State, fuel: nat)
    requires !s.ExprStmt?
    ensures ExecStmt(h, s, st, fuel).completion.Normal? ==> ExecStmt(h, s, st, fuel).completion.value == NoneVal
  {
    match s
    case WhileStmt(_, _) => WhileValue(h, s, st, fuel);
    case ForStmt(init, _, _, _) =>
      if init.Some? {
        ForValue(h, s, ExecStmt(h, init.value, st, fuel).st, fuel);
      } else {
        ForValue(h, s, st, fuel);
      }
    case _ =>
  }

  lemma {:induction false} WhileValue(h: Host, s: Stmt, st: State, fuel: nat)
    requires s.WhileStmt?
    ensures ExecWhile(h, s, st, fuel).completion.Normal? ==> ExecWhile(h, s, st, fuel).completion.value == NoneVal
    decreases fuel
  {
    var c := Eval(h, s.cond, st, fuel);
    if c.result.Ok? && IsTruthy(c.result.value) && fuel > 0 {
      var b := ExecBlock(h, s.body, c.st, fuel - 1, NoneVal);
      if b.completion.Normal? {
        WhileValue(h, s, b.st, fuel - 1);
      }
    }
  }

  lemma {:induction false} ForValue(h: Host, s: Stmt, st: State, fuel: nat)
    requires s.ForStmt?
    ensures ExecFor(h, s, st, fuel).completion.Normal? ==> ExecFor(h, s, st, fuel).completion.value == NoneVal
    decreases fuel
  {
    var c := Eval(h, s.cond, st, fuel);
    if c.result.Ok? && IsTruthy(c.result.value) && fuel > 0 {
      var b := ExecBlock(h, s.body, c.st, fuel - 1, NoneVal);
      if b.completion.Normal? {
        var u := ExecStmt(h, s.update, b.st, fuel - 1);
        if u.completion.Normal? {
          ForValue(h, s, u.st, fuel - 1);
        }
      }
    }
  }

  // ---------------------------------------------------------------------------
  // Fuel only bounds a run: a run that did not run out of fuel has the same
  // outcome with any larger amount

  predicate EvalDone(v: Evaluated) { v.result != Err(Exhausted) }

  predicate ArgsDone(v: EvaluatedArgs) { v.result != Err(Exhausted) }

  predicate ExecDone(x: Executed) { x.completion != Abrupt(Exhausted) }

  lemma {:induction false} EvalFuel(h: Host, e: Expr, st: State, f: nat, g: nat)
    requires f <= g && EvalDone(Eval(h, e, st, f))
    ensures Eval(h, e, st, g) == Eval(h, e, st, f)
    decreases f, e, 2
  {
    match e
    case Lit(_) =>
    case Ident(_) =>
    case Member(obj, _) =>
      EvalFuel(h, obj, st, f, g);
    case MemberCall(obj, _, args) =>
      EvalFuel(h, obj, st, f, g);
      var o := Eval(h, obj, st, f);
      if o.result.Ok? {
        EvalArgsFuel(h, args, o.st, f, g, []);
      }
    case Binary(_, _, _) =>
      EvalBinaryFuel(h, e, st, f, g);
    case Unary(_, operand) =>
      EvalFuel(h, operand, st, f, g);
    case Call(name, args) =>
      EvalCallFuel(h, name, args, st, f, g);
  }

  lemma {:induction false} EvalBinaryFuel(h: Host, e: Expr, st: State, f: nat, g: nat)
    requires e.Binary?
    requires f <= g && EvalDone(EvalBinary(h, e, st, f))
    ensures EvalBinary(h, e, st, g) == EvalBinary(h, e, st, f)
    decreases f, e, 1
  {
    EvalFuel(h, e.left, st, f, g);
    var l := Eval(h, e.left, st, f);
    if l.result.Ok? {
      EvalFuel(h, e.right, l.st, f, g);
    }
  }

  lemma {:induction false} EvalArgsFuel(h: Host, args: seq<Expr>, st: State, f: nat, g: nat, done: seq<Value>)
    requires f <= g && ArgsDone(EvalArgs(h, args, st, f, done))
    ensures EvalArgs(h, args, st, g, done) == EvalArgs(h, args, st, f, done)
    decreases f, args, 0
  {
    if |args| > 0 {
      EvalFuel(h, args[0], st, f, g);
      var a := Eval(h, args[0], st, f);
      if a.result.Ok? {
        EvalArgsFuel(h, args[1..], a.st, f, g, done + [a.result.value]);
      }
    }
  }

  lemma {:induction false} EvalCallFuel(h: Host, name: string, args: seq<Expr>, st: State, f: nat, g: nat)
    requires f <= g && EvalDone(EvalCall(h, name, args, st, f))
    ensures EvalCall(h, name, args, st, g) == EvalCall(h, name, args, st, f)
    decreases f, args, 1
  {
    EvalArgsFuel(h, args, st, f, g, []);
    var a := EvalArgs(h, args, st, f, []);
    if a.result.Ok? && name != "require" && name in a.st.globals {
      var vs := a.result.value;
      var callee := CalleeOf(name, a.st.globals[name], |vs|);
      if callee.Ok? && f > 0 {
        var inner := Enter(a.st, callee.value, vs);
        ExecBlockFuel(h, callee.value.body, inner, f - 1, g - 1, NoneVal);
      }
    }
  }

  lemma {:induction false} ExecBlockFuel(h: Host, ss: seq<Stmt>, st: State, f: nat, g: nat, last: Value)
    requires f <= g && ExecDone(ExecBlock(h, ss, st, f, last))
    ensures ExecBlock(h, ss, st, g, last) == ExecBlock(h, ss, st, f, last)
    decreases f, ss, 0
  {
    if |ss| > 0 {
      ExecStmtFuel(h, ss[0], st, f, g);
      var x := ExecStmt(h, ss[0], st, f);
      if x.completion.Normal? {
        ExecBlockFuel(h, ss[1..], x.st, f, g, x.completion.value);
      }
    }
  }

  lemma {:induction false} ExecStmtFuel(h: Host, s: Stmt, st: State, f: nat, g: nat)
    requires f <= g && ExecDone(ExecStmt(h, s, st, f))
    ensures ExecStmt(h, s, st, g) == ExecStmt(h, s, st, f)
    decreases f, s, 1
  {
    match s
    case VarDecl(_, e) => EvalFuel(h, e, st, f, g);
    case FunctionDecl(_, _, _) =>
    case PrintStmt(e) => EvalFuel(h, e, st, f, g);
    case IfStmt(cond, thenBody, elseBody) =>
      EvalFuel(h, cond, st, f, g);
      var c := Eval(h, cond, st, f);
      if c.result.Ok? {
        if IsTruthy(c.result.value) {
          ExecBlockFuel(h, thenBody, c.st, f, g, NoneVal);
        } else if |elseBody| > 0 {
          ExecBlockFuel(h, elseBody, c.st, f, g, NoneVal);
        }
      }
    case WhileStmt(_, _) => ExecWhileFuel(h, s, st, f, g);
    case ForStmt(init, _, _, _) =>
      if init.Some? {
        ExecStmtFuel(h, init.value, st, f, g);
        var i := ExecStmt(h, init.value, st, f);
        if i.completion.Normal? {
          ExecForFuel(h, s, i.st, f, g);
        }
      } else {
        ExecForFuel(h, s, st, f, g);
      }
    case ReturnStmt(result) =>
      if result.Some? {
        EvalFuel(h, result.value, st, f, g);
      }
    case AssignStmt(target, e) =>
      if target.Ident? {
        EvalFuel(h, e, st, f, g);
      }
    case ExprStmt(e) => EvalFuel(h, e, st, f, g);
  }

  lemma {:induction false} ExecWhileFuel(h: Host, s: Stmt, st: State, f: nat, g: nat)
    requires s.WhileStmt?
    requires f <= g && ExecDone(ExecWhile(h, s, st, f))
    ensures ExecWhile(h, s, st, g) == ExecWhile(h, s, st, f)
    decreases f, s, 0
  {
    EvalFuel(h, s.cond, st, f, g);
    var c := Eval(h, s.cond, st, f);
    if c.result.Ok? && IsTruthy(c.result.value) && f > 0 {
      ExecBlockFuel(h, s.body, c.st, f - 1, g - 1, NoneVal);
      var b := ExecBlock(h, s.body, c.st, f - 1, NoneVal);
      if b.completion.Normal? {
        ExecWhileFuel(h, s, b.st, f - 1, g - 1);
      }
    }
  }

  lemma {:induction false} ExecForFuel(h: Host, s: Stmt, st: State, f: nat, g: nat)
    requires s.ForStmt?
    requires f <= g && ExecDone(ExecFor(h, s, st, f))
    ensures ExecFor(h, s, st, g) == ExecFor(h, s, st, f)
    decreases f, s, 0
  {
    EvalFuel(h, s.cond, st, f, g);
    var c := Eval(h, s.cond, st, f);
    if c.result.Ok? && IsTruthy(c.result.value) && f > 0 {
      ExecBlockFuel(h, s.body, c.st, f - 1, g - 1, NoneVal);
      var b := ExecBlock(h, s.body, c.st, f - 1, NoneVal);
      if b.completion.Normal? {
        ExecStmtFuel(h, s.update, b.st, f - 1, g - 1);
        var u := ExecStmt(h, s.update, b.st, f - 1);
        if u.completion.Normal? {
          ExecForFuel(h, s, u.st, f - 1, g - 1);
        }
      }
    }
  }

  // ---------------------------------------------------------------------------
  // Scopes

  /** A declaration binds in the current scope only. */
  lemma DeclareBindsCurrentScope(st: State, name: string, v: Value)
    ensures LookupVar(Declare(st, name, v), name) == Ok(v)
    ensures Scope(Declare(st, name, v)) == Scope(st)[name := v]
    ensures st.locals.Some? ==> Declare(st, name, v).globals == st.globals
  {
  }

  /** A local binding hides a global one of the same name. */
  lemma LocalsShadowGlobals(st: State, name: string)
    requires st.locals.Some? && name in st.locals.value
    ensures LookupVar(st, name) == Ok(st.locals.value[name])
  {
  }

  /** Inside a call, assigning to a name that is not local but global updates the
      global binding; assigning to a name bound nowhere creates a local one. */
  lemma AssignmentInCall(st: State, name: string, v: Value)
    requires st.locals.Some? && name !in st.locals.value
    ensures name in st.globals ==>
      AssignVar(st, name, v) == st.(globals := st.globals[name := v])
    ensures name !in st.globals ==>
      AssignVar(st, name, v) == st.(locals := Some(st.locals.value[name := v]))
  {
  }

  /** Assigning to anything but a name raises RuntimeError before the value is
      evaluated. */
  lemma InvalidAssignmentTarget(h: Host, target: Expr, e: Expr, st: State, fuel: nat)
    requires !target.Ident?
    ensures ExecStmt(h, AssignStmt(target, e), st, fuel)
      == Executed(Abrupt(Thrown(Error(RuntimeError, "Invalid assignment target"))), st)
  {
  }

  /** Functions are looked up in the global scope only, once the arguments are
      evaluated: a function declared (or any value bound) in a local scope cannot
      be called by name. */
  lemma CallsSeeOnlyGlobals(h: Host, name: string, args: seq<Expr>, st: State, fuel: nat)
    requires name != "require"
    requires EvalArgs(h, args, st, fuel, []).result.Ok?
    requires name !in EvalArgs(h, args, st, fuel, []).st.globals
    ensures var a := EvalArgs(h, args, st, fuel, []);
      EvalCall(h, name, args, st, fuel) == Evaluated(Err(Thrown(Error(NameError, "Undefined function: " + name))), a.st)
      && a.st.locals == st.locals
  {
    EvalArgsKeepLocals(h, args, st, fuel, []);
  }

  /** A call evaluates its arguments before anything else: an argument that fails
      decides the outcome, whatever the name (require() included) and whether or
      not it names a function. */
  lemma ArgumentsFirst(h: Host, name: string, args: seq<Expr>, st: State, fuel: nat)
    requires EvalArgs(h, args, st, fuel, []).result.Err?
    ensures var a := EvalArgs(h, args, st, fuel, []);
      EvalCall(h, name, args, st, fuel) == Evaluated(Err(a.result.error), a.st)
  {
  }

  /** The same holds for a member call, after its object: an argument that fails
      wins over the object not being a dict or not having the member. */
  lemma MemberCallArgumentsFirst(h: Host, obj: Expr, member: string, args: seq<Expr>, st: State, fuel: nat)
    requires Eval(h, obj, st, fuel).result.Ok?
    requires EvalArgs(h, args, Eval(h, obj, st, fuel).st, fuel, []).result.Err?
    ensures var a := EvalArgs(h, args, Eval(h, obj, st, fuel).st, fuel, []);
      Eval(h, MemberCall(obj, member, args), st, fuel) == Evaluated(Err(a.result.error), a.st)
  {
  }

  /** The value of a call of a user function: what the body's 'return' carried,
      or None when the body ran to its end; an exception in the body propagates.
      Whatever happens, the caller's local scope comes back, and the body's
      changes to the globals and to the output remain. */
  lemma CallResult(h: Host, name: string, args: seq<Expr>, st: State, fuel: nat)
    requires name != "require" && fuel > 0
    requires EvalArgs(h, args, st, fuel, []).result.Ok?
    requires var a := EvalArgs(h, args, st, fuel, []);
      name in a.st.globals && CalleeOf(name, a.st.globals[name], |a.result.value|).Ok?
    ensures var a := EvalArgs(h, args, st, fuel, []);
      var c := CalleeOf(name, a.st.globals[name], |a.result.value|).value;
      var b := ExecBlock(h, c.body, Enter(a.st, c, a.result.value), fuel - 1, NoneVal);
      var x := EvalCall(h, name, args, st, fuel);
      && x.st == State(b.st.globals, st.locals, b.st.out)
      && (b.completion.Returning? ==> x.result == Ok(b.completion.value))
      && (b.completion.Normal? ==> x.result == Ok(NoneVal))
      && (b.completion.Abrupt? ==> x.result == Err(b.completion.stop))
  {
    EvalArgsKeepLocals(h, args, st, fuel, []);
  }

  /** A 'function' statement inside a call binds in the call's local scope. */
  lemma NestedFunctionIsLocal(h: Host, name: string, params: seq<string>, body: seq<Stmt>, st: State, fuel: nat)
    requires st.locals.Some?
    ensures ExecStmt(h, FunctionDecl(name, params, body), st, fuel).st.globals == st.globals
    ensures ExecStmt(h, FunctionDecl(name, params, body), st, fuel).st.locals.value[name] == FuncVal(name, params, body)
  {
  }

  /** A global value can be called exactly when it is a stored function taking as
      many parameters as there are arguments. */
  lemma CalleeChecks(name: string, f: Value, n: nat)
    ensures CalleeOf(name, f, n).Ok? <==> f.FuncVal? && |f.params| == n
    ensures f.FuncVal? && |f.params| != n ==> CalleeOf(name, f, n).error.kind == TypeError
    ensures !f.FuncVal? && !f.DictVal? ==> CalleeOf(name, f, n) == Err(Error(TypeError, name + " is not a function"))
  {
  }

  /** Parameter binding: each name gets the argument of its last occurrence in
      the parameter list, and the scope binds nothing else. */
  lemma {:induction false} BindParamsLastWins(scope: map<string, Value>, params: seq<string>, args: seq<Value>, j: nat)
    requires |params| == |args| && j < |params|
    requires forall k :: j < k < |params| ==> params[k] != params[j]
    ensures params[j] in BindParams(scope, params, args)
    ensures BindParams(scope, params, args)[params[j]] == args[j]
    decreases |params|
  {
    if j == 0 {
      assert forall k :: 0 <= k < |params[1..]| ==> params[1..][k] == params[k + 1];
      BindParamsKeeps(scope[params[0] := args[0]], params[1..], args[1..], params[0]);
    } else {
      BindParamsLastWins(scope[params[0] := args[0]], params[1..], args[1..], j - 1);
    }
  }

  /** A name that does not occur among the rest of the parameters keeps its binding. */
  lemma {:induction false} BindParamsKeeps(scope: map<string, Value>, params: seq<string>, args: seq<Value>, name: string)
    requires |params| == |args| && name in scope
    requires forall k :: 0 <= k < |params| ==> params[k] != name
    ensures name in BindParams(scope, params, args)
    ensures BindParams(scope, params, args)[name] == scope[name]
    decreases |params|
  {
    if |params| > 0 {
      BindParamsKeeps(scope[params[0] := args[0]], params[1..], args[1..], name);
    }
  }

  lemma {:induction false} BindParamsKeys(scope: map<string, Value>, params: seq<string>, args: seq<Value>)
    requires |params| == |args|
    ensures BindParams(scope, params, args).Keys == scope.Keys + set k | 0 <= k < |params| :: params[k]
    decreases |params|
  {
    if |params| > 0 {
      BindParamsKeys(scope[params[0] := args[0]], params[1..], args[1..]);
      var rest := set k | 0 <= k < |params[1..]| :: params[1..][k];
      var all := set k | 0 <= k < |params| :: params[k];
      assert all == {params[0]} + rest by {
        forall x | x in all ensures x in {params[0]} + rest {
          var k :| 0 <= k < |params| && params[k] == x;
          if k > 0 {
            assert params[1..][k - 1] == x;
          }
        }
      }
    }
  }

  // ---------------------------------------------------------------------------
  // Control flow

  /** 'if' runs exactly one branch: the then-branch when the condition is true,
      the else-branch (possibly empty) otherwise, and has no value. */
  lemma IfRunsOneBranch(h: Host, cond: Expr, thenBody: seq<Stmt>, elseBody: seq<Stmt>, st: State, fuel: nat)
    ensures var c := Eval(h, cond, st, fuel);
      ExecStmt(h, IfStmt(cond, thenBody, elseBody), st, fuel)
        == if c.result.Err? then Executed(Abrupt(c.result.error), c.st)
           else Discard(ExecBlock(h, if IsTruthy(c.result.value) then thenBody else elseBody, c.st, fuel, NoneVal))
  {
  }

  /** 'and' and 'or' evaluate both operands: an error in the right operand
      surfaces even when the left one already decides the result. */
  lemma NoShortCircuit(h: Host, op: BinOp, left: Expr, right: Expr, st: State, fuel: nat)
    requires op == And || op == Or
    requires Eval(h, left, st, fuel).result.Ok?
    ensures var l := Eval(h, left, st, fuel);
      var r := Eval(h, right, l.st, fuel);
      r.result.Err? ==> Eval(h, Binary(op, left, right), st, fuel) == r
  {
  }

  /** The loop of a 'for' statement is a 'while' loop whose body ends with the
      update. */
  lemma {:induction false} ForIsWhile(h: Host, s: Stmt, st: State, fuel: nat)
    requires s.ForStmt?
    ensures ExecFor(h, s, st, fuel) == ExecWhile(h, WhileStmt(s.cond, s.body + [s.update]), st, fuel)
    decreases fuel
  {
    var w := WhileStmt(s.cond, s.body + [s.update]);
    var c := Eval(h, s.cond, st, fuel);
    if c.result.Ok? && IsTruthy(c.result.value) && fuel > 0 {
      ExecBlockAppend(h, s.body, [s.update], c.st, fuel - 1, NoneVal);
      var b := ExecBlock(h, s.body, c.st, fuel - 1, NoneVal);
      if b.completion.Normal? {
        var u := ExecStmt(h, s.update, b.st, fuel - 1);
        assert ExecBlock(h, [s.update], b.st, fuel - 1, b.completion.value)
          == if u.completion.Normal? then Executed(Normal(u.completion.value), u.st) else u;
        if u.completion.Normal? {
          ForIsWhile(h, s, u.st, fuel - 1);
        }
      }
    }
  }

  /** 'print' appends the to_string() text of its value and a newline to what was
      printed before, and has no value. */
  lemma PrintAppends(h: Host, e: Expr, st: State, fuel: nat)
    requires Eval(h, e, st, fuel).result.Ok?
    ensures var c := Eval(h, e, st, fuel);
      var x := ExecStmt(h, PrintStmt(e), st, fuel);
      x.completion == Normal(NoneVal)
      && x.st.out == c.st.out + ToString(h, c.result.value) + "\n"
      && st.out <= x.st.out
  {
    EvalGrows(h, e, st, fuel);
  }

  /** A 'return' in the body of a loop leaves the loop at once, with its value. */
  lemma ReturnLeavesLoop(h: Host, s: Stmt, st: State, fuel: nat, v: Value)
    requires s.WhileStmt? || s.ForStmt?
    requires Eval(h, s.cond, st, fuel).result.Ok? && IsTruthy(Eval(h, s.cond, st, fuel).result.value) && fuel > 0
    requires ExecBlock(h, s.body, Eval(h, s.cond, st, fuel).st, fuel - 1, NoneVal).completion == Returning(v)
    ensures var x := if s.WhileStmt? then ExecWhile(h, s, st, fuel) else ExecFor(h, s, st, fuel);
      x == ExecBlock(h, s.body, Eval(h, s.cond, st, fuel).st, fuel - 1, NoneVal)
  {
  }
}
