/**
 * class Executor of interpreter.py: the three pieces of state it updates in
 * place (global scope, local scope of the active call, printed text) and its
 * methods, each proved to compute what module Semantics says.
 */
module ExecutorClass {
  import opened Wrappers
  import opened Errors
  import opened Syntax
  import opened Values
  import opened Semantics

  class Executor {
    var globals: map<string, Value>
    var locals: Option<map<string, Value>>
    var out: string
    const host: Host

    /** The executor's state as a value. */
    function Snapshot(): State
      reads this
    {
      State(globals, locals, out)
    }

    constructor(host: Host)
      ensures Snapshot() == Initial && this.host == host
    {
      this.host := host;
      globals := map[];
      locals := None;
      out := "";
    }

    function GetScope(): (scope: map<string, Value>)
      reads this
      ensures locals.Some? ==> scope == locals.value
      ensures locals.None? ==> scope == globals
    {
      if locals.Some? then locals.value else globals
    }

    /** get_scope()[name] = v */
    method StoreInScope(name: string, v: Value)
      modifies this
      ensures Snapshot() == Declare(old(Snapshot()), name, v)
    {
      if locals.Some? {
        locals := Some(locals.value[name := v]);
      } else {
        globals := globals[name := v];
      }
    }

    method Execute(ss: seq<Stmt>, fuel: nat) returns (c: Completion)
      modifies this
      ensures Executed(c, Snapshot()) == ExecBlock(host, ss, old(Snapshot()), fuel, NoneVal)
      decreases fuel, ss, 0
    {
      var last := NoneVal;
      var i := 0;
      while i < |ss|
        invariant 0 <= i <= |ss|
        invariant ExecBlock(host, ss[i..], Snapshot(), fuel, last) == ExecBlock(host, ss, old(Snapshot()), fuel, NoneVal)
      {
        assert ss[i..][0] == ss[i] && ss[i..][1..] == ss[i + 1..];
        c := ExecuteStatement(ss[i], fuel);
        if !c.Normal? {
          return;
        }
        last := c.value;
        i := i + 1;
      }
      assert ss[i..] == [];
      c := Normal(last);
    }

    method ExecuteStatement(s: Stmt, fuel: nat) returns (c: Completion)
      modifies this
      ensures Executed(c, Snapshot()) == ExecStmt(host, s, old(Snapshot()), fuel)
      decreases fuel, s, 1
    {
      match s
      case VarDecl(name, e) =>
        var v := EvaluateExpression(e, fuel);
        if v.Err? {
          return Abrupt(v.error);
        }
        StoreInScope(name, v.value);
        c := Normal(NoneVal);
      case FunctionDecl(name, params, body) =>
        StoreInScope(name, FuncVal(name, params, body));
        c := Normal(NoneVal);
      case PrintStmt(e) =>
        var v := EvaluateExpression(e, fuel);
        if v.Err? {
          return Abrupt(v.error);
        }
        out := out + ToString(host, v.value) + "\n";
        c := Normal(NoneVal);
      case IfStmt(cond, thenBody, elseBody) =>
        var v := EvaluateExpression(cond, fuel);
        if v.Err? {
          return Abrupt(v.error);
        }
        c := Normal(NoneVal);
        if IsTruthy(v.value) {
          var b := Execute(thenBody, fuel);
          if !b.Normal? {
            c := b;
          }
        } else if |elseBody| > 0 {
          var b := Execute(elseBody, fuel);
          if !b.Normal? {
            c := b;
          }
        }
      case WhileStmt(_, _) =>
        c := ExecuteWhile(s, fuel);
      case ForStmt(init, _, _, _) =>
        if init.Some? {
          c := ExecuteStatement(init.value, fuel);
          if !c.Normal? {
            return;
          }
        }
        c := ExecuteFor(s, fuel);
      case ReturnStmt(result) =>
        c := Returning(NoneVal);
        if result.Some? {
          var v := EvaluateExpression(result.value, fuel);
          if v.Err? {
            return Abrupt(v.error);
          }
          c := Returning(v.value);
        }
      case AssignStmt(target, e) =>
        if !target.Ident? {
          return Abrupt(Thrown(Error(RuntimeError, "Invalid assignment target")));
        }
        var v := EvaluateExpression(e, fuel);
        if v.Err? {
          return Abrupt(v.error);
        }
        var name := target.name;
        if locals.Some? && name in locals.value {
          locals := Some(locals.value[name := v.value]);
        } else if name in globals {
          globals := globals[name := v.value];
        } else {
          StoreInScope(name, v.value);
        }
        c := Normal(NoneVal);
      case ExprStmt(e) =>
        var v := EvaluateExpression(e, fuel);
        if v.Err? {
          return Abrupt(v.error);
        }
        c := Normal(v.value);
    }

    /** The 'while' case of execute_statement(). */
    method ExecuteWhile(s: Stmt, fuel: nat) returns (c: Completion)
      requires s.WhileStmt?
      modifies this
      ensures Executed(c, Snapshot()) == ExecWhile(host, s, old(Snapshot()), fuel)
      decreases fuel, s, 0
    {
      var f: nat := fuel;
      while true
        invariant f <= fuel
        invariant ExecWhile(host, s, Snapshot(), f) == ExecWhile(host, s, old(Snapshot()), fuel)
        decreases f
      {
        var v := EvaluateExpression(s.cond, f);
        if v.Err? {
          return Abrupt(v.error);
        }
        if !IsTruthy(v.value) {
          return Normal(NoneVal);
        }
        if f == 0 {
          return Abrupt(Exhausted);
        }
        c := Execute(s.body, f - 1);
        if !c.Normal? {
          return;
        }
        f := f - 1;
      }
    }

    /** The loop of the 'for' case of execute_statement(), after the init clause. */
    method ExecuteFor(s: Stmt, fuel: nat) returns (c: Completion)
      requires s.ForStmt?
      modifies this
      ensures Executed(c, Snapshot()) == ExecFor(host, s, old(Snapshot()), fuel)
      decreases fuel, s, 0
    {
      var f: nat := fuel;
      while true
        invariant f <= fuel
        invariant ExecFor(host, s, Snapshot(), f) == ExecFor(host, s, old(Snapshot()), fuel)
        decreases f
      {
        var v := EvaluateExpression(s.cond, f);
        if v.Err? {
          return Abrupt(v.error);
        }
        if !IsTruthy(v.value) {
          return Normal(NoneVal);
        }
        if f == 0 {
          return Abrupt(Exhausted);
        }
        c := Execute(s.body, f - 1);
        if !c.Normal? {
          return;
        }
        c := ExecuteStatement(s.update, f - 1);
        if !c.Normal? {
          return;
        }
        f := f - 1;
      }
    }

    method EvaluateExpression(e: Expr, fuel: nat) returns (r: Result<Value, Stop>)
      modifies this
      ensures Evaluated(r, Snapshot()) == Eval(host, e, old(Snapshot()), fuel)
      decreases fuel, e, 2
    {
      match e
      case Lit(lit) =>
        r := Ok(LiteralValue(lit));
      case Ident(name) =>
        if locals.Some? && name in locals.value {
          r := Ok(locals.value[name]);
        } else if name in globals {
          r := Ok(globals[name]);
        } else {
          r := Err(Thrown(Error(NameError, "Undefined variable: " + name)));
        }
      case Member(obj, member) =>
        r := EvaluateExpression(obj, fuel);
        if r.Ok? {
          r := Raise(MemberOf(r.value, member));
        }
      case MemberCall(obj, member, args) =>
        r := EvaluateExpression(obj, fuel);
        if r.Ok? {
          var a := EvaluateArgs(args, fuel);
          if a.Err? {
            return Err(a.error);
          }
          r := Raise(CallMember(host, r.value, member, a.value));
        }
      case Binary(_, _, _) =>
        r := EvaluateBinaryOp(e, fuel);
      case Unary(_, _) =>
        r := EvaluateUnaryOp(e, fuel);
      case Call(_, _) =>
        r := EvaluateCall(e, fuel);
    }

    method EvaluateBinaryOp(e: Expr, fuel: nat) returns (r: Result<Value, Stop>)
      requires e.Binary?
      modifies this
      ensures Evaluated(r, Snapshot()) == EvalBinary(host, e, old(Snapshot()), fuel)
      decreases fuel, e, 1
    {
      var left := EvaluateExpression(e.left, fuel);
      if left.Err? {
        return left;
      }
      var right := EvaluateExpression(e.right, fuel);
      if right.Err? {
        return right;
      }
      r := Raise(BinaryValue(host, e.op, left.value, right.value));
    }

    method EvaluateUnaryOp(e: Expr, fuel: nat) returns (r: Result<Value, Stop>)
      requires e.Unary?
      modifies this
      ensures Evaluated(r, Snapshot()) == Eval(host, e, old(Snapshot()), fuel)
      decreases fuel, e, 1
    {
      var operand := EvaluateExpression(e.operand, fuel);
      if operand.Err? {
        return operand;
      }
      r := Raise(UnaryValue(e.uop, operand.value));
    }

    /** The list comprehension over the arguments of a call. */
    method EvaluateArgs(args: seq<Expr>, fuel: nat) returns (r: Result<seq<Value>, Stop>)
      modifies this
      ensures EvaluatedArgs(r, Snapshot()) == EvalArgs(host, args, old(Snapshot()), fuel, [])
      decreases fuel, args, 0
    {
      var values: seq<Value> := [];
      var i := 0;
      while i < |args|
        invariant 0 <= i <= |args|
        invariant EvalArgs(host, args[i..], Snapshot(), fuel, values) == EvalArgs(host, args, old(Snapshot()), fuel, [])
      {
        assert args[i..][0] == args[i] && args[i..][1..] == args[i + 1..];
        var v := EvaluateExpression(args[i], fuel);
        if v.Err? {
          return Err(v.error);
        }
        values := values + [v.value];
        i := i + 1;
      }
      assert args[i..] == [];
      r := Ok(values);
    }

    method EvaluateCall(e: Expr, fuel: nat) returns (r: Result<Value, Stop>)
      requires e.Call?
      modifies this
      ensures Evaluated(r, Snapshot()) == EvalCall(host, e.callee, e.args, old(Snapshot()), fuel)
      decreases fuel, e.args, 1
    {
      var name := e.callee;
      var a := EvaluateArgs(e.args, fuel);
      if a.Err? {
        return Err(a.error);
      }
      var vs := a.value;
      if name == "require" {
        return Raise(Require(host, vs));
      }
      if name !in globals {
        return Err(Thrown(Error(NameError, "Undefined function: " + name)));
      }
      var callee := CalleeOf(name, globals[name], |vs|);
      if callee.Err? {
        return Err(Thrown(callee.error));
      }
      if fuel == 0 {
        return Err(Exhausted);
      }
      var params, body := callee.value.params, callee.value.body;
      ghost var caller := Snapshot();
      var previous := locals;
      locals := Some(map[]);
      var i := 0;
      while i < |params|
        invariant 0 <= i <= |params|
        invariant globals == caller.globals && out == caller.out && locals.Some?
        invariant BindParams(locals.value, params[i..], vs[i..]) == BindParams(map[], params, vs)
      {
        locals := Some(locals.value[params[i] := vs[i]]);
        i := i + 1;
      }
      assert Snapshot() == Enter(caller, callee.value, vs);
      var c := Execute(body, fuel - 1);
      locals := previous;
      match c
      case Normal(_) => r := Ok(NoneVal);
      case Returning(v) => r := Ok(v);
      case Abrupt(stop) => r := Err(stop);
    }
  }
}
