/**
 * What class Executor in interpreter.py computes, as functions of the program
 * and of the interpreter state: the global scope, the local scope of the active
 * call (None at top level) and the text printed so far.
 *
 * A Python exception becomes an error value that propagates; a 'return'
 * statement (ReturnException) becomes a Returning completion.  Every iteration
 * of a 'while' or 'for' loop and every call of a user function spends one unit
 * of fuel; a run that needs more than it was given ends in Exhausted.
 */
module Semantics {
  import opened Wrappers
  import opened Errors
  import opened Decimal
  import opened Syntax
  import opened Values

  datatype State = State(globals: map<string, Value>, locals: Option<map<string, Value>>, out: string)

  /** A fresh Executor: empty global scope, no call active, nothing printed. */
  const Initial: State := State(map[], None, "")

  /** get_scope(): the local scope during a call, the global scope otherwise. */
  function Scope(st: State): map<string, Value>
  {
    if st.locals.Some? then st.locals.value else st.globals
  }

  /** get_scope()[name] = v */
  function Declare(st: State, name: string, v: Value): State
  {
    if st.locals.Some? then st.(locals := Some(st.locals.value[name := v]))
    else st.(globals := st.globals[name := v])
  }

  /** An 'assignment' to a name: the local binding if there is one, else the
      global binding if there is one, else a new binding in the current scope. */
  function AssignVar(st: State, name: string, v: Value): State
  {
    if st.locals.Some? && name in st.locals.value then st.(locals := Some(st.locals.value[name := v]))
    else if name in st.globals then st.(globals := st.globals[name := v])
    else Declare(st, name, v)
  }

  /** An 'identifier' expression: the local scope first, then the global scope. */
  function LookupVar(st: State, name: string): Result<Value, Error>
  {
    if st.locals.Some? && name in st.locals.value then Ok(st.locals.value[name])
    else if name in st.globals then Ok(st.globals[name])
    else Err(Error(NameError, "Undefined variable: " + name))
  }

  /** Why evaluation stopped early: an exception, or the fuel ran out. */
  datatype Stop = Thrown(error: Error) | Exhausted

  /** How a statement list ended: normally, with the value of its last statement;
      by a 'return' (ReturnException carrying the value); or abruptly. */
  datatype Completion = Normal(value: Value) | Returning(value: Value) | Abrupt(stop: Stop)

  datatype Evaluated = Evaluated(result: Result<Value, Stop>, st: State)

  datatype EvaluatedArgs = EvaluatedArgs(result: Result<seq<Value>, Stop>, st: State)

  datatype Executed = Executed(completion: Completion, st: State)

  function Raise<T>(r: Result<T, Error>): Result<T, Stop>
  {
    match r
    case Ok(v) => Ok(v)
    case Err(e) => Err(Thrown(e))
  }

  // ---------------------------------------------------------------------------
  // Member access, member calls and the callee check of evaluate_call()

  /** obj.member on an evaluated object (the 'member_access' case). */
  function MemberOf(obj: Value, member: string): Result<Value, Error>
  {
    match obj
    case DictVal(entries) =>
      (match Lookup(entries, member)
       case Some(v) => Ok(v)
       case None => Err(Error(AttributeError, "Object has no member '" + member + "'")))
    case FuncVal(name, _, _) =>
      if member == "type" then Ok(StrVal("function"))
      else if member == "name" then Ok(StrVal(name))
      else if member == "params" || member == "body" then Err(Error(Unmodelled, "a list value"))
      else Err(Error(AttributeError, "Object has no member '" + member + "'"))
    case _ =>
      Err(Error(TypeError, "Cannot access member '" + member + "' on non-object type: " + TypeName(obj)))
  }

  /** The keys of a stored 'function' statement node. */
  predicate IsFunctionKey(member: string)
  {
    member == "type" || member == "name" || member == "params" || member == "body"
  }

  /** obj.member(args) on an evaluated object and evaluated arguments (the
      'member_call' case); only host callables can be called. */
  function CallMember(h: Host, obj: Value, member: string, args: seq<Value>): Result<Value, Error>
  {
    match obj
    case DictVal(entries) =>
      (match Lookup(entries, member)
       case None => Err(Error(AttributeError, "Object has no method '" + member + "'"))
       case Some(NativeVal(id, _)) => h.invoke(id, args)
       case Some(_) => Err(Error(TypeError, "'" + member + "' is not a method")))
    case FuncVal(_, _, _) =>
      if IsFunctionKey(member) then Err(Error(TypeError, "'" + member + "' is not a method"))
      else Err(Error(AttributeError, "Object has no method '" + member + "'"))
    case _ =>
      Err(Error(TypeError, "Cannot call method '" + member + "' on non-object type: " + TypeName(obj)))
  }

  datatype Callee = Callee(params: seq<string>, body: seq<Stmt>)

  /** The checks evaluate_call() makes on the global value named by the call:
      it must be a stored 'function' node taking as many parameters as there are
      arguments. */
  function CalleeOf(name: string, f: Value, argCount: nat): Result<Callee, Error>
  {
    match f
    case FuncVal(_, params, body) =>
      if argCount != |params| then
        Err(Error(TypeError, name + "() takes " + IntToString(|params|) + " arguments ("
                             + IntToString(argCount) + " given)"))
      else Ok(Callee(params, body))
    case DictVal(entries) =>
      (match Lookup(entries, "type")
       case None => Err(Error(KeyError, "'type'"))
       case Some(t) =>
         if !PyEq(t, StrVal("function")) then Err(Error(TypeError, name + " is not a function"))
         else Err(Error(Unmodelled, "a host dict posing as a function")))
    case _ => Err(Error(TypeError, name + " is not a function"))
  }

  /** The local scope of a call: each parameter bound to its argument, a later
      parameter of the same name winning. */
  function BindParams(scope: map<string, Value>, params: seq<string>, args: seq<Value>): map<string, Value>
    requires |params| == |args|
    decreases |params|
  {
    if |params| == 0 then scope
    else BindParams(scope[params[0] := args[0]], params[1..], args[1..])
  }

  /** The state in which a call's body runs. */
  function Enter(st: State, c: Callee, args: seq<Value>): State
    requires |c.params| == |args|
  {
    st.(locals := Some(BindParams(map[], c.params, args)))
  }

  /** The end of a call: the caller's local scope comes back whatever happened,
      and the call's value is the returned value, or None when the body finished
      without 'return'. */
  function Returned(body: Executed, caller: State): Evaluated
  {
    var st := body.st.(locals := caller.locals);
    match body.completion
    case Normal(_) => Evaluated(Ok(NoneVal), st)
    case Returning(v) => Evaluated(Ok(v), st)
    case Abrupt(stop) => Evaluated(Err(stop), st)
  }

  // ---------------------------------------------------------------------------
  // evaluate_expression(), evaluate_binary_op(), evaluate_unary_op(), evaluate_call()

  function Eval(h: Host, e: Expr, st: State, fuel: nat): Evaluated
    decreases fuel, e, 2
  {
    match e
    case Lit(lit) => Evaluated(Ok(LiteralValue(lit)), st)
    case Ident(name) => Evaluated(Raise(LookupVar(st, name)), st)
    case Member(obj, member) =>
      var o := Eval(h, obj, st, fuel);
      if o.result.Err? then o
      else Evaluated(Raise(MemberOf(o.result.value, member)), o.st)
    case MemberCall(obj, member, args) =>
      var o := Eval(h, obj, st, fuel);
      if o.result.Err? then o
      else
        var a := EvalArgs(h, args, o.st, fuel, []);
        if a.result.Err? then Evaluated(Err(a.result.error), a.st)
        else Evaluated(Raise(CallMember(h, o.result.value, member, a.result.value)), a.st)
    case Binary(op, left, right) => EvalBinary(h, e, st, fuel)
    case Unary(op, operand) =>
      var o := Eval(h, operand, st, fuel);
      if o.result.Err? then o
      else Evaluated(Raise(UnaryValue(op, o.result.value)), o.st)
    case Call(name, args) => EvalCall(h, name, args, st, fuel)
  }

  /** Both operands are evaluated, left first, before the operator is applied:
      'and' and 'or' do not short-circuit. */
  function EvalBinary(h: Host, e: Expr, st: State, fuel: nat): Evaluated
    requires e.Binary?
    decreases fuel, e, 1
  {
    var l := Eval(h, e.left, st, fuel);
    if l.result.Err? then l
    else
      var r := Eval(h, e.right, l.st, fuel);
      if r.result.Err? then r
      else Evaluated(Raise(BinaryValue(h, e.op, l.result.value, r.result.value)), r.st)
  }

  /** The arguments, left to right, appended to the values already computed. */
  function EvalArgs(h: Host, args: seq<Expr>, st: State, fuel: nat, done: seq<Value>): EvaluatedArgs
    decreases fuel, args, 0
  {
    if |args| == 0 then EvaluatedArgs(Ok(done), st)
    else
      var a := Eval(h, args[0], st, fuel);
      if a.result.Err? then EvaluatedArgs(Err(a.result.error), a.st)
      else EvalArgs(h, args[1..], a.st, fuel, done + [a.result.value])
  }

  /** A call by name: the arguments first; then require(), or a function found
      in the global scope (only there), whose body runs in a fresh local scope. */
  function EvalCall(h: Host, name: string, args: seq<Expr>, st: State, fuel: nat): Evaluated
    decreases fuel, args, 1
  {
    var a := EvalArgs(h, args, st, fuel, []);
    if a.result.Err? then Evaluated(Err(a.result.error), a.st)
    else
      var vs := a.result.value;
      if name == "require" then Evaluated(Raise(Require(h, vs)), a.st)
      else if name !in a.st.globals then Evaluated(Err(Thrown(Error(NameError, "Undefined function: " + name))), a.st)
      else
        match CalleeOf(name, a.st.globals[name], |vs|)
        case Err(err) => Evaluated(Err(Thrown(err)), a.st)
        case Ok(c) =>
          if fuel == 0 then Evaluated(Err(Exhausted), a.st)
          else Returned(ExecBlock(h, c.body, Enter(a.st, c, vs), fuel - 1, NoneVal), a.st)
  }

  // ---------------------------------------------------------------------------
  // execute() and execute_statement()

  /** execute(): the statements in order until one does not complete normally;
      the value is that of the last statement (last is the value so far). */
  function ExecBlock(h: Host, ss: seq<Stmt>, st: State, fuel: nat, last: Value): Executed
    decreases fuel, ss, 0
  {
    if |ss| == 0 then Executed(Normal(last), st)
    else
      var x := ExecStmt(h, ss[0], st, fuel);
      if !x.completion.Normal? then x
      else ExecBlock(h, ss[1..], x.st, fuel, x.completion.value)
  }

  /** A nested execute() whose value is dropped. */
  function Discard(x: Executed): Executed
  {
    if x.completion.Normal? then Executed(Normal(NoneVal), x.st) else x
  }

  function ExecStmt(h: Host, s: Stmt, st: State, fuel: nat): Executed
    decreases fuel, s, 1
  {
    match s
    case VarDecl(name, e) =>
      var v := Eval(h, e, st, fuel);
      if v.result.Err? then Executed(Abrupt(v.result.error), v.st)
      else Executed(Normal(NoneVal), Declare(v.st, name, v.result.value))
    case FunctionDecl(name, params, body) =>
      Executed(Normal(NoneVal), Declare(st, name, FuncVal(name, params, body)))
    case PrintStmt(e) =>
      var v := Eval(h, e, st, fuel);
      if v.result.Err? then Executed(Abrupt(v.result.error), v.st)
      else Executed(Normal(NoneVal), v.st.(out := v.st.out + ToString(h, v.result.value) + "\n"))
    case IfStmt(cond, thenBody, elseBody) =>
      var c := Eval(h, cond, st, fuel);
      if c.result.Err? then Executed(Abrupt(c.result.error), c.st)
      else if IsTruthy(c.result.value) then Discard(ExecBlock(h, thenBody, c.st, fuel, NoneVal))
      else if |elseBody| > 0 then Discard(ExecBlock(h, elseBody, c.st, fuel, NoneVal))
      else Executed(Normal(NoneVal), c.st)
    case WhileStmt(_, _) => ExecWhile(h, s, st, fuel)
    case ForStmt(init, _, _, _) =>
      if init.Some? then
        var i := ExecStmt(h, init.value, st, fuel);
        if !i.completion.Normal? then i else ExecFor(h, s, i.st, fuel)
      else ExecFor(h, s, st, fuel)
    case ReturnStmt(result) =>
      if result.Some? then
        var v := Eval(h, result.value, st, fuel);
        if v.result.Err? then Executed(Abrupt(v.result.error), v.st)
        else Executed(Returning(v.result.value), v.st)
      else Executed(Returning(NoneVal), st)
    case AssignStmt(target, e) =>
      if target.Ident? then
        var v := Eval(h, e, st, fuel);
        if v.result.Err? then Executed(Abrupt(v.result.error), v.st)
        else Executed(Normal(NoneVal), AssignVar(v.st, target.name, v.result.value))
      else Executed(Abrupt(Thrown(Error(RuntimeError, "Invalid assignment target"))), st)
    case ExprStmt(e) =>
      var v := Eval(h, e, st, fuel);
      if v.result.Err? then Executed(Abrupt(v.result.error), v.st)
      else Executed(Normal(v.result.value), v.st)
  }

  /** A 'while' loop: the condition is evaluated before every iteration. */
  function ExecWhile(h: Host, s: Stmt, st: State, fuel: nat): Executed
    requires s.WhileStmt?
    decreases fuel, s, 0
  {
    var c := Eval(h, s.cond, st, fuel);
    if c.result.Err? then Executed(Abrupt(c.result.error), c.st)
    else if !IsTruthy(c.result.value) then Executed(Normal(NoneVal), c.st)
    else if fuel == 0 then Executed(Abrupt(Exhausted), c.st)
    else
      var b := ExecBlock(h, s.body, c.st, fuel - 1, NoneVal);
      if !b.completion.Normal? then b else ExecWhile(h, s, b.st, fuel - 1)
  }

  /** The loop of a 'for' statement, after its init clause: condition, body, update. */
  function ExecFor(h: Host, s: Stmt, st: State, fuel: nat): Executed
    requires s.ForStmt?
    decreases fuel, s, 0
  {
    var c := Eval(h, s.cond, st, fuel);
    if c.result.Err? then Executed(Abrupt(c.result.error), c.st)
    else if !IsTruthy(c.result.value) then Executed(Normal(NoneVal), c.st)
    else if fuel == 0 then Executed(Abrupt(Exhausted), c.st)
    else
      var b := ExecBlock(h, s.body, c.st, fuel - 1, NoneVal);
      if !b.completion.Normal? then b
      else
        var u := ExecStmt(h, s.update, b.st, fuel - 1);
        if !u.completion.Normal? then u else ExecFor(h, s, u.st, fuel - 1)
  }
}
