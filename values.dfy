/**
 * The values a NovaScript program computes with, and the pure parts of class
 * Executor in interpreter.py: is_truthy(), to_string(), the operator cases of
 * evaluate_binary_op() and evaluate_unary_op() once both operands are known, and
 * the argument checks of builtin_require().  Python's own behaviour for the
 * operators (bool is an int, `//` and `%` floor, `*` repeats strings, mixed types
 * raise TypeError) is written out here.
 */
module Values {
  import opened Wrappers
  import opened Errors
  import opened Decimal
  import opened Syntax

  /** One key of a Python dict, in insertion order. */
  datatype Entry = Entry(key: string, val: Value)

  datatype Value =
    | NoneVal
    | BoolVal(b: bool)
    | IntVal(i: int)
    | FloatVal(r: real)
    | StrVal(s: string)
    /** A dict: a module mapping returned by require(), or a dict a host function returns. */
    | DictVal(entries: seq<Entry>)
    /** The 'function' statement node itself, as stored in a scope (it is a dict). */
    | FuncVal(name: string, params: seq<string>, body: seq<Stmt>)
    /** A callable provided by a host module; id names it for the host. */
    | NativeVal(id: nat, typeName: string)

  /** What the core cannot compute itself: loading a standard-library module,
      calling one of its functions, str() of a float, and str() of a dict or a
      function object. */
  datatype Host = Host(
    load: string -> Result<seq<Entry>, Error>,
    invoke: (nat, seq<Value>) -> Result<Value, Error>,
    floatText: real -> string,
    objectText: Value -> string)

  /** d[key], the first entry with that key. */
  function Lookup(entries: seq<Entry>, key: string): (r: Option<Value>)
    ensures r.Some? <==> exists i :: 0 <= i < |entries| && entries[i].key == key
    ensures r.Some? ==> exists i :: 0 <= i < |entries| && entries[i] == Entry(key, r.value)
  {
    if |entries| == 0 then None
    else if entries[0].key == key then Some(entries[0].val)
    else
      var r := Lookup(entries[1..], key);
      assert forall i :: 1 <= i < |entries| ==> entries[i] == entries[1..][i - 1];
      r
  }

  /** type(v).__name__ */
  function TypeName(v: Value): string
  {
    match v
    case NoneVal => "NoneType"
    case BoolVal(_) => "bool"
    case IntVal(_) => "int"
    case FloatVal(_) => "float"
    case StrVal(_) => "str"
    case DictVal(_) => "dict"
    case FuncVal(_, _, _) => "dict"
    case NativeVal(_, t) => t
  }

  // ---------------------------------------------------------------------------
  // Numbers: bool is an int subclass, and ints mix with floats

  predicate IsIntLike(v: Value) { v.BoolVal? || v.IntVal? }

  predicate IsNumber(v: Value) { IsIntLike(v) || v.FloatVal? }

  function IntOf(v: Value): int
    requires IsIntLike(v)
  {
    if v.BoolVal? then (if v.b then 1 else 0) else v.i
  }

  function RealOf(v: Value): real
    requires IsNumber(v)
  {
    if v.FloatVal? then v.r else IntOf(v) as real
  }

  /** Python's a // b: the quotient rounded toward negative infinity. */
  function FloorDiv(a: int, b: int): int
    requires b != 0
  {
    if b > 0 then a / b else (-a) / (-b)
  }

  /** Python's a % b: the remainder that goes with FloorDiv. */
  function FloorMod(a: int, b: int): int
    requires b != 0
  {
    a - b * FloorDiv(a, b)
  }

  /** Python's float a % b: the result has the sign of b. */
  function FloatMod(a: real, b: real): real
    requires b != 0.0
  {
    a - b * ((a / b).Floor as real)
  }

  // ---------------------------------------------------------------------------
  // Equality and ordering

  /** Python's == : numbers compare by value whatever their type, dicts by their
      keys and values, host callables by identity. */
  predicate PyEq(a: Value, b: Value)
    decreases a, 1
  {
    if IsNumber(a) && IsNumber(b) then RealOf(a) == RealOf(b)
    else
      match a
      case NoneVal => b.NoneVal?
      case StrVal(s) => b.StrVal? && b.s == s
      case DictVal(es) => b.DictVal? && DictEq(es, b.entries)
      case FuncVal(_, _, _) => a == b
      case NativeVal(id, _) => b.NativeVal? && b.id == id
      case _ => false
  }

  /** Two dicts are equal when they have the same keys and equal values. */
  predicate DictEq(xs: seq<Entry>, ys: seq<Entry>)
    decreases xs, 2
  {
    SameKeys(xs, ys) && EntriesIn(xs, ys)
  }

  predicate SameKeys(xs: seq<Entry>, ys: seq<Entry>)
  {
    (forall i :: 0 <= i < |xs| ==> Lookup(ys, xs[i].key).Some?)
    && (forall j :: 0 <= j < |ys| ==> Lookup(xs, ys[j].key).Some?)
  }

  /** Every entry of xs has an equal value under its key in ys. */
  predicate EntriesIn(xs: seq<Entry>, ys: seq<Entry>)
    decreases xs, 1
  {
    |xs| == 0 ||
      (var other := Lookup(ys, xs[0].key);
       other.Some? && PyEq(xs[0].val, other.value) && EntriesIn(xs[1..], ys))
  }

  /** Python's < on two strings: code point by code point, a proper prefix first. */
  predicate StrLess(a: string, b: string)
  {
    if |a| == 0 then |b| > 0
    else if |b| == 0 then false
    else if a[0] != b[0] then a[0] < b[0]
    else StrLess(a[1..], b[1..])
  }

  // ---------------------------------------------------------------------------
  // Truthiness and display

  /** is_truthy(): None and False, then anything equal to 0 or to "". */
  predicate IsTruthy(v: Value)
  {
    if v.NoneVal? || v == BoolVal(false) then false
    else if PyEq(v, IntVal(0)) || PyEq(v, StrVal("")) then false
    else true
  }

  /** to_string(): true/false and null for booleans and None, str() otherwise. */
  function ToString(h: Host, v: Value): string
  {
    match v
    case BoolVal(b) => if b then "true" else "false"
    case NoneVal => "null"
    case IntVal(i) => IntToString(i)
    case FloatVal(r) => h.floatText(r)
    case StrVal(s) => s
    case _ => h.objectText(v)
  }

  // ---------------------------------------------------------------------------
  // Operators on evaluated operands

  function Unsupported(op: string, l: Value, r: Value): Error
  {
    Error(TypeError, "unsupported operand type(s) for " + op + ": '" + TypeName(l) + "' and '" + TypeName(r) + "'")
  }

  /** s * n for a string: n copies of s, none when n <= 0. */
  function Repeat(s: string, n: int): (r: string)
    ensures n <= 0 ==> r == ""
    ensures n > 0 ==> |r| == n * |s|
    decreases n
  {
    if n <= 0 then "" else s + Repeat(s, n - 1)
  }

  function AddValues(h: Host, l: Value, r: Value): Result<Value, Error>
  {
    if l.StrVal? || r.StrVal? then Ok(StrVal(ToString(h, l) + ToString(h, r)))
    else if IsIntLike(l) && IsIntLike(r) then Ok(IntVal(IntOf(l) + IntOf(r)))
    else if IsNumber(l) && IsNumber(r) then Ok(FloatVal(RealOf(l) + RealOf(r)))
    else Err(Unsupported("+", l, r))
  }

  function SubValues(l: Value, r: Value): Result<Value, Error>
  {
    if IsIntLike(l) && IsIntLike(r) then Ok(IntVal(IntOf(l) - IntOf(r)))
    else if IsNumber(l) && IsNumber(r) then Ok(FloatVal(RealOf(l) - RealOf(r)))
    else Err(Unsupported("-", l, r))
  }

  function RepeatError(count: Value): Error
  {
    Error(TypeError, "can't multiply sequence by non-int of type '" + TypeName(count) + "'")
  }

  function MulValues(l: Value, r: Value): Result<Value, Error>
  {
    if IsIntLike(l) && IsIntLike(r) then Ok(IntVal(IntOf(l) * IntOf(r)))
    else if IsNumber(l) && IsNumber(r) then Ok(FloatVal(RealOf(l) * RealOf(r)))
    else if l.StrVal? then
      if IsIntLike(r) then Ok(StrVal(Repeat(l.s, IntOf(r)))) else Err(RepeatError(r))
    else if r.StrVal? then
      if IsIntLike(l) then Ok(StrVal(Repeat(r.s, IntOf(l)))) else Err(RepeatError(l))
    else Err(Unsupported("*", l, r))
  }

  /** '/': floor division when both operands are ints (or bools), true division
      otherwise. */
  function DivValues(l: Value, r: Value): Result<Value, Error>
  {
    if IsIntLike(l) && IsIntLike(r) then
      if IntOf(r) == 0 then Err(Error(ZeroDivisionError, "integer division or modulo by zero"))
      else Ok(IntVal(FloorDiv(IntOf(l), IntOf(r))))
    else if IsNumber(l) && IsNumber(r) then
      if RealOf(r) == 0.0 then Err(Error(ZeroDivisionError, "float division by zero"))
      else Ok(FloatVal(RealOf(l) / RealOf(r)))
    else Err(Unsupported("/", l, r))
  }

  function ModValues(l: Value, r: Value): Result<Value, Error>
  {
    if IsIntLike(l) && IsIntLike(r) then
      if IntOf(r) == 0 then Err(Error(ZeroDivisionError, "integer division or modulo by zero"))
      else Ok(IntVal(FloorMod(IntOf(l), IntOf(r))))
    else if IsNumber(l) && IsNumber(r) then
      if RealOf(r) == 0.0 then Err(Error(ZeroDivisionError, "float modulo"))
      else Ok(FloatVal(FloatMod(RealOf(l), RealOf(r))))
    else if l.StrVal? then Err(Error(Unmodelled, "printf-style string formatting"))
    else Err(Unsupported("%", l, r))
  }

  /** <, >, <=, >= on numbers or on two strings. */
  function CompareValues(op: BinOp, l: Value, r: Value): Result<Value, Error>
    requires op in {Lt, Gt, Le, Ge}
  {
    if IsNumber(l) && IsNumber(r) then
      var a, b := RealOf(l), RealOf(r);
      Ok(BoolVal(match op case Lt => a < b case Gt => a > b case Le => a <= b case _ => a >= b))
    else if l.StrVal? && r.StrVal? then
      var a, b := l.s, r.s;
      Ok(BoolVal(match op
        case Lt => StrLess(a, b) case Gt => StrLess(b, a)
        case Le => !StrLess(b, a) case _ => !StrLess(a, b)))
    else
      var sym := match op case Lt => "<" case Gt => ">" case Le => "<=" case _ => ">=";
      Err(Error(TypeError, "'" + sym + "' not supported between instances of '"
                           + TypeName(l) + "' and '" + TypeName(r) + "'"))
  }

  /** The value computation of evaluate_binary_op(), once both operands are known. */
  function BinaryValue(h: Host, op: BinOp, l: Value, r: Value): Result<Value, Error>
  {
    match op
    case Add => AddValues(h, l, r)
    case Sub => SubValues(l, r)
    case Mul => MulValues(l, r)
    case Div => DivValues(l, r)
    case Mod => ModValues(l, r)
    case Eq => Ok(BoolVal(PyEq(l, r)))
    case Ne => Ok(BoolVal(!PyEq(l, r)))
    case And => Ok(BoolVal(IsTruthy(l) && IsTruthy(r)))
    case Or => Ok(if IsTruthy(l) then l else r)
    case _ => CompareValues(op, l, r)
  }

  /** The value computation of evaluate_unary_op(). */
  function UnaryValue(op: UnOp, v: Value): Result<Value, Error>
  {
    match op
    case Neg =>
      if IsIntLike(v) then Ok(IntVal(-IntOf(v)))
      else if v.FloatVal? then Ok(FloatVal(-v.r))
      else Err(Error(TypeError, "bad operand type for unary -: '" + TypeName(v) + "'"))
    case LogicalNot => Ok(BoolVal(!IsTruthy(v)))
  }

  /** The value of a 'literal' node. */
  function LiteralValue(lit: Literal): Value
  {
    match lit
    case IntLit(i) => IntVal(i)
    case FloatLit(r) => FloatVal(r)
    case StrLit(s) => StrVal(s)
    case BoolLit(b) => BoolVal(b)
  }

  // ---------------------------------------------------------------------------
  // builtin_require()

  /** The names builtin_require() knows how to import. */
  const KnownModules: seq<string> := ["fs", "console", "math", "random", "date", "http"]

  const AvailableList: string := "fs, console, math, random, date, http"

  predicate IsImportError(k: ErrorKind) { k == ImportError || k == ModuleNotFoundError }

  /** Any ImportError while loading becomes a ModuleNotFoundError naming the module;
      so does an unknown name, whose own ModuleNotFoundError is caught by the same
      handler. */
  function Require(h: Host, args: seq<Value>): Result<Value, Error>
  {
    if |args| != 1 then
      Err(Error(TypeError, "require() takes exactly 1 argument (" + IntToString(|args|) + " given)"))
    else if !args[0].StrVal? then
      Err(Error(TypeError, "Module name must be a string, not " + TypeName(args[0])))
    else
      var name := args[0].s;
      if name in KnownModules then
        match h.load(name)
        case Ok(entries) => Ok(DictVal(entries))
        case Err(e) =>
          if IsImportError(e.kind) then Err(LoadFailure(name, e.message)) else Err(e)
      else
        Err(LoadFailure(name, "No module named '" + name + "'. Available modules: " + AvailableList))
  }

  function LoadFailure(name: string, message: string): Error
  {
    Error(ModuleNotFoundError, "Failed to load module '" + name + "': " + message)
  }
}
