/**
 * Properties of the value operations: which values are false, the Python
 * arithmetic of '/' and '%', the ordering of strings, string repetition and
 * what builtin_require() accepts.
 */
module ValueProperties {
  import opened Wrappers
  import opened Errors
  import opened Decimal
  import opened Syntax
  import opened Values

  /** The false values are exactly None, False, 0, 0.0 and "": an empty dict, a
      function and a host callable are all true. */
  lemma FalsyValues(v: Value)
    ensures !IsTruthy(v) <==>
      v == NoneVal || v == BoolVal(false) || v == IntVal(0) || v == FloatVal(0.0) || v == StrVal("")
  {
  }

  /** '!' is the negation of truthiness, 'and' always yields a bool, and 'or'
      yields one of its operands unchanged: the left one when it is true. */
  lemma LogicalOperators(h: Host, l: Value, r: Value)
    ensures UnaryValue(LogicalNot, l) == Ok(BoolVal(!IsTruthy(l)))
    ensures BinaryValue(h, And, l, r).Ok? && BinaryValue(h, And, l, r).value.BoolVal?
    ensures IsTruthy(BinaryValue(h, And, l, r).value) <==> IsTruthy(l) && IsTruthy(r)
    ensures BinaryValue(h, Or, l, r) == Ok(if IsTruthy(l) then l else r)
    ensures IsTruthy(BinaryValue(h, Or, l, r).value) <==> IsTruthy(l) || IsTruthy(r)
  {
  }

  /** A bool is an int in arithmetic: True + True is 2, and True == 1 == 1.0. */
  lemma BoolsAreInts(h: Host)
    ensures AddValues(h, BoolVal(true), BoolVal(true)) == Ok(IntVal(2))
    ensures PyEq(BoolVal(true), IntVal(1)) && PyEq(IntVal(1), FloatVal(1.0))
    ensures !IsTruthy(FloatVal(0.0)) && IsTruthy(DictVal([]))
  {
  }

  /** The int a bool stands for. */
  function BoolInt(b: bool): Value
  {
    IntVal(if b then 1 else 0)
  }

  /** In equality and truthiness a bool is the int 0 or 1, against any value. */
  lemma BoolEqualsItsInt(b: bool, v: Value)
    ensures PyEq(BoolVal(b), BoolInt(b))
    ensures PyEq(BoolVal(b), v) <==> PyEq(BoolInt(b), v)
    ensures PyEq(v, BoolVal(b)) <==> PyEq(v, BoolInt(b))
    ensures IsTruthy(BoolVal(b)) <==> IsTruthy(BoolInt(b))
  {
  }

  /** With a number on the other side, every binary operator but 'or' (which
      returns the bool itself) treats a bool as the int 0 or 1, on either side. */
  lemma BoolOperandIsItsInt(h: Host, b: bool, op: BinOp, v: Value)
    requires op != Or && IsNumber(v)
    ensures BinaryValue(h, op, BoolVal(b), v) == BinaryValue(h, op, BoolInt(b), v)
    ensures BinaryValue(h, op, v, BoolVal(b)) == BinaryValue(h, op, v, BoolInt(b))
  {
    match op
    case Add => BoolSum(h, b, v);
    case Sub => BoolDifference(b, v);
    case Mul => BoolProduct(b, v);
    case Div => BoolQuotient(b, v);
    case Mod => BoolRemainder(b, v);
    case Eq => BoolEqualsItsInt(b, v);
    case Ne => BoolEqualsItsInt(b, v);
    case And => BoolEqualsItsInt(b, v);
    case _ => BoolComparison(b, op, v);
  }

  lemma BoolSum(h: Host, b: bool, v: Value)
    requires IsNumber(v)
    ensures AddValues(h, BoolVal(b), v) == AddValues(h, BoolInt(b), v)
    ensures AddValues(h, v, BoolVal(b)) == AddValues(h, v, BoolInt(b))
  {
  }

  lemma BoolDifference(b: bool, v: Value)
    requires IsNumber(v)
    ensures SubValues(BoolVal(b), v) == SubValues(BoolInt(b), v)
    ensures SubValues(v, BoolVal(b)) == SubValues(v, BoolInt(b))
  {
  }

  lemma BoolProduct(b: bool, v: Value)
    requires IsNumber(v)
    ensures MulValues(BoolVal(b), v) == MulValues(BoolInt(b), v)
    ensures MulValues(v, BoolVal(b)) == MulValues(v, BoolInt(b))
  {
  }

  lemma BoolQuotient(b: bool, v: Value)
    requires IsNumber(v)
    ensures DivValues(BoolVal(b), v) == DivValues(BoolInt(b), v)
    ensures DivValues(v, BoolVal(b)) == DivValues(v, BoolInt(b))
  {
  }

  lemma BoolRemainder(b: bool, v: Value)
    requires IsNumber(v)
    ensures ModValues(BoolVal(b), v) == ModValues(BoolInt(b), v)
    ensures ModValues(v, BoolVal(b)) == ModValues(v, BoolInt(b))
  {
  }

  lemma BoolComparison(b: bool, op: BinOp, v: Value)
    requires op in {Lt, Gt, Le, Ge} && IsNumber(v)
    ensures CompareValues(op, BoolVal(b), v) == CompareValues(op, BoolInt(b), v)
    ensures CompareValues(op, v, BoolVal(b)) == CompareValues(op, v, BoolInt(b))
  {
  }

  /** A bool repeats a string as the int 0 or 1 does. */
  lemma BoolCountIsItsInt(b: bool, s: string)
    ensures MulValues(StrVal(s), BoolVal(b)) == MulValues(StrVal(s), BoolInt(b))
    ensures MulValues(BoolVal(b), StrVal(s)) == MulValues(BoolInt(b), StrVal(s))
  {
  }

  /** String '+' is where a bool is not its int: to_string() writes "true"
      where it writes "1" for the int. */
  lemma BoolConcatenatesAsWord(h: Host, s: string)
    ensures AddValues(h, StrVal(s), BoolVal(true)) == Ok(StrVal(s + "true"))
    ensures AddValues(h, StrVal(s), BoolInt(true)) == Ok(StrVal(s + "1"))
    ensures AddValues(h, StrVal(s), BoolVal(true)) != AddValues(h, StrVal(s), BoolInt(true))
  {
    assert IntToString(1) == "1";
    assert (s + "true")[|s|] != (s + "1")[|s|];
  }

  // ---------------------------------------------------------------------------
  // '/' and '%' on ints

  /** FloorDiv rounds toward negative infinity, and FloorMod is the remainder
      that goes with it: it takes the sign of the divisor and is smaller than it. */
  lemma FloorDivision(a: int, b: int)
    requires b != 0
    ensures b * FloorDiv(a, b) + FloorMod(a, b) == a
    ensures b > 0 ==> 0 <= FloorMod(a, b) < b
    ensures b < 0 ==> b < FloorMod(a, b) <= 0
  {
    if b < 0 {
      var q := (-a) / (-b);
      var m := (-a) % (-b);
      assert (-b) * q + m == -a;
      assert 0 <= m < -b;
      assert FloorMod(a, b) == a - b * q;
      assert a - b * q == -m;
    }
  }

  /** The 'integer division' of the source's '/' on two ints. */
  lemma DivisionOfInts(a: int, b: int)
    ensures b == 0 ==> DivValues(IntVal(a), IntVal(b)) == Err(Error(ZeroDivisionError, "integer division or modulo by zero"))
    ensures b != 0 ==> DivValues(IntVal(a), IntVal(b)) == Ok(IntVal(FloorDiv(a, b)))
    ensures b != 0 ==> ModValues(IntVal(a), IntVal(b)) == Ok(IntVal(a - b * FloorDiv(a, b)))
  {
  }

  /** Concrete cases: -7 / 2 is -4 and -7 % 2 is 1, 7 / -2 is -4 and 7 % -2 is -1. */
  lemma FloorDivisionExamples()
    ensures FloorDiv(-7, 2) == -4 && FloorMod(-7, 2) == 1
    ensures FloorDiv(7, -2) == -4 && FloorMod(7, -2) == -1
  {
  }

  // ---------------------------------------------------------------------------
  // The order on strings

  lemma {:induction false} StrLessIrreflexive(a: string)
    ensures !StrLess(a, a)
    decreases |a|
  {
    if |a| > 0 {
      StrLessIrreflexive(a[1..]);
    }
  }

  lemma {:induction false} StrLessTrans(a: string, b: string, c: string)
    requires StrLess(a, b) && StrLess(b, c)
    ensures StrLess(a, c)
    decreases |a|
  {
    if |a| > 0 && a[0] == b[0] && b[0] == c[0] {
      StrLessTrans(a[1..], b[1..], c[1..]);
    }
  }

  lemma {:induction false} StrLessTotal(a: string, b: string)
    ensures a == b || StrLess(a, b) || StrLess(b, a)
    decreases |a|
  {
    if |a| > 0 && |b| > 0 && a[0] == b[0] {
      StrLessTotal(a[1..], b[1..]);
      if a[1..] == b[1..] {
        assert a == [a[0]] + a[1..] && b == [b[0]] + b[1..];
      }
    }
  }

  lemma {:induction false} StrLessAsymmetric(a: string, b: string)
    requires StrLess(a, b)
    ensures !StrLess(b, a)
    decreases |a|
  {
    if |a| > 0 && a[0] == b[0] {
      StrLessAsymmetric(a[1..], b[1..]);
    }
  }

  /** Two strings compare like numbers do: exactly one of <, == and > holds, and
      <= is < or ==. */
  lemma StringComparison(h: Host, a: string, b: string)
    ensures var lt, gt, eq := BinaryValue(h, Lt, StrVal(a), StrVal(b)), BinaryValue(h, Gt, StrVal(a), StrVal(b)),
                              BinaryValue(h, Eq, StrVal(a), StrVal(b));
      lt.Ok? && gt.Ok? && eq.Ok?
      && (if a == b then lt.value == BoolVal(false) && gt.value == BoolVal(false) && eq.value == BoolVal(true)
          else eq.value == BoolVal(false) && (lt.value == BoolVal(true) <==> gt.value == BoolVal(false)))
    ensures BinaryValue(h, Le, StrVal(a), StrVal(b)) == Ok(BoolVal(StrLess(a, b) || a == b))
  {
    StrLessTotal(a, b);
    if a == b {
      StrLessIrreflexive(a);
    } else if StrLess(a, b) {
      StrLessAsymmetric(a, b);
    } else {
      StrLessAsymmetric(b, a);
    }
  }

  // ---------------------------------------------------------------------------
  // '*' with a string

  /** s * (m + n) is s * m followed by s * n. */
  lemma {:induction false} RepeatAdd(s: string, m: nat, n: nat)
    ensures Repeat(s, m + n) == Repeat(s, m) + Repeat(s, n)
    decreases m
  {
    if m > 0 {
      RepeatAdd(s, m - 1, n);
      assert Repeat(s, m + n) == s + Repeat(s, m - 1 + n);
    }
  }

  /** A string repeats from either side, and only an int (or bool) count is accepted. */
  lemma StringRepetition(s: string, v: Value)
    ensures MulValues(StrVal(s), v) == MulValues(v, StrVal(s))
    ensures MulValues(StrVal(s), v).Ok? <==> IsIntLike(v)
    ensures MulValues(StrVal(s), v).Err? ==> MulValues(StrVal(s), v).error == RepeatError(v)
  {
  }

  // ---------------------------------------------------------------------------
  // builtin_require()

  /** require() yields a module exactly when it is given one string naming a
      known module that the host loads. */
  lemma RequireSucceeds(h: Host, args: seq<Value>)
    ensures Require(h, args).Ok? <==>
      |args| == 1 && args[0].StrVal? && args[0].s in KnownModules && h.load(args[0].s).Ok?
    ensures Require(h, args).Ok? ==> Require(h, args).value == DictVal(h.load(args[0].s).value)
  {
  }

  /** Its failures: a TypeError for a wrong argument, a ModuleNotFoundError for an
      unknown module or any import failure, the host's own error otherwise. */
  lemma RequireFails(h: Host, args: seq<Value>)
    requires Require(h, args).Err?
    ensures var k := Require(h, args).error.kind;
      (|args| != 1 || !args[0].StrVal? ==> k == TypeError)
      && (|args| == 1 && args[0].StrVal? && args[0].s !in KnownModules ==> k == ModuleNotFoundError)
      && (|args| == 1 && args[0].StrVal? && args[0].s in KnownModules ==>
            if IsImportError(h.load(args[0].s).error.kind) then k == ModuleNotFoundError
            else Require(h, args).error == h.load(args[0].s).error)
  {
  }

  // ---------------------------------------------------------------------------
  // '+' with a string, and to_string()

  /** '+' with a string on either side concatenates the to_string() texts of both. */
  lemma PlusConcatenates(h: Host, l: Value, r: Value)
    requires l.StrVal? || r.StrVal?
    ensures BinaryValue(h, Add, l, r) == Ok(StrVal(ToString(h, l) + ToString(h, r)))
  {
  }

  /** to_string(): true, false and null for the bool and None values, a string as
      itself, and an int as the decimal text that reads back as that int. */
  lemma DisplayText(h: Host, s: string, i: int)
    ensures ToString(h, BoolVal(true)) == "true" && ToString(h, BoolVal(false)) == "false"
    ensures ToString(h, NoneVal) == "null" && ToString(h, StrVal(s)) == s
    ensures i >= 0 ==> AllDigits(ToString(h, IntVal(i))) && DigitsValue(ToString(h, IntVal(i))) == i
    ensures i < 0 ==> ToString(h, IntVal(i)) == "-" + NatToString(-i) && DigitsValue(NatToString(-i)) == -i
  {
    if i >= 0 {
      DigitsValueOfNatToString(i);
    } else {
      DigitsValueOfNatToString(-i);
    }
  }
}
