/** What the operators of expressions compute, said of an expression and the values of its parts. */
module OperatorLaws {
  import opened Wrappers
  import opened Heap
  import opened Store
  import opened Language
  import opened Machine

  function Bit(b: bool): (n: int)
    ensures b ==> n == 1
    ensures !b ==> n == 0
  {
    if b then 1 else 0
  }

  /** q is a divided by b, rounded towards zero: what is left over is smaller than b and has a's sign. */
  predicate Truncates(a: int, b: int, q: int) {
    var rest := a - q * b;
    && (b > 0 ==> -b < rest < b) && (b < 0 ==> b < rest < -b)
    && (a >= 0 ==> rest >= 0) && (a <= 0 ==> rest <= 0)
  }

  /** Two integers. */
  lemma IntegerLaw(fl: Floats, s: Store, l: Expr, r: Expr, a: int, b: int)
    requires Eval(fl, s, l) == Some(VInt(a)) && Eval(fl, s, r) == Some(VInt(b))
    ensures Eval(fl, s, EBin(Plus, l, r)) == Some(VInt(a + b))
    ensures Eval(fl, s, EBin(Minus, l, r)) == Some(VInt(a - b))
    ensures Eval(fl, s, EBin(Times, l, r)) == Some(VInt(a * b))
    ensures b == 0 ==> Eval(fl, s, EBin(Divide, l, r)) == Some(VErr)
    ensures b != 0 ==> exists q :: Eval(fl, s, EBin(Divide, l, r)) == Some(VInt(q)) && Truncates(a, b, q)
    ensures Eval(fl, s, EBin(Less, l, r)) == Some(VInt(Bit(a < b)))
    ensures Eval(fl, s, EBin(Greater, l, r)) == Some(VInt(Bit(a > b)))
    ensures Eval(fl, s, EBin(Equal, l, r)) == Some(VInt(Bit(a == b)))
    ensures Eval(fl, s, EBin(And, l, r)) == Some(VInt(Bit(a != 0 && b != 0)))
    ensures Eval(fl, s, EBin(Or, l, r)) == Some(VInt(Bit(a != 0 || b != 0)))
  {
    hide Eval, Quotient;
    Applied(fl, s, l, r, VInt(a), VInt(b));
    if b != 0 {
      QuotientTruncates(a, b);
      assert Eval(fl, s, EBin(Divide, l, r)) == Some(VInt(Quotient(a, b)));
    }
  }

  lemma QuotientTruncates(a: int, b: int)
    requires b != 0
    ensures Truncates(a, b, Quotient(a, b))
  {
    var n := if a >= 0 then a else -a;
    assert n == n / b * b + n % b;
    if a < 0 { assert -(n / b) * b == -(n / b * b); }
  }

  /** Rounding towards zero leaves no choice. */
  lemma TruncatesOnce(a: int, b: int, q: int, p: int)
    requires b != 0 && Truncates(a, b, q) && Truncates(a, b, p)
    ensures q == p
  {
    SmallMultiple(q - p, b);
    assert (q - p) * b == (a - p * b) - (a - q * b);
  }

  lemma SmallMultiple(d: int, b: int)
    requires b != 0
    ensures (b > 0 && -b < d * b < b) || (b < 0 && b < d * b < -b) ==> d == 0
  {
    if b > 0 {
      if d >= 1 { assert d * b >= b; }
      if d <= -1 { assert d * b <= -b; }
    } else {
      if d >= 1 { assert d * b <= b; }
      if d <= -1 { assert d * b >= -b; }
    }
  }

  /** An operator on two values that are no errors. */
  lemma Applied(fl: Floats, s: Store, l: Expr, r: Expr, a: Value, b: Value)
    requires Eval(fl, s, l) == Some(a) && Eval(fl, s, r) == Some(b) && !a.VErr? && !b.VErr?
    ensures forall op :: Eval(fl, s, EBin(op, l, r)) == BiOp(fl, op, a, b)
  {
    hide BiOp;
  }

  /** What two floats give. */
  ghost predicate FloatsGive(fl: Floats, s: Store, l: Expr, r: Expr, x: Float, y: Float) {
    && Eval(fl, s, EBin(Plus, l, r)) == Some(VFloat(fl.arith(Plus, x, y)))
    && Eval(fl, s, EBin(Minus, l, r)) == Some(VFloat(fl.arith(Minus, x, y)))
    && Eval(fl, s, EBin(Times, l, r)) == Some(VFloat(fl.arith(Times, x, y)))
    && Eval(fl, s, EBin(Divide, l, r)) == Some(VFloat(fl.arith(Divide, x, y)))
    && Eval(fl, s, EBin(Less, l, r)) == Some(VInt(Bit(fl.less(x, y))))
    && Eval(fl, s, EBin(Greater, l, r)) == Some(VInt(Bit(fl.less(y, x))))
  }

  /** Two floats are computed with as floats, and equal when their bits are. */
  lemma FloatLaw(fl: Floats, s: Store, l: Expr, r: Expr, x: Float, y: Float)
    requires Eval(fl, s, l) == Some(VFloat(x)) && Eval(fl, s, r) == Some(VFloat(y))
    ensures FloatsGive(fl, s, l, r, x, y)
    ensures Eval(fl, s, EBin(Equal, l, r)) == Some(VInt(Bit(x == y)))
    ensures Eval(fl, s, EBin(And, l, r)) == Some(VInt(Bit(!fl.isZero(x) && !fl.isZero(y))))
    ensures Eval(fl, s, EBin(Or, l, r)) == Some(VInt(Bit(!fl.isZero(x) || !fl.isZero(y))))
  {
    hide Eval, Quotient;
    Applied(fl, s, l, r, VFloat(x), VFloat(y));
  }

  /** An integer beside a float becomes a float, and stays on its side; but the two are never equal. */
  lemma IntegerFloatLaw(fl: Floats, s: Store, l: Expr, r: Expr, a: int, y: Float)
    requires Eval(fl, s, l) == Some(VInt(a)) && Eval(fl, s, r) == Some(VFloat(y))
    ensures FloatsGive(fl, s, l, r, fl.ofInt(a), y)
    ensures Eval(fl, s, EBin(Equal, l, r)) == Some(VInt(0))
    ensures Eval(fl, s, EBin(And, l, r)) == Some(VInt(Bit(a != 0 && !fl.isZero(y))))
    ensures Eval(fl, s, EBin(Or, l, r)) == Some(VInt(Bit(a != 0 || !fl.isZero(y))))
  {
    hide Eval, Quotient;
    Applied(fl, s, l, r, VInt(a), VFloat(y));
  }

  lemma FloatIntegerLaw(fl: Floats, s: Store, l: Expr, r: Expr, x: Float, b: int)
    requires Eval(fl, s, l) == Some(VFloat(x)) && Eval(fl, s, r) == Some(VInt(b))
    ensures FloatsGive(fl, s, l, r, x, fl.ofInt(b))
    ensures Eval(fl, s, EBin(Equal, l, r)) == Some(VInt(0))
    ensures Eval(fl, s, EBin(And, l, r)) == Some(VInt(Bit(!fl.isZero(x) && b != 0)))
    ensures Eval(fl, s, EBin(Or, l, r)) == Some(VInt(Bit(!fl.isZero(x) || b != 0)))
  {
    hide Eval, Quotient;
    Applied(fl, s, l, r, VFloat(x), VInt(b));
  }

  predicate IsNumber(v: Value) { v.VInt? || v.VFloat? }

  /** Non-zero numbers count as true, and nothing else does. */
  predicate CountsAsTrue(fl: Floats, v: Value) {
    match v
    case VInt(n) => n != 0
    case VFloat(x) => !fl.isZero(x)
    case _ => false
  }

  /** With an operand that is no number, and neither an error, arithmetic and comparison fail; equality is
      of the values themselves, and what is no number is false. */
  lemma OtherLaw(fl: Floats, s: Store, op: BinOp, l: Expr, r: Expr, a: Value, b: Value)
    requires Eval(fl, s, l) == Some(a) && Eval(fl, s, r) == Some(b) && !a.VErr? && !b.VErr?
    requires !IsNumber(a) || !IsNumber(b)
    ensures Eval(fl, s, EBin(op, l, r)) ==
              match op
              case Equal => Some(VInt(Bit(a == b)))
              case And => Some(VInt(Bit(CountsAsTrue(fl, a) && CountsAsTrue(fl, b))))
              case Or => Some(VInt(Bit(CountsAsTrue(fl, a) || CountsAsTrue(fl, b))))
              case _ => None
  {
  }

  /** What fails in an operand fails in the expression, the left one first; and a left operand that is an
      error makes the expression one, whatever is on the right. */
  lemma ErrorLaw(fl: Floats, s: Store, op: BinOp, l: Expr, r: Expr)
    ensures Eval(fl, s, l).None? ==> Eval(fl, s, EBin(op, l, r)).None?
    ensures Eval(fl, s, l) == Some(VErr) ==> Eval(fl, s, EBin(op, l, r)) == Some(VErr)
    ensures Eval(fl, s, l).Some? && Eval(fl, s, l) != Some(VErr) ==>
              && (Eval(fl, s, r).None? ==> Eval(fl, s, EBin(op, l, r)).None?)
              && (Eval(fl, s, r) == Some(VErr) ==> Eval(fl, s, EBin(op, l, r)) == Some(VErr))
  {
  }

  /** Minus and not. */
  lemma OneOperandLaw(fl: Floats, s: Store, e: Expr)
    ensures Eval(fl, s, ENeg(e)) ==
              match Eval(fl, s, e)
              case Some(VErr) => Some(VErr)
              case Some(VInt(n)) => Some(VInt(0 - n))
              case Some(VFloat(x)) => Some(VFloat(fl.neg(x)))
              case _ => None
    ensures Eval(fl, s, ENot(e)) ==
              match Eval(fl, s, e)
              case None => None
              case Some(VErr) => Some(VErr)
              case Some(v) => Some(VInt(Bit(!CountsAsTrue(fl, v))))
  {
  }

  /** A variable is read through a reference to it; a container in it is an error to an expression. */
  lemma VariableLaw(fl: Floats, s: Store, x: Sym)
    ensures Eval(fl, s, EId(x)).None? <==> ResolveAny(s, x).None?
    ensures ResolveAny(s, x).Some? ==>
              var v := Get(s, SCell(ResolveAny(s, x).value));
              Eval(fl, s, EId(x)) == Some(if v.VMap? || v.VSeq? || v.VRef? then VErr else v)
  {
  }

  // ---------------------------------------------------------------- if

  /** An if runs its block when its condition is a non-zero number, goes on past it when it is any other
      value, and fails when the condition does. */
  lemma IfLaw(P: Program, fs: seq<Frame>, s: Store, lib: LibId, c: Expr, b: Body)
    requires fs != []
    ensures var m := Perform(P, fs, s, lib, If(c, b));
            match Eval(P.fl, s, c)
            case None => m == Fail(fs, s, lib, InvalidExpression)
            case Some(v) =>
              if !CountsAsTrue(P.fl, v) then m == Next(fs, s, lib)
              else if b.stmts == [] then m == Next(fs, Pop(Push(s)), lib)
              else m == Run(fs + [Frame(b.mark, b.stmts, b.stmts, None, lib)], Push(s), lib)
  {
    hide Eval, Pop, Push;
    assert Front(fs + [BlockFrame(b, lib)]) == fs;
  }
}
