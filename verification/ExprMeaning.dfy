// What the operators mean, in plain arithmetic.
module ExprMeaning {
  import opened Options
  import opened ExprSyntax
  import opened ExprGrammar
  import opened Ir
  import opened ExprSpec
  import opened ExprProof

  // ── 64 bits ──

  ghost predicate Fits64(i: int) { -9223372036854775808 <= i <= 9223372036854775807 }

  // The number of 64 bits that differs from i by a multiple of 2^64.
  ghost predicate Wraps(i: int, r: int) { Fits64(r) && (r - i) % 18446744073709551616 == 0 }

  lemma WrapIs(i: int, r: int)
    ensures Wraps(i, r) <==> r == Wrap(i)
    ensures Fits64(i) ==> Wrap(i) == i
  {
    var q := (i - MIN64) / 0x1_0000_0000_0000_0000;
    assert Wrap(i) == i - q * 0x1_0000_0000_0000_0000;
  }

  // The whole number between r and 0 that is nearest to r.
  lemma TruncateIs(r: real)
    ensures r >= 0.0 ==> 0.0 <= Truncate(r) as real <= r < Truncate(r) as real + 1.0
    ensures r <= 0.0 ==> Truncate(r) as real - 1.0 < r <= Truncate(r) as real <= 0.0
  {
  }

  // The remainder leaves a multiple of the divisor, is smaller than it, and has the dividend's sign.
  lemma RemainderIs(a: int, b: int)
    requires Fits64(a) && Fits64(b)
    ensures Srem(a, b).None? <==> b == 0 || (a == -9223372036854775808 && b == -1)
    ensures Srem(a, b).Some? ==>
      var m := Srem(a, b).value;
      && Multiple(a - m, b) && (if b > 0 then -b < m < b else b < m < -b)
      && (a >= 0 ==> m >= 0) && (a <= 0 ==> m <= 0)
  {
    if Srem(a, b).Some? {
      var x, y := if a >= 0 then a else -a, if b >= 0 then b else -b;
      PlainRemainder(x, y);
      MultipleSigns(x - x % y, y);
    }
  }

  lemma PlainRemainder(x: int, y: int)
    requires 0 <= x && 0 < y
    ensures 0 <= x % y < y && Multiple(x - x % y, y)
  {
    assert (x / y) * y == x - x % y;
  }

  ghost predicate Multiple(a: int, b: int) { exists q :: q * b == a }

  lemma MultipleSigns(a: int, b: int)
    requires Multiple(a, b)
    ensures Multiple(-a, b) && Multiple(a, -b) && Multiple(-a, -b)
  {
    var q :| q * b == a;
    assert (-q) * b == -a && (-q) * (-b) == a && q * (-b) == -a;
  }

  // ── Operators between two NUM values ──

  ghost predicate IsWrapped(v: Option<Val>, i: int) { v.Some? && v.value.NumV? && Wraps(i, v.value.i) }

  lemma NumArithmetic(a: int, b: int, pow: Power)
    ensures IsWrapped(Apply(AddOp, NumV(a), NumV(b), pow), a + b)
    ensures IsWrapped(Apply(SubOp, NumV(a), NumV(b), pow), a - b)
    ensures IsWrapped(Apply(MulOp, NumV(a), NumV(b), pow), a * b)
    ensures Apply(ModOp, NumV(a), NumV(b), pow) == if Srem(a, b).Some? then Some(NumV(Srem(a, b).value)) else None
  {
    hide Wrap, Wraps, Srem;
    WrapIs(a + b, Wrap(a + b));
    WrapIs(a - b, Wrap(a - b));
    WrapIs(a * b, Wrap(a * b));
  }

  lemma NumComparison(a: int, b: int, pow: Power)
    ensures Apply(CmpOp(Eq), NumV(a), NumV(b), pow) == Some(FactV(a == b))
    ensures Apply(CmpOp(Ne), NumV(a), NumV(b), pow) == Some(FactV(a != b))
    ensures Apply(CmpOp(Lt), NumV(a), NumV(b), pow) == Some(FactV(a < b))
    ensures Apply(CmpOp(Gt), NumV(a), NumV(b), pow) == Some(FactV(b < a))
    ensures Apply(CmpOp(Le), NumV(a), NumV(b), pow) == Some(FactV(!(b < a)))
    ensures Apply(CmpOp(Ge), NumV(a), NumV(b), pow) == Some(FactV(!(a < b)))
  {
  }

  // ── Mixed operands ──

  // The number a value stands for in real arithmetic.
  ghost predicate Counts(v: Val, r: real) { (v.NumV? && r == v.i as real) || (v.SclV? && r == v.r) }

  // With an SCL operand the arithmetic is real, and % has no value.
  lemma SclArithmetic(x: Val, y: Val, a: real, b: real, pow: Power)
    requires Counts(x, a) && Counts(y, b) && (x.SclV? || y.SclV?)
    ensures Apply(AddOp, x, y, pow) == Some(SclV(a + b)) && Apply(SubOp, x, y, pow) == Some(SclV(a - b))
    ensures Apply(MulOp, x, y, pow) == Some(SclV(a * b)) && Apply(PowOp, x, y, pow) == Some(SclV(pow(a, b)))
    ensures Apply(ModOp, x, y, pow) == None
  {
    assert AsReal(x) == a && AsReal(y) == b;
  }

  lemma SclComparison(x: Val, y: Val, a: real, b: real, pow: Power)
    requires Counts(x, a) && Counts(y, b) && (x.SclV? || y.SclV?)
    ensures Apply(CmpOp(Eq), x, y, pow) == Some(FactV(a == b)) && Apply(CmpOp(Ne), x, y, pow) == Some(FactV(a != b))
    ensures Apply(CmpOp(Lt), x, y, pow) == Some(FactV(a < b)) && Apply(CmpOp(Gt), x, y, pow) == Some(FactV(b < a))
    ensures Apply(CmpOp(Le), x, y, pow) == Some(FactV(!(b < a))) && Apply(CmpOp(Ge), x, y, pow) == Some(FactV(!(a < b)))
  {
    assert AsReal(x) == a && AsReal(y) == b;
  }

  // Division is always real: the quotient gives the dividend back.
  lemma Division(x: Val, y: Val, a: real, b: real, pow: Power)
    requires Counts(x, a) && Counts(y, b)
    ensures var q := Apply(DivOp, x, y, pow);
      if b == 0.0 then q == None else q.Some? && q.value.SclV? && q.value.r * b == a
  {
    assert AsReal(x) == a && AsReal(y) == b;
    if b != 0.0 { assert (a / b) * b == a; }
  }

  // A power of two NUM values goes through the real power and back, toward zero.
  lemma PowMeaning(a: int, b: int, pow: Power)
    ensures var p := Truncate(pow(a as real, b as real));
      Apply(PowOp, NumV(a), NumV(b), pow) == if Fits64(p) then Some(NumV(p)) else None
  {
  }

  // What a value counts as in a condition.
  lemma TruthMeaning(v: Val)
    ensures v.FactV? ==> (Truth(v) <==> v.b)
    ensures v.NumV? ==> (Truth(v) <==> v.i != 0)
    ensures v.SclV? ==> (Truth(v) <==> v.r != 0.0)
  {
  }

  lemma SignMeaning(e: Expr, vars: Vars, pow: Power)
    requires Eval(e, vars, pow).Some?
    ensures var v := Eval(e, vars, pow).value;
      && Eval(NotE(e), vars, pow) == Some(FactV(!Truth(v)))
      && (v.NumV? ==> IsWrapped(Eval(Neg(e), vars, pow), -v.i))
      && (v.SclV? ==> Eval(Neg(e), vars, pow) == Some(SclV(-v.r)))
  {
    var v := Eval(e, vars, pow).value;
    if v.NumV? { WrapIs(-v.i, Wrap(-v.i)); }
  }

  // ── Tokens to values ──

  // a OR b AND c holds when a does or b and c both do; a AND b OR c when a and b both do or c does.
  lemma OrAndValue(x: Expr, y: Expr, z: Expr, a: seq<Token>, b: seq<Token>, c: seq<Token>, vars: Vars, pow: Power,
                   p: bool, q: bool, r: bool)
    requires AtomExpr(x, a) && AtomExpr(y, b) && AtomExpr(z, c)
    requires Eval(x, vars, pow) == Some(FactV(p)) && Eval(y, vars, pow) == Some(FactV(q))
    requires Eval(z, vars, pow) == Some(FactV(r))
    ensures Eval(Parse(OR_LEVEL, a + [Or] + (b + [And] + c), 0).e, vars, pow) == Some(FactV(p || (q && r)))
    ensures Eval(Parse(OR_LEVEL, (a + [And] + b) + [Or] + c, 0).e, vars, pow) == Some(FactV((p && q) || r))
  {
    hide Parse, AtomExpr, Means, Tighter, Eval;
    OrAndRungs();
    TighterLeft(Or, OrOp, And, AndOp, x, y, z, a, b, c);
    TighterRight(Or, OrOp, And, AndOp, x, y, z, a, b, c);
    OrAndTrees(x, y, z, vars, pow, p, q, r);
  }

  lemma OrAndTrees(x: Expr, y: Expr, z: Expr, vars: Vars, pow: Power, p: bool, q: bool, r: bool)
    requires Eval(x, vars, pow) == Some(FactV(p)) && Eval(y, vars, pow) == Some(FactV(q))
    requires Eval(z, vars, pow) == Some(FactV(r))
    ensures Eval(Bin(OrOp, x, Bin(AndOp, y, z)), vars, pow) == Some(FactV(p || (q && r)))
    ensures Eval(Bin(OrOp, Bin(AndOp, x, y), z), vars, pow) == Some(FactV((p && q) || r))
  {
  }

  lemma OrAndRungs()
    ensures Means(Or, OrOp) && Means(And, AndOp) && Tighter(And, Or)
  {
  }

  // a + b * c, for numbers small enough not to wrap.
  lemma SumProductValue(x: Expr, y: Expr, z: Expr, a: seq<Token>, b: seq<Token>, c: seq<Token>, vars: Vars, pow: Power,
                        i: int, j: int, k: int)
    requires AtomExpr(x, a) && AtomExpr(y, b) && AtomExpr(z, c) && Fits64(j * k) && Fits64(i + j * k)
    requires Eval(x, vars, pow) == Some(NumV(i)) && Eval(y, vars, pow) == Some(NumV(j))
    requires Eval(z, vars, pow) == Some(NumV(k))
    ensures Eval(Parse(OR_LEVEL, a + [Plus] + (b + [Star] + c), 0).e, vars, pow) == Some(NumV(i + j * k))
  {
    hide Parse, AtomExpr, Wrap;
    TighterLeft(Plus, AddOp, Star, MulOp, x, y, z, a, b, c);
    WrapIs(j * k, 0);
    WrapIs(i + j * k, 0);
  }

  // ── The compiler on any sentence ──

  // The code for any sentence of the grammar leaves the value of the sentence's tree.
  lemma CompiledSentence(e: Expr, tokens: seq<Token>, types: Types, scope: Scope, vars: Vars, st: St, regs: Regs,
                         mem: Mem, pow: Power)
    requires OrExpr(e, tokens) && Typed(e, types).Some?
    requires AllBound(types, scope, vars, regs, mem.cells) && ScopeBelow(types, scope, st.regs)
    ensures var out := Comp(Parse(OR_LEVEL, tokens, 0).e, scope, st);
      var regs' := After(out.st.body, Start(|st.body|, regs, mem, pow));
      && out.st.errors == st.errors && Some(out.v.ty) == Typed(e, types) && Ssa(st.regs, st, out.st, scope)
      && (Eval(e, vars, pow).None? ==> regs'.None?)
      && (Eval(e, vars, pow).Some? ==> regs'.Some? && OpVal(out.v.op, regs'.value) == Eval(e, vars, pow))
  {
    hide Parse, OrExpr, Comp, Typed, Eval, Ssa, AllBound, ScopeBelow, Render;
    Grammar(e, tokens);
    ReadsBack(e);
    CompiledExpression(e, types, scope, vars, st, regs, mem, pow);
  }
}
