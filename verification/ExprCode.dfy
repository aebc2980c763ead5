// The expression compiler: one pass over the tokens, emitting code as it
// descends the ladder; it computes the tree of ExprSyntax and the code of ExprSpec.
module ExprCode {
  import opened Options
  import opened ExprSyntax
  import opened ExprGrammar
  import opened Ir
  import opened ExprSpec

  // ── The module being filled ──

  class Module {
    var regCounter: nat
    var body: seq<Line>
    var errors: seq<Error>
    var scope: Scope
    var blockCounter: nat
    var currentDepth: nat

    constructor ()
      ensures State() == St(0, [], []) && scope == map[] && blockCounter == 0 && currentDepth == 0
    {
      regCounter, body, errors, scope, blockCounter, currentDepth := 0, [], [], map[], 0, 0;
    }

    function State(): St
      reads this
    {
      St(regCounter, body, errors)
    }

    // freshReg and emit, which always come together.
    method EmitReg(rhs: Rhs) returns (reg: Operand)
      modifies this`regCounter, this`body
      ensures Out(reg, State()) == Emit(old(State()), rhs)
    {
      reg := Reg(regCounter);
      regCounter := regCounter + 1;
      body := body + [Ins(reg.n, rhs)];
    }

    method Error(e: Error)
      modifies this`errors
      ensures State() == Fail(old(State()), e)
    {
      errors := errors + [e];
    }
  }

  class ExprCompiler {
    const mod: Module

    constructor (m: Module)
      ensures mod == m
    {
      mod := m;
    }

    // Emits code for the expression at the front of the tokens; what follows it is ignored.
    method CompileExpr(tokens: seq<Token>) returns (value: TVal)
      modifies mod`regCounter, mod`body, mod`errors
      ensures VOut(value, mod.State()) == Comp(Parse(OR_LEVEL, tokens, 0).e, mod.scope, old(mod.State()))
      ensures forall e :: OrExpr(e, tokens) ==> VOut(value, mod.State()) == Comp(e, mod.scope, old(mod.State()))
    {
      hide Parse, Comp, OrExpr;
      var p;
      value, p := ParseOr(tokens, 0);
      forall e | OrExpr(e, tokens)
        ensures e == Parse(OR_LEVEL, tokens, 0).e
      {
        Grammar(e, tokens);
      }
    }

    method CoerceToBool(val: TVal) returns (reg: Operand)
      requires val.ty != FACT
      modifies mod`regCounter, mod`body, mod`errors
      ensures Out(reg, mod.State()) == ExprSpec.CoerceToBool(val, old(mod.State()))
    {
      if val.ty == NUM {
        reg := mod.EmitReg(Icmp(Ne, val.op, IntC(0)));
      } else {
        reg := mod.EmitReg(Fcmp(Ne, val.op, RealC(0.0)));
      }
    }

    method EnsureBool(val: TVal) returns (reg: Operand)
      modifies mod`regCounter, mod`body, mod`errors
      ensures Out(reg, mod.State()) == ExprSpec.EnsureBool(val, old(mod.State()))
    {
      if val.ty == FACT { return val.op; }
      reg := CoerceToBool(val);
    }

    method ParseOr(tokens: seq<Token>, pos: nat) returns (value: TVal, p: nat)
      requires pos <= |tokens|
      modifies mod`regCounter, mod`body, mod`errors
      ensures p == Parse(OR_LEVEL, tokens, pos).pos
      ensures VOut(value, mod.State()) == Comp(Parse(OR_LEVEL, tokens, pos).e, mod.scope, old(mod.State()))
      decreases |tokens| - pos, 7
    {
      hide Parse, Rest, Comp, ExprSpec.EmitLogic, ExprSpec.EmitArith, ExprSpec.EmitDiv, ExprSpec.EmitMod,
           ExprSpec.EmitPow;
      ghost var e := Parse(AND_LEVEL, tokens, pos).e;
      ParseIsRest(OR_LEVEL, tokens, pos);
      value, p := ParseAnd(tokens, pos);
      while p < |tokens| && tokens[p] == Or
        invariant p <= |tokens| && Rest(OR_LEVEL, e, tokens, p) == Parse(OR_LEVEL, tokens, pos)
        invariant pos <= p && mod.scope == old(mod.scope)
        invariant VOut(value, mod.State()) == Comp(e, mod.scope, old(mod.State()))
      {
        RestStep(OR_LEVEL, e, tokens, p);
        ghost var next := Bin(OrOp, e, Parse(AND_LEVEL, tokens, p + 1).e);
        CompBin(next, mod.scope, old(mod.State()));
        var right;
        right, p := ParseAnd(tokens, p + 1);
        value := EmitLogic(LOr, value, right);
        e := next;
      }
      RestStep(OR_LEVEL, e, tokens, p);
    }

    method ParseAnd(tokens: seq<Token>, pos: nat) returns (value: TVal, p: nat)
      requires pos <= |tokens|
      modifies mod`regCounter, mod`body, mod`errors
      ensures p == Parse(AND_LEVEL, tokens, pos).pos
      ensures VOut(value, mod.State()) == Comp(Parse(AND_LEVEL, tokens, pos).e, mod.scope, old(mod.State()))
      decreases |tokens| - pos, 6
    {
      hide Parse, Rest, Comp, ExprSpec.EmitLogic, ExprSpec.EmitArith, ExprSpec.EmitDiv, ExprSpec.EmitMod,
           ExprSpec.EmitPow;
      ghost var e := Parse(NOT_LEVEL, tokens, pos).e;
      ParseIsRest(AND_LEVEL, tokens, pos);
      value, p := ParseNot(tokens, pos);
      while p < |tokens| && tokens[p] == And
        invariant p <= |tokens| && Rest(AND_LEVEL, e, tokens, p) == Parse(AND_LEVEL, tokens, pos)
        invariant pos <= p && mod.scope == old(mod.scope)
        invariant VOut(value, mod.State()) == Comp(e, mod.scope, old(mod.State()))
      {
        RestStep(AND_LEVEL, e, tokens, p);
        ghost var next := Bin(AndOp, e, Parse(NOT_LEVEL, tokens, p + 1).e);
        CompBin(next, mod.scope, old(mod.State()));
        var right;
        right, p := ParseNot(tokens, p + 1);
        value := EmitLogic(LAnd, value, right);
        e := next;
      }
      RestStep(AND_LEVEL, e, tokens, p);
    }

    method ParseNot(tokens: seq<Token>, pos: nat) returns (value: TVal, p: nat)
      requires pos <= |tokens|
      modifies mod`regCounter, mod`body, mod`errors
      ensures p == Parse(NOT_LEVEL, tokens, pos).pos
      ensures VOut(value, mod.State()) == Comp(Parse(NOT_LEVEL, tokens, pos).e, mod.scope, old(mod.State()))
      decreases |tokens| - pos, 5
    {
      if pos < |tokens| && tokens[pos] == Not {
        var inner;
        inner, p := ParseNot(tokens, pos + 1);
        var b := EnsureBool(inner);
        var reg := mod.EmitReg(Logic(LXor, b, BoolC(true)));
        return TVal(reg, FACT), p;
      }
      value, p := ParseComparison(tokens, pos);
    }

    method ParseComparison(tokens: seq<Token>, pos: nat) returns (value: TVal, p: nat)
      requires pos <= |tokens|
      modifies mod`regCounter, mod`body, mod`errors
      ensures p == Parse(CMP_LEVEL, tokens, pos).pos
      ensures VOut(value, mod.State()) == Comp(Parse(CMP_LEVEL, tokens, pos).e, mod.scope, old(mod.State()))
      decreases |tokens| - pos, 4
    {
      value, p := ParseAdditive(tokens, pos);
      if p < |tokens| && tokens[p].CmpTok? {
        var op := tokens[p].c;
        var right;
        right, p := ParseAdditive(tokens, p + 1);
        value := EmitCompare(value, right, op);
      }
    }

    method ParseAdditive(tokens: seq<Token>, pos: nat) returns (value: TVal, p: nat)
      requires pos <= |tokens|
      modifies mod`regCounter, mod`body, mod`errors
      ensures p == Parse(ADD_LEVEL, tokens, pos).pos
      ensures VOut(value, mod.State()) == Comp(Parse(ADD_LEVEL, tokens, pos).e, mod.scope, old(mod.State()))
      decreases |tokens| - pos, 3
    {
      hide Parse, Rest, Comp, ExprSpec.EmitLogic, ExprSpec.EmitArith, ExprSpec.EmitDiv, ExprSpec.EmitMod,
           ExprSpec.EmitPow;
      ghost var e := Parse(MUL_LEVEL, tokens, pos).e;
      ParseIsRest(ADD_LEVEL, tokens, pos);
      value, p := ParseMultiplicative(tokens, pos);
      while p < |tokens| && (tokens[p] == Plus || tokens[p] == Minus)
        invariant p <= |tokens| && Rest(ADD_LEVEL, e, tokens, p) == Parse(ADD_LEVEL, tokens, pos)
        invariant pos <= p && mod.scope == old(mod.scope)
        invariant VOut(value, mod.State()) == Comp(e, mod.scope, old(mod.State()))
      {
        var op := tokens[p];
        RestStep(ADD_LEVEL, e, tokens, p);
        ghost var next := Bin(FromToken(op).value, e, Parse(MUL_LEVEL, tokens, p + 1).e);
        CompBin(next, mod.scope, old(mod.State()));
        var right;
        right, p := ParseMultiplicative(tokens, p + 1);
        if op == Plus {
          value := EmitArith(IAdd, FAdd, value, right);
        } else {
          value := EmitArith(ISub, FSub, value, right);
        }
        e := next;
      }
      RestStep(ADD_LEVEL, e, tokens, p);
    }

    method ParseMultiplicative(tokens: seq<Token>, pos: nat) returns (value: TVal, p: nat)
      requires pos <= |tokens|
      modifies mod`regCounter, mod`body, mod`errors
      ensures p == Parse(MUL_LEVEL, tokens, pos).pos
      ensures VOut(value, mod.State()) == Comp(Parse(MUL_LEVEL, tokens, pos).e, mod.scope, old(mod.State()))
      decreases |tokens| - pos, 2
    {
      hide Parse, Rest, Comp, EmitBin, OpAt, FromToken, OpLevel;
      ghost var e := Parse(UNARY_LEVEL, tokens, pos).e;
      ParseIsRest(MUL_LEVEL, tokens, pos);
      value, p := ParseUnary(tokens, pos);
      while p < |tokens| && (tokens[p] == Star || tokens[p] == Slash || tokens[p] == Percent || tokens[p] == Pow)
        invariant p <= |tokens| && Rest(MUL_LEVEL, e, tokens, p) == Parse(MUL_LEVEL, tokens, pos)
        invariant pos <= p && mod.scope == old(mod.scope)
        invariant VOut(value, mod.State()) == Comp(e, mod.scope, old(mod.State()))
      {
        var op := tokens[p];
        MulAt(tokens, p);
        RestStep(MUL_LEVEL, e, tokens, p);
        ghost var next := Bin(FromToken(op).value, e, Parse(UNARY_LEVEL, tokens, p + 1).e);
        CompBin(next, mod.scope, old(mod.State()));
        var right;
        right, p := ParseUnary(tokens, p + 1);
        value := EmitFactor(op, value, right);
        e := next;
      }
      MulAt(tokens, p);
      RestStep(MUL_LEVEL, e, tokens, p);
    }

    // The four operators of the multiplicative rung.
    method EmitFactor(op: Token, left: TVal, right: TVal) returns (value: TVal)
      requires op == Star || op == Slash || op == Percent || op == Pow
      modifies mod`regCounter, mod`body, mod`errors
      ensures VOut(value, mod.State()) == EmitBin(FromToken(op).value, left, right, old(mod.State()))
    {
      if op == Star {
        value := EmitArith(IMul, FMul, left, right);
      } else if op == Slash {
        value := EmitDiv(left, right);
      } else if op == Percent {
        value := EmitMod(left, right);
      } else {
        value := EmitPow(left, right);
      }
    }

    method ParseUnary(tokens: seq<Token>, pos: nat) returns (value: TVal, p: nat)
      requires pos <= |tokens|
      modifies mod`regCounter, mod`body, mod`errors
      ensures p == Parse(UNARY_LEVEL, tokens, pos).pos
      ensures VOut(value, mod.State()) == Comp(Parse(UNARY_LEVEL, tokens, pos).e, mod.scope, old(mod.State()))
      decreases |tokens| - pos, 1
    {
      if pos < |tokens| && tokens[pos] == Minus {
        var inner;
        inner, p := ParseUnary(tokens, pos + 1);
        value := EmitNeg(inner);
        return;
      }
      value, p := ParseAtom(tokens, pos);
    }

    method ParseAtom(tokens: seq<Token>, pos: nat) returns (value: TVal, p: nat)
      requires pos <= |tokens|
      modifies mod`regCounter, mod`body, mod`errors
      ensures p == Parse(ATOM_LEVEL, tokens, pos).pos
      ensures VOut(value, mod.State()) == Comp(Parse(ATOM_LEVEL, tokens, pos).e, mod.scope, old(mod.State()))
      decreases |tokens| - pos, 0
    {
      if pos == |tokens| {
        mod.Error(UnexpectedEnd);
        return ZERO, pos;
      }
      var t := tokens[pos];
      if t == LParen {
        value, p := ParseOr(tokens, pos + 1);
        if p < |tokens| && tokens[p] == RParen {
          p := p + 1;
        } else {
          mod.Error(MissingParen);
        }
      } else if t.IntNumber? {
        return TVal(IntC(t.i), NUM), pos + 1;
      } else if t.RealNumber? {
        return TVal(RealC(t.r), SCL), pos + 1;
      } else if t.Bool? {
        return TVal(BoolC(t.b), FACT), pos + 1;
      } else if t.Ident? {
        if t.name !in mod.scope {
          mod.Error(Undeclared(t.name));
          return ZERO, pos + 1;
        }
        var info := mod.scope[t.name];
        var reg := mod.EmitReg(Load(info.ty, Reg(info.ptr)));
        return TVal(reg, info.ty), pos + 1;
      } else {
        mod.Error(UnexpectedToken(t));
        return ZERO, pos + 1;
      }
    }

    method IntToDouble(val: TVal) returns (reg: Operand)
      modifies mod`regCounter, mod`body, mod`errors
      ensures Out(reg, mod.State()) == ToDouble(val, old(mod.State()))
    {
      reg := val.op;
      if val.ty == NUM {
        reg := mod.EmitReg(SiToFp(val.op));
      }
    }

    method Promote(left: TVal, right: TVal) returns (l: Operand, r: Operand, ty: Ty)
      modifies mod`regCounter, mod`body, mod`errors
      ensures Promoted(l, r, ty, mod.State()) == ExprSpec.Promote(left, right, old(mod.State()))
    {
      if left.ty == SCL || right.ty == SCL {
        l := IntToDouble(left);
        r := IntToDouble(right);
        return l, r, SCL;
      }
      return left.op, right.op, NUM;
    }

    // The tail of parseOr and parseAnd, which differ in the opcode.
    method EmitLogic(lop: LogicOp, left: TVal, right: TVal) returns (value: TVal)
      modifies mod`regCounter, mod`body, mod`errors
      ensures VOut(value, mod.State()) == ExprSpec.EmitLogic(lop, left, right, old(mod.State()))
    {
      var lb := EnsureBool(left);
      var rb := EnsureBool(right);
      var reg := mod.EmitReg(Logic(lop, lb, rb));
      value := TVal(reg, FACT);
    }

    // emitAdd, emitSub and emitMul, which differ in the two opcodes.
    method EmitArith(iop: IntOp, fop: RealOp, left: TVal, right: TVal) returns (value: TVal)
      modifies mod`regCounter, mod`body, mod`errors
      ensures VOut(value, mod.State()) == ExprSpec.EmitArith(iop, fop, left, right, old(mod.State()))
    {
      var l, r, ty := Promote(left, right);
      var reg := mod.EmitReg(if ty == SCL then RealBin(fop, l, r) else IntBin(iop, l, r));
      value := TVal(reg, ty);
    }

    method EmitCompare(left: TVal, right: TVal, op: Cmp) returns (value: TVal)
      modifies mod`regCounter, mod`body, mod`errors
      ensures VOut(value, mod.State()) == ExprSpec.EmitCompare(op, left, right, old(mod.State()))
    {
      var l, r, ty := Promote(left, right);
      var reg := mod.EmitReg(if ty == SCL then Fcmp(op, l, r) else Icmp(op, l, r));
      value := TVal(reg, FACT);
    }

    method EmitDiv(left: TVal, right: TVal) returns (value: TVal)
      modifies mod`regCounter, mod`body, mod`errors
      ensures VOut(value, mod.State()) == ExprSpec.EmitDiv(left, right, old(mod.State()))
    {
      var l := IntToDouble(left);
      var r := IntToDouble(right);
      var reg := mod.EmitReg(RealBin(FDiv, l, r));
      value := TVal(reg, SCL);
    }

    method EmitMod(left: TVal, right: TVal) returns (value: TVal)
      modifies mod`regCounter, mod`body, mod`errors
      ensures VOut(value, mod.State()) == ExprSpec.EmitMod(left, right, old(mod.State()))
    {
      if left.ty != NUM || right.ty != NUM {
        mod.Error(PercentNeedsNum);
      }
      if left.ty != NUM {
        var unused := mod.EmitReg(SiToFp(left.op));
      }
      var reg := mod.EmitReg(IntBin(ISrem, left.op, right.op));
      value := TVal(reg, NUM);
    }

    method EmitPow(left: TVal, right: TVal) returns (value: TVal)
      modifies mod`regCounter, mod`body, mod`errors
      ensures VOut(value, mod.State()) == ExprSpec.EmitPow(left, right, old(mod.State()))
    {
      var l := IntToDouble(left);
      var r := IntToDouble(right);
      var reg := mod.EmitReg(CallPow(l, r));
      value := TVal(reg, SCL);
      if left.ty == NUM && right.ty == NUM {
        var back := mod.EmitReg(FpToSi(reg));
        value := TVal(back, NUM);
      }
    }

    method EmitNeg(val: TVal) returns (value: TVal)
      modifies mod`regCounter, mod`body, mod`errors
      ensures VOut(value, mod.State()) == ExprSpec.EmitNeg(val, old(mod.State()))
    {
      var reg := mod.EmitReg(if val.ty == SCL then FNeg(val.op) else IntBin(ISub, IntC(0), val.op));
      value := TVal(reg, val.ty);
    }
  }

  lemma MulAt(tokens: seq<Token>, p: nat)
    ensures OpAt(tokens, p, MUL_LEVEL) ==
      if p < |tokens| && (tokens[p] == Star || tokens[p] == Slash || tokens[p] == Percent || tokens[p] == Pow)
      then FromToken(tokens[p]) else None
    ensures p < |tokens| && OpAt(tokens, p, MUL_LEVEL).Some? ==> FromToken(tokens[p]).Some?
    ensures p < |tokens| && (tokens[p] == Star || tokens[p] == Slash || tokens[p] == Percent || tokens[p] == Pow) ==>
      FromToken(tokens[p]).Some?
  {
  }
}
