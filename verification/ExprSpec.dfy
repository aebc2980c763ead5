// Emitting SSA code for a NUM/SCL/FACT expression tree, as a function of the
// module's state.
module ExprSpec {
  import opened ExprSyntax
  import opened Ir

  datatype Error =
    | UnexpectedEnd | MissingParen | UnexpectedToken(t: Token) | Undeclared(name: string)
    | PercentNeedsNum | TypeMismatch(declared: Ty, actual: Ty) | NotCreated(name: string) | NotNumeric(name: string)

  // { reg, type }
  datatype TVal = TVal(op: Operand, ty: Ty)

  // A scope entry: the register holding the variable's address, and its type.
  datatype Info = Info(ptr: nat, ty: Ty)
  type Scope = map<string, Info>

  // What emitting changes in the module.
  datatype St = St(regs: nat, body: seq<Line>, errors: seq<Error>)

  const ZERO := TVal(IntC(0), NUM)

  datatype Out = Out(op: Operand, st: St)
  datatype VOut = VOut(v: TVal, st: St)

  function Emit(st: St, rhs: Rhs): Out {
    Out(Reg(st.regs), St(st.regs + 1, st.body + [Ins(st.regs, rhs)], st.errors))
  }

  function Fail(st: St, e: Error): St { st.(errors := st.errors + [e]) }

  function CoerceToBool(v: TVal, st: St): Out {
    if v.ty == NUM then Emit(st, Icmp(Ne, v.op, IntC(0))) else Emit(st, Fcmp(Ne, v.op, RealC(0.0)))
  }

  function EnsureBool(v: TVal, st: St): Out {
    if v.ty == FACT then Out(v.op, st) else CoerceToBool(v, st)
  }

  // intToDouble, where the operand is NUM.
  function ToDouble(v: TVal, st: St): Out {
    if v.ty == NUM then Emit(st, SiToFp(v.op)) else Out(v.op, st)
  }

  datatype Promoted = Promoted(l: Operand, r: Operand, ty: Ty, st: St)

  function Promote(l: TVal, r: TVal, st: St): Promoted {
    if l.ty == SCL || r.ty == SCL then
      var lo := ToDouble(l, st);
      var ro := ToDouble(r, lo.st);
      Promoted(lo.op, ro.op, SCL, ro.st)
    else Promoted(l.op, r.op, NUM, st)
  }

  function EmitLogic(lop: LogicOp, l: TVal, r: TVal, st: St): VOut {
    var lb := EnsureBool(l, st);
    var rb := EnsureBool(r, lb.st);
    var out := Emit(rb.st, Logic(lop, lb.op, rb.op));
    VOut(TVal(out.op, FACT), out.st)
  }

  function EmitArith(iop: IntOp, fop: RealOp, l: TVal, r: TVal, st: St): VOut {
    var p := Promote(l, r, st);
    var out := Emit(p.st, if p.ty == SCL then RealBin(fop, p.l, p.r) else IntBin(iop, p.l, p.r));
    VOut(TVal(out.op, p.ty), out.st)
  }

  function EmitCompare(c: Cmp, l: TVal, r: TVal, st: St): VOut {
    var p := Promote(l, r, st);
    var out := Emit(p.st, if p.ty == SCL then Fcmp(c, p.l, p.r) else Icmp(c, p.l, p.r));
    VOut(TVal(out.op, FACT), out.st)
  }

  function EmitDiv(l: TVal, r: TVal, st: St): VOut {
    var lo := ToDouble(l, st);
    var ro := ToDouble(r, lo.st);
    var out := Emit(ro.st, RealBin(FDiv, lo.op, ro.op));
    VOut(TVal(out.op, SCL), out.st)
  }

  // A left operand that is not NUM is converted for the zero check although no check is emitted.
  function EmitMod(l: TVal, r: TVal, st: St): VOut {
    var st1 := if l.ty != NUM || r.ty != NUM then Fail(st, PercentNeedsNum) else st;
    var st2 := if l.ty != NUM then Emit(st1, SiToFp(l.op)).st else st1;
    var out := Emit(st2, IntBin(ISrem, l.op, r.op));
    VOut(TVal(out.op, NUM), out.st)
  }

  function EmitPow(l: TVal, r: TVal, st: St): VOut {
    var lo := ToDouble(l, st);
    var ro := ToDouble(r, lo.st);
    var out := Emit(ro.st, CallPow(lo.op, ro.op));
    if l.ty == NUM && r.ty == NUM then
      var back := Emit(out.st, FpToSi(out.op));
      VOut(TVal(back.op, NUM), back.st)
    else VOut(TVal(out.op, SCL), out.st)
  }

  function EmitNeg(v: TVal, st: St): VOut {
    var out := Emit(st, if v.ty == SCL then FNeg(v.op) else IntBin(ISub, IntC(0), v.op));
    VOut(TVal(out.op, v.ty), out.st)
  }

  function EmitNot(v: TVal, st: St): VOut {
    var b := EnsureBool(v, st);
    var out := Emit(b.st, Logic(LXor, b.op, BoolC(true)));
    VOut(TVal(out.op, FACT), out.st)
  }

  function EmitBin(op: Op, l: TVal, r: TVal, st: St): VOut {
    match op
    case OrOp => EmitLogic(LOr, l, r, st)
    case AndOp => EmitLogic(LAnd, l, r, st)
    case CmpOp(c) => EmitCompare(c, l, r, st)
    case AddOp => EmitArith(IAdd, FAdd, l, r, st)
    case SubOp => EmitArith(ISub, FSub, l, r, st)
    case MulOp => EmitArith(IMul, FMul, l, r, st)
    case DivOp => EmitDiv(l, r, st)
    case ModOp => EmitMod(l, r, st)
    case PowOp => EmitPow(l, r, st)
  }

  // Code for a whole tree; both operands come before their operator.
  function Comp(e: Expr, scope: Scope, st: St): VOut {
    match e
    case IntLit(i) => VOut(TVal(IntC(i), NUM), st)
    case RealLit(r) => VOut(TVal(RealC(r), SCL), st)
    case BoolLit(b) => VOut(TVal(BoolC(b), FACT), st)
    case Var(x) =>
      if x in scope then
        var out := Emit(st, Load(scope[x].ty, Reg(scope[x].ptr)));
        VOut(TVal(out.op, scope[x].ty), out.st)
      else VOut(ZERO, Fail(st, Undeclared(x)))
    case NotE(x) => var i := Comp(x, scope, st); EmitNot(i.v, i.st)
    case Neg(x) => var i := Comp(x, scope, st); EmitNeg(i.v, i.st)
    case Bin(op, l, r) =>
      var lv := Comp(l, scope, st);
      var rv := Comp(r, scope, lv.st);
      EmitBin(op, lv.v, rv.v, rv.st)
    case Missing => VOut(ZERO, Fail(st, UnexpectedEnd))
    case Unexpected(t) => VOut(ZERO, Fail(st, UnexpectedToken(t)))
    case Unclosed(x) => var i := Comp(x, scope, st); VOut(i.v, Fail(i.st, MissingParen))
  }

  lemma CompBin(e: Expr, scope: Scope, st: St)
    requires e.Bin?
    ensures var lv := Comp(e.l, scope, st);
      var rv := Comp(e.r, scope, lv.st);
      Comp(e, scope, st) == EmitBin(e.op, lv.v, rv.v, rv.st)
  {
  }
}
