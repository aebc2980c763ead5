// What the emitted expression code computes: for every well-typed tree the
// result operand holds the tree's value, whatever the store.
module ExprProof {
  import opened Options
  import opened ExprSyntax
  import opened Ir
  import opened ExprSpec

  type Types = map<string, Ty>
  type Vars = map<string, Val>

  // ── The language: types and values of trees ──

  predicate Numeric(t: Ty) { t != FACT }

  function BinType(op: Op, l: Ty, r: Ty): Option<Ty> {
    match op
    case OrOp | AndOp => Some(FACT)
    case CmpOp(_) => if Numeric(l) && Numeric(r) then Some(FACT) else None
    case AddOp | SubOp | MulOp | PowOp =>
      if !Numeric(l) || !Numeric(r) then None else if l == NUM && r == NUM then Some(NUM) else Some(SCL)
    case DivOp => if Numeric(l) && Numeric(r) then Some(SCL) else None
    case ModOp => if l == NUM && r == NUM then Some(NUM) else None
  }

  ghost function Typed(e: Expr, types: Types): Option<Ty> {
    match e
    case IntLit(i) => if InRange(i) then Some(NUM) else None
    case RealLit(_) => Some(SCL)
    case BoolLit(_) => Some(FACT)
    case Var(x) => if x in types then Some(types[x]) else None
    case NotE(x) => if Typed(x, types).Some? then Some(FACT) else None
    case Neg(x) => if Typed(x, types).Some? && Numeric(Typed(x, types).value) then Typed(x, types) else None
    case Bin(op, l, r) =>
      if Typed(l, types).Some? && Typed(r, types).Some? then BinType(op, Typed(l, types).value, Typed(r, types).value)
      else None
    case Missing => None
    case Unexpected(_) => None
    case Unclosed(_) => None
  }

  // What a value counts as in a condition.
  ghost function Truth(v: Val): bool {
    match v
    case FactV(b) => b
    case NumV(i) => i != 0
    case SclV(r) => r != 0.0
    case _ => false
  }

  ghost function AsReal(v: Val): real {
    match v
    case NumV(i) => i as real
    case SclV(r) => r
    case _ => 0.0
  }

  // Integer arithmetic between two NUM values, real arithmetic otherwise.
  ghost function Mixed(iop: IntOp, fop: RealOp, x: Val, y: Val): Option<Val> {
    if x.NumV? && y.NumV? then IntVal(iop, x.i, y.i) else RealVal(fop, AsReal(x), AsReal(y))
  }

  ghost function Apply(op: Op, x: Val, y: Val, pow: Power): Option<Val> {
    match op
    case OrOp => Some(FactV(Truth(x) || Truth(y)))
    case AndOp => Some(FactV(Truth(x) && Truth(y)))
    case CmpOp(c) =>
      Some(FactV(if x.NumV? && y.NumV? then CompareInt(c, x.i, y.i) else CompareReal(c, AsReal(x), AsReal(y))))
    case AddOp => Mixed(IAdd, FAdd, x, y)
    case SubOp => Mixed(ISub, FSub, x, y)
    case MulOp => Mixed(IMul, FMul, x, y)
    case DivOp => if AsReal(y) == 0.0 then None else Some(SclV(AsReal(x) / AsReal(y)))
    case ModOp => if x.NumV? && y.NumV? && Srem(x.i, y.i).Some? then Some(NumV(Srem(x.i, y.i).value)) else None
    case PowOp =>
      var p := pow(AsReal(x), AsReal(y));
      if x.NumV? && y.NumV? then ToInt(p) else Some(SclV(p))
  }

  ghost function Minus1(x: Val): Val {
    if x.SclV? then SclV(-x.r) else if x.NumV? then NumV(Wrap(-x.i)) else x
  }

  // The value of a tree; None where the language gives it none (a zero divisor, a
  // power outside 64 bits). No operator short-circuits.
  ghost function Eval(e: Expr, vars: Vars, pow: Power): Option<Val> {
    match e
    case IntLit(i) => Some(NumV(i))
    case RealLit(r) => Some(SclV(r))
    case BoolLit(b) => Some(FactV(b))
    case Var(x) => if x in vars then Some(vars[x]) else None
    case NotE(x) =>
      var v := Eval(x, vars, pow);
      if v.Some? then Some(FactV(!Truth(v.value))) else None
    case Neg(x) =>
      var v := Eval(x, vars, pow);
      if v.Some? then Some(Minus1(v.value)) else None
    case Bin(op, l, r) =>
      var lv, rv := Eval(l, vars, pow), Eval(r, vars, pow);
      if lv.Some? && rv.Some? then Apply(op, lv.value, rv.value, pow) else None
    case Missing => None
    case Unexpected(_) => None
    case Unclosed(_) => None
  }

  ghost predicate VarsTyped(types: Types, vars: Vars) {
    forall x :: x in types ==> x in vars && HasType(vars[x], types[x])
  }

  lemma ApplyTyped(op: Op, x: Val, y: Val, l: Ty, r: Ty, pow: Power)
    requires HasType(x, l) && HasType(y, r) && BinType(op, l, r).Some? && Apply(op, x, y, pow).Some?
    ensures HasType(Apply(op, x, y, pow).value, BinType(op, l, r).value)
  {
  }

  // Values have their tree's type.
  lemma {:induction false} EvalTyped(e: Expr, types: Types, vars: Vars, pow: Power)
    requires Typed(e, types).Some? && VarsTyped(types, vars) && Eval(e, vars, pow).Some?
    ensures HasType(Eval(e, vars, pow).value, Typed(e, types).value)
  {
    match e
    case NotE(x) => EvalTyped(x, types, vars, pow);
    case Neg(x) => EvalTyped(x, types, vars, pow);
    case Bin(op, l, r) =>
      EvalTyped(l, types, vars, pow);
      EvalTyped(r, types, vars, pow);
      ApplyTyped(op, Eval(l, vars, pow).value, Eval(r, vars, pow).value, Typed(l, types).value, Typed(r, types).value,
        pow);
    case _ =>
  }

  // ── One emitted line ──

  ghost predicate Below(o: Operand, n: nat) { o.Reg? ==> o.n < n }

  ghost predicate Agree(regs: Regs, regs': Regs, n: nat) {
    forall k :: k < n && k in regs ==> k in regs' && regs'[k] == regs[k]
  }

  // From registers regs, the lines emitted between st and st' leave x in op and
  // change no earlier register; without a value, they get stuck.
  ghost predicate Yields(st: St, op: Operand, st': St, start: Start, x: Option<Val>)
    requires start.from <= |st.body| && After(st.body, start).Some?
  {
    var regs, regs' := After(st.body, start).value, After(st'.body, start);
    && st.regs <= st'.regs && st.body <= st'.body && st'.errors == st.errors
    && (x.None? ==> regs'.None?)
    && (x.Some? ==>
          regs'.Some? && OpVal(op, regs'.value) == x && Below(op, st'.regs)
          && Agree(regs, regs'.value, st.regs))
  }

  ghost predicate Holds(o: Operand, x: Val, st: St, start: Start) {
    && start.from <= |st.body| && After(st.body, start).Some?
    && OpVal(o, After(st.body, start).value) == Some(x) && Below(o, st.regs)
  }

  lemma EmitYields(st: St, rhs: Rhs, start: Start)
    requires start.from <= |st.body| && After(st.body, start).Some?
    ensures Yields(st, Emit(st, rhs).op, Emit(st, rhs).st, start,
      RhsVal(rhs, After(st.body, start).value, start.mem, start.pow))
  {
    var body' := Emit(st, rhs).st.body;
    assert body'[..|body'| - 1] == st.body;
  }

  // Yielding nothing new.
  lemma StayYields(st: St, op: Operand, start: Start, x: Val)
    requires Holds(op, x, st, start)
    ensures Yields(st, op, st, start, Some(x))
  {
  }

  lemma NowHolds(st: St, st': St, op: Operand, x: Val, start: Start)
    requires start.from <= |st.body| && After(st.body, start).Some? && Yields(st, op, st', start, Some(x))
    ensures Holds(op, x, st', start)
  {
  }

  lemma ConstHolds(st: St, op: Operand, x: Val, start: Start)
    requires Holds(op, x, st, start)
    ensures Holds(BoolC(true), FactV(true), st, start)
  {
  }

  // An operand keeps its value while more is emitted.
  lemma StillHolds(o: Operand, x: Val, st: St, st': St, op': Operand, y: Val, start: Start)
    requires Holds(o, x, st, start) && Yields(st, op', st', start, Some(y))
    ensures Holds(o, x, st', start) && Holds(op', y, st', start)
  {
  }

  lemma {:induction false} StuckStays(body: seq<Line>, body': seq<Line>, start: Start)
    requires start.from <= |body| && body <= body' && After(body, start).None?
    ensures After(body', start).None?
    decreases |body'|
  {
    if |body| < |body'| {
      StuckStays(body, body'[..|body'| - 1], start);
    } else {
      assert body == body';
    }
  }

  // Two stretches in a row.
  lemma YieldsThen(st: St, st1: St, st2: St, op1: Operand, op2: Operand, start: Start, x: Val, y: Option<Val>)
    requires start.from <= |st.body| && After(st.body, start).Some? && Yields(st, op1, st1, start, Some(x))
    requires Yields(st1, op2, st2, start, y)
    ensures Yields(st, op2, st2, start, y)
  {
  }

  // ── Conversions ──

  lemma ToDoubleYields(v: TVal, x: Val, st: St, start: Start)
    requires Holds(v.op, x, st, start) && HasType(x, v.ty) && Numeric(v.ty)
    ensures var out := ToDouble(v, st); Yields(st, out.op, out.st, start, Some(SclV(AsReal(x))))
  {
    if v.ty == NUM {
      EmitYields(st, SiToFp(v.op), start);
    }
  }

  lemma EnsureBoolYields(v: TVal, x: Val, st: St, start: Start)
    requires Holds(v.op, x, st, start) && HasType(x, v.ty)
    ensures var out := EnsureBool(v, st); Yields(st, out.op, out.st, start, Some(FactV(Truth(x))))
  {
    if v.ty == NUM {
      EmitYields(st, Icmp(Ne, v.op, IntC(0)), start);
    } else if v.ty == SCL {
      EmitYields(st, Fcmp(Ne, v.op, RealC(0.0)), start);
    }
  }

  // Both operands as doubles, the left one first.
  lemma BothDouble(l: TVal, r: TVal, x: Val, y: Val, st: St, start: Start)
    requires Holds(l.op, x, st, start) && HasType(x, l.ty) && Numeric(l.ty)
    requires Holds(r.op, y, st, start) && HasType(y, r.ty) && Numeric(r.ty)
    ensures var lo := ToDouble(l, st);
      var ro := ToDouble(r, lo.st);
      && Yields(st, ro.op, ro.st, start, Some(SclV(AsReal(y))))
      && Holds(lo.op, SclV(AsReal(x)), ro.st, start) && Holds(ro.op, SclV(AsReal(y)), ro.st, start)
  {
    hide ToDouble, After;
    var lo := ToDouble(l, st);
    ToDoubleYields(l, x, st, start);
    StillHolds(r.op, y, st, lo.st, lo.op, SclV(AsReal(x)), start);
    ToDoubleYields(r, y, lo.st, start);
    var ro := ToDouble(r, lo.st);
    StillHolds(lo.op, SclV(AsReal(x)), lo.st, ro.st, ro.op, SclV(AsReal(y)), start);
    YieldsThen(st, lo.st, ro.st, lo.op, ro.op, start, SclV(AsReal(x)), Some(SclV(AsReal(y))));
  }

  lemma BothBool(l: TVal, r: TVal, x: Val, y: Val, st: St, start: Start)
    requires Holds(l.op, x, st, start) && HasType(x, l.ty) && Holds(r.op, y, st, start) && HasType(y, r.ty)
    ensures var lo := EnsureBool(l, st);
      var ro := EnsureBool(r, lo.st);
      && Yields(st, ro.op, ro.st, start, Some(FactV(Truth(y))))
      && Holds(lo.op, FactV(Truth(x)), ro.st, start) && Holds(ro.op, FactV(Truth(y)), ro.st, start)
  {
    hide EnsureBool, After;
    var lo := EnsureBool(l, st);
    EnsureBoolYields(l, x, st, start);
    StillHolds(r.op, y, st, lo.st, lo.op, FactV(Truth(x)), start);
    EnsureBoolYields(r, y, lo.st, start);
    var ro := EnsureBool(r, lo.st);
    StillHolds(lo.op, FactV(Truth(x)), lo.st, ro.st, ro.op, FactV(Truth(y)), start);
    YieldsThen(st, lo.st, ro.st, lo.op, ro.op, start, FactV(Truth(x)), Some(FactV(Truth(y))));
  }

  // ── Operators ──

  // One more line on top of two prepared operands.
  lemma OnTop(st: St, st1: St, op1: Operand, w: Val, rhs: Rhs, a: Operand, x: Val, b: Operand, y: Val, start: Start)
    requires start.from <= |st.body| && After(st.body, start).Some? && Yields(st, op1, st1, start, Some(w))
    requires Holds(a, x, st1, start) && Holds(b, y, st1, start)
    requires (rhs.IntBin? || rhs.RealBin? || rhs.Logic? || rhs.Icmp? || rhs.Fcmp? || rhs.CallPow?) && rhs.a == a
    requires rhs.b == b
    ensures Yields(st, Emit(st1, rhs).op, Emit(st1, rhs).st, start, Combine(rhs, x, y, start.pow))
  {
    hide After, Combine, Emit;
    EmitYields(st1, rhs, start);
    YieldsThen(st, st1, Emit(st1, rhs).st, op1, Emit(st1, rhs).op, start, w, Combine(rhs, x, y, start.pow));
  }

  lemma LogicYields(lop: LogicOp, l: TVal, r: TVal, x: Val, y: Val, st: St, start: Start)
    requires Holds(l.op, x, st, start) && HasType(x, l.ty) && Holds(r.op, y, st, start) && HasType(y, r.ty)
    ensures var out := EmitLogic(lop, l, r, st);
      out.v.ty == FACT && Yields(st, out.v.op, out.st, start, Some(FactV(LogicVal(lop, Truth(x), Truth(y)))))
  {
    hide After, EnsureBool, Yields, Emit, HasType, OpVal;
    var lo := EnsureBool(l, st);
    var ro := EnsureBool(r, lo.st);
    BothBool(l, r, x, y, st, start);
    OnTop(st, ro.st, ro.op, FactV(Truth(y)), Logic(lop, lo.op, ro.op), lo.op, FactV(Truth(x)), ro.op, FactV(Truth(y)),
      start);
  }

  ghost predicate Operands(l: TVal, r: TVal, x: Val, y: Val, st: St, start: Start) {
    && Holds(l.op, x, st, start) && HasType(x, l.ty) && Numeric(l.ty)
    && Holds(r.op, y, st, start) && HasType(y, r.ty) && Numeric(r.ty)
  }

  lemma ArithYields(iop: IntOp, fop: RealOp, l: TVal, r: TVal, x: Val, y: Val, st: St, start: Start)
    requires Operands(l, r, x, y, st, start)
    ensures var out := EmitArith(iop, fop, l, r, st);
      && out.v.ty == (if l.ty == NUM && r.ty == NUM then NUM else SCL)
      && Yields(st, out.v.op, out.st, start, Mixed(iop, fop, x, y))
  {
    hide After, ToDouble, Yields, Emit;
    if l.ty == SCL || r.ty == SCL {
      var lo := ToDouble(l, st);
      var ro := ToDouble(r, lo.st);
      BothDouble(l, r, x, y, st, start);
      OnTop(st, ro.st, ro.op, SclV(AsReal(y)), RealBin(fop, lo.op, ro.op), lo.op, SclV(AsReal(x)), ro.op,
        SclV(AsReal(y)), start);
    } else {
      StayYields(st, r.op, start, y);
      OnTop(st, st, r.op, y, IntBin(iop, l.op, r.op), l.op, x, r.op, y, start);
    }
  }

  lemma CompareYields(c: Cmp, l: TVal, r: TVal, x: Val, y: Val, st: St, start: Start)
    requires Operands(l, r, x, y, st, start)
    ensures var out := EmitCompare(c, l, r, st);
      out.v.ty == FACT && Yields(st, out.v.op, out.st, start, Apply(CmpOp(c), x, y, start.pow))
  {
    hide After, ToDouble, Yields, Emit;
    if l.ty == SCL || r.ty == SCL {
      var lo := ToDouble(l, st);
      var ro := ToDouble(r, lo.st);
      BothDouble(l, r, x, y, st, start);
      OnTop(st, ro.st, ro.op, SclV(AsReal(y)), Fcmp(c, lo.op, ro.op), lo.op, SclV(AsReal(x)), ro.op, SclV(AsReal(y)),
        start);
    } else {
      StayYields(st, r.op, start, y);
      OnTop(st, st, r.op, y, Icmp(c, l.op, r.op), l.op, x, r.op, y, start);
    }
  }

  lemma DivYields(l: TVal, r: TVal, x: Val, y: Val, st: St, start: Start)
    requires Operands(l, r, x, y, st, start)
    ensures var out := EmitDiv(l, r, st);
      out.v.ty == SCL && Yields(st, out.v.op, out.st, start, Apply(DivOp, x, y, start.pow))
  {
    hide After, ToDouble, Yields, Emit;
    var lo := ToDouble(l, st);
    var ro := ToDouble(r, lo.st);
    BothDouble(l, r, x, y, st, start);
    OnTop(st, ro.st, ro.op, SclV(AsReal(y)), RealBin(FDiv, lo.op, ro.op), lo.op, SclV(AsReal(x)), ro.op,
      SclV(AsReal(y)), start);
  }

  lemma ModYields(l: TVal, r: TVal, x: Val, y: Val, st: St, start: Start)
    requires Operands(l, r, x, y, st, start) && l.ty == NUM && r.ty == NUM
    ensures var out := EmitMod(l, r, st);
      out.v.ty == NUM && Yields(st, out.v.op, out.st, start, Apply(ModOp, x, y, start.pow))
  {
    hide After, Yields, Emit;
    StayYields(st, r.op, start, y);
    OnTop(st, st, r.op, y, IntBin(ISrem, l.op, r.op), l.op, x, r.op, y, start);
  }

  lemma PowYields(l: TVal, r: TVal, x: Val, y: Val, st: St, start: Start)
    requires Operands(l, r, x, y, st, start)
    ensures var out := EmitPow(l, r, st);
      && out.v.ty == (if l.ty == NUM && r.ty == NUM then NUM else SCL)
      && Yields(st, out.v.op, out.st, start, Apply(PowOp, x, y, start.pow))
  {
    hide After, ToDouble, Yields, Emit;
    var lo := ToDouble(l, st);
    var ro := ToDouble(r, lo.st);
    BothDouble(l, r, x, y, st, start);
    OnTop(st, ro.st, ro.op, SclV(AsReal(y)), CallPow(lo.op, ro.op), lo.op, SclV(AsReal(x)), ro.op, SclV(AsReal(y)),
      start);
    if l.ty == NUM && r.ty == NUM {
      var out := Emit(ro.st, CallPow(lo.op, ro.op));
      var p := SclV(start.pow(AsReal(x), AsReal(y)));
      BackToInt(st, out.st, out.op, p, start);
    }
  }

  // fptosi after the call to pow.
  lemma BackToInt(st: St, st1: St, op: Operand, p: Val, start: Start)
    requires start.from <= |st.body| && After(st.body, start).Some? && p.SclV? && Yields(st, op, st1, start, Some(p))
    ensures Yields(st, Emit(st1, FpToSi(op)).op, Emit(st1, FpToSi(op)).st, start, ToInt(p.r))
  {
    hide After, Emit, ToInt;
    EmitYields(st1, FpToSi(op), start);
    YieldsThen(st, st1, Emit(st1, FpToSi(op)).st, op, Emit(st1, FpToSi(op)).op, start, p, ToInt(p.r));
  }

  lemma BinYields(op: Op, l: TVal, r: TVal, x: Val, y: Val, st: St, start: Start)
    requires Holds(l.op, x, st, start) && HasType(x, l.ty) && Holds(r.op, y, st, start) && HasType(y, r.ty)
    requires BinType(op, l.ty, r.ty).Some?
    ensures var out := EmitBin(op, l, r, st);
      Some(out.v.ty) == BinType(op, l.ty, r.ty) && Yields(st, out.v.op, out.st, start, Apply(op, x, y, start.pow))
  {
    hide After, Yields, Holds, EmitLogic, EmitArith, EmitCompare, EmitDiv, EmitMod, EmitPow, HasType;
    match op
    case OrOp => LogicYields(LOr, l, r, x, y, st, start);
    case AndOp => LogicYields(LAnd, l, r, x, y, st, start);
    case CmpOp(c) => CompareYields(c, l, r, x, y, st, start);
    case AddOp => ArithYields(IAdd, FAdd, l, r, x, y, st, start);
    case SubOp => ArithYields(ISub, FSub, l, r, x, y, st, start);
    case MulOp => ArithYields(IMul, FMul, l, r, x, y, st, start);
    case DivOp => DivYields(l, r, x, y, st, start);
    case ModOp => ModYields(l, r, x, y, st, start);
    case PowOp => PowYields(l, r, x, y, st, start);
  }

  lemma NotYields(v: TVal, x: Val, st: St, start: Start)
    requires Holds(v.op, x, st, start) && HasType(x, v.ty)
    ensures var out := EmitNot(v, st);
      out.v.ty == FACT && Yields(st, out.v.op, out.st, start, Some(FactV(!Truth(x))))
  {
    hide After, EnsureBool, Yields, Emit, HasType;
    var b := EnsureBool(v, st);
    EnsureBoolYields(v, x, st, start);
    NowHolds(st, b.st, b.op, FactV(Truth(x)), start);
    ConstHolds(b.st, b.op, FactV(Truth(x)), start);
    OnTop(st, b.st, b.op, FactV(Truth(x)), Logic(LXor, b.op, BoolC(true)), b.op, FactV(Truth(x)), BoolC(true),
      FactV(true), start);
  }

  lemma NegYields(v: TVal, x: Val, st: St, start: Start)
    requires Holds(v.op, x, st, start) && HasType(x, v.ty) && Numeric(v.ty)
    ensures var out := EmitNeg(v, st); out.v.ty == v.ty && Yields(st, out.v.op, out.st, start, Some(Minus1(x)))
  {
    hide After, Yields, Emit;
    EmitYields(st, if v.ty == SCL then FNeg(v.op) else IntBin(ISub, IntC(0), v.op), start);
  }

  // ── Whole trees ──

  // The variable's register points to a cell holding its value.
  ghost predicate Bound(info: Info, ty: Ty, x: Val, regs: Regs, cells: Cells) {
    && info.ty == ty && HasType(x, ty) && info.ptr in regs && regs[info.ptr].CellPtr?
    && var p := regs[info.ptr];
      (p.d, p.o) in cells && cells[(p.d, p.o)] == x
  }

  ghost predicate AllBound(types: Types, scope: Scope, vars: Vars, regs: Regs, cells: Cells) {
    forall x :: x in types ==> x in scope && x in vars && Bound(scope[x], types[x], vars[x], regs, cells)
  }

  ghost predicate ScopeBelow(types: Types, scope: Scope, n: nat) {
    forall x :: x in types && x in scope ==> scope[x].ptr < n
  }

  lemma StillBound(types: Types, scope: Scope, vars: Vars, regs: Regs, regs': Regs, cells: Cells, n: nat)
    requires AllBound(types, scope, vars, regs, cells) && ScopeBelow(types, scope, n) && Agree(regs, regs', n)
    ensures AllBound(types, scope, vars, regs', cells)
  {
  }

  ghost predicate ScopeTyped(types: Types, scope: Scope) {
    forall x :: x in types ==> x in scope && scope[x].ty == types[x]
  }

  // Well-typed emitting reports nothing and only adds lines and registers.
  ghost predicate Extends(st: St, st': St) {
    st.body <= st'.body && st.regs <= st'.regs && st'.errors == st.errors
  }

  lemma EmitBinTags(op: Op, l: TVal, r: TVal, st: St)
    requires BinType(op, l.ty, r.ty).Some?
    ensures var out := EmitBin(op, l, r, st); Some(out.v.ty) == BinType(op, l.ty, r.ty) && Extends(st, out.st)
  {
  }

  lemma EmitUnaryTags(v: TVal, st: St)
    ensures var out := EmitNot(v, st); out.v.ty == FACT && Extends(st, out.st)
    ensures var out := EmitNeg(v, st); out.v.ty == v.ty && Extends(st, out.st)
  {
  }

  // A well-typed tree compiles without an error to an operand of its type.
  lemma {:induction false} CompTags(e: Expr, types: Types, scope: Scope, st: St)
    requires Typed(e, types).Some? && ScopeTyped(types, scope)
    ensures var out := Comp(e, scope, st); Some(out.v.ty) == Typed(e, types) && Extends(st, out.st)
  {
    hide EmitBin, EmitNot, EmitNeg, BinType;
    match e
    case NotE(x) =>
      CompTags(x, types, scope, st);
      EmitUnaryTags(Comp(x, scope, st).v, Comp(x, scope, st).st);
    case Neg(x) =>
      CompTags(x, types, scope, st);
      EmitUnaryTags(Comp(x, scope, st).v, Comp(x, scope, st).st);
    case Bin(op, l, r) =>
      var lv := Comp(l, scope, st);
      CompTags(l, types, scope, st);
      CompTags(r, types, scope, lv.st);
      var rv := Comp(r, scope, lv.st);
      EmitBinTags(op, lv.v, rv.v, rv.st);
    case _ =>
  }

  // The code of a well-typed tree computes the tree's value and gives it the tree's type.
  lemma {:induction false} CompYields(e: Expr, types: Types, scope: Scope, vars: Vars, st: St, start: Start)
    requires Typed(e, types).Some? && start.from <= |st.body| && After(st.body, start).Some?
    requires AllBound(types, scope, vars, After(st.body, start).value, start.mem.cells)
    requires ScopeBelow(types, scope, st.regs)
    ensures var out := Comp(e, scope, st);
      Some(out.v.ty) == Typed(e, types) && Yields(st, out.v.op, out.st, start, Eval(e, vars, start.pow))
    decreases e
  {
    hide After, EmitBin, Apply;
    match e
    case IntLit(_) =>
    case RealLit(_) =>
    case BoolLit(_) =>
    case Var(x) => VarYields(x, types, scope, vars, st, start);
    case NotE(i) => NotTreeYields(i, types, scope, vars, st, start);
    case Neg(i) => NegTreeYields(i, types, scope, vars, st, start);
    case Bin(op, l, r) => BinTreeYields(op, l, r, types, scope, vars, st, start);
  }

  lemma VarYields(x: string, types: Types, scope: Scope, vars: Vars, st: St, start: Start)
    requires x in types && start.from <= |st.body| && After(st.body, start).Some?
    requires AllBound(types, scope, vars, After(st.body, start).value, start.mem.cells)
    ensures var out := Comp(Var(x), scope, st);
      out.v.ty == types[x] && Yields(st, out.v.op, out.st, start, Some(vars[x]))
  {
    hide After, Yields;
    EmitYields(st, Load(scope[x].ty, Reg(scope[x].ptr)), start);
    assert Bound(scope[x], types[x], vars[x], After(st.body, start).value, start.mem.cells);
  }

  lemma {:induction false} NotTreeYields(i: Expr, types: Types, scope: Scope, vars: Vars, st: St, start: Start)
    requires Typed(i, types).Some? && start.from <= |st.body| && After(st.body, start).Some?
    requires AllBound(types, scope, vars, After(st.body, start).value, start.mem.cells)
    requires ScopeBelow(types, scope, st.regs)
    ensures var out := Comp(NotE(i), scope, st);
      out.v.ty == FACT && Yields(st, out.v.op, out.st, start, Eval(NotE(i), vars, start.pow))
    decreases NotE(i), 0
  {
    hide After, EmitNot, AllBound, ScopeBelow, HasType;
    var inner := Comp(i, scope, st);
    CompYields(i, types, scope, vars, st, start);
    var x := Eval(i, vars, start.pow);
    BoundTyped(types, scope, vars, st, start);
    CompTags(i, types, scope, st);
    EmitUnaryTags(inner.v, inner.st);
    if x.Some? {
      EvalTyped(i, types, vars, start.pow);
      NowHolds(st, inner.st, inner.v.op, x.value, start);
      NotYields(inner.v, x.value, inner.st, start);
      YieldsThen(st, inner.st, EmitNot(inner.v, inner.st).st, inner.v.op, EmitNot(inner.v, inner.st).v.op, start,
        x.value, Some(FactV(!Truth(x.value))));
    } else {
      StuckStays(inner.st.body, EmitNot(inner.v, inner.st).st.body, start);
    }
  }

  lemma BoundTyped(types: Types, scope: Scope, vars: Vars, st: St, start: Start)
    requires start.from <= |st.body| && After(st.body, start).Some?
    requires AllBound(types, scope, vars, After(st.body, start).value, start.mem.cells)
    ensures VarsTyped(types, vars) && ScopeTyped(types, scope)
  {
  }

  lemma {:induction false} NegTreeYields(i: Expr, types: Types, scope: Scope, vars: Vars, st: St, start: Start)
    requires Typed(i, types).Some? && Numeric(Typed(i, types).value) && start.from <= |st.body|
    requires After(st.body, start).Some?
    requires AllBound(types, scope, vars, After(st.body, start).value, start.mem.cells)
    requires ScopeBelow(types, scope, st.regs)
    ensures var out := Comp(Neg(i), scope, st);
      Some(out.v.ty) == Typed(i, types) && Yields(st, out.v.op, out.st, start, Eval(Neg(i), vars, start.pow))
    decreases Neg(i), 0
  {
    hide After, EmitNeg, AllBound, ScopeBelow, HasType;
    var inner := Comp(i, scope, st);
    CompYields(i, types, scope, vars, st, start);
    var x := Eval(i, vars, start.pow);
    BoundTyped(types, scope, vars, st, start);
    CompTags(i, types, scope, st);
    EmitUnaryTags(inner.v, inner.st);
    if x.Some? {
      EvalTyped(i, types, vars, start.pow);
      NowHolds(st, inner.st, inner.v.op, x.value, start);
      NegYields(inner.v, x.value, inner.st, start);
      YieldsThen(st, inner.st, EmitNeg(inner.v, inner.st).st, inner.v.op, EmitNeg(inner.v, inner.st).v.op, start,
        x.value, Some(Minus1(x.value)));
    } else {
      StuckStays(inner.st.body, EmitNeg(inner.v, inner.st).st.body, start);
    }
  }

  lemma {:induction false} BinTreeYields(op: Op, l: Expr, r: Expr, types: Types, scope: Scope, vars: Vars, st: St,
                                         start: Start)
    requires Typed(Bin(op, l, r), types).Some? && start.from <= |st.body| && After(st.body, start).Some?
    requires AllBound(types, scope, vars, After(st.body, start).value, start.mem.cells)
    requires ScopeBelow(types, scope, st.regs)
    ensures var out := Comp(Bin(op, l, r), scope, st);
      Some(out.v.ty) == Typed(Bin(op, l, r), types)
        && Yields(st, out.v.op, out.st, start, Eval(Bin(op, l, r), vars, start.pow))
    decreases Bin(op, l, r), 0
  {
    hide After, EmitBin, HasType, BinType, Apply;
    var lv := Comp(l, scope, st);
    CompYields(l, types, scope, vars, st, start);
    var rv := Comp(r, scope, lv.st);
    var out := EmitBin(op, lv.v, rv.v, rv.st);
    var x, y := Eval(l, vars, start.pow), Eval(r, vars, start.pow);
    CompBin(Bin(op, l, r), scope, st);
    BoundTyped(types, scope, vars, st, start);
    CompTags(l, types, scope, st);
    CompTags(r, types, scope, lv.st);
    EmitBinTags(op, lv.v, rv.v, rv.st);
    if x.Some? {
      EvalTyped(l, types, vars, start.pow);
      StillBound(types, scope, vars, After(st.body, start).value, After(lv.st.body, start).value, start.mem.cells,
        st.regs);
      CompYields(r, types, scope, vars, lv.st, start);
      if y.Some? {
        EvalTyped(r, types, vars, start.pow);
        StillHolds(lv.v.op, x.value, lv.st, rv.st, rv.v.op, y.value, start);
        YieldsThen(st, lv.st, rv.st, lv.v.op, rv.v.op, start, x.value, y);
        BinYields(op, lv.v, rv.v, x.value, y.value, rv.st, start);
        YieldsThen(st, rv.st, out.st, rv.v.op, out.v.op, start, y.value, Apply(op, x.value, y.value, start.pow));
      } else {
        StuckStays(rv.st.body, out.st.body, start);
      }
    } else {
      StuckStays(lv.st.body, rv.st.body, start);
      StuckStays(rv.st.body, out.st.body, start);
    }
  }

  // ── Single assignment ──

  ghost function Uses(rhs: Rhs): seq<Operand> {
    match rhs
    case GepOffset(_) => []
    case Load(_, p) => [p]
    case IntBin(_, a, b) => [a, b]
    case RealBin(_, a, b) => [a, b]
    case Logic(_, a, b) => [a, b]
    case Icmp(_, a, b) => [a, b]
    case Fcmp(_, a, b) => [a, b]
    case CallPow(a, b) => [a, b]
    case _ => [rhs.a]
  }

  ghost predicate IsPointer(scope: Scope, n: nat) { exists x :: x in scope && scope[x].ptr == n }

  // A constant, a variable's address, or a register from lo on already defined before hi.
  ghost predicate UseOk(o: Operand, lo: nat, hi: nat, scope: Scope) {
    o.Reg? ==> lo <= o.n < hi || IsPointer(scope, o.n)
  }

  ghost predicate LineOk(line: Line, dst: nat, lo: nat, scope: Scope) {
    line.Ins? && line.dst == dst && forall k :: 0 <= k < |Uses(line.rhs)| ==> UseOk(Uses(line.rhs)[k], lo, dst, scope)
  }

  // The lines added define the registers added, each once and in order, before any use.
  ghost predicate Ssa(lo: nat, st: St, st': St, scope: Scope) {
    && st.body <= st'.body && st'.regs - st.regs == |st'.body| - |st.body|
    && forall i :: |st.body| <= i < |st'.body| ==> LineOk(st'.body[i], st.regs + (i - |st.body|), lo, scope)
  }

  lemma EmitSsa(lo: nat, st: St, st1: St, rhs: Rhs, scope: Scope)
    requires Ssa(lo, st, st1, scope) && lo <= st.regs
    requires forall k :: 0 <= k < |Uses(rhs)| ==> UseOk(Uses(rhs)[k], lo, st1.regs, scope)
    ensures var out := Emit(st1, rhs); Ssa(lo, st, out.st, scope) && UseOk(out.op, lo, out.st.regs, scope)
  {
  }

  lemma UseStays(o: Operand, lo: nat, st: St, st': St, scope: Scope)
    requires UseOk(o, lo, st.regs, scope) && st.regs <= st'.regs
    ensures UseOk(o, lo, st'.regs, scope)
  {
  }

  // A conversion prepared on top of st1.
  lemma ConvertSsa(v: TVal, lo: nat, st: St, st1: St, scope: Scope)
    requires Ssa(lo, st, st1, scope) && lo <= st.regs && UseOk(v.op, lo, st1.regs, scope)
    ensures var out := ToDouble(v, st1);
      Ssa(lo, st, out.st, scope) && UseOk(out.op, lo, out.st.regs, scope) && st1.regs <= out.st.regs
    ensures var out := EnsureBool(v, st1);
      Ssa(lo, st, out.st, scope) && UseOk(out.op, lo, out.st.regs, scope) && st1.regs <= out.st.regs
  {
    EmitSsa(lo, st, st1, SiToFp(v.op), scope);
    EmitSsa(lo, st, st1, Icmp(Ne, v.op, IntC(0)), scope);
    EmitSsa(lo, st, st1, Fcmp(Ne, v.op, RealC(0.0)), scope);
  }

  ghost predicate BothOk(l: Operand, r: Operand, lo: nat, st: St, st1: St, scope: Scope) {
    Ssa(lo, st, st1, scope) && lo <= st.regs && UseOk(l, lo, st1.regs, scope) && UseOk(r, lo, st1.regs, scope)
  }

  lemma ConvertBothSsa(l: TVal, r: TVal, lo: nat, st: St, st1: St, scope: Scope)
    requires BothOk(l.op, r.op, lo, st, st1, scope)
    ensures var a := ToDouble(l, st1); var b := ToDouble(r, a.st); BothOk(a.op, b.op, lo, st, b.st, scope)
    ensures var a := EnsureBool(l, st1); var b := EnsureBool(r, a.st); BothOk(a.op, b.op, lo, st, b.st, scope)
  {
    hide ToDouble, EnsureBool, Ssa;
    ConvertSsa(l, lo, st, st1, scope);
    var a := ToDouble(l, st1);
    UseStays(r.op, lo, st1, a.st, scope);
    ConvertSsa(r, lo, st, a.st, scope);
    UseStays(a.op, lo, a.st, ToDouble(r, a.st).st, scope);
    var c := EnsureBool(l, st1);
    UseStays(r.op, lo, st1, c.st, scope);
    ConvertSsa(r, lo, st, c.st, scope);
    UseStays(c.op, lo, c.st, EnsureBool(r, c.st).st, scope);
  }

  lemma TwoSsa(rhs: Rhs, l: Operand, r: Operand, lo: nat, st: St, st1: St, scope: Scope)
    requires BothOk(l, r, lo, st, st1, scope) && Uses(rhs) == [l, r]
    ensures var out := Emit(st1, rhs); Ssa(lo, st, out.st, scope) && UseOk(out.op, lo, out.st.regs, scope)
  {
    hide Ssa;
    EmitSsa(lo, st, st1, rhs, scope);
  }

  lemma EmitBinSsa(op: Op, l: TVal, r: TVal, lo: nat, st: St, st1: St, scope: Scope)
    requires BothOk(l.op, r.op, lo, st, st1, scope)
    ensures var out := EmitBin(op, l, r, st1); Ssa(lo, st, out.st, scope) && UseOk(out.v.op, lo, out.st.regs, scope)
  {
    hide Emit, ToDouble, EnsureBool, Ssa;
    ConvertBothSsa(l, r, lo, st, st1, scope);
    match op
    case OrOp => LogicSsa(LOr, l, r, lo, st, st1, scope);
    case AndOp => LogicSsa(LAnd, l, r, lo, st, st1, scope);
    case CmpOp(c) => PromoteSsa(c, IAdd, FAdd, l, r, lo, st, st1, scope);
    case AddOp => PromoteSsa(Eq, IAdd, FAdd, l, r, lo, st, st1, scope);
    case SubOp => PromoteSsa(Eq, ISub, FSub, l, r, lo, st, st1, scope);
    case MulOp => PromoteSsa(Eq, IMul, FMul, l, r, lo, st, st1, scope);
    case DivOp =>
      var a := ToDouble(l, st1);
      var b := ToDouble(r, a.st);
      TwoSsa(RealBin(FDiv, a.op, b.op), a.op, b.op, lo, st, b.st, scope);
    case ModOp => ModSsa(l, r, lo, st, st1, scope);
    case PowOp =>
      var a := ToDouble(l, st1);
      var b := ToDouble(r, a.st);
      TwoSsa(CallPow(a.op, b.op), a.op, b.op, lo, st, b.st, scope);
      var out := Emit(b.st, CallPow(a.op, b.op));
      EmitSsa(lo, st, out.st, FpToSi(out.op), scope);
  }

  lemma LogicSsa(lop: LogicOp, l: TVal, r: TVal, lo: nat, st: St, st1: St, scope: Scope)
    requires BothOk(l.op, r.op, lo, st, st1, scope)
    ensures var out := EmitLogic(lop, l, r, st1); Ssa(lo, st, out.st, scope) && UseOk(out.v.op, lo, out.st.regs, scope)
  {
    hide Emit, EnsureBool, Ssa;
    ConvertBothSsa(l, r, lo, st, st1, scope);
    var a := EnsureBool(l, st1);
    var b := EnsureBool(r, a.st);
    TwoSsa(Logic(lop, a.op, b.op), a.op, b.op, lo, st, b.st, scope);
  }

  lemma PromoteSsa(c: Cmp, iop: IntOp, fop: RealOp, l: TVal, r: TVal, lo: nat, st: St, st1: St, scope: Scope)
    requires BothOk(l.op, r.op, lo, st, st1, scope)
    ensures var out := EmitArith(iop, fop, l, r, st1);
      Ssa(lo, st, out.st, scope) && UseOk(out.v.op, lo, out.st.regs, scope)
    ensures var out := EmitCompare(c, l, r, st1); Ssa(lo, st, out.st, scope) && UseOk(out.v.op, lo, out.st.regs, scope)
  {
    hide Emit, ToDouble, Ssa;
    ConvertBothSsa(l, r, lo, st, st1, scope);
    if l.ty == SCL || r.ty == SCL {
      var a := ToDouble(l, st1);
      var b := ToDouble(r, a.st);
      TwoSsa(RealBin(fop, a.op, b.op), a.op, b.op, lo, st, b.st, scope);
      TwoSsa(Fcmp(c, a.op, b.op), a.op, b.op, lo, st, b.st, scope);
    } else {
      TwoSsa(IntBin(iop, l.op, r.op), l.op, r.op, lo, st, st1, scope);
      TwoSsa(Icmp(c, l.op, r.op), l.op, r.op, lo, st, st1, scope);
    }
  }

  lemma ModSsa(l: TVal, r: TVal, lo: nat, st: St, st1: St, scope: Scope)
    requires BothOk(l.op, r.op, lo, st, st1, scope)
    ensures var out := EmitMod(l, r, st1); Ssa(lo, st, out.st, scope) && UseOk(out.v.op, lo, out.st.regs, scope)
  {
    var st2 := if l.ty != NUM || r.ty != NUM then Fail(st1, PercentNeedsNum) else st1;
    assert BothOk(l.op, r.op, lo, st, st2, scope);
    if l.ty != NUM {
      EmitSsa(lo, st, st2, SiToFp(l.op), scope);
      var st3 := Emit(st2, SiToFp(l.op)).st;
      assert BothOk(l.op, r.op, lo, st, st3, scope);
      TwoSsa(IntBin(ISrem, l.op, r.op), l.op, r.op, lo, st, st3, scope);
    } else {
      TwoSsa(IntBin(ISrem, l.op, r.op), l.op, r.op, lo, st, st2, scope);
    }
  }

  // Every compiled expression, malformed ones included, is straight-line code in
  // which the new registers are defined once, in order, before they are used.
  lemma {:induction false} CompSsa(e: Expr, scope: Scope, lo: nat, st: St, st1: St)
    requires Ssa(lo, st, st1, scope) && lo <= st.regs
    ensures var out := Comp(e, scope, st1);
      Ssa(lo, st, out.st, scope) && UseOk(out.v.op, lo, out.st.regs, scope) && st1.regs <= out.st.regs
    decreases e
  {
    hide EmitBin, Ssa, Emit;
    match e
    case IntLit(_) =>
    case RealLit(_) =>
    case BoolLit(_) =>
    case Var(x) =>
      if x in scope {
        EmitSsa(lo, st, st1, Load(scope[x].ty, Reg(scope[x].ptr)), scope);
        EmitRegs(st1, Load(scope[x].ty, Reg(scope[x].ptr)));
      }
      else { FailSsa(lo, st, st1, Undeclared(x), scope); }
    case NotE(i) =>
      CompSsa(i, scope, lo, st, st1);
      NotSsa(Comp(i, scope, st1).v, lo, st, Comp(i, scope, st1).st, scope);
    case Neg(i) =>
      CompSsa(i, scope, lo, st, st1);
      NegSsa(Comp(i, scope, st1).v, lo, st, Comp(i, scope, st1).st, scope);
    case Bin(op, l, r) =>
      var lv := Comp(l, scope, st1);
      CompSsa(l, scope, lo, st, st1);
      CompSsa(r, scope, lo, st, lv.st);
      var rv := Comp(r, scope, lv.st);
      UseStays(lv.v.op, lo, lv.st, rv.st, scope);
      EmitBinSsa(op, lv.v, rv.v, lo, st, rv.st, scope);
      EmitBinRegs(op, lv.v, rv.v, rv.st);
    case Missing => FailSsa(lo, st, st1, UnexpectedEnd, scope);
    case Unexpected(t) => FailSsa(lo, st, st1, UnexpectedToken(t), scope);
    case Unclosed(i) =>
      CompSsa(i, scope, lo, st, st1);
      FailSsa(lo, st, Comp(i, scope, st1).st, MissingParen, scope);
  }

  lemma FailSsa(lo: nat, st: St, st1: St, e: Error, scope: Scope)
    requires Ssa(lo, st, st1, scope)
    ensures Ssa(lo, st, Fail(st1, e), scope)
  {
  }

  lemma EmitRegs(st: St, rhs: Rhs)
    ensures Emit(st, rhs).st.regs == st.regs + 1
  {
  }

  lemma EmitBinRegs(op: Op, l: TVal, r: TVal, st: St)
    ensures st.regs <= EmitBin(op, l, r, st).st.regs
  {
  }

  lemma NotSsa(v: TVal, lo: nat, st: St, st1: St, scope: Scope)
    requires Ssa(lo, st, st1, scope) && lo <= st.regs && UseOk(v.op, lo, st1.regs, scope)
    ensures var out := EmitNot(v, st1);
      Ssa(lo, st, out.st, scope) && UseOk(out.v.op, lo, out.st.regs, scope) && st1.regs <= out.st.regs
  {
    hide Ssa, EnsureBool;
    ConvertSsa(v, lo, st, st1, scope);
    var b := EnsureBool(v, st1);
    EmitSsa(lo, st, b.st, Logic(LXor, b.op, BoolC(true)), scope);
  }

  lemma NegSsa(v: TVal, lo: nat, st: St, st1: St, scope: Scope)
    requires Ssa(lo, st, st1, scope) && lo <= st.regs && UseOk(v.op, lo, st1.regs, scope)
    ensures var out := EmitNeg(v, st1);
      Ssa(lo, st, out.st, scope) && UseOk(out.v.op, lo, out.st.regs, scope) && st1.regs <= out.st.regs
  {
    hide Ssa;
    EmitSsa(lo, st, st1, if v.ty == SCL then FNeg(v.op) else IntBin(ISub, IntC(0), v.op), scope);
  }

  // ── The compiler as a whole ──

  // Whatever tokens a well-typed tree is rendered to, all of them are consumed, no
  // error is reported, the lines added are in SSA form, and running them from any
  // registers and memory that hold the variables leaves the tree's value in the
  // result operand, tagged with the tree's type; they get stuck only if it has none.
  lemma CompiledExpression(e: Expr, types: Types, scope: Scope, vars: Vars, st: St, regs: Regs, mem: Mem, pow: Power)
    requires Clean(e) && Typed(e, types).Some?
    requires AllBound(types, scope, vars, regs, mem.cells) && ScopeBelow(types, scope, st.regs)
    ensures var tokens := Render(e, OR_LEVEL);
      var read := Parse(OR_LEVEL, tokens, 0);
      var out := Comp(read.e, scope, st);
      var regs' := After(out.st.body, Start(|st.body|, regs, mem, pow));
      && read.pos == |tokens| && out.st.errors == st.errors && Some(out.v.ty) == Typed(e, types)
      && Ssa(st.regs, st, out.st, scope)
      && (Eval(e, vars, pow).None? ==> regs'.None?)
      && (Eval(e, vars, pow).Some? ==> regs'.Some? && OpVal(out.v.op, regs'.value) == Eval(e, vars, pow))
  {
    hide Comp, Typed, Eval, Render, Parse, Ssa, Clean, AllBound, ScopeBelow;
    var start := Start(|st.body|, regs, mem, pow);
    assert After(st.body, start) == Some(regs);
    ReadsBack(e);
    CompYields(e, types, scope, vars, st, start);
    assert Ssa(st.regs, st, st, scope) by { SsaEmpty(st, scope); }
    CompSsa(e, scope, st.regs, st, st);
  }

  lemma SsaEmpty(st: St, scope: Scope)
    ensures Ssa(st.regs, st, st, scope)
  {
  }

  // Well-typed trees are free of the parser's placeholders.
  lemma {:induction false} TypedClean(e: Expr, types: Types)
    requires Typed(e, types).Some?
    ensures Clean(e)
  {
    match e
    case NotE(x) => TypedClean(x, types);
    case Neg(x) => TypedClean(x, types);
    case Bin(_, l, r) => TypedClean(l, types); TypedClean(r, types);
    case _ =>
  }
}
