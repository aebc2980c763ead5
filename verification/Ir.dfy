// The flat code the generator emits, as a machine: numbered registers, labelled
// lines, and the depth arenas the variables live in.
module Ir {
  import opened Options
  import opened ExprSyntax

  datatype Ty = NUM | SCL | FACT

  // CellPtr points into @arena_memory, OffPtr at one entry of @arena_offsets.
  datatype Val = NumV(i: int) | SclV(r: real) | FactV(b: bool) | CellPtr(d: nat, o: int) | OffPtr(d: nat)

  datatype Operand = Reg(n: nat) | IntC(i: int) | RealC(r: real) | BoolC(b: bool)

  datatype IntOp = IAdd | ISub | IMul | ISrem
  datatype RealOp = FAdd | FSub | FMul | FDiv
  datatype LogicOp = LAnd | LOr | LXor

  datatype Rhs =
    | Load(ty: Ty, p: Operand)
    | SiToFp(a: Operand) | FpToSi(a: Operand) | Zext(a: Operand) | Trunc(a: Operand)
    | IntBin(iop: IntOp, a: Operand, b: Operand)
    | RealBin(fop: RealOp, a: Operand, b: Operand)
    | FNeg(a: Operand)
    | Logic(lop: LogicOp, a: Operand, b: Operand)
    | Icmp(c: Cmp, a: Operand, b: Operand)
    | Fcmp(c: Cmp, a: Operand, b: Operand)
    | CallPow(a: Operand, b: Operand)
    | GepOffset(depth: nat)
    | GepMemory(depth: nat, a: Operand)
    | Bitcast(a: Operand)

  datatype Label = Label(prefix: string, n: nat)

  datatype Line =
    | Ins(dst: nat, rhs: Rhs)
    | Store(ty: Ty, v: Operand, p: Operand)
    | Br(l: Label)
    | CondBr(c: Operand, yes: Label, no: Label)
    | LabelLine(l: Label)

  const DEPTHS := 64
  const ARENA := 65536

  type Cells = map<(nat, int), Val>
  type Regs = map<nat, Val>

  // Arena contents and the offset of each depth.
  datatype Mem = Mem(cells: Cells, offs: seq<int>)

  type Power = (real, real) -> real

  function SizeOf(ty: Ty): nat { if ty == FACT then 1 else 8 }

  ghost predicate HasType(v: Val, ty: Ty) {
    match ty
    case NUM => v.NumV?
    case SCL => v.SclV?
    case FACT => v.FactV?
  }

  const MIN64 := -0x8000_0000_0000_0000
  const MAX64 := 0x7FFF_FFFF_FFFF_FFFF

  ghost predicate InRange(i: int) { MIN64 <= i <= MAX64 }

  // Two's complement wrap-around to 64 bits.
  function Wrap(i: int): (r: int)
    ensures InRange(r) && (InRange(i) ==> r == i)
  {
    (i - MIN64) % 0x1_0000_0000_0000_0000 + MIN64
  }

  // fptosi: toward zero; undefined out of range.
  function Truncate(r: real): int { if r >= 0.0 then r.Floor else -((-r).Floor) }

  ghost function ToInt(r: real): Option<Val> {
    if InRange(Truncate(r)) then Some(NumV(Truncate(r))) else None
  }

  // The remainder takes the dividend's sign; undefined for a zero divisor and on overflow.
  function Srem(a: int, b: int): (r: Option<int>)
  {
    if b == 0 || (a == MIN64 && b == -1) then None
    else
      var m := (if a >= 0 then a else -a) % (if b >= 0 then b else -b);
      Some(if a >= 0 then m else -m)
  }

  function CompareInt(c: Cmp, a: int, b: int): bool {
    match c
    case Eq => a == b
    case Ne => a != b
    case Gt => a > b
    case Lt => a < b
    case Ge => a >= b
    case Le => a <= b
  }

  function CompareReal(c: Cmp, a: real, b: real): bool {
    match c
    case Eq => a == b
    case Ne => a != b
    case Gt => a > b
    case Lt => a < b
    case Ge => a >= b
    case Le => a <= b
  }

  ghost function OpVal(o: Operand, regs: Regs): Option<Val> {
    match o
    case Reg(n) => if n in regs then Some(regs[n]) else None
    case IntC(i) => if InRange(i) then Some(NumV(i)) else None
    case RealC(r) => Some(SclV(r))
    case BoolC(b) => Some(FactV(b))
  }

  ghost function IntVal(iop: IntOp, a: int, b: int): Option<Val> {
    match iop
    case IAdd => Some(NumV(Wrap(a + b)))
    case ISub => Some(NumV(Wrap(a - b)))
    case IMul => Some(NumV(Wrap(a * b)))
    case ISrem => if Srem(a, b).Some? then Some(NumV(Srem(a, b).value)) else None
  }

  // Division by zero has no value here.
  ghost function RealVal(fop: RealOp, a: real, b: real): Option<Val> {
    match fop
    case FAdd => Some(SclV(a + b))
    case FSub => Some(SclV(a - b))
    case FMul => Some(SclV(a * b))
    case FDiv => if b == 0.0 then None else Some(SclV(a / b))
  }

  function LogicVal(lop: LogicOp, a: bool, b: bool): bool {
    match lop
    case LAnd => a && b
    case LOr => a || b
    case LXor => a != b
  }

  ghost function LoadVal(ty: Ty, p: Val, mem: Mem): Option<Val> {
    if p.OffPtr? then
      if ty == NUM && p.d < |mem.offs| then Some(NumV(mem.offs[p.d])) else None
    else if p.CellPtr? then
      if (p.d, p.o) in mem.cells && HasType(mem.cells[(p.d, p.o)], ty) then Some(mem.cells[(p.d, p.o)]) else None
    else None
  }

  ghost function Convert(rhs: Rhs, v: Val): Option<Val>
    requires rhs.SiToFp? || rhs.FpToSi? || rhs.Zext? || rhs.Trunc? || rhs.FNeg? || rhs.Bitcast?
  {
    match rhs
    case SiToFp(_) => if v.NumV? then Some(SclV(v.i as real)) else None
    case FpToSi(_) => if v.SclV? then ToInt(v.r) else None
    case Zext(_) => if v.FactV? then Some(NumV(if v.b then 1 else 0)) else None
    case Trunc(_) => if v.NumV? then Some(FactV(v.i % 2 == 1)) else None
    case FNeg(_) => if v.SclV? then Some(SclV(-v.r)) else None
    case Bitcast(_) => if v.CellPtr? then Some(v) else None
  }

  ghost function Combine(rhs: Rhs, x: Val, y: Val, pow: Power): Option<Val>
    requires rhs.IntBin? || rhs.RealBin? || rhs.Logic? || rhs.Icmp? || rhs.Fcmp? || rhs.CallPow?
  {
    match rhs
    case IntBin(iop, _, _) => if x.NumV? && y.NumV? then IntVal(iop, x.i, y.i) else None
    case RealBin(fop, _, _) => if x.SclV? && y.SclV? then RealVal(fop, x.r, y.r) else None
    case Logic(lop, _, _) => if x.FactV? && y.FactV? then Some(FactV(LogicVal(lop, x.b, y.b))) else None
    case Icmp(c, _, _) => if x.NumV? && y.NumV? then Some(FactV(CompareInt(c, x.i, y.i))) else None
    case Fcmp(c, _, _) => if x.SclV? && y.SclV? then Some(FactV(CompareReal(c, x.r, y.r))) else None
    case CallPow(_, _) => if x.SclV? && y.SclV? then Some(SclV(pow(x.r, y.r))) else None
  }

  ghost function RhsVal(rhs: Rhs, regs: Regs, mem: Mem, pow: Power): Option<Val> {
    if rhs.GepOffset? then
      if rhs.depth < DEPTHS then Some(OffPtr(rhs.depth)) else None
    else
      var x := OpVal(if rhs.Load? then rhs.p else rhs.a, regs);
      if x.None? then None
      else if rhs.Load? then LoadVal(rhs.ty, x.value, mem)
      else if rhs.GepMemory? then
        if rhs.depth < DEPTHS && x.value.NumV? then Some(CellPtr(rhs.depth, x.value.i)) else None
      else if rhs.SiToFp? || rhs.FpToSi? || rhs.Zext? || rhs.Trunc? || rhs.FNeg? || rhs.Bitcast? then
        Convert(rhs, x.value)
      else
        var y := OpVal(rhs.b, regs);
        if y.None? then None else Combine(rhs, x.value, y.value, pow)
  }

  // ── Straight-line code ──

  // Where a stretch of straight-line code starts.
  datatype Start = Start(from: nat, regs: Regs, mem: Mem, pow: Power)

  // The registers after the lines from start.from on; None when a line has no value.
  ghost function After(body: seq<Line>, start: Start): Option<Regs>
    decreases |body|
  {
    if |body| <= start.from then Some(start.regs)
    else
      var before := After(body[..|body| - 1], start);
      var line := body[|body| - 1];
      if before.None? || !line.Ins? then None
      else
        var v := RhsVal(line.rhs, before.value, start.mem, start.pow);
        if v.None? then None else Some(before.value[line.dst := v.value])
  }
}
