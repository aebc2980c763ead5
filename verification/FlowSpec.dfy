// IF, CYCLE, SEASON, CREATE, SET, INCREASE and DECREASE: what they mean, and the
// labelled code emitted for them as a function of the module's state.
module FlowSpec {
  import opened Options
  import opened ExprSyntax
  import opened Ir
  import opened ExprSpec
  import opened ExprProof

  // Statements carry the depth written before them; bodies are lists.
  datatype Stmt =
    | Create(depth: nat, x: string, ty: Ty, e: seq<Token>)
    | Set(depth: nat, x: string, e: seq<Token>)
    | IncDec(depth: nat, x: string, plus: bool, e: seq<Token>)
    | If(depth: nat, arms: Arms)
    | Cycle(depth: nat, x: string, from: seq<Token>, to: seq<Token>, step: Option<seq<Token>>, body: Block)
    | Season(depth: nat, cond: seq<Token>, body: Block)
  datatype Block = Nil | Cons(head: Stmt, tail: Block)
  datatype Arms = NoArm | Arm(cond: Option<seq<Token>>, body: Block, rest: Arms)

  function Tree(tokens: seq<Token>): Expr { Parse(OR_LEVEL, tokens, 0).e }

  function CountArms(arms: Arms): nat { if arms.NoArm? then 0 else 1 + CountArms(arms.rest) }

  // ── Meaning ──

  // The variables, and how much of each depth's arena is in use.
  datatype World = World(vars: Vars, offs: seq<int>)

  ghost function CoerceVal(v: Val, ty: Ty): Option<Val> {
    if HasType(v, ty) then Some(v)
    else if ty == SCL && v.NumV? then Some(SclV(v.i as real))
    else if ty == NUM && v.SclV? then ToInt(v.r)
    else if ty == NUM && v.FactV? then Some(NumV(if v.b then 1 else 0))
    else if ty == FACT && v.NumV? then Some(FactV(v.i % 2 == 1))
    else None
  }

  ghost function TypeOf(v: Val): Ty { if v.NumV? then NUM else if v.SclV? then SCL else FACT }

  // The value of the tokens, converted to the type.
  ghost function EvalAs(tokens: seq<Token>, ty: Ty, vars: Vars, pow: Power): Option<Val> {
    var v := Eval(Tree(tokens), vars, pow);
    if v.None? then None else CoerceVal(v.value, ty)
  }

  // Depths hi down to lo + 1 are emptied.
  function Reset(offs: seq<int>, hi: nat, lo: nat): (r: seq<int>)
    ensures |r| == |offs|
    decreases hi
  {
    if hi <= lo then offs else Reset(if hi < |offs| then offs[hi := 0] else offs, hi - 1, lo)
  }

  // Room for one more variable, if it fits its arena.
  function Allocate(offs: seq<int>, d: nat, ty: Ty): Option<seq<int>> {
    if d < |offs| && offs[d] + SizeOf(ty) <= ARENA then Some(offs[d := offs[d] + SizeOf(ty)]) else None
  }

  // The depth the generator is at after a statement.
  function DepthAfter(s: Stmt): nat
    decreases s
  {
    if s.If? then DepthAfterArms(s.arms, s.depth) else s.depth
  }

  function DepthAfterBlock(b: Block, cur: nat): nat
    decreases b
  {
    if b.Nil? then cur else DepthAfterBlock(b.tail, DepthAfter(b.head))
  }

  function DepthAfterArms(arms: Arms, cur: nat): nat
    decreases arms
  {
    if arms.NoArm? then cur else DepthAfterArms(arms.rest, DepthAfterBlock(arms.body, cur))
  }

  // A run within fuel loop iterations; None when it needs more, when an expression
  // has no value, or when a variable does not fit its arena.
  ghost function RunBlock(b: Block, cur: nat, s: World, fuel: nat, pow: Power): Option<World>
    decreases fuel, b, 0
  {
    if b.Nil? then Some(s)
    else
      var r := RunStmt(b.head, cur, s, fuel, pow);
      if r.None? then None else RunBlock(b.tail, DepthAfter(b.head), r.value, fuel, pow)
  }

  ghost function RunStmt(s: Stmt, cur: nat, before: World, fuel: nat, pow: Power): Option<World>
    decreases fuel, s, 1
  {
    var s0 := before.(offs := Reset(before.offs, cur, s.depth));
    match s
    case Create(d, x, ty, e) =>
      var offs := Allocate(s0.offs, d, ty);
      var v := EvalAs(e, ty, s0.vars, pow);
      if offs.Some? && v.Some? then Some(World(s0.vars[x := v.value], offs.value)) else None
    case Set(_, x, e) =>
      if x !in s0.vars then None
      else
        var v := EvalAs(e, TypeOf(s0.vars[x]), s0.vars, pow);
        if v.Some? then Some(s0.(vars := s0.vars[x := v.value])) else None
    case IncDec(_, x, plus, e) =>
      if x !in s0.vars then None
      else
        var v := EvalAs(e, TypeOf(s0.vars[x]), s0.vars, pow);
        if v.None? then None
        else
          var w := Mixed(if plus then IAdd else ISub, if plus then FAdd else FSub, s0.vars[x], v.value);
          if w.Some? then Some(s0.(vars := s0.vars[x := w.value])) else None
    case If(d, arms) => RunArms(arms, d, s0, fuel, pow)
    case Cycle(d, x, from, to, step, body) =>
      var f := EvalAs(from, NUM, s0.vars, pow);
      var t := Eval(Tree(to), s0.vars, pow);
      var k := if step.Some? then Eval(Tree(step.value), s0.vars, pow) else Some(NumV(1));
      var offs := Allocate(s0.offs, d, NUM);
      if f.Some? && t.Some? && k.Some? && offs.Some? then
        RunCycle(s, t.value, k.value, World(s0.vars[x := f.value], offs.value), fuel, pow)
      else None
    case Season(_, _, _) => RunSeason(s, s0, fuel, pow)
  }

  // The first arm whose condition holds, or that has none.
  ghost function RunArms(arms: Arms, cur: nat, s: World, fuel: nat, pow: Power): Option<World>
    decreases fuel, arms, 0
  {
    if arms.NoArm? then Some(s)
    else if arms.cond.None? then RunBlock(arms.body, cur, s, fuel, pow)
    else
      var c := Eval(Tree(arms.cond.value), s.vars, pow);
      if c.None? then None
      else if Truth(c.value) then RunBlock(arms.body, cur, s, fuel, pow)
      else RunArms(arms.rest, DepthAfterBlock(arms.body, cur), s, fuel, pow)
  }

  // One pass through a loop's body: what it allocated is given back.
  ghost function Tick(body: Block, d: nat, s: World, fuel: nat, pow: Power): Option<World>
    decreases fuel, body, 1
  {
    var r := RunBlock(body, d, s, fuel, pow);
    if r.None? || d >= |s.offs| || |r.value.offs| != |s.offs| then None
    else Some(r.value.(offs := Reset(r.value.offs, DepthAfterBlock(body, d), d)[d := s.offs[d]]))
  }

  // The bound and the step were computed before the first pass.
  ghost function RunCycle(c: Stmt, to: Val, step: Val, s: World, fuel: nat, pow: Power): Option<World>
    requires c.Cycle?
    decreases fuel, c, 0
  {
    var t := CoerceVal(to, NUM);
    if fuel == 0 || c.x !in s.vars || !s.vars[c.x].NumV? || t.None? then None
    else if s.vars[c.x].i > t.value.i then Some(s)
    else
      var r := Tick(c.body, c.depth, s, fuel - 1, pow);
      var k := CoerceVal(step, NUM);
      if r.None? || k.None? || c.x !in r.value.vars || !r.value.vars[c.x].NumV? then None
      else
        var next := NumV(Wrap(r.value.vars[c.x].i + k.value.i));
        RunCycle(c, to, step, r.value.(vars := r.value.vars[c.x := next]), fuel - 1, pow)
  }

  ghost function RunSeason(c: Stmt, s: World, fuel: nat, pow: Power): Option<World>
    requires c.Season?
    decreases fuel, c, 0
  {
    var t := Eval(Tree(c.cond), s.vars, pow);
    if fuel == 0 || t.None? then None
    else if !Truth(t.value) then Some(s)
    else
      var r := Tick(c.body, c.depth, s, fuel - 1, pow);
      if r.None? then None else RunSeason(c, r.value, fuel - 1, pow)
  }

  // ── Emitted code ──

  // What generating a statement changes in the module.
  datatype Gen = Gen(st: St, scope: Scope, blocks: nat, depth: nat)

  function Line1(st: St, line: Line): St { st.(body := st.body + [line]) }

  // A register reserved now whose line is emitted later.
  function Reserve(st: St): St { st.(regs := st.regs + 1) }

  function GenReset(st: St, hi: nat, lo: nat): St
    decreases hi
  {
    if hi <= lo then st
    else
      var p := Emit(st, GepOffset(hi));
      GenReset(Line1(p.st, Store(NUM, IntC(0), p.op)), hi - 1, lo)
  }

  // The pointer to a depth's offset, in the register st.regs, and the offset after it.
  function ReadOffset(st: St, d: nat): Out {
    var p := Emit(st, GepOffset(d));
    Emit(p.st, Load(NUM, p.op))
  }

  function GenAlloc(st: St, ty: Ty, d: nat): Out {
    var o := ReadOffset(st, d);
    var n := Emit(o.st, IntBin(IAdd, o.op, IntC(SizeOf(ty))));
    var b := Emit(Line1(n.st, Store(NUM, n.op, Reg(st.regs))), GepMemory(d, o.op));
    Emit(b.st, Bitcast(b.op))
  }

  // coerce: conversions between NUM and SCL, and NUM and FACT; anything else is an error.
  function CoerceTo(v: TVal, ty: Ty, st: St): Out {
    if v.ty == ty then Out(v.op, st)
    else if ty == SCL && v.ty == NUM then Emit(st, SiToFp(v.op))
    else if ty == NUM && v.ty == SCL then Emit(st, FpToSi(v.op))
    else if ty == NUM && v.ty == FACT then Emit(st, Zext(v.op))
    else if ty == FACT && v.ty == NUM then Emit(st, Trunc(v.op))
    else Out(IntC(0), Fail(st, TypeMismatch(ty, v.ty)))
  }

  function CompileCond(tokens: seq<Token>, scope: Scope, st: St): Out {
    var v := Comp(Tree(tokens), scope, st);
    EnsureBool(v.v, v.st)
  }

  function Track(d: nat, g: Gen): Gen {
    g.(st := GenReset(g.st, g.depth, d), depth := d)
  }

  function GenCreate(s: Stmt, g: Gen): Gen
    requires s.Create?
  {
    var p := GenAlloc(g.st, s.ty, s.depth);
    var v := Comp(Tree(s.e), g.scope, p.st);
    var c := CoerceTo(v.v, s.ty, v.st);
    g.(st := Line1(c.st, Store(s.ty, c.op, p.op)), scope := g.scope[s.x := Info(p.op.n, s.ty)])
  }

  function GenSet(s: Stmt, g: Gen): Gen
    requires s.Set?
  {
    if s.x !in g.scope then g.(st := Fail(g.st, NotCreated(s.x)))
    else
      var info := g.scope[s.x];
      var v := Comp(Tree(s.e), g.scope, g.st);
      var c := CoerceTo(v.v, info.ty, v.st);
      g.(st := Line1(c.st, Store(info.ty, c.op, Reg(info.ptr))))
  }

  function GenIncDec(s: Stmt, g: Gen): Gen
    requires s.IncDec?
  {
    if s.x !in g.scope then g.(st := Fail(g.st, NotCreated(s.x)))
    else if g.scope[s.x].ty == FACT then g.(st := Fail(g.st, NotNumeric(s.x)))
    else
      var info := g.scope[s.x];
      var cur := Emit(g.st, Load(info.ty, Reg(info.ptr)));
      var v := Comp(Tree(s.e), g.scope, cur.st);
      var c := CoerceTo(v.v, info.ty, v.st);
      var r := Emit(c.st, if info.ty == SCL then RealBin(if s.plus then FAdd else FSub, cur.op, c.op)
                          else IntBin(if s.plus then IAdd else ISub, cur.op, c.op));
      g.(st := Line1(r.st, Store(info.ty, r.op, Reg(info.ptr))))
  }

  // Labels of an IF with k arms whose first label number is b.
  function EndL(b: nat): Label { Label("if.end", b) }
  function ThenL(b: nat, i: nat): Label { Label("if.then", b + 1 + i) }
  function CondL(b: nat, k: nat, i: nat): Label { if i < k then Label("if.cond", b + 1 + k + i) else EndL(b) }

  function GenStmt(s: Stmt, g: Gen): Gen
    decreases s, 1
  {
    var g0 := Track(s.depth, g);
    match s
    case Create(_, _, _, _) => GenCreate(s, g0)
    case Set(_, _, _) => GenSet(s, g0)
    case IncDec(_, _, _, _) => GenIncDec(s, g0)
    case If(_, arms) =>
      var b, k := g0.blocks, CountArms(arms);
      var g1 := g0.(st := Line1(g0.st, Br(CondL(b, k, 0))), blocks := b + 1 + k + k);
      var g2 := GenArms(arms, 0, b, k, g1);
      g2.(st := Line1(g2.st, LabelLine(EndL(b))))
    case Cycle(_, _, _, _, _, _) => GenCycle(s, g0)
    case Season(_, _, _) => GenSeason(s, g0)
  }

  function GenBlock(b: Block, g: Gen): Gen
    decreases b, 0
  {
    if b.Nil? then g else GenBlock(b.tail, GenStmt(b.head, g))
  }

  // The head of arm i: its condition, and the branch it decides.
  function ArmHead(arms: Arms, i: nat, b: nat, k: nat, g: Gen): St
    requires arms.Arm?
  {
    var st := Line1(g.st, LabelLine(CondL(b, k, i)));
    if arms.cond.None? then Line1(Line1(st, Br(ThenL(b, i))), LabelLine(ThenL(b, i)))
    else
      var c := CompileCond(arms.cond.value, g.scope, st);
      Line1(Line1(c.st, CondBr(c.op, ThenL(b, i), CondL(b, k, i + 1))), LabelLine(ThenL(b, i)))
  }

  function GenArms(arms: Arms, i: nat, b: nat, k: nat, g: Gen): Gen
    decreases arms, 0
  {
    if arms.NoArm? then g
    else
      var g1 := GenBlock(arms.body, g.(st := ArmHead(arms, i, b, k, g)));
      GenArms(arms.rest, i + 1, b, k, g1.(st := Line1(g1.st, Br(EndL(b)))))
  }

  // What a CYCLE has ready when its condition label is emitted.
  datatype CycleHead = CycleHead(to: TVal, step: TVal, ptr: Operand, g: Gen)

  function GenCycleHead(s: Stmt, g: Gen): CycleHead
    requires s.Cycle?
  {
    var f := Comp(Tree(s.from), g.scope, g.st);
    var t := Comp(Tree(s.to), g.scope, f.st);
    var k := if s.step.Some? then Comp(Tree(s.step.value), g.scope, t.st) else VOut(TVal(IntC(1), NUM), t.st);
    var p := GenAlloc(k.st, NUM, s.depth);
    var c := CoerceTo(f.v, NUM, p.st);
    var st := Line1(Line1(c.st, Store(NUM, c.op, p.op)), Br(Label("cycle.cond", g.blocks)));
    CycleHead(t.v, k.v, p.op,
      g.(st := st, scope := g.scope[s.x := Info(p.op.n, NUM)], blocks := g.blocks + 4))
  }

  // The comparison's register is numbered before the bound's conversion.
  function GenCycleTest(h: CycleHead, b: nat): St {
    var cur := Emit(Line1(h.g.st, LabelLine(Label("cycle.cond", b))), Load(NUM, h.ptr));
    var c := CoerceTo(h.to, NUM, Reserve(cur.st));
    var st := Line1(c.st, Ins(cur.st.regs, Icmp(Le, cur.op, c.op)));
    var st2 := Line1(st, CondBr(Reg(cur.st.regs), Label("cycle.body", b + 1), Label("cycle.end", b + 3)));
    Line1(st2, LabelLine(Label("cycle.body", b + 1)))
  }

  // The offset is read before the body and written back after it.
  function GenBody(body: Block, d: nat, g: Gen): Gen
    decreases body, 1
  {
    var o := ReadOffset(g.st, d);
    var g1 := GenBlock(body, g.(st := o.st));
    g1.(st := Line1(GenReset(g1.st, g1.depth, d), Store(NUM, o.op, Reg(g.st.regs))), depth := d)
  }

  function GenCycleStep(h: CycleHead, b: nat, st: St): St {
    var st1 := Line1(Line1(st, Br(Label("cycle.inc", b + 2))), LabelLine(Label("cycle.inc", b + 2)));
    var cur := Emit(st1, Load(NUM, h.ptr));
    var c := CoerceTo(h.step, NUM, Reserve(cur.st));
    var st2 := Line1(c.st, Ins(cur.st.regs, IntBin(IAdd, cur.op, c.op)));
    var st3 := Line1(st2, Store(NUM, Reg(cur.st.regs), h.ptr));
    Line1(Line1(st3, Br(Label("cycle.cond", b))), LabelLine(Label("cycle.end", b + 3)))
  }

  function GenCycle(s: Stmt, g: Gen): Gen
    requires s.Cycle?
    decreases s, 0
  {
    var h := GenCycleHead(s, g);
    var g1 := GenBody(s.body, s.depth, h.g.(st := GenCycleTest(h, g.blocks)));
    g1.(st := GenCycleStep(h, g.blocks, g1.st))
  }

  function GenSeasonTest(s: Stmt, g: Gen): St
    requires s.Season?
  {
    var b := g.blocks;
    var st := Line1(Line1(g.st, Br(Label("season.cond", b))), LabelLine(Label("season.cond", b)));
    var c := CompileCond(s.cond, g.scope, st);
    var st2 := Line1(c.st, CondBr(c.op, Label("season.body", b + 1), Label("season.end", b + 2)));
    Line1(st2, LabelLine(Label("season.body", b + 1)))
  }

  function GenSeason(s: Stmt, g: Gen): Gen
    requires s.Season?
    decreases s, 0
  {
    var b := g.blocks;
    var g1 := GenBody(s.body, s.depth, g.(st := GenSeasonTest(s, g), blocks := b + 3));
    g1.(st := Line1(Line1(g1.st, Br(Label("season.cond", b))), LabelLine(Label("season.end", b + 2))))
  }
}
