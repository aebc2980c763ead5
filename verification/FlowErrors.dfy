// Programs that use a name they never create, or convert what cannot be converted, are
// reported.
module FlowErrors {
  import opened Options
  import opened ExprSyntax
  import opened Ir
  import opened ExprSpec
  import opened ExprProof
  import opened FlowSpec
  import opened FlowRun
  import opened FlowStore
  import opened FlowCheck
  import opened FlowProof
  import opened FlowProgram

  // ── Expressions ──

  predicate Mentions(e: Expr, x: string) {
    match e
    case Var(y) => x == y
    case NotE(i) => Mentions(i, x)
    case Neg(i) => Mentions(i, x)
    case Bin(_, l, r) => Mentions(l, x) || Mentions(r, x)
    case Unclosed(i) => Mentions(i, x)
    case _ => false
  }

  // Errors only accumulate.
  ghost predicate Adds(st: St, st': St) { st.errors <= st'.errors }

  ghost predicate Reports(st: St, st': St) { st.errors <= st'.errors && |st.errors| < |st'.errors| }

  lemma BinErrors(op: Op, l: TVal, r: TVal, st: St)
    ensures Adds(st, EmitBin(op, l, r, st).st)
  {
  }

  lemma {:induction false} CompErrors(e: Expr, scope: Scope, st: St, x: string)
    ensures Adds(st, Comp(e, scope, st).st)
    ensures x !in scope && Mentions(e, x) ==> Reports(st, Comp(e, scope, st).st)
  {
    hide EmitBin;
    match e
    case NotE(i) => CompErrors(i, scope, st, x);
    case Neg(i) => CompErrors(i, scope, st, x);
    case Bin(op, l, r) =>
      var lv := Comp(l, scope, st);
      var rv := Comp(r, scope, lv.st);
      CompErrors(l, scope, st, x);
      CompErrors(r, scope, lv.st, x);
      BinErrors(op, lv.v, rv.v, rv.st);
    case Unclosed(i) => CompErrors(i, scope, st, x);
    case _ =>
  }

  // A conversion reports nothing exactly when there is one.
  lemma CoerceReports(v: TVal, ty: Ty, st: St)
    ensures Adds(st, CoerceTo(v, ty, st).st)
    ensures CoerceTo(v, ty, st).st.errors == st.errors <==>
      v.ty == ty || (v.ty == NUM && ty == SCL) || (v.ty == SCL && ty == NUM) || (v.ty == FACT && ty == NUM)
      || (v.ty == NUM && ty == FACT)
  {
  }

  // ── Statements ──

  predicate Reading(tokens: seq<Token>, x: string) { Mentions(Tree(tokens), x) }

  // x is used somewhere in the statement.
  predicate StmtUses(s: Stmt, x: string)
    decreases s
  {
    match s
    case Create(_, _, _, e) => Reading(e, x)
    case Set(_, y, e) => x == y || Reading(e, x)
    case IncDec(_, y, _, e) => x == y || Reading(e, x)
    case If(_, arms) => ArmsUse(arms, x)
    case Cycle(_, _, from, to, step, body) =>
      Reading(from, x) || Reading(to, x) || (step.Some? && Reading(step.value, x)) || BlockUses(body, x)
    case Season(_, cond, body) => Reading(cond, x) || BlockUses(body, x)
  }

  predicate BlockUses(b: Block, x: string)
    decreases b
  {
    b.Cons? && (StmtUses(b.head, x) || BlockUses(b.tail, x))
  }

  predicate ArmsUse(arms: Arms, x: string)
    decreases arms
  {
    arms.Arm? && ((arms.cond.Some? && Reading(arms.cond.value, x)) || BlockUses(arms.body, x) || ArmsUse(arms.rest, x))
  }

  // x is created somewhere in the statement, loop variables included.
  predicate StmtMakes(s: Stmt, x: string)
    decreases s
  {
    match s
    case Create(_, y, _, _) => x == y
    case If(_, arms) => ArmsMake(arms, x)
    case Cycle(_, y, _, _, _, body) => x == y || BlockMakes(body, x)
    case Season(_, _, body) => BlockMakes(body, x)
    case _ => false
  }

  predicate BlockMakes(b: Block, x: string)
    decreases b
  {
    b.Cons? && (StmtMakes(b.head, x) || BlockMakes(b.tail, x))
  }

  predicate ArmsMake(arms: Arms, x: string)
    decreases arms
  {
    arms.Arm? && (BlockMakes(arms.body, x) || ArmsMake(arms.rest, x))
  }

  // Generating code only adds errors, does not bring x into scope, and reports a use.
  ghost predicate Catches(g: Gen, g': Gen, x: string, used: bool) {
    x !in g'.scope && Adds(g.st, g'.st) && (used ==> Reports(g.st, g'.st))
  }

  lemma CatchesThen(g: Gen, g1: Gen, g2: Gen, x: string, a: bool, b: bool)
    requires Catches(g, g1, x, a) && Catches(g1, g2, x, b)
    ensures Catches(g, g2, x, a || b)
  {
  }

  lemma CondErrors(tokens: seq<Token>, scope: Scope, st: St, x: string)
    requires x !in scope
    ensures Adds(st, CompileCond(tokens, scope, st).st)
    ensures Reading(tokens, x) ==> Reports(st, CompileCond(tokens, scope, st).st)
  {
    hide Comp, Tree;
    CompErrors(Tree(tokens), scope, st, x);
  }

  // CREATE, SET, INCREASE and DECREASE.
  lemma SimpleErrors(s: Stmt, g: Gen, x: string)
    requires (s.Create? || s.Set? || s.IncDec?) && x !in g.scope && !StmtMakes(s, x)
    ensures Catches(g, GenStmt(s, g), x, StmtUses(s, x))
  {
    hide Comp, Tree, CoerceTo, GenReset, GenAlloc;
    var g0 := Track(s.depth, g);
    ResetBody(g.st, g.depth, s.depth);
    if s.Create? {
      var p := GenAlloc(g0.st, s.ty, s.depth);
      AllocErrors(g0.st, s.ty, s.depth);
      CompErrors(Tree(s.e), g0.scope, p.st, x);
      var v := Comp(Tree(s.e), g0.scope, p.st);
      CoerceReports(v.v, s.ty, v.st);
    } else if s.x in g0.scope {
      var info := g0.scope[s.x];
      var st := if s.Set? then g0.st else Emit(g0.st, Load(info.ty, Reg(info.ptr))).st;
      CompErrors(Tree(s.e), g0.scope, st, x);
      var v := Comp(Tree(s.e), g0.scope, st);
      CoerceReports(v.v, info.ty, v.st);
    }
  }

  lemma {:induction false} StmtErrors(s: Stmt, g: Gen, x: string)
    requires x !in g.scope && !StmtMakes(s, x)
    ensures Catches(g, GenStmt(s, g), x, StmtUses(s, x))
    decreases s, 1
  {
    hide GenReset, GenArms, GenCycle, GenSeason, Reading, BlockUses, BlockMakes, ArmsUse, ArmsMake;
    if s.Create? || s.Set? || s.IncDec? {
      SimpleErrors(s, g, x);
    } else {
      var g0 := Track(s.depth, g);
      ResetBody(g.st, g.depth, s.depth);
      if s.If? {
        var b, k := g0.blocks, CountArms(s.arms);
        ArmsErrors(s.arms, 0, b, k, g0.(st := Line1(g0.st, Br(CondL(b, k, 0))), blocks := b + 1 + k + k), x);
      } else if s.Cycle? {
        CycleErrors(s, g0, x);
      } else {
        SeasonErrors(s, g0, x);
      }
    }
  }

  lemma {:induction false} BlockErrors(b: Block, g: Gen, x: string)
    requires x !in g.scope && !BlockMakes(b, x)
    ensures Catches(g, GenBlock(b, g), x, BlockUses(b, x))
    decreases b, 0
  {
    hide GenStmt, StmtUses, StmtMakes;
    if b.Cons? {
      StmtErrors(b.head, g, x);
      BlockErrors(b.tail, GenStmt(b.head, g), x);
    }
  }

  lemma {:induction false} ArmsErrors(arms: Arms, i: nat, b: nat, k: nat, g: Gen, x: string)
    requires x !in g.scope && !ArmsMake(arms, x)
    ensures Catches(g, GenArms(arms, i, b, k, g), x, ArmsUse(arms, x))
    decreases arms, 0
  {
    hide GenBlock, BlockUses, BlockMakes, CompileCond, Reading;
    if arms.Arm? {
      var h := g.(st := ArmHead(arms, i, b, k, g));
      if arms.cond.Some? { CondErrors(arms.cond.value, g.scope, Line1(g.st, LabelLine(CondL(b, k, i))), x); }
      assert Catches(g, h, x, arms.cond.Some? && Reading(arms.cond.value, x));
      BlockErrors(arms.body, h, x);
      var g1 := GenBlock(arms.body, h);
      var g2 := g1.(st := Line1(g1.st, Br(EndL(b))));
      ArmsErrors(arms.rest, i + 1, b, k, g2, x);
    }
  }

  lemma {:induction false} BodyErrors(body: Block, d: nat, g: Gen, x: string)
    requires x !in g.scope && !BlockMakes(body, x)
    ensures Catches(g, GenBody(body, d, g), x, BlockUses(body, x))
    decreases body, 1
  {
    hide GenBlock, GenReset, BlockUses, BlockMakes;
    var h := g.(st := ReadOffset(g.st, d).st);
    AllocErrors(g.st, NUM, d);
    BlockErrors(body, h, x);
    ResetBody(GenBlock(body, h).st, GenBlock(body, h).depth, d);
  }

  lemma HeadErrors(s: Stmt, g: Gen, x: string)
    requires s.Cycle? && x !in g.scope && x != s.x
    ensures Catches(g, GenCycleHead(s, g).g, x, Reading(s.from, x) || Reading(s.to, x)
      || (s.step.Some? && Reading(s.step.value, x)))
  {
    hide Comp, Tree, CoerceTo, GenAlloc;
    var f := Comp(Tree(s.from), g.scope, g.st);
    var t := Comp(Tree(s.to), g.scope, f.st);
    CompErrors(Tree(s.from), g.scope, g.st, x);
    CompErrors(Tree(s.to), g.scope, f.st, x);
    if s.step.Some? { CompErrors(Tree(s.step.value), g.scope, t.st, x); }
    var k := if s.step.Some? then Comp(Tree(s.step.value), g.scope, t.st) else VOut(TVal(IntC(1), NUM), t.st);
    AllocErrors(k.st, NUM, s.depth);
    CoerceReports(f.v, NUM, GenAlloc(k.st, NUM, s.depth).st);
  }

  lemma TestErrors(h: CycleHead, b: nat, st: St)
    ensures Adds(h.g.st, GenCycleTest(h, b)) && Adds(st, GenCycleStep(h, b, st))
  {
    hide CoerceTo;
    var cur := Emit(Line1(h.g.st, LabelLine(Label("cycle.cond", b))), Load(NUM, h.ptr));
    CoerceReports(h.to, NUM, Reserve(cur.st));
    var st1 := Line1(Line1(st, Br(Label("cycle.inc", b + 2))), LabelLine(Label("cycle.inc", b + 2)));
    CoerceReports(h.step, NUM, Reserve(Emit(st1, Load(NUM, h.ptr)).st));
  }

  lemma {:induction false} CycleErrors(s: Stmt, g: Gen, x: string)
    requires s.Cycle? && x !in g.scope && !StmtMakes(s, x)
    ensures Catches(g, GenCycle(s, g), x, StmtUses(s, x))
    decreases s, 0
  {
    hide GenBody, GenCycleHead, GenCycleTest, GenCycleStep, BlockUses, BlockMakes, Reading;
    var h := GenCycleHead(s, g);
    HeadErrors(s, g, x);
    var t := h.g.(st := GenCycleTest(h, g.blocks));
    var g1 := GenBody(s.body, s.depth, t);
    TestErrors(h, g.blocks, g1.st);
    BodyErrors(s.body, s.depth, t, x);
  }

  lemma {:induction false} SeasonErrors(s: Stmt, g: Gen, x: string)
    requires s.Season? && x !in g.scope && !StmtMakes(s, x)
    ensures Catches(g, GenSeason(s, g), x, StmtUses(s, x))
    decreases s, 0
  {
    hide GenBody, CompileCond, BlockUses, BlockMakes, Reading;
    CondErrors(s.cond, g.scope, SeasonEntry(g), x);
    BodyErrors(s.body, s.depth, g.(st := GenSeasonTest(s, g), blocks := g.blocks + 3), x);
  }

  // A program that uses a name it nowhere creates is reported.
  lemma UnknownReported(b: Block, x: string)
    requires BlockUses(b, x) && !BlockMakes(b, x)
    ensures GenBlock(b, START).st.errors != []
  {
    hide GenBlock, BlockUses, BlockMakes;
    BlockErrors(b, START, x);
  }

  // A SET is reported exactly when its name is unknown, its expression is, or the value
  // does not convert to the variable's type.
  lemma SetReported(s: Stmt, g: Gen)
    requires s.Set?
    ensures GenSet(s, g).st.errors == g.st.errors <==>
      s.x in g.scope && Comp(Tree(s.e), g.scope, g.st).st.errors == g.st.errors &&
      Coercible(Comp(Tree(s.e), g.scope, g.st).v.ty, g.scope[s.x].ty)
  {
    hide Comp, Tree, CoerceTo;
    if s.x in g.scope {
      var v := Comp(Tree(s.e), g.scope, g.st);
      CompErrors(Tree(s.e), g.scope, g.st, s.x);
      CoerceReports(v.v, g.scope[s.x].ty, v.st);
    }
  }
}
