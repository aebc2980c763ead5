// Which programs the simulation covers, and what generating their code does at
// compile time.
module FlowCheck {
  import opened Options
  import opened ExprSyntax
  import opened Ir
  import opened ExprSpec
  import opened ExprProof
  import opened FlowSpec
  import opened FlowRun
  import opened FlowStore

  ghost predicate AsTyped(tokens: seq<Token>, ty: Ty, types: Types) {
    Typed(Tree(tokens), types).Some? && Coercible(Typed(Tree(tokens), types).value, ty)
  }

  // The variables in view after a statement; None if a name is used out of view, an
  // expression is ill-typed, a name in view is created again, or a body is shallower
  // than the statement it belongs to.
  ghost function CheckStmt(s: Stmt, env: Env, floor: nat): Option<Env>
    decreases s
  {
    if s.depth < floor || s.depth >= DEPTHS then None
    else
      var kept := Keep(env, s.depth);
      var types := TypesOf(kept);
      match s
      case Create(d, x, ty, e) => if x !in kept && AsTyped(e, ty, types) then Some(kept[x := Decl(ty, d)]) else None
      case Set(_, x, e) => if x in kept && AsTyped(e, kept[x].ty, types) then Some(kept) else None
      case IncDec(_, x, _, e) =>
        if x in kept && Numeric(kept[x].ty) && AsTyped(e, kept[x].ty, types) then Some(kept) else None
      case If(d, arms) => if arms.Arm? && CheckArms(arms, kept, d) then Some(kept) else None
      case Cycle(d, x, from, to, step, body) =>
        if AsTyped(from, NUM, types) && AsTyped(to, NUM, types) && (step.Some? ==> AsTyped(step.value, NUM, types))
           && x !in kept && CheckBlock(body, kept[x := Decl(NUM, d)], d).Some?
        then Some(kept) else None
      case Season(d, cond, body) =>
        if Typed(Tree(cond), types).Some? && CheckBlock(body, kept, d).Some? then Some(kept) else None
  }

  ghost function CheckBlock(b: Block, env: Env, floor: nat): Option<Env>
    decreases b
  {
    if b.Nil? then Some(env)
    else
      var r := CheckStmt(b.head, env, floor);
      if r.None? then None else CheckBlock(b.tail, r.value, floor)
  }

  ghost predicate CheckArms(arms: Arms, env: Env, floor: nat)
    decreases arms
  {
    arms.Arm? ==>
      && (arms.cond.Some? ==> Typed(Tree(arms.cond.value), TypesOf(env)).Some?)
      && CheckBlock(arms.body, env, floor).Some? && CheckArms(arms.rest, env, floor)
  }

  ghost predicate Within(env: Env, d: nat) { forall x :: x in env ==> env[x].depth <= d }

  // ── Depths ──

  lemma {:induction false} GenDepth(s: Stmt, g: Gen)
    ensures GenStmt(s, g).depth == DepthAfter(s)
    decreases s
  {
    if s.If? {
      var g0 := Track(s.depth, g);
      var b, k := g0.blocks, CountArms(s.arms);
      GenDepthArms(s.arms, 0, b, k, g0.(st := Line1(g0.st, Br(CondL(b, k, 0))), blocks := b + 1 + k + k));
    } else if s.Cycle? {
      assert GenCycle(s, Track(s.depth, g)).depth == s.depth;
    } else if s.Season? {
      assert GenSeason(s, Track(s.depth, g)).depth == s.depth;
    }
  }

  lemma {:induction false} GenDepthBlock(b: Block, g: Gen)
    ensures GenBlock(b, g).depth == DepthAfterBlock(b, g.depth)
    decreases b
  {
    if b.Cons? {
      GenDepth(b.head, g);
      GenDepthBlock(b.tail, GenStmt(b.head, g));
    }
  }

  lemma {:induction false} GenDepthArms(arms: Arms, i: nat, b: nat, k: nat, g: Gen)
    ensures GenArms(arms, i, b, k, g).depth == DepthAfterArms(arms, g.depth)
    decreases arms
  {
    if arms.Arm? {
      var g1 := GenBlock(arms.body, g.(st := ArmHead(arms, i, b, k, g)));
      GenDepthBlock(arms.body, g.(st := ArmHead(arms, i, b, k, g)));
      GenDepthArms(arms.rest, i + 1, b, k, g1.(st := Line1(g1.st, Br(EndL(b)))));
    }
  }

  lemma {:induction false} DepthBound(s: Stmt, env: Env, floor: nat)
    requires CheckStmt(s, env, floor).Some?
    ensures floor <= DepthAfter(s) < DEPTHS
    decreases s
  {
    if s.If? { DepthBoundArms(s.arms, Keep(env, s.depth), s.depth, s.depth); }
  }

  lemma {:induction false} DepthBoundBlock(b: Block, env: Env, floor: nat, cur: nat)
    requires CheckBlock(b, env, floor).Some? && floor <= cur < DEPTHS
    ensures floor <= DepthAfterBlock(b, cur) < DEPTHS
    decreases b
  {
    if b.Cons? {
      DepthBound(b.head, env, floor);
      DepthBoundBlock(b.tail, CheckStmt(b.head, env, floor).value, floor, DepthAfter(b.head));
    }
  }

  lemma {:induction false} DepthBoundArms(arms: Arms, env: Env, floor: nat, cur: nat)
    requires CheckArms(arms, env, floor) && floor <= cur < DEPTHS
    ensures floor <= DepthAfterArms(arms, cur) < DEPTHS
    decreases arms
  {
    if arms.Arm? {
      DepthBoundBlock(arms.body, env, floor, cur);
      DepthBoundArms(arms.rest, env, floor, DepthAfterBlock(arms.body, cur));
    }
  }

  // ── Growth: code is only added at the end ──

  ghost predicate Grows(st: St, st': St) { st.body <= st'.body && st.regs <= st'.regs }

  lemma GrowsThen(st: St, st1: St, st2: St)
    requires Grows(st, st1) && Grows(st1, st2)
    ensures Grows(st, st2)
  {
  }

  lemma LineGrows(st: St, line: Line)
    ensures Grows(st, Line1(st, line)) && Grows(st, Reserve(st))
  {
  }

  lemma EmitGrows(st: St, rhs: Rhs)
    ensures Grows(st, Emit(st, rhs).st)
  {
  }

  lemma CompGrowth(e: Expr, scope: Scope, st: St)
    ensures Grows(st, Comp(e, scope, st).st)
  {
    CompBody(e, scope, st);
  }

  lemma CoerceGrows(v: TVal, ty: Ty, st: St)
    ensures Grows(st, CoerceTo(v, ty, st).st) && Grows(st, EnsureBool(v, st).st)
  {
  }

  lemma CondGrows(tokens: seq<Token>, scope: Scope, st: St)
    ensures Grows(st, CompileCond(tokens, scope, st).st)
  {
    hide Comp, EnsureBool, Tree, Grows;
    var v := Comp(Tree(tokens), scope, st);
    CompGrowth(Tree(tokens), scope, st);
    CoerceGrows(v.v, NUM, v.st);
    GrowsThen(st, v.st, EnsureBool(v.v, v.st).st);
  }

  lemma ResetGrows(st: St, hi: nat, lo: nat)
    ensures Grows(st, GenReset(st, hi, lo))
  {
    ResetBody(st, hi, lo);
  }

  lemma AllocGrows(st: St, ty: Ty, d: nat)
    ensures Grows(st, GenAlloc(st, ty, d).st) && Grows(st, ReadOffset(st, d).st)
  {
  }

  lemma CreateGrows(s: Stmt, g: Gen)
    requires s.Create?
    ensures Grows(g.st, GenCreate(s, g).st)
  {
    hide Comp, CoerceTo, GenAlloc, Tree, Grows;
    var p := GenAlloc(g.st, s.ty, s.depth);
    var v := Comp(Tree(s.e), g.scope, p.st);
    var c := CoerceTo(v.v, s.ty, v.st);
    AllocGrows(g.st, s.ty, s.depth);
    CompGrowth(Tree(s.e), g.scope, p.st);
    CoerceGrows(v.v, s.ty, v.st);
    LineGrows(c.st, Store(s.ty, c.op, p.op));
    GrowsThen(g.st, p.st, v.st);
    GrowsThen(g.st, v.st, c.st);
    GrowsThen(g.st, c.st, GenCreate(s, g).st);
  }

  lemma SetGrows(s: Stmt, g: Gen)
    requires s.Set?
    ensures Grows(g.st, GenSet(s, g).st)
  {
    hide Comp, CoerceTo, Tree;
    if s.x in g.scope {
      var v := Comp(Tree(s.e), g.scope, g.st);
      CompGrowth(Tree(s.e), g.scope, g.st);
      CoerceGrows(v.v, g.scope[s.x].ty, v.st);
    }
  }

  lemma IncDecGrows(s: Stmt, g: Gen)
    requires s.IncDec?
    ensures Grows(g.st, GenIncDec(s, g).st)
  {
    hide Comp, CoerceTo, Tree;
    if s.x in g.scope && g.scope[s.x].ty != FACT {
      var cur := Emit(g.st, Load(g.scope[s.x].ty, Reg(g.scope[s.x].ptr)));
      var v := Comp(Tree(s.e), g.scope, cur.st);
      CompGrowth(Tree(s.e), g.scope, cur.st);
      CoerceGrows(v.v, g.scope[s.x].ty, v.st);
    }
  }

  lemma HeadGrows(arms: Arms, i: nat, b: nat, k: nat, g: Gen)
    requires arms.Arm?
    ensures Grows(Line1(g.st, LabelLine(CondL(b, k, i))), ArmHead(arms, i, b, k, g))
    ensures Grows(g.st, ArmHead(arms, i, b, k, g))
  {
    hide CompileCond;
    if arms.cond.Some? {
      CondGrows(arms.cond.value, g.scope, Line1(g.st, LabelLine(CondL(b, k, i))));
    }
  }

  lemma CycleHeadGrows(s: Stmt, g: Gen)
    requires s.Cycle?
    ensures Grows(g.st, GenCycleHead(s, g).g.st)
  {
    hide Comp, CoerceTo, GenAlloc, Tree, Grows;
    var f := Comp(Tree(s.from), g.scope, g.st);
    var t := Comp(Tree(s.to), g.scope, f.st);
    var k := if s.step.Some? then Comp(Tree(s.step.value), g.scope, t.st) else VOut(TVal(IntC(1), NUM), t.st);
    var p := GenAlloc(k.st, NUM, s.depth);
    var c := CoerceTo(f.v, NUM, p.st);
    CompGrowth(Tree(s.from), g.scope, g.st);
    CompGrowth(Tree(s.to), g.scope, f.st);
    if s.step.Some? { CompGrowth(Tree(s.step.value), g.scope, t.st); } else { GrowsSelf(t.st); }
    AllocGrows(k.st, NUM, s.depth);
    CoerceGrows(f.v, NUM, p.st);
    var st := Line1(c.st, Store(NUM, c.op, p.op));
    LineGrows(c.st, Store(NUM, c.op, p.op));
    LineGrows(st, Br(Label("cycle.cond", g.blocks)));
    GrowsThen(g.st, f.st, t.st);
    GrowsThen(g.st, t.st, k.st);
    GrowsThen(g.st, k.st, p.st);
    GrowsThen(g.st, p.st, c.st);
    GrowsThen(g.st, c.st, st);
    GrowsThen(g.st, st, GenCycleHead(s, g).g.st);
  }

  lemma GrowsSelf(st: St)
    ensures Grows(st, st)
  {
  }

  lemma CycleTestGrows(h: CycleHead, b: nat)
    ensures Grows(Line1(h.g.st, LabelLine(Label("cycle.cond", b))), GenCycleTest(h, b))
    ensures Grows(h.g.st, GenCycleTest(h, b))
  {
    hide CoerceTo;
    var cur := Emit(Line1(h.g.st, LabelLine(Label("cycle.cond", b))), Load(NUM, h.ptr));
    CoerceGrows(h.to, NUM, Reserve(cur.st));
  }

  lemma CycleStepGrows(h: CycleHead, b: nat, st: St)
    ensures Grows(Line1(Line1(st, Br(Label("cycle.inc", b + 2))), LabelLine(Label("cycle.inc", b + 2))),
      GenCycleStep(h, b, st))
    ensures Grows(st, GenCycleStep(h, b, st))
  {
    hide CoerceTo;
    var st1 := Line1(Line1(st, Br(Label("cycle.inc", b + 2))), LabelLine(Label("cycle.inc", b + 2)));
    var cur := Emit(st1, Load(NUM, h.ptr));
    CoerceGrows(h.step, NUM, Reserve(cur.st));
  }

  lemma SeasonTestGrows(s: Stmt, g: Gen)
    requires s.Season?
    ensures var st := Line1(Line1(g.st, Br(Label("season.cond", g.blocks))), LabelLine(Label("season.cond", g.blocks)));
      Grows(st, GenSeasonTest(s, g)) && Grows(g.st, GenSeasonTest(s, g))
  {
    hide CompileCond;
    CondGrows(s.cond, g.scope, Line1(Line1(g.st, Br(Label("season.cond", g.blocks))),
      LabelLine(Label("season.cond", g.blocks))));
  }

  lemma {:induction false} StmtGrows(s: Stmt, g: Gen)
    ensures Grows(g.st, GenStmt(s, g).st) && g.blocks <= GenStmt(s, g).blocks
    decreases s, 1
  {
    hide Grows, GenCreate, GenSet, GenIncDec, GenReset;
    var g0 := Track(s.depth, g);
    ResetGrows(g.st, g.depth, s.depth);
    match s
    case Create(_, _, _, _) => CreateGrows(s, g0); GrowsThen(g.st, g0.st, GenStmt(s, g).st); PlainBlocks(s, g0);
    case Set(_, _, _) => SetGrows(s, g0); GrowsThen(g.st, g0.st, GenStmt(s, g).st); PlainBlocks(s, g0);
    case IncDec(_, _, _, _) => IncDecGrows(s, g0); GrowsThen(g.st, g0.st, GenStmt(s, g).st); PlainBlocks(s, g0);
    case If(_, arms) =>
      var b, k := g0.blocks, CountArms(arms);
      var g1 := g0.(st := Line1(g0.st, Br(CondL(b, k, 0))), blocks := b + 1 + k + k);
      LineGrows(g0.st, Br(CondL(b, k, 0)));
      ArmsGrow(arms, 0, b, k, g1);
      var g2 := GenArms(arms, 0, b, k, g1);
      LineGrows(g2.st, LabelLine(EndL(b)));
      GrowsThen(g.st, g0.st, g1.st);
      GrowsThen(g.st, g1.st, g2.st);
      GrowsThen(g.st, g2.st, GenStmt(s, g).st);
    case Cycle(_, _, _, _, _, _) => CycleGrows(s, g0); GrowsThen(g.st, g0.st, GenStmt(s, g).st);
    case Season(_, _, _) => SeasonGrows(s, g0); GrowsThen(g.st, g0.st, GenStmt(s, g).st);
  }

  lemma PlainBlocks(s: Stmt, g: Gen)
    ensures s.Create? ==> GenCreate(s, g).blocks == g.blocks
    ensures s.Set? ==> GenSet(s, g).blocks == g.blocks
    ensures s.IncDec? ==> GenIncDec(s, g).blocks == g.blocks
  {
  }

  lemma {:induction false} BlockGrows(b: Block, g: Gen)
    ensures Grows(g.st, GenBlock(b, g).st) && g.blocks <= GenBlock(b, g).blocks
    decreases b, 0
  {
    hide Grows, GenStmt;
    if b.Cons? {
      var g1 := GenStmt(b.head, g);
      StmtGrows(b.head, g);
      BlockGrows(b.tail, g1);
      GrowsThen(g.st, g1.st, GenBlock(b.tail, g1).st);
    } else {
      GrowsSelf(g.st);
    }
  }

  lemma {:induction false} ArmsGrow(arms: Arms, i: nat, b: nat, k: nat, g: Gen)
    ensures Grows(g.st, GenArms(arms, i, b, k, g).st) && g.blocks <= GenArms(arms, i, b, k, g).blocks
    decreases arms, 0
  {
    hide Grows, ArmHead, GenBlock;
    if arms.Arm? {
      var h := g.(st := ArmHead(arms, i, b, k, g));
      var g1 := GenBlock(arms.body, h);
      var g2 := g1.(st := Line1(g1.st, Br(EndL(b))));
      HeadGrows(arms, i, b, k, g);
      BlockGrows(arms.body, h);
      LineGrows(g1.st, Br(EndL(b)));
      ArmsGrow(arms.rest, i + 1, b, k, g2);
      GrowsThen(g.st, h.st, g1.st);
      GrowsThen(g.st, g1.st, g2.st);
      GrowsThen(g.st, g2.st, GenArms(arms, i, b, k, g).st);
    } else {
      GrowsSelf(g.st);
    }
  }

  lemma {:induction false} BodyGrows(body: Block, d: nat, g: Gen)
    ensures Grows(g.st, GenBody(body, d, g).st) && g.blocks <= GenBody(body, d, g).blocks
    ensures Grows(ReadOffset(g.st, d).st, GenBlock(body, g.(st := ReadOffset(g.st, d).st)).st)
    decreases body, 1
  {
    hide Grows, GenBlock, ReadOffset, GenReset;
    var o := ReadOffset(g.st, d);
    var g1 := GenBlock(body, g.(st := o.st));
    AllocGrows(g.st, NUM, d);
    BlockGrows(body, g.(st := o.st));
    ResetGrows(g1.st, g1.depth, d);
    LineGrows(GenReset(g1.st, g1.depth, d), Store(NUM, o.op, Reg(g.st.regs)));
    GrowsThen(g.st, o.st, g1.st);
    GrowsThen(g.st, g1.st, GenReset(g1.st, g1.depth, d));
    GrowsThen(g.st, GenReset(g1.st, g1.depth, d), GenBody(body, d, g).st);
  }

  lemma {:induction false} CycleGrows(s: Stmt, g: Gen)
    requires s.Cycle?
    ensures Grows(g.st, GenCycle(s, g).st) && g.blocks + 4 <= GenCycle(s, g).blocks
    decreases s, 0
  {
    hide Grows, GenBody, GenCycleTest, GenCycleStep;
    var h := GenCycleHead(s, g);
    var t := h.g.(st := GenCycleTest(h, g.blocks));
    var g1 := GenBody(s.body, s.depth, t);
    CycleHeadGrows(s, g);
    CycleTestGrows(h, g.blocks);
    BodyGrows(s.body, s.depth, t);
    CycleStepGrows(h, g.blocks, g1.st);
    GrowsThen(g.st, h.g.st, t.st);
    GrowsThen(g.st, t.st, g1.st);
    GrowsThen(g.st, g1.st, GenCycle(s, g).st);
  }

  lemma {:induction false} SeasonGrows(s: Stmt, g: Gen)
    requires s.Season?
    ensures Grows(g.st, GenSeason(s, g).st) && g.blocks + 3 <= GenSeason(s, g).blocks
    decreases s, 0
  {
    hide Grows, GenBody, GenSeasonTest;
    var b := g.blocks;
    var t := g.(st := GenSeasonTest(s, g), blocks := b + 3);
    var g1 := GenBody(s.body, s.depth, t);
    SeasonTestGrows(s, g);
    BodyGrows(s.body, s.depth, t);
    var st := Line1(g1.st, Br(Label("season.cond", b)));
    LineGrows(g1.st, Br(Label("season.cond", b)));
    LineGrows(st, LabelLine(Label("season.end", b + 2)));
    GrowsThen(g.st, t.st, g1.st);
    GrowsThen(g.st, g1.st, st);
    GrowsThen(g.st, st, GenSeason(s, g).st);
  }

  // ── Scope and errors ──

  ghost predicate ScopeOk(env: Env, scope: Scope) {
    forall x :: x in env ==> x in scope && scope[x].ty == env[x].ty
  }

  ghost predicate SameOn(env: Env, scope: Scope, scope': Scope) {
    forall x :: x in env && x in scope ==> x in scope' && scope'[x] == scope[x]
  }

  ghost predicate Includes(env': Env, env: Env) {
    forall x :: x in env ==> x in env' && env'[x] == env[x]
  }

  // The scope after a plain statement.
  lemma PlainScope(s: Stmt, g: Gen)
    requires s.Create? || s.Set? || s.IncDec?
    ensures var scope := GenStmt(s, g).scope;
      forall x :: x in g.scope && !(s.Create? && x == s.x) ==> x in scope && scope[x] == g.scope[x]
  {
    hide Comp, CoerceTo, GenAlloc, GenReset, Tree;
  }

  // Generating a checked statement leaves the addresses of the variables in view alone.
  lemma {:induction false} StmtScope(s: Stmt, env: Env, floor: nat, g: Gen)
    requires CheckStmt(s, env, floor).Some?
    ensures var kept := Keep(env, s.depth);
      Includes(CheckStmt(s, env, floor).value, kept) && SameOn(kept, g.scope, GenStmt(s, g).scope)
    decreases s, 1
  {
    var kept := Keep(env, s.depth);
    var g0 := Track(s.depth, g);
    if s.If? {
      hide AsTyped, CompileCond, GenReset;
      var b, k := g0.blocks, CountArms(s.arms);
      ArmsScope(s.arms, kept, s.depth, 0, b, k, g0.(st := Line1(g0.st, Br(CondL(b, k, 0))), blocks := b + 1 + k + k));
    } else if s.Cycle? {
      CycleScope(s, kept, g0);
    } else if s.Season? {
      hide AsTyped, CompileCond, GenReset;
      var t := g0.(st := GenSeasonTest(s, g0), blocks := g0.blocks + 3);
      BodyScope(s.body, kept, s.depth, t);
      assert GenSeason(s, g0).scope == GenBody(s.body, s.depth, t).scope;
    } else {
      hide AsTyped, GenStmt;
      PlainScope(s, g);
    }
  }

  lemma {:induction false} CycleScope(s: Stmt, kept: Env, g: Gen)
    requires s.Cycle? && s.x !in kept && Within(kept, s.depth)
    requires CheckBlock(s.body, kept[s.x := Decl(NUM, s.depth)], s.depth).Some?
    ensures SameOn(kept, g.scope, GenCycle(s, g).scope)
    decreases s, 0
  {
    hide GenCycleTest, GenCycleStep, GenBody, CheckBlock, Comp, CoerceTo, GenAlloc, Tree;
    var h := GenCycleHead(s, g);
    var env := kept[s.x := Decl(NUM, s.depth)];
    var t := h.g.(st := GenCycleTest(h, g.blocks));
    BodyScope(s.body, env, s.depth, t);
    assert GenCycle(s, g).scope == GenBody(s.body, s.depth, t).scope;
    forall x | x in kept && x in g.scope
      ensures x in GenCycle(s, g).scope && GenCycle(s, g).scope[x] == g.scope[x]
    {
      assert x in env && x in t.scope;
    }
  }

  lemma {:induction false} BodyScope(body: Block, env: Env, d: nat, g: Gen)
    requires CheckBlock(body, env, d).Some? && Within(env, d)
    ensures SameOn(env, g.scope, GenBody(body, d, g).scope)
    decreases body, 2
  {
    BlockScope(body, env, d, g.(st := ReadOffset(g.st, d).st));
  }

  lemma {:induction false} BlockScope(b: Block, env: Env, floor: nat, g: Gen)
    requires CheckBlock(b, env, floor).Some? && Within(env, floor)
    ensures Includes(CheckBlock(b, env, floor).value, env) && SameOn(env, g.scope, GenBlock(b, g).scope)
    decreases b, 1
  {
    BlockScope0(b, env, env, floor, g);
  }

  // The variables of env stay in view while more come and go.
  lemma {:induction false} BlockScope0(b: Block, env: Env, more: Env, floor: nat, g: Gen)
    requires CheckBlock(b, more, floor).Some? && Within(env, floor) && Includes(more, env)
    ensures Includes(CheckBlock(b, more, floor).value, env) && SameOn(env, g.scope, GenBlock(b, g).scope)
    decreases b, 0
  {
    if b.Cons? {
      StmtScope(b.head, more, floor, g);
      var next := CheckStmt(b.head, more, floor).value;
      assert Includes(Keep(more, b.head.depth), env);
      BlockScope0(b.tail, env, next, floor, GenStmt(b.head, g));
    }
  }

  lemma {:induction false} ArmsScope(arms: Arms, env: Env, floor: nat, i: nat, b: nat, k: nat, g: Gen)
    requires CheckArms(arms, env, floor) && Within(env, floor)
    ensures SameOn(env, g.scope, GenArms(arms, i, b, k, g).scope)
    decreases arms, 0
  {
    if arms.Arm? {
      var h := g.(st := ArmHead(arms, i, b, k, g));
      var g1 := GenBlock(arms.body, h);
      BlockScope(arms.body, env, floor, h);
      ArmsScope(arms.rest, env, floor, i + 1, b, k, g1.(st := Line1(g1.st, Br(EndL(b)))));
    }
  }

  // Tracking the depth a second time emits nothing.
  lemma SameTrack(s: Stmt, g: Gen)
    ensures GenStmt(s, Track(s.depth, g)) == GenStmt(s, g)
  {
    assert Track(s.depth, Track(s.depth, g)) == Track(s.depth, g);
  }
}
