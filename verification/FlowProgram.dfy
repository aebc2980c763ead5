// Whole programs: no error for a checked program, its code ends with the
// program's variables, and what loops leave in the arenas.
module FlowProgram {
  import opened Options
  import opened ExprSyntax
  import opened Ir
  import opened ExprSpec
  import opened ExprProof
  import opened FlowSpec
  import opened Machine
  import opened FlowRun
  import opened FlowStore
  import opened FlowCheck
  import opened FlowProof
  import opened FlowLabels

  // ── No errors ──

  lemma AsClean(tokens: seq<Token>, ty: Ty, env: Env, scope: Scope, st: St)
    requires AsTyped(tokens, ty, TypesOf(env)) && ScopeOk(env, scope)
    ensures var v := Comp(Tree(tokens), scope, st);
      v.st.errors == st.errors && CoerceTo(v.v, ty, v.st).st.errors == st.errors && Coercible(v.v.ty, ty)
  {
    CompTags(Tree(tokens), TypesOf(env), scope, st);
  }

  lemma CondClean(tokens: seq<Token>, env: Env, scope: Scope, st: St)
    requires Typed(Tree(tokens), TypesOf(env)).Some? && ScopeOk(env, scope)
    ensures CompileCond(tokens, scope, st).st.errors == st.errors
  {
    CompTags(Tree(tokens), TypesOf(env), scope, st);
  }

  lemma StaysOk(env: Env, env': Env, scope: Scope, scope': Scope)
    requires ScopeOk(env', scope) && Includes(env', env) && SameOn(env, scope, scope')
    ensures ScopeOk(env, scope')
  {
  }

  lemma {:induction false} StmtClean(s: Stmt, env: Env, floor: nat, g: Gen)
    requires CheckStmt(s, env, floor).Some? && ScopeOk(env, g.scope)
    ensures GenStmt(s, g).st.errors == g.st.errors && ScopeOk(CheckStmt(s, env, floor).value, GenStmt(s, g).scope)
    decreases s, 1
  {
    hide GenReset, GenArms, GenCycle, GenSeason, GenAlloc, Comp, CoerceTo, AsTyped, Typed, Tree, CheckBlock, CheckArms;
    var g0 := Track(s.depth, g);
    var kept := Keep(env, s.depth);
    ResetBody(g.st, g.depth, s.depth);
    StmtScope(s, env, floor, g);
    StaysOk(kept, env, g.scope, GenStmt(s, g).scope);
    KeepWithin(env, s.depth);
    if s.Create? {
      AllocErrors(g0.st, s.ty, s.depth);
      AsClean(s.e, s.ty, kept, g0.scope, GenAlloc(g0.st, s.ty, s.depth).st);
    } else if s.Set? {
      AsClean(s.e, kept[s.x].ty, kept, g0.scope, g0.st);
    } else if s.IncDec? {
      var info := g0.scope[s.x];
      AsClean(s.e, kept[s.x].ty, kept, g0.scope, Emit(g0.st, Load(info.ty, Reg(info.ptr))).st);
    } else if s.If? {
      var b, k := g0.blocks, CountArms(s.arms);
      ArmsClean(s.arms, kept, s.depth, 0, b, k, g0.(st := Line1(g0.st, Br(CondL(b, k, 0))), blocks := b + 1 + k + k));
    } else if s.Cycle? {
      CycleClean(s, kept, g0);
    } else {
      SeasonClean(s, kept, g0);
    }
  }

  lemma AllocErrors(st: St, ty: Ty, d: nat)
    ensures GenAlloc(st, ty, d).st.errors == st.errors && ReadOffset(st, d).st.errors == st.errors
  {
  }

  lemma {:induction false} BlockClean(b: Block, env: Env, floor: nat, g: Gen)
    requires CheckBlock(b, env, floor).Some? && ScopeOk(env, g.scope)
    ensures GenBlock(b, g).st.errors == g.st.errors && ScopeOk(CheckBlock(b, env, floor).value, GenBlock(b, g).scope)
    decreases b, 0
  {
    hide GenStmt, CheckStmt, ScopeOk;
    if b.Cons? {
      StmtClean(b.head, env, floor, g);
      BlockClean(b.tail, CheckStmt(b.head, env, floor).value, floor, GenStmt(b.head, g));
    }
  }

  lemma {:induction false} ArmsClean(arms: Arms, env: Env, floor: nat, i: nat, b: nat, k: nat, g: Gen)
    requires CheckArms(arms, env, floor) && ScopeOk(env, g.scope) && Within(env, floor)
    ensures GenArms(arms, i, b, k, g).st.errors == g.st.errors
    decreases arms, 0
  {
    hide GenBlock, CheckBlock, ScopeOk, CompileCond, Typed, Tree, Includes, SameOn;
    if arms.Arm? {
      var h := g.(st := ArmHead(arms, i, b, k, g));
      if arms.cond.Some? { CondClean(arms.cond.value, env, g.scope, Line1(g.st, LabelLine(CondL(b, k, i)))); }
      BlockClean(arms.body, env, floor, h);
      BlockScope(arms.body, env, floor, h);
      IncludesSelf(env);
      StaysOk(env, env, g.scope, GenBlock(arms.body, h).scope);
      var g1 := GenBlock(arms.body, h);
      ArmsClean(arms.rest, env, floor, i + 1, b, k, g1.(st := Line1(g1.st, Br(EndL(b)))));
    }
  }

  lemma {:induction false} BodyClean(body: Block, env: Env, d: nat, g: Gen)
    requires CheckBlock(body, env, d).Some? && ScopeOk(env, g.scope)
    ensures GenBody(body, d, g).st.errors == g.st.errors
    decreases body, 1
  {
    hide GenBlock, GenReset, CheckBlock, ScopeOk;
    var h := g.(st := ReadOffset(g.st, d).st);
    AllocErrors(g.st, NUM, d);
    BlockClean(body, env, d, h);
    ResetBody(GenBlock(body, h).st, GenBlock(body, h).depth, d);
  }

  lemma {:induction false} CycleClean(s: Stmt, env: Env, g: Gen)
    requires s.Cycle? && ScopeOk(env, g.scope) && CheckBlock(s.body, env[s.x := Decl(NUM, s.depth)], s.depth).Some?
    requires AsTyped(s.from, NUM, TypesOf(env)) && AsTyped(s.to, NUM, TypesOf(env))
    requires (s.step.Some? ==> AsTyped(s.step.value, NUM, TypesOf(env)))
    ensures GenCycle(s, g).st.errors == g.st.errors
    decreases s, 0
  {
    hide GenBody, GenAlloc, Comp, CheckBlock, AsTyped, Tree;
    var f := Comp(Tree(s.from), g.scope, g.st);
    var t := Comp(Tree(s.to), g.scope, f.st);
    AsClean(s.from, NUM, env, g.scope, g.st);
    AsClean(s.to, NUM, env, g.scope, f.st);
    if s.step.Some? { AsClean(s.step.value, NUM, env, g.scope, t.st); }
    var k := if s.step.Some? then Comp(Tree(s.step.value), g.scope, t.st) else VOut(TVal(IntC(1), NUM), t.st);
    AllocErrors(k.st, NUM, s.depth);
    var h := GenCycleHead(s, g);
    var b := g.blocks;
    assert h.g.st.errors == g.st.errors;
    BodyClean(s.body, env[s.x := Decl(NUM, s.depth)], s.depth, h.g.(st := GenCycleTest(h, b)));
  }

  lemma {:induction false} SeasonClean(s: Stmt, env: Env, g: Gen)
    requires s.Season? && ScopeOk(env, g.scope) && CheckBlock(s.body, env, s.depth).Some?
    requires Typed(Tree(s.cond), TypesOf(env)).Some?
    ensures GenSeason(s, g).st.errors == g.st.errors
    decreases s, 0
  {
    hide GenBody, CompileCond, CheckBlock, Typed, Tree, ScopeOk;
    CondClean(s.cond, env, g.scope, SeasonEntry(g));
    BodyClean(s.body, env, s.depth, g.(st := GenSeasonTest(s, g), blocks := g.blocks + 3));
  }

  // ── The program ──

  const START := Gen(St(0, [], []), map[], 0, 0)

  function Zeros(n: nat): (z: seq<int>)
    ensures |z| == n && forall i :: 0 <= i < n ==> z[i] == 0
  {
    if n == 0 then [] else Zeros(n - 1) + [0]
  }

  // A checked program compiles without an error, and whenever it runs to its end
  // its code, started on empty arenas, arrives at its own end with every variable
  // in view holding the program's value in bytes of its own, and every arena's
  // offset where the program left it.
  lemma ProgramRuns(b: Block, fuel: nat, pow: Power) returns (regs: Regs, mem: Mem)
    requires CheckBlock(b, map[], 0).Some? && RunBlock(b, 0, World(map[], Zeros(DEPTHS)), fuel, pow).Some?
    ensures var g := GenBlock(b, START);
      && g.st.errors == []
      && Reaches(g.st.body, pow, Config(0, map[], Mem(map[], Zeros(DEPTHS))), Config(|g.st.body|, regs, mem))
      && Good(CheckBlock(b, map[], 0).value, g.scope, RunBlock(b, 0, World(map[], Zeros(DEPTHS)), fuel, pow).value,
        regs, mem, g.st.regs)
  {
    hide GenBlock, RunBlock, CheckBlock, Once;
    var env: Env := map[];
    var g := GenBlock(b, START);
    BlockClean(b, env, 0, START);
    OnceEmpty();
    BlockLabels(b, START);
    OnceLabels(g.st.body);
    regs, mem := SimBlock(g.st.body, pow, b, env, 0, START, World(map[], Zeros(DEPTHS)), fuel, map[],
      Mem(map[], Zeros(DEPTHS)));
  }

  // ── What runs leave in the arenas ──

  // No statement touches the arenas shallower than the block it stands in.
  lemma {:induction false} BlockShallow(b: Block, env: Env, floor: nat, cur: nat, w: World, fuel: nat, pow: Power,
                                        k: nat)
    requires CheckBlock(b, env, floor).Some? && RunBlock(b, cur, w, fuel, pow).Some? && k < floor && k < |w.offs|
    ensures var w' := RunBlock(b, cur, w, fuel, pow).value; |w'.offs| == |w.offs| && w'.offs[k] == w.offs[k]
    decreases fuel, b, 0
  {
    if b.Cons? {
      StmtShallow(b.head, env, floor, cur, w, fuel, pow, k);
      BlockShallow(b.tail, CheckStmt(b.head, env, floor).value, floor, DepthAfter(b.head),
        RunStmt(b.head, cur, w, fuel, pow).value, fuel, pow, k);
    }
  }

  lemma {:induction false} StmtShallow(s: Stmt, env: Env, floor: nat, cur: nat, w: World, fuel: nat, pow: Power, k: nat)
    requires CheckStmt(s, env, floor).Some? && RunStmt(s, cur, w, fuel, pow).Some? && k < floor && k < |w.offs|
    ensures var w' := RunStmt(s, cur, w, fuel, pow).value; |w'.offs| == |w.offs| && w'.offs[k] == w.offs[k]
    decreases fuel, s, 2
  {
    hide AsTyped, EvalAs, Eval, Typed, Tree, Mixed, CheckBlock, RunArms, RunCycle, RunSeason, CheckArms;
    var kept := Keep(env, s.depth);
    var w0 := w.(offs := Reset(w.offs, cur, s.depth));
    ResetAt(w.offs, cur, s.depth, k);
    if s.If? {
      ArmsShallow(s.arms, kept, s.depth, s.depth, w0, fuel, pow, k);
    } else if s.Cycle? {
      var f, t := EvalAs(s.from, NUM, w0.vars, pow).value, Eval(Tree(s.to), w0.vars, pow).value;
      var step := if s.step.Some? then Eval(Tree(s.step.value), w0.vars, pow).value else NumV(1);
      var w1 := World(w0.vars[s.x := f], Allocate(w0.offs, s.depth, NUM).value);
      CycleKeepsOffset(s, kept[s.x := Decl(NUM, s.depth)], t, step, w1, fuel, pow, k);
    } else if s.Season? {
      SeasonKeepsOffset(s, kept, w0, fuel, pow, k);
    }
  }

  lemma {:induction false} ArmsShallow(arms: Arms, env: Env, floor: nat, cur: nat, w: World, fuel: nat, pow: Power,
                                       k: nat)
    requires CheckArms(arms, env, floor) && RunArms(arms, cur, w, fuel, pow).Some? && k < floor && k < |w.offs|
    ensures var w' := RunArms(arms, cur, w, fuel, pow).value; |w'.offs| == |w.offs| && w'.offs[k] == w.offs[k]
    decreases fuel, arms, 0
  {
    hide Eval, Typed, Tree, CheckBlock, RunBlock, Truth;
    if arms.Arm? {
      if arms.cond.None? || Truth(Eval(Tree(arms.cond.value), w.vars, pow).value) {
        BlockShallow(arms.body, env, floor, cur, w, fuel, pow, k);
      } else {
        ArmsShallow(arms.rest, env, floor, DepthAfterBlock(arms.body, cur), w, fuel, pow, k);
      }
    }
  }

  // A pass through a loop leaves the offsets of the loop's depth and of all
  // shallower ones as they were, and empties the deeper ones down from where the
  // body's code ends.
  lemma {:induction false} TickKeepsOffset(body: Block, d: nat, env: Env, w: World, fuel: nat, pow: Power, k: nat)
    requires CheckBlock(body, env, d).Some? && Tick(body, d, w, fuel, pow).Some? && k < |w.offs|
    ensures var w' := Tick(body, d, w, fuel, pow).value;
      |w'.offs| == |w.offs| && (k <= d ==> w'.offs[k] == w.offs[k])
        && (d < k <= DepthAfterBlock(body, d) ==> w'.offs[k] == 0)
    decreases fuel, body, 1
  {
    hide CheckBlock, RunBlock;
    var r := RunBlock(body, d, w, fuel, pow).value;
    ResetAt(r.offs, DepthAfterBlock(body, d), d, k);
    if k < d { BlockShallow(body, env, d, d, w, fuel, pow, k); }
  }

  lemma {:induction false} CycleKeepsOffset(c: Stmt, env: Env, to: Val, step: Val, w: World, fuel: nat, pow: Power,
                                            k: nat)
    requires c.Cycle? && CheckBlock(c.body, env, c.depth).Some? && RunCycle(c, to, step, w, fuel, pow).Some?
    requires k < |w.offs|
    ensures var w' := RunCycle(c, to, step, w, fuel, pow).value;
      |w'.offs| == |w.offs| && (k <= c.depth ==> w'.offs[k] == w.offs[k])
    decreases fuel, c, 0
  {
    hide CheckBlock, Tick, CoerceVal;
    NumValue(to);
    NumValue(step);
    if w.vars[c.x].i <= CoerceVal(to, NUM).value.i {
      TickKeepsOffset(c.body, c.depth, env, w, fuel - 1, pow, k);
      var r := Tick(c.body, c.depth, w, fuel - 1, pow).value;
      var next := NumV(Wrap(r.vars[c.x].i + CoerceVal(step, NUM).value.i));
      CycleKeepsOffset(c, env, to, step, r.(vars := r.vars[c.x := next]), fuel - 1, pow, k);
    }
  }

  lemma {:induction false} SeasonKeepsOffset(c: Stmt, env: Env, w: World, fuel: nat, pow: Power, k: nat)
    requires c.Season? && CheckBlock(c.body, env, c.depth).Some? && RunSeason(c, w, fuel, pow).Some? && k < |w.offs|
    ensures var w' := RunSeason(c, w, fuel, pow).value;
      |w'.offs| == |w.offs| && (k <= c.depth ==> w'.offs[k] == w.offs[k])
    decreases fuel, c, 0
  {
    hide CheckBlock, Tick, Eval, Tree, Truth;
    if Truth(Eval(Tree(c.cond), w.vars, pow).value) {
      TickKeepsOffset(c.body, c.depth, env, w, fuel - 1, pow, k);
      SeasonKeepsOffset(c, env, Tick(c.body, c.depth, w, fuel - 1, pow).value, fuel - 1, pow, k);
    }
  }

  // ── A leak ──

  // IF TRUE creates t at depth 3, its other arm creates u at depth 2.
  const DEEP := Create(3, "t", NUM, [IntNumber(1)])
  const SHALLOW := Create(2, "u", NUM, [IntNumber(1)])
  const LEAKY := Cons(If(1, Arm(Some([Bool(true)]), Cons(DEEP, Nil), Arm(None, Cons(SHALLOW, Nil), NoArm))), Nil)

  lemma Constants()
    ensures Tree([Bool(true)]) == BoolLit(true) && Tree([IntNumber(1)]) == IntLit(1)
  {
    ReadsBack(BoolLit(true));
    ReadsBack(IntLit(1));
  }

  lemma LeakyChecked()
    ensures CheckBlock(LEAKY, map[], 0).Some? && DepthAfterBlock(LEAKY, 0) == 2
  {
    hide Parse, Tree;
    Constants();
    var kept := Keep(map[], 1);
    assert CheckStmt(SHALLOW, kept, 1).Some? by { assert "u" !in Keep(kept, 2); }
    assert CheckStmt(DEEP, kept, 1).Some? by { assert "t" !in Keep(kept, 3); }
    var arms := LEAKY.head.arms;
    assert CheckBlock(arms.body, kept, 1).Some? && CheckBlock(arms.rest.body, kept, 1).Some?;
    assert CheckArms(arms.rest, kept, 1) && CheckArms(arms, kept, 1);
    assert DepthAfterBlock(arms.body, 1) == 3 && DepthAfterBlock(arms.rest.body, 3) == 2;
    assert DepthAfterArms(arms, 1) == 2;
  }

  lemma LeakyRun(w: World, fuel: nat, pow: Power)
    requires |w.offs| == DEPTHS && 0 <= w.offs[3] && w.offs[3] + 8 <= ARENA
    ensures var r := RunBlock(LEAKY, 0, w, fuel, pow);
      r.Some? && |r.value.offs| == DEPTHS && r.value.offs[3] == w.offs[3] + 8
  {
    hide Parse, Tree;
    Constants();
    var arms := LEAKY.head.arms;
    assert Reset(w.offs, 0, 1) == w.offs && Reset(w.offs, 1, 3) == w.offs;
    assert EvalAs([IntNumber(1)], NUM, w.vars, pow) == Some(NumV(1));
    var made := World(w.vars["t" := NumV(1)], w.offs[3 := w.offs[3] + 8]);
    assert RunStmt(DEEP, 1, w, fuel, pow) == Some(made);
    assert RunBlock(arms.body, 1, w, fuel, pow) == Some(made);
    assert RunArms(arms, 1, w, fuel, pow) == Some(made);
    assert RunStmt(LEAKY.head, 0, w, fuel, pow) == Some(made);
  }

  // The arenas a pass empties are those down from the depth of the body's last
  // statement in program order, not of the statements that ran: this checked body
  // leaves 8 more bytes in arena 3 on every pass.
  lemma LeakyPass(w: World, fuel: nat, pow: Power)
    requires |w.offs| == DEPTHS && 0 <= w.offs[3] && w.offs[3] + 8 <= ARENA
    ensures CheckBlock(LEAKY, map[], 0).Some?
    ensures var r := Tick(LEAKY, 0, w, fuel, pow);
      r.Some? && |r.value.offs| == DEPTHS && r.value.offs[3] == w.offs[3] + 8
  {
    hide RunBlock, CheckBlock, DepthAfterBlock;
    LeakyChecked();
    LeakyRun(w, fuel, pow);
    ResetAt(RunBlock(LEAKY, 0, w, fuel, pow).value.offs, 2, 0, 3);
  }

  // Any number of passes, as long as the arena lasts.
  ghost function Passes(body: Block, d: nat, w: World, fuel: nat, pow: Power, n: nat): Option<World>
    decreases n
  {
    if n == 0 then Some(w)
    else
      var before := Passes(body, d, w, fuel, pow, n - 1);
      if before.None? then None else Tick(body, d, before.value, fuel, pow)
  }

  lemma {:induction false} LeakAccumulates(w: World, fuel: nat, pow: Power, n: nat)
    requires |w.offs| == DEPTHS && 0 <= w.offs[3] && w.offs[3] + 8 * n <= ARENA
    ensures var r := Passes(LEAKY, 0, w, fuel, pow, n);
      r.Some? && |r.value.offs| == DEPTHS && r.value.offs[3] == w.offs[3] + 8 * n
    decreases n
  {
    hide Tick, CheckBlock;
    if n > 0 {
      LeakAccumulates(w, fuel, pow, n - 1);
      LeakyPass(Passes(LEAKY, 0, w, fuel, pow, n - 1).value, fuel, pow);
    }
  }
}
