// Every arrival at a CYCLE's condition, in the emitted code: where the machine is,
// what it holds, and that no allocation of a pass meets the loop variable.
module FlowArrivals {
  import opened Options
  import opened ExprSyntax
  import opened Ir
  import opened ExprSpec
  import opened ExprProof
  import opened FlowSpec
  import opened Machine
  import opened FlowRun
  import opened FlowStore
  import opened FlowCheck
  import opened FlowProof
  import opened FlowProgram

  // The world at the i-th arrival, when the loop gets that far: every earlier test
  // let a pass begin.
  ghost function Arrival(c: Stmt, to: Val, step: Val, w: World, fuel: nat, pow: Power, i: nat): Option<World>
    requires c.Cycle? && i <= fuel
    decreases i
  {
    if i == 0 then Some(w)
    else
      var before := Arrival(c, to, step, w, fuel, pow, i - 1);
      if before.None? then None else Again(c, to, step, before.value, fuel - i, pow)
  }

  // The test, a pass and the step.
  ghost function Again(c: Stmt, to: Val, step: Val, w: World, fuel: nat, pow: Power): Option<World>
    requires c.Cycle?
  {
    var t, k := CoerceVal(to, NUM), CoerceVal(step, NUM);
    if t.None? || k.None? || c.x !in w.vars || !w.vars[c.x].NumV? || w.vars[c.x].i > t.value.i then None
    else
      var r := Tick(c.body, c.depth, w, fuel, pow);
      if r.None? || c.x !in r.value.vars || !r.value.vars[c.x].NumV? then None
      else Some(r.value.(vars := r.value.vars[c.x := NumV(Wrap(r.value.vars[c.x].i + k.value.i))]))
  }

  // The loop's run is its run from any of its arrivals.
  lemma {:induction false} RunFromArrival(c: Stmt, to: Val, step: Val, w: World, fuel: nat, pow: Power, i: nat)
    requires c.Cycle? && i <= fuel && Arrival(c, to, step, w, fuel, pow, i).Some?
    ensures RunCycle(c, to, step, w, fuel, pow)
      == RunCycle(c, to, step, Arrival(c, to, step, w, fuel, pow, i).value, fuel - i, pow)
    decreases i
  {
    hide Tick, CoerceVal;
    if i > 0 {
      NumValue(to);
      NumValue(step);
      RunFromArrival(c, to, step, w, fuel, pow, i - 1);
    }
  }

  // ── One round of the machine ──

  // The code of one round, from the condition's label back to it.
  lemma RoundRuns(prog: seq<Line>, pow: Power, s: Stmt, env: Env, g: Gen, w: World, to: Val, step: Val, fuel: nat,
                  regs: Regs, mem: Mem)
    returns (regs': Regs, mem': Mem)
    requires s.Cycle? && g.depth == s.depth < DEPTHS && Within(env, s.depth)
    requires CheckBlock(s.body, env[s.x := Decl(NUM, s.depth)], s.depth).Some?
    requires Again(s, to, step, w, fuel, pow).Some? && LabelsOnce(prog)
    requires GenCycle(s, g).st.body <= prog && AtHead(s, GenCycleHead(s, g), env, w, to, step, regs, mem)
    ensures var h := GenCycleHead(s, g);
      && Goes(prog, pow, h.g.st.regs, At(CycleEntry(h, g.blocks), regs, mem), At(CycleEntry(h, g.blocks), regs', mem'))
      && AtHead(s, h, env, Again(s, to, step, w, fuel, pow).value, to, step, regs', mem')
      && |mem'.offs| == |mem.offs| && s.depth < |mem.offs| && mem'.offs[s.depth] == mem.offs[s.depth]
  {
    hide Goes, Good, LabelsOnce, GenBody, CheckBlock, Tick, Lands, GenCycle, GenCycleTest, GenCycleStep, GenCycleHead,
         CoerceVal, CycleEnd, Ready;
    var b := g.blocks;
    var h := GenCycleHead(s, g);
    var n := h.g.st.regs;
    var t := h.g.(st := GenCycleTest(h, b));
    var g1 := GenBody(s.body, s.depth, t);
    var envx := env[s.x := Decl(NUM, s.depth)];
    CyclePrefix(s, g, prog);
    var m := At(CycleEntry(h, b), regs, mem);
    NumValue(to);
    NumValue(step);
    HeadGen(s, g);
    var regs1 := SimCycleTest(prog, pow, s, h, b, env, w, to, step, regs, mem, CycleEnd(h, b, g1.st));
    GoodMore(envx, h.g.scope, w, regs1, mem, n, t.st.regs);
    var regs2, mem2 := SimTick(prog, pow, s.body, s.depth, envx, t, w, fuel, regs1, mem);
    var w2 := Tick(s.body, s.depth, w, fuel, pow).value;
    GoesAgree(prog, pow, t.st.regs, At(t.st, regs1, mem), At(g1.st, regs2, mem2));
    AfterTick(s, h, env, w, w2, to, step, regs1, regs2, mem, mem2, t.st.regs);
    GoesOn(prog, pow, n, t.st.regs, m, At(t.st, regs1, mem), At(g1.st, regs2, mem2));
    regs', mem' := SimCycleStep(prog, pow, s, h, b, env, w2, to, step, g1.st, regs2, mem2);
    GoesThen(prog, pow, n, m, At(g1.st, regs2, mem2), At(CycleEntry(h, b), regs', mem'));
    HeadBelow(s, h, env, w, to, step, regs, mem);
    HeadBelow(s, h, env, Again(s, to, step, w, fuel, pow).value, to, step, regs', mem');
    TickKeepsOffset(s.body, s.depth, envx, w, fuel, pow, s.depth);
  }

  // Where the loop variable is.
  ghost function VarAt(s: Stmt, h: CycleHead, regs: Regs): Option<Val>
    requires s.Cycle? && s.x in h.g.scope
  {
    var ptr := h.g.scope[s.x].ptr;
    if ptr in regs then Some(regs[ptr]) else None
  }

  lemma HeadBelow(s: Stmt, h: CycleHead, env: Env, w: World, to: Val, step: Val, regs: Regs, mem: Mem)
    requires s.Cycle? && AtHead(s, h, env, w, to, step, regs, mem)
    ensures mem.offs == w.offs && |mem.offs| == DEPTHS && s.depth < |mem.offs|
    ensures s.x in h.g.scope && h.g.scope[s.x].ptr < h.g.st.regs && VarAt(s, h, regs).Some?
    ensures var p := VarAt(s, h, regs).value; p.CellPtr? && p.d == s.depth && p.o + SizeOf(NUM) <= mem.offs[s.depth]
  {
    hide Ready, Disjoint;
    var envx := env[s.x := Decl(NUM, s.depth)];
    assert SlotOk(envx[s.x], h.g.scope[s.x], w.vars[s.x], regs, mem.cells, w.offs, h.g.st.regs);
  }

  // ── What a run allocates ──

  datatype Chunk = Chunk(d: nat, o: int, size: nat)

  // The bytes handed out, in order, up to where the run ends or stops.
  ghost function HandedBlock(b: Block, cur: nat, w: World, fuel: nat, pow: Power): seq<Chunk>
    decreases fuel, b, 0
  {
    if b.Nil? then []
    else
      var r := RunStmt(b.head, cur, w, fuel, pow);
      HandedStmt(b.head, cur, w, fuel, pow) + if r.None? then []
        else HandedBlock(b.tail, DepthAfter(b.head), r.value, fuel, pow)
  }

  ghost function HandedStmt(s: Stmt, cur: nat, w: World, fuel: nat, pow: Power): seq<Chunk>
    decreases fuel, s, 1
  {
    var w0 := w.(offs := Reset(w.offs, cur, s.depth));
    match s
    case Create(d, _, ty, _) => if d < |w0.offs| then [Chunk(d, w0.offs[d], SizeOf(ty))] else []
    case If(d, arms) => HandedArms(arms, d, w0, fuel, pow)
    case Cycle(d, x, from, to, step, _) =>
      var f := EvalAs(from, NUM, w0.vars, pow);
      var t := Eval(Tree(to), w0.vars, pow);
      var k := if step.Some? then Eval(Tree(step.value), w0.vars, pow) else Some(NumV(1));
      var offs := Allocate(w0.offs, d, NUM);
      if f.None? || t.None? || k.None? || offs.None? then []
      else
        [Chunk(d, w0.offs[d], SizeOf(NUM))] +
        HandedCycle(s, t.value, k.value, World(w0.vars[x := f.value], offs.value), fuel, pow)
    case Season(_, _, _) => HandedSeason(s, w0, fuel, pow)
    case _ => []
  }

  ghost function HandedArms(arms: Arms, cur: nat, w: World, fuel: nat, pow: Power): seq<Chunk>
    decreases fuel, arms, 0
  {
    if arms.NoArm? then []
    else if arms.cond.None? then HandedBlock(arms.body, cur, w, fuel, pow)
    else
      var c := Eval(Tree(arms.cond.value), w.vars, pow);
      if c.None? then []
      else if Truth(c.value) then HandedBlock(arms.body, cur, w, fuel, pow)
      else HandedArms(arms.rest, DepthAfterBlock(arms.body, cur), w, fuel, pow)
  }

  ghost function HandedCycle(c: Stmt, to: Val, step: Val, w: World, fuel: nat, pow: Power): seq<Chunk>
    requires c.Cycle?
    decreases fuel, c, 0
  {
    var t := CoerceVal(to, NUM);
    if fuel == 0 || t.None? || c.x !in w.vars || !w.vars[c.x].NumV? || w.vars[c.x].i > t.value.i then []
    else
      var r := Again(c, to, step, w, fuel - 1, pow);
      HandedBlock(c.body, c.depth, w, fuel - 1, pow) + if r.None? then []
        else HandedCycle(c, to, step, r.value, fuel - 1, pow)
  }

  ghost function HandedSeason(c: Stmt, w: World, fuel: nat, pow: Power): seq<Chunk>
    requires c.Season?
    decreases fuel, c, 0
  {
    var t := Eval(Tree(c.cond), w.vars, pow);
    if fuel == 0 || t.None? || !Truth(t.value) then []
    else
      var r := Tick(c.body, c.depth, w, fuel - 1, pow);
      HandedBlock(c.body, c.depth, w, fuel - 1, pow) + if r.None? then [] else HandedSeason(c, r.value, fuel - 1, pow)
  }

  // All in arena k or deeper, and none below o in arena k.
  ghost predicate From(chunks: seq<Chunk>, k: nat, o: int) {
    forall c :: c in chunks ==> k <= c.d && (c.d == k ==> o <= c.o)
  }

  lemma FromBoth(a: seq<Chunk>, b: seq<Chunk>, k: nat, o: int, o': int)
    requires From(a, k, o) && From(b, k, o') && o <= o'
    ensures From(a + b, k, o)
  {
  }

  lemma FromNone(k: nat, o: int)
    ensures From([], k, o)
  {
  }

  lemma FromOne(c: Chunk, k: nat, o: int)
    requires k <= c.d && (c.d == k ==> o <= c.o)
    ensures From([c], k, o)
  {
  }

  // The run keeps what arena k holds.
  ghost predicate Grown(w: World, r: Option<World>, k: nat) {
    r.Some? ==> |r.value.offs| == |w.offs| && (k < |w.offs| ==> w.offs[k] <= r.value.offs[k])
  }

  // A block from arena k down allocates above what arena k holds, and keeps it.
  lemma {:induction false} BlockHanded(b: Block, env: Env, floor: nat, k: nat, cur: nat, w: World, fuel: nat,
                                       pow: Power)
    requires CheckBlock(b, env, floor).Some? && k <= floor && k < |w.offs|
    ensures From(HandedBlock(b, cur, w, fuel, pow), k, w.offs[k]) && Grown(w, RunBlock(b, cur, w, fuel, pow), k)
    decreases fuel, b, 0
  {
    hide CheckStmt, RunStmt, HandedStmt, From, DepthAfter;
    FromNone(k, w.offs[k]);
    if b.Cons? {
      StmtHanded(b.head, env, floor, k, cur, w, fuel, pow);
      var a, r := HandedStmt(b.head, cur, w, fuel, pow), RunStmt(b.head, cur, w, fuel, pow);
      if r.Some? {
        BlockHanded(b.tail, CheckStmt(b.head, env, floor).value, floor, k, DepthAfter(b.head), r.value, fuel, pow);
        FromBoth(a, HandedBlock(b.tail, DepthAfter(b.head), r.value, fuel, pow), k, w.offs[k], r.value.offs[k]);
      } else {
        FromBoth(a, [], k, w.offs[k], w.offs[k]);
      }
    }
  }

  lemma {:induction false} StmtHanded(s: Stmt, env: Env, floor: nat, k: nat, cur: nat, w: World, fuel: nat, pow: Power)
    requires CheckStmt(s, env, floor).Some? && k <= floor && k < |w.offs|
    ensures From(HandedStmt(s, cur, w, fuel, pow), k, w.offs[k]) && Grown(w, RunStmt(s, cur, w, fuel, pow), k)
    decreases fuel, s, 2
  {
    hide AsTyped, EvalAs, Eval, Typed, Tree, Mixed, CheckBlock, CheckArms, RunArms, RunCycle, RunSeason, HandedArms,
         HandedCycle, HandedSeason, From;
    var kept := Keep(env, s.depth);
    var w0 := w.(offs := Reset(w.offs, cur, s.depth));
    ResetAt(w.offs, cur, s.depth, k);
    FromNone(k, w.offs[k]);
    if s.depth < |w.offs| {
      FromOne(Chunk(s.depth, w0.offs[s.depth], if s.Create? then SizeOf(s.ty) else SizeOf(NUM)), k, w.offs[k]);
    }
    if s.If? {
      ArmsHanded(s.arms, kept, s.depth, k, s.depth, w0, fuel, pow);
    } else if s.Cycle? {
      var f, t := EvalAs(s.from, NUM, w0.vars, pow), Eval(Tree(s.to), w0.vars, pow);
      var step := if s.step.Some? then Eval(Tree(s.step.value), w0.vars, pow) else Some(NumV(1));
      var offs := Allocate(w0.offs, s.depth, NUM);
      if f.Some? && t.Some? && step.Some? && offs.Some? {
        var w1 := World(w0.vars[s.x := f.value], offs.value);
        CycleHanded(s, kept[s.x := Decl(NUM, s.depth)], k, t.value, step.value, w1, fuel, pow);
        FromBoth([Chunk(s.depth, w0.offs[s.depth], SizeOf(NUM))], HandedCycle(s, t.value, step.value, w1, fuel, pow),
          k, w.offs[k], w1.offs[k]);
      }
    } else if s.Season? {
      SeasonHanded(s, kept, k, w0, fuel, pow);
    }
  }

  lemma {:induction false} ArmsHanded(arms: Arms, env: Env, floor: nat, k: nat, cur: nat, w: World, fuel: nat,
                                      pow: Power)
    requires CheckArms(arms, env, floor) && k <= floor && k < |w.offs|
    ensures From(HandedArms(arms, cur, w, fuel, pow), k, w.offs[k]) && Grown(w, RunArms(arms, cur, w, fuel, pow), k)
    decreases fuel, arms, 0
  {
    hide Eval, Typed, Tree, CheckBlock, RunBlock, HandedBlock, Truth, DepthAfterBlock, From;
    FromNone(k, w.offs[k]);
    if arms.Arm? {
      BlockHanded(arms.body, env, floor, k, cur, w, fuel, pow);
      ArmsHanded(arms.rest, env, floor, k, DepthAfterBlock(arms.body, cur), w, fuel, pow);
    }
  }

  lemma {:induction false} CycleHanded(c: Stmt, env: Env, k: nat, to: Val, step: Val, w: World, fuel: nat, pow: Power)
    requires c.Cycle? && CheckBlock(c.body, env, c.depth).Some? && k <= c.depth && k < |w.offs|
    ensures From(HandedCycle(c, to, step, w, fuel, pow), k, w.offs[k])
    ensures Grown(w, RunCycle(c, to, step, w, fuel, pow), k)
    decreases fuel, c, 0
  {
    hide CheckBlock, Tick, CoerceVal, HandedBlock, From;
    FromNone(k, w.offs[k]);
    NumValue(to);
    NumValue(step);
    if RunCycle(c, to, step, w, fuel, pow).Some? { CycleKeepsOffset(c, env, to, step, w, fuel, pow, k); }
    if fuel > 0 {
      BlockHanded(c.body, env, c.depth, k, c.depth, w, fuel - 1, pow);
      var a, r := HandedBlock(c.body, c.depth, w, fuel - 1, pow), Again(c, to, step, w, fuel - 1, pow);
      if r.Some? {
        TickKeepsOffset(c.body, c.depth, env, w, fuel - 1, pow, k);
        CycleHanded(c, env, k, to, step, r.value, fuel - 1, pow);
        FromBoth(a, HandedCycle(c, to, step, r.value, fuel - 1, pow), k, w.offs[k], w.offs[k]);
      } else {
        FromBoth(a, [], k, w.offs[k], w.offs[k]);
      }
    }
  }

  lemma {:induction false} SeasonHanded(c: Stmt, env: Env, k: nat, w: World, fuel: nat, pow: Power)
    requires c.Season? && CheckBlock(c.body, env, c.depth).Some? && k <= c.depth && k < |w.offs|
    ensures From(HandedSeason(c, w, fuel, pow), k, w.offs[k]) && Grown(w, RunSeason(c, w, fuel, pow), k)
    decreases fuel, c, 0
  {
    hide CheckBlock, Tick, Eval, Tree, Truth, HandedBlock, From;
    FromNone(k, w.offs[k]);
    if RunSeason(c, w, fuel, pow).Some? { SeasonKeepsOffset(c, env, w, fuel, pow, k); }
    if fuel > 0 {
      BlockHanded(c.body, env, c.depth, k, c.depth, w, fuel - 1, pow);
      var a, r := HandedBlock(c.body, c.depth, w, fuel - 1, pow), Tick(c.body, c.depth, w, fuel - 1, pow);
      if r.Some? {
        TickKeepsOffset(c.body, c.depth, env, w, fuel - 1, pow, k);
        SeasonHanded(c, env, k, r.value, fuel - 1, pow);
        FromBoth(a, HandedSeason(c, r.value, fuel - 1, pow), k, w.offs[k], w.offs[k]);
      } else {
        FromBoth(a, [], k, w.offs[k], w.offs[k]);
      }
    }
  }

  // ── Every arrival ──

  // None of the chunks shares a byte with the variable at p.
  ghost predicate Spares(p: Val, chunks: seq<Chunk>) {
    p.CellPtr? && forall c :: c in chunks ==> c.d != p.d || !Meets(p.o, SizeOf(NUM), c.o, c.size)
  }

  lemma SparesFrom(p: Val, chunks: seq<Chunk>, d: nat, o: int)
    requires p.CellPtr? && p.d == d && p.o + SizeOf(NUM) <= o && From(chunks, d, o)
    ensures Spares(p, chunks)
  {
  }

  // At every arrival the machine holds the structured run's world there; the offset of
  // the loop's depth is what it was at the first; the loop variable is where it was; and
  // nothing that the pass from there allocates shares a byte with it.
  lemma {:induction false} EveryArrival(prog: seq<Line>, pow: Power, s: Stmt, env: Env, g: Gen, w: World, to: Val,
                                        step: Val, fuel: nat, regs: Regs, mem: Mem, i: nat)
    returns (regs': Regs, mem': Mem)
    requires s.Cycle? && g.depth == s.depth < DEPTHS && Within(env, s.depth)
    requires CheckBlock(s.body, env[s.x := Decl(NUM, s.depth)], s.depth).Some?
    requires i <= fuel && Arrival(s, to, step, w, fuel, pow, i).Some? && LabelsOnce(prog)
    requires GenCycle(s, g).st.body <= prog && AtHead(s, GenCycleHead(s, g), env, w, to, step, regs, mem)
    ensures var h := GenCycleHead(s, g);
      && Goes(prog, pow, h.g.st.regs, At(CycleEntry(h, g.blocks), regs, mem), At(CycleEntry(h, g.blocks), regs', mem'))
      && AtHead(s, h, env, Arrival(s, to, step, w, fuel, pow, i).value, to, step, regs', mem')
      && VarAt(s, h, regs').Some? && VarAt(s, h, regs') == VarAt(s, h, regs)
    ensures |mem'.offs| == |mem.offs| && s.depth < |mem.offs| && mem'.offs[s.depth] == mem.offs[s.depth]
    ensures i < fuel ==> Spares(VarAt(s, GenCycleHead(s, g), regs').value,
      HandedBlock(s.body, s.depth, Arrival(s, to, step, w, fuel, pow, i).value, fuel - i - 1, pow))
    decreases i
  {
    hide Goes, AtHead, LabelsOnce, CheckBlock, Again, GenCycle, GenCycleHead, HandedBlock, Spares, From;
    var h := GenCycleHead(s, g);
    HeadBelow(s, h, env, w, to, step, regs, mem);
    if i == 0 {
      regs', mem' := regs, mem;
      GoesSelf(prog, pow, h.g.st.regs, At(CycleEntry(h, g.blocks), regs, mem));
    } else {
      var w1 := Arrival(s, to, step, w, fuel, pow, i - 1).value;
      var regs1, mem1 := EveryArrival(prog, pow, s, env, g, w, to, step, fuel, regs, mem, i - 1);
      regs', mem' := RoundRuns(prog, pow, s, env, g, w1, to, step, fuel - i, regs1, mem1);
      var m := At(CycleEntry(h, g.blocks), regs, mem);
      GoesThen(prog, pow, h.g.st.regs, m, At(CycleEntry(h, g.blocks), regs1, mem1),
        At(CycleEntry(h, g.blocks), regs', mem'));
      GoesAgree(prog, pow, h.g.st.regs, m, At(CycleEntry(h, g.blocks), regs', mem'));
    }
    var w' := Arrival(s, to, step, w, fuel, pow, i).value;
    HeadBelow(s, h, env, w', to, step, regs', mem');
    if i < fuel {
      BlockHanded(s.body, env[s.x := Decl(NUM, s.depth)], s.depth, s.depth, s.depth, w', fuel - i - 1, pow);
      SparesFrom(VarAt(s, h, regs').value, HandedBlock(s.body, s.depth, w', fuel - i - 1, pow), s.depth,
        w'.offs[s.depth]);
    }
  }
}
