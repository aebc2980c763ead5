// Running the code of a checked program follows the program: same variables,
// same arena offsets, at the end of its code.
module FlowProof {
  import opened Options
  import opened ExprSyntax
  import opened Ir
  import opened ExprSpec
  import opened ExprProof
  import opened FlowSpec
  import opened Machine
  import opened FlowRun
  import opened FlowStore
  import opened FlowCheck

  // A run after a run; the second may change more registers.
  lemma GoesOn(prog: seq<Line>, pow: Power, n: nat, n1: nat, m: Config, m1: Config, m2: Config)
    requires Goes(prog, pow, n, m, m1) && Goes(prog, pow, n1, m1, m2) && n <= n1
    ensures Goes(prog, pow, n, m, m2)
  {
    GoesFewer(prog, pow, n1, n, m1, m2);
    GoesThen(prog, pow, n, m, m1, m2);
  }

  lemma GoesAgree(prog: seq<Line>, pow: Power, n: nat, m: Config, m': Config)
    requires Goes(prog, pow, n, m, m')
    ensures Agree(m.regs, m'.regs, n)
  {
  }

  lemma Earlier(st: St, st': St, prog: seq<Line>)
    requires Grows(st, st') && st'.body <= prog
    ensures st.body <= prog && st.regs <= st'.regs
  {
  }

  lemma LineBefore(st: St, line: Line, prog: seq<Line>)
    requires Line1(st, line).body <= prog
    ensures st.body <= prog
  {
    PrefixLine(prog, st.body, line);
  }

  // The value of tokens as a type, and its code.
  lemma GoesAs(prog: seq<Line>, pow: Power, tokens: seq<Token>, ty: Ty, env: Env, scope: Scope, w: World, st: St,
               regs: Regs, mem: Mem, n: nat)
    returns (regs': Regs)
    requires AsTyped(tokens, ty, TypesOf(env)) && EvalAs(tokens, ty, w.vars, pow).Some?
    requires Good(env, scope, w, regs, mem, n) && n <= st.regs
    requires var v := Comp(Tree(tokens), scope, st); CoerceTo(v.v, ty, v.st).st.body <= prog
    ensures var v := Comp(Tree(tokens), scope, st);
      var c := CoerceTo(v.v, ty, v.st);
      && Goes(prog, pow, st.regs, At(st, regs, mem), At(c.st, regs', mem)) && Agree(regs, regs', st.regs)
      && OpVal(c.op, regs') == EvalAs(tokens, ty, w.vars, pow) && HasType(EvalAs(tokens, ty, w.vars, pow).value, ty)
      && Good(env, scope, w, regs', mem, n) && st.regs <= c.st.regs && st.body <= prog
  {
    hide Goes, Comp, CoerceTo, Eval, Typed, Tree, HasType, OpVal, Good, Coercible, CoerceVal;
    var v := Comp(Tree(tokens), scope, st);
    var c := CoerceTo(v.v, ty, v.st);
    CoerceGrows(v.v, ty, v.st);
    Earlier(v.st, c.st, prog);
    CompGrowth(Tree(tokens), scope, st);
    Earlier(st, v.st, prog);
    GoodBound(env, scope, w, regs, mem, n);
    var x := Eval(Tree(tokens), w.vars, pow).value;
    var regs1 := GoesComp(prog, pow, Tree(tokens), TypesOf(env), scope, w.vars, st, regs, mem);
    regs' := GoesCoerce(prog, pow, v.v, x, ty, v.st, regs1, mem);
    GoesOn(prog, pow, st.regs, v.st.regs, At(st, regs, mem), At(v.st, regs1, mem), At(c.st, regs', mem));
    GoesAgree(prog, pow, st.regs, At(st, regs, mem), At(c.st, regs', mem));
    GoodAgree(env, scope, w, regs, regs', mem, n, n);
  }

  // ── Plain statements ──

  lemma SimSet(prog: seq<Line>, pow: Power, s: Stmt, env: Env, g: Gen, w: World, regs: Regs, mem: Mem, v: Val)
    returns (regs': Regs, mem': Mem)
    requires s.Set? && s.x in env && AsTyped(s.e, env[s.x].ty, TypesOf(env))
    requires EvalAs(s.e, env[s.x].ty, w.vars, pow) == Some(v)
    requires Good(env, g.scope, w, regs, mem, g.st.regs) && GenSet(s, g).st.body <= prog
    ensures Goes(prog, pow, g.st.regs, At(g.st, regs, mem), At(GenSet(s, g).st, regs', mem'))
    ensures Good(env, g.scope, w.(vars := w.vars[s.x := v]), regs', mem', g.st.regs)
  {
    hide Goes, Comp, CoerceTo, EvalAs, AsTyped, Tree, HasType, OpVal, Good, StoreVal;
    SlotOf(env, g.scope, w, regs, mem, g.st.regs, s.x);
    var info := g.scope[s.x];
    var e := Comp(Tree(s.e), g.scope, g.st);
    var c := CoerceTo(e.v, info.ty, e.st);
    var line := Store(info.ty, c.op, Reg(info.ptr));
    LineBefore(c.st, line, prog);
    regs' := GoesAs(prog, pow, s.e, info.ty, env, g.scope, w, g.st, regs, mem, g.st.regs);
    GoodStore(env, g.scope, w, regs', mem, g.st.regs, s.x, v);
    var p := OpVal(Reg(info.ptr), regs').value;
    mem' := StoreVal(info.ty, v, p, mem).value;
    GoesStore(prog, pow, g.st.regs, c.st, line, regs', mem, v, p);
    GoesThen(prog, pow, g.st.regs, At(g.st, regs, mem), At(c.st, regs', mem), At(GenSet(s, g).st, regs', mem'));
  }

  lemma SlotOf(env: Env, scope: Scope, w: World, regs: Regs, mem: Mem, n: nat, x: string)
    requires Good(env, scope, w, regs, mem, n) && x in env
    ensures x in scope && x in w.vars && scope[x].ty == env[x].ty && scope[x].ptr < n && HasType(w.vars[x], env[x].ty)
    ensures scope[x].ptr in regs && TypeOf(w.vars[x]) == env[x].ty
    ensures forall pow: Power :: RhsVal(Load(env[x].ty, Reg(scope[x].ptr)), regs, mem, pow) == Some(w.vars[x])
  {
    assert SlotOk(env[x], scope[x], w.vars[x], regs, mem.cells, w.offs, n);
  }

  lemma SimIncDec(prog: seq<Line>, pow: Power, s: Stmt, env: Env, g: Gen, w: World, regs: Regs, mem: Mem, v: Val,
                  r: Val)
    returns (regs': Regs, mem': Mem)
    requires s.IncDec? && s.x in env && Numeric(env[s.x].ty) && AsTyped(s.e, env[s.x].ty, TypesOf(env))
    requires EvalAs(s.e, env[s.x].ty, w.vars, pow) == Some(v) && s.x in w.vars
    requires Mixed(if s.plus then IAdd else ISub, if s.plus then FAdd else FSub, w.vars[s.x], v) == Some(r)
    requires Good(env, g.scope, w, regs, mem, g.st.regs) && GenIncDec(s, g).st.body <= prog
    ensures Goes(prog, pow, g.st.regs, At(g.st, regs, mem), At(GenIncDec(s, g).st, regs', mem'))
    ensures Good(env, g.scope, w.(vars := w.vars[s.x := r]), regs', mem', g.st.regs)
  {
    hide Goes, Comp, CoerceTo, EvalAs, AsTyped, Tree, Good, StoreVal;
    SlotOf(env, g.scope, w, regs, mem, g.st.regs, s.x);
    var info := g.scope[s.x];
    var n := g.st.regs;
    var load := Load(info.ty, Reg(info.ptr));
    var cur := Emit(g.st, load);
    var e := Comp(Tree(s.e), g.scope, cur.st);
    var c := CoerceTo(e.v, info.ty, e.st);
    var rhs := if info.ty == SCL then RealBin(if s.plus then FAdd else FSub, cur.op, c.op)
               else IntBin(if s.plus then IAdd else ISub, cur.op, c.op);
    var out := Emit(c.st, rhs);
    var line := Store(info.ty, out.op, Reg(info.ptr));
    LineBefore(out.st, line, prog);
    LineBefore(c.st, Ins(c.st.regs, rhs), prog);
    var regs1 := regs[n := w.vars[s.x]];
    GoodAgree(env, g.scope, w, regs, regs1, mem, n, n);
    var regs2 := GoesAs(prog, pow, s.e, info.ty, env, g.scope, w, cur.st, regs1, mem, n);
    GoesEmit(prog, pow, n, g.st, load, regs, mem);
    GoesOn(prog, pow, n, cur.st.regs, At(g.st, regs, mem), At(cur.st, regs1, mem), At(c.st, regs2, mem));
    assert RhsVal(rhs, regs2, mem, pow) == Some(r);
    regs' := regs2[c.st.regs := r];
    GoesEmit(prog, pow, n, c.st, rhs, regs2, mem);
    GoodAgree(env, g.scope, w, regs2, regs', mem, n, n);
    GoesThen(prog, pow, n, At(g.st, regs, mem), At(c.st, regs2, mem), At(out.st, regs', mem));
    GoodStore(env, g.scope, w, regs', mem, n, s.x, r);
    var p := OpVal(Reg(info.ptr), regs').value;
    mem' := StoreVal(info.ty, r, p, mem).value;
    GoesStore(prog, pow, n, out.st, line, regs', mem, r, p);
    GoesThen(prog, pow, n, At(g.st, regs, mem), At(out.st, regs', mem), At(GenIncDec(s, g).st, regs', mem'));
  }

  lemma SimCreate(prog: seq<Line>, pow: Power, s: Stmt, env: Env, g: Gen, w: World, regs: Regs, mem: Mem, v: Val)
    returns (regs': Regs, mem': Mem)
    requires s.Create? && s.depth < DEPTHS && s.x !in env && AsTyped(s.e, s.ty, TypesOf(env))
    requires EvalAs(s.e, s.ty, w.vars, pow) == Some(v)
    requires Allocate(w.offs, s.depth, s.ty).Some?
    requires Good(env, g.scope, w, regs, mem, g.st.regs) && GenCreate(s, g).st.body <= prog
    ensures Goes(prog, pow, g.st.regs, At(g.st, regs, mem), At(GenCreate(s, g).st, regs', mem'))
    ensures Good(env[s.x := Decl(s.ty, s.depth)], GenCreate(s, g).scope,
      World(w.vars[s.x := v], Allocate(w.offs, s.depth, s.ty).value), regs', mem', GenCreate(s, g).st.regs)
  {
    hide Goes, Comp, CoerceTo, EvalAs, AsTyped, Tree, Good, StoreVal, GenAlloc, Fresh, HasType;
    var n := g.st.regs;
    var offs := Allocate(w.offs, s.depth, s.ty).value;
    var w1 := w.(offs := offs);
    var p := GenAlloc(g.st, s.ty, s.depth);
    var e := Comp(Tree(s.e), g.scope, p.st);
    var c := CoerceTo(e.v, s.ty, e.st);
    var line := Store(s.ty, c.op, p.op);
    LineBefore(c.st, line, prog);
    CoerceGrows(e.v, s.ty, e.st);
    Earlier(e.st, c.st, prog);
    CompGrowth(Tree(s.e), g.scope, p.st);
    Earlier(p.st, e.st, prog);
    GoodOffsets(env, g.scope, w, regs, mem, n);
    var regs1 := GoesAlloc(prog, pow, g.st, s.ty, s.depth, regs, mem);
    var mem1 := mem.(offs := offs);
    GoodAllocate(env, g.scope, w, regs, mem, n, s.depth, s.ty);
    FreshAgree(env, g.scope, w, regs, regs1, mem, n, s.depth, w.offs[s.depth], s.ty);
    GoodAgree(env, g.scope, w1, regs, regs1, mem1, n, p.st.regs);
    regs' := GoesAs(prog, pow, s.e, s.ty, env, g.scope, w1, p.st, regs1, mem1, p.st.regs);
    FreshAgree(env, g.scope, w1, regs1, regs', mem1, p.st.regs, s.depth, w.offs[s.depth], s.ty);
    GoodAgree(env, g.scope, w1, regs', regs', mem1, p.st.regs, c.st.regs);
    GoesOn(prog, pow, n, p.st.regs, At(g.st, regs, mem), At(p.st, regs1, mem1), At(c.st, regs', mem1));
    GoodCreate(env, g.scope, w1, regs', mem1, c.st.regs, s.x, Decl(s.ty, s.depth), p.op.n, w.offs[s.depth], v);
    mem' := StoreVal(s.ty, v, regs'[p.op.n], mem1).value;
    GoesStore(prog, pow, n, c.st, line, regs', mem1, v, regs'[p.op.n]);
    GoesThen(prog, pow, n, At(g.st, regs, mem), At(c.st, regs', mem1), At(GenCreate(s, g).st, regs', mem'));
  }

  lemma GoodOffsets(env: Env, scope: Scope, w: World, regs: Regs, mem: Mem, n: nat)
    requires Good(env, scope, w, regs, mem, n)
    ensures Offsets(w.offs) && mem.offs == w.offs
  {
  }

  lemma GoodMore(env: Env, scope: Scope, w: World, regs: Regs, mem: Mem, n: nat, n': nat)
    requires Good(env, scope, w, regs, mem, n) && n <= n'
    ensures Good(env, scope, w, regs, mem, n')
  {
    GoodAgree(env, scope, w, regs, regs, mem, n, n');
  }

  // ── IF ──

  // The label that starts the arms, or the end of the IF when none is left.
  lemma ArmsLand(arms: Arms, i: nat, b: nat, k: nat, g: Gen, prog: seq<Line>)
    requires i + CountArms(arms) == k
    requires Line1(GenArms(arms, i, b, k, g).st, LabelLine(EndL(b))).body <= prog
    ensures Lands(prog, CondL(b, k, i), g.st) && GenArms(arms, i, b, k, g).st.body <= prog
  {
    LineBefore(GenArms(arms, i, b, k, g).st, LabelLine(EndL(b)), prog);
    if arms.Arm? {
      ArmPrefix(arms, i, b, k, g, prog);
      HeadGrows(arms, i, b, k, g);
    }
  }

  // An arm's code lies in the program piece by piece.
  lemma ArmPrefix(arms: Arms, i: nat, b: nat, k: nat, g: Gen, prog: seq<Line>)
    requires arms.Arm? && GenArms(arms, i, b, k, g).st.body <= prog
    ensures var h := g.(st := ArmHead(arms, i, b, k, g));
      var g1 := GenBlock(arms.body, h);
      && h.st.body <= prog && g1.st.body <= prog && Line1(g1.st, Br(EndL(b))).body <= prog
      && g.st.regs <= h.st.regs <= g1.st.regs && g1.st.regs <= GenArms(arms, i, b, k, g).st.regs
  {
    hide ArmHead, GenBlock;
    var h := g.(st := ArmHead(arms, i, b, k, g));
    var g1 := GenBlock(arms.body, h);
    var g2 := g1.(st := Line1(g1.st, Br(EndL(b))));
    ArmsGrow(arms.rest, i + 1, b, k, g2);
    Earlier(g2.st, GenArms(arms.rest, i + 1, b, k, g2).st, prog);
    LineBefore(g1.st, Br(EndL(b)), prog);
    BlockGrows(arms.body, h);
    HeadGrows(arms, i, b, k, g);
  }

  // From an arm's label to its body.
  lemma EnterArm(prog: seq<Line>, pow: Power, arms: Arms, i: nat, b: nat, k: nat, env: Env, g: Gen, w: World,
                 regs: Regs, mem: Mem)
    returns (regs': Regs)
    requires arms.Arm? && ArmHead(arms, i, b, k, g).body <= prog && LabelsOnce(prog)
    requires arms.cond.Some? ==>
      Typed(Tree(arms.cond.value), TypesOf(env)).Some? && Eval(Tree(arms.cond.value), w.vars, pow).Some?
    requires arms.cond.Some? ==> Truth(Eval(Tree(arms.cond.value), w.vars, pow).value)
    requires Good(env, g.scope, w, regs, mem, g.st.regs)
    ensures Goes(prog, pow, g.st.regs, At(Line1(g.st, LabelLine(CondL(b, k, i))), regs, mem),
      At(ArmHead(arms, i, b, k, g), regs', mem))
    ensures Good(env, g.scope, w, regs', mem, g.st.regs)
  {
    hide Goes, CompileCond, Typed, Eval, Tree, Good;
    var st := Line1(g.st, LabelLine(CondL(b, k, i)));
    if arms.cond.None? {
      regs' := regs;
      GoesBr(prog, pow, g.st.regs, st, ThenL(b, i), Line1(st, Br(ThenL(b, i))), regs, mem) by {
        LineBefore(Line1(st, Br(ThenL(b, i))), LabelLine(ThenL(b, i)), prog);
      }
    } else {
      regs' := TestArm(prog, pow, arms.cond.value, ThenL(b, i), CondL(b, k, i + 1), st, env, g.scope, w, regs, mem,
        g.st.regs,
        Line1(CompileCond(arms.cond.value, g.scope, st).st,
          CondBr(CompileCond(arms.cond.value, g.scope, st).op, ThenL(b, i), CondL(b, k, i + 1))));
    }
  }

  // A compiled condition and the branch on it.
  lemma TestArm(prog: seq<Line>, pow: Power, cond: seq<Token>, yes: Label, no: Label, st: St, env: Env, scope: Scope,
                w: World, regs: Regs, mem: Mem, n: nat, dest: St)
    returns (regs': Regs)
    requires Typed(Tree(cond), TypesOf(env)).Some? && Eval(Tree(cond), w.vars, pow).Some?
    requires Good(env, scope, w, regs, mem, n) && n <= st.regs && LabelsOnce(prog)
    requires var c := CompileCond(cond, scope, st); Line1(c.st, CondBr(c.op, yes, no)).body <= prog
    requires Lands(prog, if Truth(Eval(Tree(cond), w.vars, pow).value) then yes else no, dest)
    ensures Goes(prog, pow, n, At(st, regs, mem),
      At(Line1(dest, LabelLine(if Truth(Eval(Tree(cond), w.vars, pow).value) then yes else no)), regs', mem))
    ensures Agree(regs, regs', n) && Good(env, scope, w, regs', mem, n)
  {
    hide Goes, CompileCond, Typed, Eval, Tree, Good, Lands, LabelsOnce;
    var c := CompileCond(cond, scope, st);
    LineBefore(c.st, CondBr(c.op, yes, no), prog);
    GoodMore(env, scope, w, regs, mem, n, st.regs);
    GoodBound(env, scope, w, regs, mem, st.regs);
    regs' := GoesCompCond(prog, pow, cond, TypesOf(env), scope, w.vars, st, regs, mem);
    var t := Truth(Eval(Tree(cond), w.vars, pow).value);
    GoesFewer(prog, pow, st.regs, n, At(st, regs, mem), At(c.st, regs', mem));
    GoesCond(prog, pow, n, c.st, c.op, t, yes, no, dest, regs', mem);
    GoesThen(prog, pow, n, At(st, regs, mem), At(c.st, regs', mem),
      At(Line1(dest, LabelLine(if t then yes else no)), regs', mem));
    GoodAgree(env, scope, w, regs, regs', mem, n, n);
  }

  // From an arm's label, whose condition fails, to the next one.
  lemma SkipArm(prog: seq<Line>, pow: Power, arms: Arms, i: nat, b: nat, k: nat, env: Env, g: Gen, w: World,
                regs: Regs, mem: Mem, dest: St)
    returns (regs': Regs)
    requires arms.Arm? && arms.cond.Some? && ArmHead(arms, i, b, k, g).body <= prog && LabelsOnce(prog)
    requires Typed(Tree(arms.cond.value), TypesOf(env)).Some?
    requires Eval(Tree(arms.cond.value), w.vars, pow).Some? && !Truth(Eval(Tree(arms.cond.value), w.vars, pow).value)
    requires Good(env, g.scope, w, regs, mem, g.st.regs) && Lands(prog, CondL(b, k, i + 1), dest)
    ensures Goes(prog, pow, g.st.regs, At(Line1(g.st, LabelLine(CondL(b, k, i))), regs, mem),
      At(Line1(dest, LabelLine(CondL(b, k, i + 1))), regs', mem))
    ensures Agree(regs, regs', g.st.regs) && Good(env, g.scope, w, regs', mem, g.st.regs)
  {
    hide Goes, CompileCond, Typed, Eval, Tree, Good, Lands, LabelsOnce;
    var st := Line1(g.st, LabelLine(CondL(b, k, i)));
    var c := CompileCond(arms.cond.value, g.scope, st);
    LineBefore(Line1(c.st, CondBr(c.op, ThenL(b, i), CondL(b, k, i + 1))), LabelLine(ThenL(b, i)), prog);
    regs' := TestArm(prog, pow, arms.cond.value, ThenL(b, i), CondL(b, k, i + 1), st, env, g.scope, w, regs, mem,
      g.st.regs, dest);
  }

  // After a body, only the variables in view before it, at the addresses they had.
  lemma GoodAfter(env: Env, env': Env, scope: Scope, scope': Scope, scope2: Scope, w0: World, w: World, regs0: Regs,
                  regs: Regs, mem0: Mem, mem: Mem, n: nat, n': nat, n2: nat)
    requires Good(env, scope, w0, regs0, mem0, n) && Good(env', scope', w, regs, mem, n') && n <= n2
    requires Includes(env', env) && SameOn(env, scope, scope') && SameOn(env, scope, scope2)
    ensures Good(env, scope2, w, regs, mem, n2)
  {
    forall x | x in env
      ensures x in scope && scope[x].ptr < n
    {
      assert SlotOk(env[x], scope[x], w0.vars[x], regs0, mem0.cells, w0.offs, n);
    }
    GoodFewer(env, env', scope2, scope', w, regs, mem, n2, n');
  }

  // ── Simulation ──

  // From arm i's label to the end of the IF, as RunArms says.
  lemma {:induction false} SimArms(prog: seq<Line>, pow: Power, arms: Arms, i: nat, b: nat, k: nat, env: Env, d: nat,
                                   g: Gen, w: World, fuel: nat, regs: Regs, mem: Mem)
    returns (regs': Regs, mem': Mem)
    requires i + CountArms(arms) == k && CheckArms(arms, env, d) && Within(env, d) && d <= g.depth < DEPTHS
    requires RunArms(arms, g.depth, w, fuel, pow).Some? && LabelsOnce(prog)
    requires Line1(GenArms(arms, i, b, k, g).st, LabelLine(EndL(b))).body <= prog
    requires Good(env, g.scope, w, regs, mem, g.st.regs)
    ensures var end := GenArms(arms, i, b, k, g);
      && Goes(prog, pow, g.st.regs, At(Line1(g.st, LabelLine(CondL(b, k, i))), regs, mem),
              At(Line1(end.st, LabelLine(EndL(b))), regs', mem'))
      && Good(env, end.scope, RunArms(arms, g.depth, w, fuel, pow).value, regs', mem', end.st.regs)
    decreases fuel, arms, 0
  {
    hide Goes, CompileCond, Typed, Eval, Tree, Good, Lands, LabelsOnce, ArmHead, GenBlock, Includes, SameOn, RunBlock,
         CheckBlock, Truth;
    if arms.NoArm? {
      regs', mem' := regs, mem;
      GoesSelf(prog, pow, g.st.regs, At(Line1(g.st, LabelLine(EndL(b))), regs, mem));
      return;
    }
    var h := g.(st := ArmHead(arms, i, b, k, g));
    var g1 := GenBlock(arms.body, h);
    var next := g1.(st := Line1(g1.st, Br(EndL(b))));
    var end := GenArms(arms, i, b, k, g);
    ArmsLand(arms, i, b, k, g, prog);
    ArmPrefix(arms, i, b, k, g, prog);
    LandsEnd(end.st, b, prog);
    BlockScope(arms.body, env, d, h);
    ArmsScope(arms, env, d, i, b, k, g);
    var m := At(Line1(g.st, LabelLine(CondL(b, k, i))), regs, mem);
    if arms.cond.None? || Truth(Eval(Tree(arms.cond.value), w.vars, pow).value) {
      var regs1 := EnterArm(prog, pow, arms, i, b, k, env, g, w, regs, mem);
      GoodMore(env, g.scope, w, regs1, mem, g.st.regs, h.st.regs);
      var regs2, mem2 := SimBlock(prog, pow, arms.body, env, d, h, w, fuel, regs1, mem);
      GoesOn(prog, pow, g.st.regs, h.st.regs, m, At(h.st, regs1, mem), At(g1.st, regs2, mem2));
      GoesBr(prog, pow, g.st.regs, g1.st, EndL(b), end.st, regs2, mem2);
      GoesThen(prog, pow, g.st.regs, m, At(g1.st, regs2, mem2), At(Line1(end.st, LabelLine(EndL(b))), regs2, mem2));
      var w' := RunArms(arms, g.depth, w, fuel, pow).value;
      GoodAfter(env, CheckBlock(arms.body, env, d).value, g.scope, g1.scope, end.scope, w, w', regs, regs2, mem, mem2,
        g.st.regs, g1.st.regs, end.st.regs);
      regs', mem' := regs2, mem2;
    } else {
      GenDepthBlock(arms.body, h);
      DepthBoundBlock(arms.body, env, d, g.depth);
      ArmsLand(arms.rest, i + 1, b, k, next, prog);
      var regs1 := SkipArm(prog, pow, arms, i, b, k, env, g, w, regs, mem, next.st);
      IncludesSelf(env);
      GoodAfter(env, env, g.scope, g.scope, next.scope, w, w, regs1, regs1, mem, mem, g.st.regs, g.st.regs,
        next.st.regs);
      regs', mem' := SimArms(prog, pow, arms.rest, i + 1, b, k, env, d, next, w, fuel, regs1, mem);
      GoesOn(prog, pow, g.st.regs, next.st.regs, m, At(Line1(next.st, LabelLine(CondL(b, k, i + 1))), regs1, mem),
        At(Line1(end.st, LabelLine(EndL(b))), regs', mem'));
    }
  }

  lemma LandsEnd(st: St, b: nat, prog: seq<Line>)
    requires Line1(st, LabelLine(EndL(b))).body <= prog
    ensures Lands(prog, EndL(b), st)
  {
  }

  lemma IncludesSelf(env: Env)
    ensures Includes(env, env) && forall scope :: SameOn(env, scope, scope)
  {
  }

  lemma {:induction false} SimBlock(prog: seq<Line>, pow: Power, b: Block, env: Env, floor: nat, g: Gen, w: World,
                                    fuel: nat, regs: Regs, mem: Mem)
    returns (regs': Regs, mem': Mem)
    requires CheckBlock(b, env, floor).Some? && floor <= g.depth < DEPTHS && RunBlock(b, g.depth, w, fuel, pow).Some?
    requires GenBlock(b, g).st.body <= prog && LabelsOnce(prog) && Good(env, g.scope, w, regs, mem, g.st.regs)
    ensures Goes(prog, pow, g.st.regs, At(g.st, regs, mem), At(GenBlock(b, g).st, regs', mem'))
    ensures Good(CheckBlock(b, env, floor).value, GenBlock(b, g).scope, RunBlock(b, g.depth, w, fuel, pow).value,
      regs', mem',
      GenBlock(b, g).st.regs)
    decreases fuel, b, 0
  {
    hide Goes, Good, LabelsOnce, GenStmt, RunStmt, CheckStmt;
    if b.Nil? {
      regs', mem' := regs, mem;
      GoesSelf(prog, pow, g.st.regs, At(g.st, regs, mem));
    } else {
      var g1 := GenStmt(b.head, g);
      GenDepth(b.head, g);
      DepthBound(b.head, env, floor);
      StmtGrows(b.head, g);
      BlockGrows(b.tail, g1);
      Earlier(g1.st, GenBlock(b.tail, g1).st, prog);
      var regs1, mem1 := SimStmt(prog, pow, b.head, env, floor, g, w, fuel, regs, mem);
      regs', mem' := SimBlock(prog, pow, b.tail, CheckStmt(b.head, env, floor).value, floor, g1,
        RunStmt(b.head, g.depth, w, fuel, pow).value, fuel, regs1, mem1);
      GoesOn(prog, pow, g.st.regs, g1.st.regs, At(g.st, regs, mem), At(g1.st, regs1, mem1),
        At(GenBlock(b, g).st, regs', mem'));
    }
  }

  // A statement: first the arenas deeper than it are emptied, then its own code runs.
  lemma {:induction false} SimStmt(prog: seq<Line>, pow: Power, s: Stmt, env: Env, floor: nat, g: Gen, w: World,
                                   fuel: nat, regs: Regs, mem: Mem)
    returns (regs': Regs, mem': Mem)
    requires CheckStmt(s, env, floor).Some? && g.depth < DEPTHS && RunStmt(s, g.depth, w, fuel, pow).Some?
    requires GenStmt(s, g).st.body <= prog && LabelsOnce(prog) && Good(env, g.scope, w, regs, mem, g.st.regs)
    ensures Goes(prog, pow, g.st.regs, At(g.st, regs, mem), At(GenStmt(s, g).st, regs', mem'))
    ensures Good(CheckStmt(s, env, floor).value, GenStmt(s, g).scope, RunStmt(s, g.depth, w, fuel, pow).value, regs',
      mem',
      GenStmt(s, g).st.regs)
    decreases fuel, s, 2
  {
    hide Goes, Good, LabelsOnce, GenReset, Reset, GenCreate, GenSet, GenIncDec, GenCycle, GenSeason, GenArms, Mixed,
         EvalAs, AsTyped, Eval, Typed, Tree, Allocate, CheckBlock, CheckArms, RunArms, RunCycle, RunSeason, Keep;
    var g0 := Track(s.depth, g);
    var kept := Keep(env, s.depth);
    var offs := Reset(w.offs, g.depth, s.depth);
    var w0, mem0 := w.(offs := offs), mem.(offs := offs);
    TrackPrefix(s, g, prog);
    GoodOffsets(env, g.scope, w, regs, mem, g.st.regs);
    var regs0 := GoesReset(prog, pow, g.st, g.depth, s.depth, regs, mem);
    GoodReset(env, g.scope, w, regs, mem, g.st.regs, g.depth, s.depth);
    KeepWithin(env, s.depth);
    RunTracked(s, g.depth, w, fuel, pow);
    SameTrack(s, g);
    GoodAgree(kept, g.scope, w0, regs, regs0, mem0, g.st.regs, g0.st.regs);
    var end := GenStmt(s, g);
    if s.Create? {
      regs', mem' := SimCreate(prog, pow, s, kept, g0, w0, regs0, mem0, EvalAs(s.e, s.ty, w0.vars, pow).value);
    } else if s.Set? {
      SlotOf(kept, g.scope, w0, regs0, mem0, g0.st.regs, s.x);
      var v := EvalAs(s.e, kept[s.x].ty, w0.vars, pow).value;
      regs', mem' := SimSet(prog, pow, s, kept, g0, w0, regs0, mem0, v);
      SetRegs(s, g0);
      GoodMore(kept, g0.scope, w0.(vars := w0.vars[s.x := v]), regs', mem', g0.st.regs, end.st.regs);
    } else if s.IncDec? {
      SlotOf(kept, g.scope, w0, regs0, mem0, g0.st.regs, s.x);
      var v := EvalAs(s.e, kept[s.x].ty, w0.vars, pow).value;
      var r := Mixed(if s.plus then IAdd else ISub, if s.plus then FAdd else FSub, w0.vars[s.x], v).value;
      regs', mem' := SimIncDec(prog, pow, s, kept, g0, w0, regs0, mem0, v, r);
      SetRegs(s, g0);
      GoodMore(kept, g0.scope, w0.(vars := w0.vars[s.x := r]), regs', mem', g0.st.regs, end.st.regs);
    } else if s.If? {
      regs', mem' := SimIf(prog, pow, s, kept, g0, w0, fuel, regs0, mem0);
    } else if s.Cycle? {
      regs', mem' := SimCycle(prog, pow, s, kept, g0, w0, fuel, regs0, mem0);
    } else {
      regs', mem' := SimSeason(prog, pow, s, kept, g0, w0, fuel, regs0, mem0);
    }
    GoesOn(prog, pow, g.st.regs, g0.st.regs, At(g.st, regs, mem), At(g0.st, regs0, mem0), At(end.st, regs', mem'));
  }

  lemma KeepWithin(env: Env, d: nat)
    ensures Within(Keep(env, d), d)
  {
  }

  lemma RunTracked(s: Stmt, cur: nat, w: World, fuel: nat, pow: Power)
    ensures RunStmt(s, s.depth, w.(offs := Reset(w.offs, cur, s.depth)), fuel, pow) == RunStmt(s, cur, w, fuel, pow)
  {
  }

  lemma SetRegs(s: Stmt, g: Gen)
    ensures s.Set? ==> GenSet(s, g).scope == g.scope && g.st.regs <= GenSet(s, g).st.regs
    ensures s.IncDec? ==> GenIncDec(s, g).scope == g.scope && g.st.regs <= GenIncDec(s, g).st.regs
  {
    if s.Set? { SetGrows(s, g); }
    if s.IncDec? { IncDecGrows(s, g); }
  }

  lemma TrackPrefix(s: Stmt, g: Gen, prog: seq<Line>)
    requires GenStmt(s, g).st.body <= prog
    ensures var g0 := Track(s.depth, g); g0.st.body <= prog && g.st.regs <= g0.st.regs
  {
    hide Grows;
    var g0 := Track(s.depth, g);
    ResetGrows(g.st, g.depth, s.depth);
    Earlier(g.st, g0.st, g0.st.body);
    StmtGrows(s, g0);
    SameTrack(s, g);
    Earlier(g0.st, GenStmt(s, g).st, prog);
  }

  lemma AlreadyThere(d: nat, g: Gen)
    requires g.depth == d
    ensures Track(d, g) == g
  {
  }

  lemma {:induction false} SimIf(prog: seq<Line>, pow: Power, s: Stmt, env: Env, g: Gen, w: World, fuel: nat,
                                 regs: Regs, mem: Mem)
    returns (regs': Regs, mem': Mem)
    requires s.If? && g.depth == s.depth < DEPTHS && s.arms.Arm? && CheckArms(s.arms, env, s.depth)
    requires Within(env, s.depth)
    requires RunArms(s.arms, s.depth, w, fuel, pow).Some? && LabelsOnce(prog)
    requires GenStmt(s, g).st.body <= prog && Good(env, g.scope, w, regs, mem, g.st.regs)
    ensures Goes(prog, pow, g.st.regs, At(g.st, regs, mem), At(GenStmt(s, g).st, regs', mem'))
    ensures Good(env, GenStmt(s, g).scope, RunArms(s.arms, s.depth, w, fuel, pow).value, regs', mem',
      GenStmt(s, g).st.regs)
    decreases fuel, s, 0
  {
    hide Goes, Good, LabelsOnce, GenReset, GenArms, RunArms, CheckArms, Lands;
    AlreadyThere(s.depth, g);
    var b, k := g.blocks, CountArms(s.arms);
    var g1 := g.(st := Line1(g.st, Br(CondL(b, k, 0))), blocks := b + 1 + k + k);
    var end := GenArms(s.arms, 0, b, k, g1);
    ArmsLand(s.arms, 0, b, k, g1, prog);
    ArmsGrow(s.arms, 0, b, k, g1);
    Earlier(g1.st, end.st, prog);
    GoesBr(prog, pow, g.st.regs, g.st, CondL(b, k, 0), g1.st, regs, mem);
    regs', mem' := SimArms(prog, pow, s.arms, 0, b, k, env, s.depth, g1, w, fuel, regs, mem);
    GoesThen(prog, pow, g.st.regs, At(g.st, regs, mem), At(Line1(g1.st, LabelLine(CondL(b, k, 0))), regs, mem),
      At(GenStmt(s, g).st, regs', mem'));
  }

  // One pass through a loop's body: afterwards the loop's depth is back at its offset,
  // and everything in view at the loop's head is where it was.
  lemma {:induction false} SimTick(prog: seq<Line>, pow: Power, body: Block, d: nat, env: Env, g: Gen, w: World,
                                   fuel: nat, regs: Regs, mem: Mem)
    returns (regs': Regs, mem': Mem)
    requires CheckBlock(body, env, d).Some? && Within(env, d) && g.depth == d < DEPTHS
    requires Tick(body, d, w, fuel, pow).Some? && LabelsOnce(prog)
    requires GenBody(body, d, g).st.body <= prog && Good(env, g.scope, w, regs, mem, g.st.regs)
    ensures Goes(prog, pow, g.st.regs, At(g.st, regs, mem), At(GenBody(body, d, g).st, regs', mem'))
    ensures Good(env, g.scope, Tick(body, d, w, fuel, pow).value, regs', mem', g.st.regs) && mem'.offs[d] == mem.offs[d]
    decreases fuel, body, 1
  {
    hide Goes, Good, LabelsOnce, GenReset, GenBlock, RunBlock, CheckBlock, Reset, OpVal, Agree;
    var n := g.st.regs;
    var o := ReadOffset(g.st, d);
    var g1 := GenBlock(body, g.(st := o.st));
    var rs := GenReset(g1.st, g1.depth, d);
    var line := Store(NUM, o.op, Reg(n));
    BodyPieces(body, d, g, prog);
    GoodOffsets(env, g.scope, w, regs, mem, n);
    var regs1, st1 := GoesReadOffset(prog, pow, g.st, d, regs, mem);
    GoodAgree(env, g.scope, w, regs, regs1, mem, n, n);
    GoodMore(env, g.scope, w, regs1, mem, n, o.st.regs);
    var regs2, mem2 := SimBlock(prog, pow, body, env, d, g.(st := o.st), w, fuel, regs1, mem);
    var w2 := RunBlock(body, d, w, fuel, pow).value;
    GoesAgree(prog, pow, o.st.regs, At(o.st, regs1, mem), At(g1.st, regs2, mem2));
    GoesOn(prog, pow, n, o.st.regs, At(g.st, regs, mem), At(o.st, regs1, mem), At(g1.st, regs2, mem2));
    GenDepthBlock(body, g.(st := o.st));
    DepthBoundBlock(body, env, d, d);
    GoodOffsets(CheckBlock(body, env, d).value, g1.scope, w2, regs2, mem2, g1.st.regs);
    var regs3 := GoesReset(prog, pow, g1.st, g1.depth, d, regs2, mem2);
    var mem3 := mem2.(offs := Reset(mem2.offs, g1.depth, d));
    GoesOn(prog, pow, n, g1.st.regs, At(g.st, regs, mem), At(g1.st, regs2, mem2), At(rs, regs3, mem3));
    SavedOffset(regs1, regs2, regs3, n, o.st.regs, g1.st.regs, d, mem.offs[d]);
    regs' := regs3;
    mem' := mem3.(offs := mem3.offs[d := mem.offs[d]]);
    GoesStore(prog, pow, n, rs, line, regs3, mem3, NumV(mem.offs[d]), OffPtr(d));
    GoesThen(prog, pow, n, At(g.st, regs, mem), At(rs, regs3, mem3), At(GenBody(body, d, g).st, regs', mem'));
    BlockScope(body, env, d, g.(st := o.st));
    IncludesSelf(env);
    GoodAfter(env, CheckBlock(body, env, d).value, g.scope, g1.scope, g.scope, w, w2, regs1, regs2, mem, mem2, n,
      g1.st.regs, n);
    GoodAgree(env, g.scope, w2, regs2, regs3, mem2, n, n);
    EndsStay(env, g.scope, w, regs1, mem, w2, regs3, mem2, n, d);
    GoodLower(env, g.scope, w2, regs3, mem2, n, g1.depth, d, w.offs);
  }

  lemma SavedOffset(regs1: Regs, regs2: Regs, regs3: Regs, n: nat, n2: nat, n3: nat, d: nat, off: int)
    requires Agree(regs1, regs2, n2) && Agree(regs2, regs3, n3) && n + 2 <= n2 <= n3
    requires n in regs1 && regs1[n] == OffPtr(d) && n + 1 in regs1 && regs1[n + 1] == NumV(off)
    ensures OpVal(Reg(n), regs3) == Some(OffPtr(d)) && OpVal(Reg(n + 1), regs3) == Some(NumV(off))
    ensures Agree(regs2, regs3, n2) && Agree(regs2, regs3, n) && Agree(regs1, regs3, n)
  {
  }

  lemma BodyPieces(body: Block, d: nat, g: Gen, prog: seq<Line>)
    requires GenBody(body, d, g).st.body <= prog
    ensures var o := ReadOffset(g.st, d);
      var g1 := GenBlock(body, g.(st := o.st));
      var rs := GenReset(g1.st, g1.depth, d);
      && o.st.body <= prog && g1.st.body <= prog && rs.body <= prog
      && Line1(rs, Store(NUM, o.op, Reg(g.st.regs))).body <= prog
      && o.st.regs <= g1.st.regs <= rs.regs && o.op == Reg(g.st.regs + 1) && o.st.regs == g.st.regs + 2
      && GenBody(body, d, g).st == Line1(rs, Store(NUM, o.op, Reg(g.st.regs)))
  {
    hide GenBlock, GenReset;
    var o := ReadOffset(g.st, d);
    var g1 := GenBlock(body, g.(st := o.st));
    var rs := GenReset(g1.st, g1.depth, d);
    LineBefore(rs, Store(NUM, o.op, Reg(g.st.regs)), prog);
    ResetGrows(g1.st, g1.depth, d);
    Earlier(g1.st, rs, prog);
    BlockGrows(body, g.(st := o.st));
    Earlier(o.st, g1.st, prog);
  }

  // The variables of the loop's depth still end below the offset saved before the body.
  lemma EndsStay(env: Env, scope: Scope, w: World, regs: Regs, mem: Mem, w': World, regs': Regs, mem': Mem, n: nat,
                 d: nat)
    requires Good(env, scope, w, regs, mem, n) && d < DEPTHS
    requires Agree(regs, regs', n)
    ensures forall x :: x in env && env[x].depth == d ==> EndsBy(env[x].ty, x, scope, regs', w.offs[d])
  {
    forall x | x in env && env[x].depth == d
      ensures EndsBy(env[x].ty, x, scope, regs', w.offs[d])
    {
      assert SlotOk(env[x], scope[x], w.vars[x], regs, mem.cells, w.offs, n);
    }
  }

  // ── SEASON ──

  lemma {:induction false} SimSeason(prog: seq<Line>, pow: Power, s: Stmt, env: Env, g: Gen, w: World, fuel: nat,
                                     regs: Regs, mem: Mem)
    returns (regs': Regs, mem': Mem)
    requires s.Season? && g.depth == s.depth < DEPTHS && Within(env, s.depth)
    requires Typed(Tree(s.cond), TypesOf(env)).Some? && CheckBlock(s.body, env, s.depth).Some?
    requires RunSeason(s, w, fuel, pow).Some? && LabelsOnce(prog)
    requires GenSeason(s, g).st.body <= prog && Good(env, g.scope, w, regs, mem, g.st.regs)
    ensures Goes(prog, pow, g.st.regs, At(g.st, regs, mem), At(GenSeason(s, g).st, regs', mem'))
    ensures Good(env, GenSeason(s, g).scope, RunSeason(s, w, fuel, pow).value, regs', mem', GenSeason(s, g).st.regs)
    decreases fuel, s, 1
  {
    hide Goes, Good, LabelsOnce, RunSeason, GenSeasonTest, GenBody, Typed, CheckBlock, Lands;
    var cond := Label("season.cond", g.blocks);
    var end := GenSeason(s, g);
    SeasonPieces(s, g, prog);
    GoesBr(prog, pow, g.st.regs, g.st, cond, Line1(g.st, Br(cond)), regs, mem);
    regs', mem' := SeasonLoop(prog, pow, s, env, g, w, fuel, regs, mem);
    GoesThen(prog, pow, g.st.regs, At(g.st, regs, mem), At(SeasonEntry(g), regs, mem), At(end.st, regs', mem'));
    var t := g.(st := GenSeasonTest(s, g), blocks := g.blocks + 3);
    BodyScope(s.body, env, s.depth, t);
    IncludesSelf(env);
    var w' := RunSeason(s, w, fuel, pow).value;
    GoodAfter(env, env, g.scope, g.scope, end.scope, w', w', regs', regs', mem', mem', g.st.regs, g.st.regs,
      end.st.regs);
  }

  function SeasonEntry(g: Gen): St {
    Line1(Line1(g.st, Br(Label("season.cond", g.blocks))), LabelLine(Label("season.cond", g.blocks)))
  }

  lemma SeasonPieces(s: Stmt, g: Gen, prog: seq<Line>)
    requires s.Season? && GenSeason(s, g).st.body <= prog
    ensures var b := g.blocks;
      var c := CompileCond(s.cond, g.scope, SeasonEntry(g));
      var test := Line1(c.st, CondBr(c.op, Label("season.body", b + 1), Label("season.end", b + 2)));
      var t := g.(st := GenSeasonTest(s, g), blocks := b + 3);
      var g1 := GenBody(s.body, s.depth, t);
      && SeasonEntry(g).body <= prog && Line1(g.st, Br(Label("season.cond", b))).body <= prog
      && Lands(prog, Label("season.cond", b), Line1(g.st, Br(Label("season.cond", b))))
      && test.body <= prog && Lands(prog, Label("season.body", b + 1), test)
      && t.st == Line1(test, LabelLine(Label("season.body", b + 1)))
      && t.st.body <= prog && g1.st.body <= prog && Line1(g1.st, Br(Label("season.cond", b))).body <= prog
      && Lands(prog, Label("season.end", b + 2), Line1(g1.st, Br(Label("season.cond", b))))
      && g.st.regs <= t.st.regs <= g1.st.regs
  {
    hide GenBody, CompileCond;
    var b := g.blocks;
    var t := g.(st := GenSeasonTest(s, g), blocks := b + 3);
    var g1 := GenBody(s.body, s.depth, t);
    var br := Line1(g1.st, Br(Label("season.cond", b)));
    LineBefore(br, LabelLine(Label("season.end", b + 2)), prog);
    LineBefore(g1.st, Br(Label("season.cond", b)), prog);
    BodyGrows(s.body, s.depth, t);
    Earlier(t.st, g1.st, prog);
    SeasonTestGrows(s, g);
    Earlier(SeasonEntry(g), t.st, prog);
    LineBefore(Line1(g.st, Br(Label("season.cond", b))), LabelLine(Label("season.cond", b)), prog);
    var c := CompileCond(s.cond, g.scope, SeasonEntry(g));
    LineBefore(Line1(c.st, CondBr(c.op, Label("season.body", b + 1), Label("season.end", b + 2))),
      LabelLine(Label("season.body", b + 1)), prog);
  }

  // From the condition's label to the end.
  lemma {:induction false} SeasonLoop(prog: seq<Line>, pow: Power, s: Stmt, env: Env, g: Gen, w: World, fuel: nat,
                                      regs: Regs, mem: Mem)
    returns (regs': Regs, mem': Mem)
    requires s.Season? && g.depth == s.depth < DEPTHS && Within(env, s.depth)
    requires Typed(Tree(s.cond), TypesOf(env)).Some? && CheckBlock(s.body, env, s.depth).Some?
    requires RunSeason(s, w, fuel, pow).Some? && LabelsOnce(prog)
    requires GenSeason(s, g).st.body <= prog && Good(env, g.scope, w, regs, mem, g.st.regs)
    ensures Goes(prog, pow, g.st.regs, At(SeasonEntry(g), regs, mem), At(GenSeason(s, g).st, regs', mem'))
    ensures Good(env, g.scope, RunSeason(s, w, fuel, pow).value, regs', mem', g.st.regs)
    decreases fuel, s, 0
  {
    hide Goes, Good, LabelsOnce, GenBody, Typed, Eval, CheckBlock, Tick, CompileCond, Lands, Tree, Truth;
    var b, n := g.blocks, g.st.regs;
    var c := CompileCond(s.cond, g.scope, SeasonEntry(g));
    var yes, no := Label("season.body", b + 1), Label("season.end", b + 2);
    var test := Line1(c.st, CondBr(c.op, yes, no));
    var t := g.(st := GenSeasonTest(s, g), blocks := b + 3);
    var g1 := GenBody(s.body, s.depth, t);
    var br := Line1(g1.st, Br(Label("season.cond", b)));
    SeasonPieces(s, g, prog);
    var holds := Truth(Eval(Tree(s.cond), w.vars, pow).value);
    var m := At(SeasonEntry(g), regs, mem);
    var regs1 := TestArm(prog, pow, s.cond, yes, no, SeasonEntry(g), env, g.scope, w, regs, mem, n, if holds then test
      else br);
    if holds {
      GoodMore(env, g.scope, w, regs1, mem, n, t.st.regs);
      var regs2, mem2 := SimTick(prog, pow, s.body, s.depth, env, t, w, fuel - 1, regs1, mem);
      GoesOn(prog, pow, n, t.st.regs, m, At(t.st, regs1, mem), At(g1.st, regs2, mem2));
      GoesBr(prog, pow, n, g1.st, Label("season.cond", b), Line1(g.st, Br(Label("season.cond", b))), regs2, mem2);
      GoesThen(prog, pow, n, m, At(g1.st, regs2, mem2), At(SeasonEntry(g), regs2, mem2));
      var w' := Tick(s.body, s.depth, w, fuel - 1, pow).value;
      IncludesSelf(env);
      GoodAfter(env, env, g.scope, g.scope, g.scope, w, w', regs1, regs2, mem, mem2, n, t.st.regs, n);
      regs', mem' := SeasonLoop(prog, pow, s, env, g, w', fuel - 1, regs2, mem2);
      GoesThen(prog, pow, n, m, At(SeasonEntry(g), regs2, mem2), At(GenSeason(s, g).st, regs', mem'));
    } else {
      regs', mem' := regs1, mem;
    }
  }

  // ── CYCLE ──

  // A compiled operand with its value, ready to be taken as NUM.
  ghost predicate Ready(v: TVal, x: Val, regs: Regs, n: nat) {
    OpVal(v.op, regs) == Some(x) && HasType(x, v.ty) && Below(v.op, n) && Coercible(v.ty, NUM)
  }

  lemma ReadyAgree(v: TVal, x: Val, regs: Regs, regs': Regs, n: nat, n': nat)
    requires Ready(v, x, regs, n) && Agree(regs, regs', n) && n <= n'
    ensures Ready(v, x, regs', n')
  {
  }

  lemma GoesReady(prog: seq<Line>, pow: Power, tokens: seq<Token>, env: Env, scope: Scope, w: World, st: St,
                  regs: Regs, mem: Mem, n: nat)
    returns (regs': Regs)
    requires AsTyped(tokens, NUM, TypesOf(env)) && Eval(Tree(tokens), w.vars, pow).Some?
    requires Good(env, scope, w, regs, mem, n) && n <= st.regs && Comp(Tree(tokens), scope, st).st.body <= prog
    ensures var v := Comp(Tree(tokens), scope, st);
      && Goes(prog, pow, st.regs, At(st, regs, mem), At(v.st, regs', mem)) && Agree(regs, regs', st.regs)
      && Ready(v.v, Eval(Tree(tokens), w.vars, pow).value, regs', v.st.regs)
      && Good(env, scope, w, regs', mem, n) && st.regs <= v.st.regs && st.body <= prog
  {
    hide Goes, Comp, Eval, Typed, Tree, HasType, OpVal, Good, Coercible;
    var v := Comp(Tree(tokens), scope, st);
    CompGrowth(Tree(tokens), scope, st);
    Earlier(st, v.st, prog);
    GoodMore(env, scope, w, regs, mem, n, st.regs);
    GoodBound(env, scope, w, regs, mem, st.regs);
    regs' := GoesComp(prog, pow, Tree(tokens), TypesOf(env), scope, w.vars, st, regs, mem);
    GoodAgree(env, scope, w, regs, regs', mem, n, n);
  }

  lemma GoesNum(prog: seq<Line>, pow: Power, v: TVal, x: Val, st: St, regs: Regs, mem: Mem, n: nat)
    returns (regs': Regs)
    requires Ready(v, x, regs, n) && n <= st.regs && CoerceVal(x, NUM).Some? && CoerceTo(v, NUM, st).st.body <= prog
    ensures var c := CoerceTo(v, NUM, st);
      && Goes(prog, pow, st.regs, At(st, regs, mem), At(c.st, regs', mem)) && Agree(regs, regs', st.regs)
      && OpVal(c.op, regs') == CoerceVal(x, NUM) && HasType(CoerceVal(x, NUM).value, NUM)
      && st.regs <= c.st.regs && st.body <= prog && Below(c.op, c.st.regs)
  {
    hide Goes, CoerceVal, CoerceTo;
    CoerceGrows(v, NUM, st);
    Earlier(st, CoerceTo(v, NUM, st).st, prog);
    regs' := GoesCoerce(prog, pow, v, x, NUM, st, regs, mem);
  }

  function CycleEntry(h: CycleHead, b: nat): St { Line1(h.g.st, LabelLine(Label("cycle.cond", b))) }

  // What holds on every arrival at the condition's label.
  ghost predicate AtHead(s: Stmt, h: CycleHead, env: Env, w: World, to: Val, step: Val, regs: Regs, mem: Mem)
    requires s.Cycle?
  {
    && Good(env[s.x := Decl(NUM, s.depth)], h.g.scope, w, regs, mem, h.g.st.regs)
    && Ready(h.to, to, regs, h.g.st.regs) && Ready(h.step, step, regs, h.g.st.regs)
    && s.x in h.g.scope && h.ptr == Reg(h.g.scope[s.x].ptr)
  }

  // Bounds and step are computed, the loop variable gets its slot and first value.
  lemma SimCycleHead(prog: seq<Line>, pow: Power, s: Stmt, env: Env, g: Gen, w: World, regs: Regs, mem: Mem, f: Val,
                     t: Val, k: Val)
    returns (regs': Regs, mem': Mem)
    requires s.Cycle? && s.depth < DEPTHS && s.x !in env
    requires AsTyped(s.from, NUM, TypesOf(env)) && AsTyped(s.to, NUM, TypesOf(env))
    requires (s.step.Some? ==> AsTyped(s.step.value, NUM, TypesOf(env)))
    requires EvalAs(s.from, NUM, w.vars, pow) == Some(f) && Eval(Tree(s.to), w.vars, pow) == Some(t)
    requires (if s.step.Some? then Eval(Tree(s.step.value), w.vars, pow) else Some(NumV(1))) == Some(k)
    requires Allocate(w.offs, s.depth, NUM).Some? && LabelsOnce(prog) && Good(env, g.scope, w, regs, mem, g.st.regs)
    requires CycleEntry(GenCycleHead(s, g), g.blocks).body <= prog
    ensures var h := GenCycleHead(s, g);
      && Goes(prog, pow, g.st.regs, At(g.st, regs, mem), At(CycleEntry(h, g.blocks), regs', mem'))
      && AtHead(s, h, env, World(w.vars[s.x := f], Allocate(w.offs, s.depth, NUM).value), t, k, regs', mem')
  {
    hide Goes, Comp, CoerceTo, AsTyped, Tree, Good, StoreVal, GenAlloc, Fresh, HasType, LabelsOnce, Lands, Ready, Eval,
         CoerceVal;
    var n := g.st.regs;
    var h := GenCycleHead(s, g);
    var fv := Comp(Tree(s.from), g.scope, g.st);
    var tv := Comp(Tree(s.to), g.scope, fv.st);
    var kv := if s.step.Some? then Comp(Tree(s.step.value), g.scope, tv.st) else VOut(TVal(IntC(1), NUM), tv.st);
    var p := GenAlloc(kv.st, NUM, s.depth);
    var c := CoerceTo(fv.v, NUM, p.st);
    var line := Store(NUM, c.op, p.op);
    var cond := Label("cycle.cond", g.blocks);
    CyclePieces(s, g, prog);
    var x := Eval(Tree(s.from), w.vars, pow).value;
    var regs1 := GoesReady(prog, pow, s.from, env, g.scope, w, g.st, regs, mem, n);
    var regs2 := GoesReady(prog, pow, s.to, env, g.scope, w, fv.st, regs1, mem, n);
    ReadyAgree(fv.v, x, regs1, regs2, fv.st.regs, tv.st.regs);
    GoesOn(prog, pow, n, fv.st.regs, At(g.st, regs, mem), At(fv.st, regs1, mem), At(tv.st, regs2, mem));
    var regs3 := CycleStepValue(prog, pow, s, env, g.scope, w, tv.st, regs2, mem, n, k);
    ReadyAgree(fv.v, x, regs2, regs3, tv.st.regs, kv.st.regs);
    ReadyAgree(tv.v, t, regs2, regs3, tv.st.regs, kv.st.regs);
    GoesOn(prog, pow, n, tv.st.regs, At(g.st, regs, mem), At(tv.st, regs2, mem), At(kv.st, regs3, mem));
    var offs := Allocate(w.offs, s.depth, NUM).value;
    var w1, mem1 := w.(offs := offs), mem.(offs := offs);
    GoodOffsets(env, g.scope, w, regs3, mem, n);
    var regs4 := GoesAlloc(prog, pow, kv.st, NUM, s.depth, regs3, mem);
    GoesOn(prog, pow, n, kv.st.regs, At(g.st, regs, mem), At(kv.st, regs3, mem), At(p.st, regs4, mem1));
    GoodMore(env, g.scope, w, regs3, mem, n, kv.st.regs);
    GoodAllocate(env, g.scope, w, regs3, mem, kv.st.regs, s.depth, NUM);
    FreshAgree(env, g.scope, w, regs3, regs4, mem, kv.st.regs, s.depth, w.offs[s.depth], NUM);
    GoodAgree(env, g.scope, w1, regs3, regs4, mem1, kv.st.regs, p.st.regs);
    ReadyAgree(fv.v, x, regs3, regs4, kv.st.regs, p.st.regs);
    ReadyAgree(tv.v, t, regs3, regs4, kv.st.regs, p.st.regs);
    ReadyAgree(kv.v, k, regs3, regs4, kv.st.regs, p.st.regs);
    regs' := GoesNum(prog, pow, fv.v, x, p.st, regs4, mem1, p.st.regs);
    GoesOn(prog, pow, n, p.st.regs, At(g.st, regs, mem), At(p.st, regs4, mem1), At(c.st, regs', mem1));
    FreshAgree(env, g.scope, w1, regs4, regs', mem1, p.st.regs, s.depth, w.offs[s.depth], NUM);
    GoodAgree(env, g.scope, w1, regs4, regs', mem1, p.st.regs, c.st.regs);
    ReadyAgree(tv.v, t, regs4, regs', p.st.regs, c.st.regs);
    ReadyAgree(kv.v, k, regs4, regs', p.st.regs, c.st.regs);
    GoodCreate(env, g.scope, w1, regs', mem1, c.st.regs, s.x, Decl(NUM, s.depth), p.op.n, w.offs[s.depth], f);
    mem' := StoreVal(NUM, f, regs'[p.op.n], mem1).value;
    GoesStore(prog, pow, n, c.st, line, regs', mem1, f, regs'[p.op.n]);
    GoesThen(prog, pow, n, At(g.st, regs, mem), At(c.st, regs', mem1), At(Line1(c.st, line), regs', mem'));
    GoesBr(prog, pow, n, Line1(c.st, line), cond, h.g.st, regs', mem');
    GoesThen(prog, pow, n, At(g.st, regs, mem), At(Line1(c.st, line), regs', mem'),
      At(CycleEntry(h, g.blocks), regs', mem'));
  }

  // STEP's value, 1 when there is none.
  lemma CycleStepValue(prog: seq<Line>, pow: Power, s: Stmt, env: Env, scope: Scope, w: World, st: St, regs: Regs,
                       mem: Mem, n: nat, k: Val)
    returns (regs': Regs)
    requires s.Cycle? && (s.step.Some? ==> AsTyped(s.step.value, NUM, TypesOf(env)))
    requires (if s.step.Some? then Eval(Tree(s.step.value), w.vars, pow) else Some(NumV(1))) == Some(k)
    requires Good(env, scope, w, regs, mem, n) && n <= st.regs
    requires (if s.step.Some? then Comp(Tree(s.step.value), scope, st)
      else VOut(TVal(IntC(1), NUM), st)).st.body <= prog
    ensures var v := if s.step.Some? then Comp(Tree(s.step.value), scope, st) else VOut(TVal(IntC(1), NUM), st);
      && Goes(prog, pow, st.regs, At(st, regs, mem), At(v.st, regs', mem)) && Agree(regs, regs', st.regs)
      && Ready(v.v, k, regs', v.st.regs) && Good(env, scope, w, regs', mem, n) && st.regs <= v.st.regs
  {
    hide Goes, Comp, AsTyped, Tree, Good, Eval;
    if s.step.Some? {
      regs' := GoesReady(prog, pow, s.step.value, env, scope, w, st, regs, mem, n);
    } else {
      regs' := regs;
      GoesSelf(prog, pow, st.regs, At(st, regs, mem));
    }
  }

  lemma CyclePieces(s: Stmt, g: Gen, prog: seq<Line>)
    requires s.Cycle? && CycleEntry(GenCycleHead(s, g), g.blocks).body <= prog
    ensures var fv := Comp(Tree(s.from), g.scope, g.st);
      var tv := Comp(Tree(s.to), g.scope, fv.st);
      var kv := if s.step.Some? then Comp(Tree(s.step.value), g.scope, tv.st) else VOut(TVal(IntC(1), NUM), tv.st);
      var p := GenAlloc(kv.st, NUM, s.depth);
      var c := CoerceTo(fv.v, NUM, p.st);
      var stored := Line1(c.st, Store(NUM, c.op, p.op));
      && fv.st.body <= prog && tv.st.body <= prog && kv.st.body <= prog && p.st.body <= prog && c.st.body <= prog
      && stored.body <= prog
      && Line1(stored, Br(Label("cycle.cond", g.blocks))).body <= prog
      && Lands(prog, Label("cycle.cond", g.blocks), GenCycleHead(s, g).g.st)
      && g.st.regs <= fv.st.regs <= tv.st.regs <= kv.st.regs <= p.st.regs <= c.st.regs
  {
    hide Comp, CoerceTo, GenAlloc, Tree;
    var fv := Comp(Tree(s.from), g.scope, g.st);
    var tv := Comp(Tree(s.to), g.scope, fv.st);
    var kv := if s.step.Some? then Comp(Tree(s.step.value), g.scope, tv.st) else VOut(TVal(IntC(1), NUM), tv.st);
    var p := GenAlloc(kv.st, NUM, s.depth);
    var c := CoerceTo(fv.v, NUM, p.st);
    var stored := Line1(c.st, Store(NUM, c.op, p.op));
    LineBefore(GenCycleHead(s, g).g.st, LabelLine(Label("cycle.cond", g.blocks)), prog);
    LineBefore(stored, Br(Label("cycle.cond", g.blocks)), prog);
    LineBefore(c.st, Store(NUM, c.op, p.op), prog);
    CoerceGrows(fv.v, NUM, p.st);
    Earlier(p.st, c.st, prog);
    AllocGrows(kv.st, NUM, s.depth);
    Earlier(kv.st, p.st, prog);
    if s.step.Some? { CompGrowth(Tree(s.step.value), g.scope, tv.st); }
    Earlier(tv.st, kv.st, prog);
    CompGrowth(Tree(s.to), g.scope, fv.st);
    Earlier(fv.st, tv.st, prog);
    CompGrowth(Tree(s.from), g.scope, g.st);
  }

  // The test: the loop variable against the bound.
  lemma SimCycleTest(prog: seq<Line>, pow: Power, s: Stmt, h: CycleHead, b: nat, env: Env, w: World, to: Val,
                     step: Val, regs: Regs, mem: Mem, end: St)
    returns (regs': Regs)
    requires s.Cycle? && AtHead(s, h, env, w, to, step, regs, mem) && CoerceVal(to, NUM).Some?
    requires CoerceVal(to, NUM).value.NumV?
    requires GenCycleTest(h, b).body <= prog && Lands(prog, Label("cycle.end", b + 3), end) && LabelsOnce(prog)
    requires s.x in w.vars && w.vars[s.x].NumV?
    ensures var stay := w.vars[s.x].i <= CoerceVal(to, NUM).value.i;
      && Goes(prog, pow, h.g.st.regs, At(CycleEntry(h, b), regs, mem),
              At(if stay then GenCycleTest(h, b) else Line1(end, LabelLine(Label("cycle.end", b + 3))), regs', mem))
      && AtHead(s, h, env, w, to, step, regs', mem)
  {
    hide Goes, CoerceTo, Good, LabelsOnce, Lands, Ready, CoerceVal;
    var n := h.g.st.regs;
    var entry := CycleEntry(h, b);
    var load := Load(NUM, h.ptr);
    var cur := Emit(entry, load);
    var c := CoerceTo(h.to, NUM, Reserve(cur.st));
    var cmp := Ins(cur.st.regs, Icmp(Le, cur.op, c.op));
    var st := Line1(c.st, cmp);
    var yes, no := Label("cycle.body", b + 1), Label("cycle.end", b + 3);
    var test := Line1(st, CondBr(Reg(cur.st.regs), yes, no));
    LineBefore(test, LabelLine(yes), prog);
    LandsAt(test, yes, prog);
    LineBefore(st, CondBr(Reg(cur.st.regs), yes, no), prog);
    LineBefore(c.st, cmp, prog);
    SlotOf(env[s.x := Decl(NUM, s.depth)], h.g.scope, w, regs, mem, n, s.x);
    var regs1 := regs[n := w.vars[s.x]];
    ReadyAgree(h.to, to, regs, regs1, n, n + 1);
    ReadyAgree(h.to, to, regs1, regs1, n + 1, n + 2);
    var regs2 := GoesNum(prog, pow, h.to, to, Reserve(cur.st), regs1, mem, n + 2);
    CoerceGrows(h.to, NUM, Reserve(cur.st));
    GoesEmit(prog, pow, n, entry, load, regs, mem);
    var m := At(entry, regs, mem);
    GoesOn(prog, pow, n, n + 2, m, At(cur.st, regs1, mem), At(c.st, regs2, mem));
    var stay := w.vars[s.x].i <= CoerceVal(to, NUM).value.i;
    assert RhsVal(cmp.rhs, regs2, mem, pow) == Some(FactV(stay));
    regs' := regs2[n + 1 := FactV(stay)];
    GoesIns(prog, pow, n, c.st, n + 1, cmp.rhs, regs2, mem);
    GoesThen(prog, pow, n, m, At(c.st, regs2, mem), At(st, regs', mem));
    GoesCond(prog, pow, n, st, Reg(n + 1), stay, yes, no, if stay then test else end, regs', mem);
    GoesThen(prog, pow, n, m, At(st, regs', mem),
      At(if stay then GenCycleTest(h, b) else Line1(end, LabelLine(no)), regs', mem));
    assert Agree(regs, regs', n);
    HeadAgree(s, h, env, w, to, step, regs, regs', mem);
  }

  lemma LandsAt(st: St, l: Label, prog: seq<Line>)
    requires Line1(st, LabelLine(l)).body <= prog
    ensures Lands(prog, l, st)
  {
  }

  lemma HeadAgree(s: Stmt, h: CycleHead, env: Env, w: World, to: Val, step: Val, regs: Regs, regs': Regs, mem: Mem)
    requires s.Cycle? && AtHead(s, h, env, w, to, step, regs, mem) && Agree(regs, regs', h.g.st.regs)
    ensures AtHead(s, h, env, w, to, step, regs', mem)
  {
    hide Good, Ready;
    GoodAgree(env[s.x := Decl(NUM, s.depth)], h.g.scope, w, regs, regs', mem, h.g.st.regs, h.g.st.regs);
    ReadyAgree(h.to, to, regs, regs', h.g.st.regs, h.g.st.regs);
    ReadyAgree(h.step, step, regs, regs', h.g.st.regs, h.g.st.regs);
  }

  // After the body: the step is added and control returns to the condition.
  lemma SimCycleStep(prog: seq<Line>, pow: Power, s: Stmt, h: CycleHead, b: nat, env: Env, w: World, to: Val,
                     step: Val, st: St, regs: Regs, mem: Mem)
    returns (regs': Regs, mem': Mem)
    requires s.Cycle? && AtHead(s, h, env, w, to, step, regs, mem) && CoerceVal(step, NUM).Some?
    requires CoerceVal(step, NUM).value.NumV?
    requires GenCycleStep(h, b, st).body <= prog && Lands(prog, Label("cycle.cond", b), h.g.st) && LabelsOnce(prog)
    requires s.x in w.vars && w.vars[s.x].NumV? && h.g.st.regs <= st.regs
    ensures var next := NumV(Wrap(w.vars[s.x].i + CoerceVal(step, NUM).value.i));
      && Goes(prog, pow, h.g.st.regs, At(st, regs, mem), At(CycleEntry(h, b), regs', mem'))
      && AtHead(s, h, env, w.(vars := w.vars[s.x := next]), to, step, regs', mem')
  {
    hide Goes, CoerceTo, Good, LabelsOnce, Lands, Ready, CoerceVal, StoreVal;
    var n, r := h.g.st.regs, st.regs;
    var envx := env[s.x := Decl(NUM, s.depth)];
    var inc, cond := Label("cycle.inc", b + 2), Label("cycle.cond", b);
    var br := Line1(st, Br(inc));
    var st1 := Line1(br, LabelLine(inc));
    var load := Load(NUM, h.ptr);
    var cur := Emit(st1, load);
    var c := CoerceTo(h.step, NUM, Reserve(cur.st));
    var add := Ins(r + 1, IntBin(IAdd, cur.op, c.op));
    var st2 := Line1(c.st, add);
    var line := Store(NUM, Reg(r + 1), h.ptr);
    var st3 := Line1(st2, line);
    LineBefore(Line1(st3, Br(cond)), LabelLine(Label("cycle.end", b + 3)), prog);
    LineBefore(st3, Br(cond), prog);
    LineBefore(st2, line, prog);
    LineBefore(c.st, add, prog);
    SlotOf(envx, h.g.scope, w, regs, mem, n, s.x);
    var regs1 := regs[r := w.vars[s.x]];
    ReadyAgree(h.step, step, regs, regs1, n, r + 2);
    var regs2 := GoesNum(prog, pow, h.step, step, Reserve(cur.st), regs1, mem, r + 2);
    GoesEmit(prog, pow, n, st1, load, regs, mem);
    LineBefore(br, LabelLine(inc), prog);
    LandsAt(br, inc, prog);
    GoesBr(prog, pow, n, st, inc, br, regs, mem);
    var m := At(st, regs, mem);
    GoesThen(prog, pow, n, m, At(st1, regs, mem), At(cur.st, regs1, mem));
    GoesOn(prog, pow, n, r + 2, m, At(cur.st, regs1, mem), At(c.st, regs2, mem));
    var next := NumV(Wrap(w.vars[s.x].i + CoerceVal(step, NUM).value.i));
    assert RhsVal(add.rhs, regs2, mem, pow) == Some(next);
    regs' := regs2[r + 1 := next];
    GoesIns(prog, pow, n, c.st, r + 1, add.rhs, regs2, mem);
    GoesThen(prog, pow, n, m, At(c.st, regs2, mem), At(st2, regs', mem));
    assert Agree(regs, regs', n);
    HeadAgree(s, h, env, w, to, step, regs, regs', mem);
    GoodStore(envx, h.g.scope, w, regs', mem, n, s.x, next);
    var p := OpVal(h.ptr, regs').value;
    mem' := StoreVal(NUM, next, p, mem).value;
    GoesStore(prog, pow, n, st2, line, regs', mem, next, p);
    GoesThen(prog, pow, n, m, At(st2, regs', mem), At(st3, regs', mem'));
    GoesBr(prog, pow, n, st3, cond, h.g.st, regs', mem');
    GoesThen(prog, pow, n, m, At(st3, regs', mem'), At(CycleEntry(h, b), regs', mem'));
  }

  lemma CyclePrefix(s: Stmt, g: Gen, prog: seq<Line>)
    requires s.Cycle? && GenCycle(s, g).st.body <= prog
    ensures var h := GenCycleHead(s, g);
      var b := g.blocks;
      var t := h.g.(st := GenCycleTest(h, b));
      var g1 := GenBody(s.body, s.depth, t);
      && CycleEntry(h, b).body <= prog && t.st.body <= prog && g1.st.body <= prog
      && GenCycleStep(h, b, g1.st).body <= prog
      && Lands(prog, Label("cycle.cond", b), h.g.st) && g.st.regs <= h.g.st.regs <= t.st.regs <= g1.st.regs
      && GenCycle(s, g).st == GenCycleStep(h, b, g1.st)
        == Line1(CycleEnd(h, b, g1.st), LabelLine(Label("cycle.end", b + 3)))
      && Lands(prog, Label("cycle.end", b + 3), CycleEnd(h, b, g1.st)) && g1.st.regs <= GenCycle(s, g).st.regs
  {
    hide GenBody, GenCycleTest, GenCycleHead, CoerceTo;
    var h := GenCycleHead(s, g);
    var b := g.blocks;
    var t := h.g.(st := GenCycleTest(h, b));
    var g1 := GenBody(s.body, s.depth, t);
    CycleStepGrows(h, b, g1.st);
    Earlier(g1.st, GenCycleStep(h, b, g1.st), prog);
    BodyGrows(s.body, s.depth, t);
    Earlier(t.st, g1.st, prog);
    CycleTestGrows(h, b);
    Earlier(CycleEntry(h, b), t.st, prog);
    CycleHeadGrows(s, g);
  }

  // What precedes the end label.
  function CycleEnd(h: CycleHead, b: nat, st: St): St {
    var st1 := Line1(Line1(st, Br(Label("cycle.inc", b + 2))), LabelLine(Label("cycle.inc", b + 2)));
    var cur := Emit(st1, Load(NUM, h.ptr));
    var c := CoerceTo(h.step, NUM, Reserve(cur.st));
    var st2 := Line1(c.st, Ins(cur.st.regs, IntBin(IAdd, cur.op, c.op)));
    Line1(Line1(st2, Store(NUM, Reg(cur.st.regs), h.ptr)), Br(Label("cycle.cond", b)))
  }

  // From the condition's label to the end, for any number of passes.
  lemma {:induction false} CycleLoop(prog: seq<Line>, pow: Power, s: Stmt, env: Env, g: Gen, w: World, to: Val,
                                     step: Val, fuel: nat, regs: Regs, mem: Mem)
    returns (regs': Regs, mem': Mem)
    requires s.Cycle? && g.depth == s.depth < DEPTHS && Within(env, s.depth)
    requires CheckBlock(s.body, env[s.x := Decl(NUM, s.depth)], s.depth).Some?
    requires RunCycle(s, to, step, w, fuel, pow).Some? && LabelsOnce(prog)
    requires GenCycle(s, g).st.body <= prog && AtHead(s, GenCycleHead(s, g), env, w, to, step, regs, mem)
    ensures var h := GenCycleHead(s, g);
      && Goes(prog, pow, h.g.st.regs, At(CycleEntry(h, g.blocks), regs, mem), At(GenCycle(s, g).st, regs', mem'))
      && AtHead(s, h, env, RunCycle(s, to, step, w, fuel, pow).value, to, step, regs', mem')
    decreases fuel, s, 0
  {
    hide Goes, Good, LabelsOnce, GenBody, CheckBlock, Tick, Lands, GenCycle, GenCycleTest, GenCycleStep, GenCycleHead,
         CoerceVal, CycleEnd, Ready;
    var b := g.blocks;
    var h := GenCycleHead(s, g);
    var n := h.g.st.regs;
    var t := h.g.(st := GenCycleTest(h, b));
    var g1 := GenBody(s.body, s.depth, t);
    var envx := env[s.x := Decl(NUM, s.depth)];
    CyclePrefix(s, g, prog);
    var m := At(CycleEntry(h, b), regs, mem);
    NumValue(to);
    NumValue(step);
    HeadGen(s, g);
    var regs1 := SimCycleTest(prog, pow, s, h, b, env, w, to, step, regs, mem, CycleEnd(h, b, g1.st));
    if w.vars[s.x].i > CoerceVal(to, NUM).value.i {
      regs', mem' := regs1, mem;
    } else {
      GoodMore(envx, h.g.scope, w, regs1, mem, n, t.st.regs);
      var regs2, mem2 := SimTick(prog, pow, s.body, s.depth, envx, t, w, fuel - 1, regs1, mem);
      var w2 := Tick(s.body, s.depth, w, fuel - 1, pow).value;
      GoesAgree(prog, pow, t.st.regs, At(t.st, regs1, mem), At(g1.st, regs2, mem2));
      AfterTick(s, h, env, w, w2, to, step, regs1, regs2, mem, mem2, t.st.regs);
      GoesOn(prog, pow, n, t.st.regs, m, At(t.st, regs1, mem), At(g1.st, regs2, mem2));
      var regs3, mem3 := SimCycleStep(prog, pow, s, h, b, env, w2, to, step, g1.st, regs2, mem2);
      GoesThen(prog, pow, n, m, At(g1.st, regs2, mem2), At(CycleEntry(h, b), regs3, mem3));
      var next := NumV(Wrap(w2.vars[s.x].i + CoerceVal(step, NUM).value.i));
      regs', mem' := CycleLoop(prog, pow, s, env, g, w2.(vars := w2.vars[s.x := next]), to, step, fuel - 1, regs3,
        mem3);
      GoesThen(prog, pow, n, m, At(CycleEntry(h, b), regs3, mem3), At(GenCycle(s, g).st, regs', mem'));
    }
  }

  lemma NumValue(v: Val)
    ensures CoerceVal(v, NUM).Some? ==> CoerceVal(v, NUM).value.NumV?
  {
  }

  lemma HeadGen(s: Stmt, g: Gen)
    requires s.Cycle?
    ensures GenCycleHead(s, g).g.depth == g.depth && s.x in GenCycleHead(s, g).g.scope
  {
    hide Comp, CoerceTo, GenAlloc;
  }

  lemma AfterTick(s: Stmt, h: CycleHead, env: Env, w: World, w': World, to: Val, step: Val, regs: Regs, regs': Regs,
                  mem: Mem, mem': Mem, n: nat)
    requires s.Cycle? && AtHead(s, h, env, w, to, step, regs, mem) && Agree(regs, regs', n) && h.g.st.regs <= n
    requires Good(env[s.x := Decl(NUM, s.depth)], h.g.scope, w', regs', mem', n)
    ensures AtHead(s, h, env, w', to, step, regs', mem')
  {
    hide Good, Ready;
    var envx := env[s.x := Decl(NUM, s.depth)];
    IncludesSelf(envx);
    GoodAfter(envx, envx, h.g.scope, h.g.scope, h.g.scope, w, w', regs, regs', mem, mem', h.g.st.regs, n, h.g.st.regs);
    ReadyAgree(h.to, to, regs, regs', h.g.st.regs, h.g.st.regs);
    ReadyAgree(h.step, step, regs, regs', h.g.st.regs, h.g.st.regs);
  }

  lemma {:induction false} SimCycle(prog: seq<Line>, pow: Power, s: Stmt, env: Env, g: Gen, w: World, fuel: nat,
                                    regs: Regs, mem: Mem)
    returns (regs': Regs, mem': Mem)
    requires s.Cycle? && g.depth == s.depth < DEPTHS && Within(env, s.depth) && s.x !in env
    requires AsTyped(s.from, NUM, TypesOf(env)) && AsTyped(s.to, NUM, TypesOf(env))
    requires (s.step.Some? ==> AsTyped(s.step.value, NUM, TypesOf(env)))
    requires CheckBlock(s.body, env[s.x := Decl(NUM, s.depth)], s.depth).Some?
    requires RunStmt(s, s.depth, w, fuel, pow).Some? && LabelsOnce(prog)
    requires GenCycle(s, g).st.body <= prog && Good(env, g.scope, w, regs, mem, g.st.regs)
    ensures Goes(prog, pow, g.st.regs, At(g.st, regs, mem), At(GenCycle(s, g).st, regs', mem'))
    ensures Good(env, GenCycle(s, g).scope, RunStmt(s, s.depth, w, fuel, pow).value, regs', mem',
      GenCycle(s, g).st.regs)
    decreases fuel, s, 1
  {
    hide Goes, Good, LabelsOnce, GenBody, CheckBlock, Lands, GenCycle, GenCycleTest, GenCycleStep, GenCycleHead,
         CoerceVal, CycleEnd, Ready,
         RunCycle, AsTyped, Eval, EvalAs, Tree, Allocate;
    var h := GenCycleHead(s, g);
    var f := EvalAs(s.from, NUM, w.vars, pow).value;
    var t := Eval(Tree(s.to), w.vars, pow).value;
    var k := if s.step.Some? then Eval(Tree(s.step.value), w.vars, pow).value else NumV(1);
    var w1 := World(w.vars[s.x := f], Allocate(w.offs, s.depth, NUM).value);
    CyclePrefix(s, g, prog);
    var regs1, mem1 := SimCycleHead(prog, pow, s, env, g, w, regs, mem, f, t, k);
    regs', mem' := CycleLoop(prog, pow, s, env, g, w1, t, k, fuel, regs1, mem1);
    GoesOn(prog, pow, g.st.regs, h.g.st.regs, At(g.st, regs, mem), At(CycleEntry(h, g.blocks), regs1, mem1),
      At(GenCycle(s, g).st, regs', mem'));
    CycleScope(s, env, g);
    HeadScope(s, g);
    var w2 := RunCycle(s, t, k, w1, fuel, pow).value;
    CycleView(s, env, h.g.scope, g.scope, GenCycle(s, g).scope, w, w2, regs, regs', mem, mem', g.st.regs, h.g.st.regs,
      GenCycle(s, g).st.regs);
  }

  lemma HeadScope(s: Stmt, g: Gen)
    requires s.Cycle?
    ensures var scope := GenCycleHead(s, g).g.scope; s.x in scope && scope == g.scope[s.x := scope[s.x]]
  {
    hide Comp, CoerceTo, GenAlloc;
  }

  // The loop variable goes out of view.
  lemma CycleView(s: Stmt, env: Env, scopeH: Scope, scope: Scope, scope': Scope, w: World, w': World, regs: Regs,
                  regs': Regs, mem: Mem, mem': Mem, n: nat, nH: nat, n': nat)
    requires s.Cycle? && s.x !in env && Good(env, scope, w, regs, mem, n)
    requires Good(env[s.x := Decl(NUM, s.depth)], scopeH, w', regs', mem', nH) && n <= n'
    requires SameOn(env, scope, scope') && s.x in scopeH && scopeH == scope[s.x := scopeH[s.x]]
    ensures Good(env, scope', w', regs', mem', n')
  {
    hide Good;
    GoodAfter(env, env[s.x := Decl(NUM, s.depth)], scope, scopeH, scope', w, w', regs, regs', mem, mem', n, nH, n');
  }
}
