// Running the emitted stretches: what each does to the registers, the arenas
// and the variables held in them.
module FlowRun {
  import opened Options
  import opened ExprSyntax
  import opened Ir
  import opened ExprSpec
  import opened ExprProof
  import opened FlowSpec
  import opened Machine

  function At(st: St, regs: Regs, mem: Mem): Config { Config(|st.body|, regs, mem) }

  // A run that leaves the registers below n alone.
  ghost predicate Goes(prog: seq<Line>, pow: Power, n: nat, m: Config, m': Config) {
    Reaches(prog, pow, m, m') && Agree(m.regs, m'.regs, n)
  }

  lemma GoesThen(prog: seq<Line>, pow: Power, n: nat, m: Config, m1: Config, m2: Config)
    requires Goes(prog, pow, n, m, m1) && Goes(prog, pow, n, m1, m2)
    ensures Goes(prog, pow, n, m, m2)
  {
    ReachesThen(prog, pow, m, m1, m2);
  }

  lemma GoesFewer(prog: seq<Line>, pow: Power, n: nat, n': nat, m: Config, m': Config)
    requires Goes(prog, pow, n, m, m') && n' <= n
    ensures Goes(prog, pow, n', m, m')
  {
  }

  lemma GoesSelf(prog: seq<Line>, pow: Power, n: nat, m: Config)
    ensures Goes(prog, pow, n, m, m)
  {
    ReachesSelf(prog, pow, m);
  }

  // ── One line ──

  lemma GoesEmit(prog: seq<Line>, pow: Power, n: nat, st: St, rhs: Rhs, regs: Regs, mem: Mem)
    requires Emit(st, rhs).st.body <= prog && n <= st.regs && RhsVal(rhs, regs, mem, pow).Some?
    ensures Goes(prog, pow, n, At(st, regs, mem),
      At(Emit(st, rhs).st, regs[st.regs := RhsVal(rhs, regs, mem, pow).value], mem))
    ensures st.body <= prog
  {
    PrefixLine(prog, st.body, Ins(st.regs, rhs));
    ReachesStep(prog, pow, At(st, regs, mem));
  }

  // A line whose register was reserved earlier.
  lemma GoesIns(prog: seq<Line>, pow: Power, n: nat, st: St, dst: nat, rhs: Rhs, regs: Regs, mem: Mem)
    requires Line1(st, Ins(dst, rhs)).body <= prog && n <= dst && RhsVal(rhs, regs, mem, pow).Some?
    ensures Goes(prog, pow, n, At(st, regs, mem),
      At(Line1(st, Ins(dst, rhs)), regs[dst := RhsVal(rhs, regs, mem, pow).value], mem))
    ensures st.body <= prog
  {
    PrefixLine(prog, st.body, Ins(dst, rhs));
    ReachesStep(prog, pow, At(st, regs, mem));
  }

  lemma GoesStore(prog: seq<Line>, pow: Power, n: nat, st: St, line: Line, regs: Regs, mem: Mem, v: Val, p: Val)
    requires Line1(st, line).body <= prog && line.Store?
    requires OpVal(line.v, regs) == Some(v) && OpVal(line.p, regs) == Some(p) && StoreVal(line.ty, v, p, mem).Some?
    ensures Goes(prog, pow, n, At(st, regs, mem), At(Line1(st, line), regs, StoreVal(line.ty, v, p, mem).value))
    ensures st.body <= prog
  {
    PrefixLine(prog, st.body, line);
    ReachesStep(prog, pow, At(st, regs, mem));
  }

  lemma GoesLabel(prog: seq<Line>, pow: Power, n: nat, st: St, l: Label, regs: Regs, mem: Mem)
    requires Line1(st, LabelLine(l)).body <= prog
    ensures Goes(prog, pow, n, At(st, regs, mem), At(Line1(st, LabelLine(l)), regs, mem)) && st.body <= prog
  {
    PrefixLine(prog, st.body, LabelLine(l));
    ReachesStep(prog, pow, At(st, regs, mem));
  }

  // A branch arrives just after its label, where the stretch dest ends.
  ghost predicate Lands(prog: seq<Line>, l: Label, dest: St) {
    Line1(dest, LabelLine(l)).body <= prog
  }

  lemma GoesBr(prog: seq<Line>, pow: Power, n: nat, st: St, l: Label, dest: St, regs: Regs, mem: Mem)
    requires Line1(st, Br(l)).body <= prog && Lands(prog, l, dest) && LabelsOnce(prog)
    ensures Goes(prog, pow, n, At(st, regs, mem), At(Line1(dest, LabelLine(l)), regs, mem)) && st.body <= prog
  {
    PrefixLine(prog, st.body, Br(l));
    PrefixLine(prog, dest.body, LabelLine(l));
    FindIs(prog, |dest.body|, l);
    ReachesStep(prog, pow, At(st, regs, mem));
    GoesLabel(prog, pow, n, dest, l, regs, mem);
    GoesThen(prog, pow, n, At(st, regs, mem), At(dest, regs, mem), At(Line1(dest, LabelLine(l)), regs, mem));
  }

  lemma GoesCond(prog: seq<Line>, pow: Power, n: nat, st: St, c: Operand, b: bool, yes: Label, no: Label, dest: St,
                 regs: Regs, mem: Mem)
    requires Line1(st, CondBr(c, yes, no)).body <= prog && Lands(prog, if b then yes else no, dest) && LabelsOnce(prog)
    requires OpVal(c, regs) == Some(FactV(b))
    ensures Goes(prog, pow, n, At(st, regs, mem), At(Line1(dest, LabelLine(if b then yes else no)), regs, mem))
    ensures st.body <= prog
  {
    var l := if b then yes else no;
    PrefixLine(prog, st.body, CondBr(c, yes, no));
    PrefixLine(prog, dest.body, LabelLine(l));
    FindIs(prog, |dest.body|, l);
    ReachesStep(prog, pow, At(st, regs, mem));
    GoesLabel(prog, pow, n, dest, l, regs, mem);
    GoesThen(prog, pow, n, At(st, regs, mem), At(dest, regs, mem), At(Line1(dest, LabelLine(l)), regs, mem));
  }

  // ── Expressions and conversions ──

  lemma GoesComp(prog: seq<Line>, pow: Power, e: Expr, types: Types, scope: Scope, vars: Vars, st: St, regs: Regs,
                 mem: Mem)
    returns (regs': Regs)
    requires Typed(e, types).Some? && Eval(e, vars, pow).Some?
    requires AllBound(types, scope, vars, regs, mem.cells) && ScopeBelow(types, scope, st.regs)
    requires Comp(e, scope, st).st.body <= prog
    ensures var out := Comp(e, scope, st);
      && Goes(prog, pow, st.regs, At(st, regs, mem), At(out.st, regs', mem))
      && OpVal(out.v.op, regs') == Eval(e, vars, pow) && Below(out.v.op, out.st.regs)
      && Some(out.v.ty) == Typed(e, types) && HasType(Eval(e, vars, pow).value, out.v.ty)
      && st.regs <= out.st.regs && st.body <= out.st.body && out.st.errors == st.errors
      && Agree(regs, regs', st.regs) && AllBound(types, scope, vars, regs', mem.cells)
      && ScopeBelow(types, scope, out.st.regs)
  {
    hide Comp, Eval, Typed, Goes, HasType, AllBound;
    var start := Start(|st.body|, regs, mem, pow);
    var out := Comp(e, scope, st);
    assert After(st.body, start) == Some(regs);
    BoundTyped(types, scope, vars, st, start);
    EvalTyped(e, types, vars, pow);
    CompTags(e, types, scope, st);
    CompYields(e, types, scope, vars, st, start);
    regs' := After(out.st.body, start).value;
    StraightRun(prog, st.body, out.st.body, regs, mem, pow);
    MakeGoes(prog, pow, st.regs, At(st, regs, mem), At(out.st, regs', mem));
    StillBound(types, scope, vars, regs, regs', mem.cells, st.regs);
  }

  lemma MakeGoes(prog: seq<Line>, pow: Power, n: nat, m: Config, m': Config)
    requires Reaches(prog, pow, m, m') && Agree(m.regs, m'.regs, n)
    ensures Goes(prog, pow, n, m, m')
  {
  }

  predicate Coercible(from: Ty, to: Ty) {
    from == to || (from == NUM && to == SCL) || (from == SCL && to == NUM) || (from == FACT && to == NUM)
      || (from == NUM && to == FACT)
  }

  lemma GoesCoerce(prog: seq<Line>, pow: Power, v: TVal, x: Val, ty: Ty, st: St, regs: Regs, mem: Mem)
    returns (regs': Regs)
    requires OpVal(v.op, regs) == Some(x) && HasType(x, v.ty) && Below(v.op, st.regs) && Coercible(v.ty, ty)
    requires CoerceVal(x, ty).Some? && CoerceTo(v, ty, st).st.body <= prog
    ensures var out := CoerceTo(v, ty, st);
      && Goes(prog, pow, st.regs, At(st, regs, mem), At(out.st, regs', mem)) && Agree(regs, regs', st.regs)
      && OpVal(out.op, regs') == CoerceVal(x, ty) && Below(out.op, out.st.regs) && HasType(CoerceVal(x, ty).value, ty)
      && st.regs <= out.st.regs && st.body <= out.st.body && out.st.errors == st.errors
  {
    hide Goes;
    if v.ty == ty {
      regs' := regs;
      GoesSelf(prog, pow, st.regs, At(st, regs, mem));
    } else {
      var rhs := if ty == SCL then SiToFp(v.op) else if ty == FACT then Trunc(v.op)
        else if v.ty == SCL then FpToSi(v.op) else Zext(v.op);
      assert CoerceTo(v, ty, st) == Emit(st, rhs);
      assert RhsVal(rhs, regs, mem, pow) == CoerceVal(x, ty);
      regs' := regs[st.regs := CoerceVal(x, ty).value];
      GoesEmit(prog, pow, st.regs, st, rhs, regs, mem);
    }
  }

  lemma GoesBool(prog: seq<Line>, pow: Power, v: TVal, x: Val, st: St, regs: Regs, mem: Mem) returns (regs': Regs)
    requires OpVal(v.op, regs) == Some(x) && HasType(x, v.ty) && Below(v.op, st.regs)
    requires EnsureBool(v, st).st.body <= prog
    ensures var out := EnsureBool(v, st);
      && Goes(prog, pow, st.regs, At(st, regs, mem), At(out.st, regs', mem)) && Agree(regs, regs', st.regs)
      && OpVal(out.op, regs') == Some(FactV(Truth(x)))
      && st.regs <= out.st.regs && st.body <= out.st.body && out.st.errors == st.errors
  {
    hide Goes;
    if v.ty == FACT {
      regs' := regs;
      GoesSelf(prog, pow, st.regs, At(st, regs, mem));
    } else {
      var rhs := if v.ty == NUM then Icmp(Ne, v.op, IntC(0)) else Fcmp(Ne, v.op, RealC(0.0));
      assert EnsureBool(v, st) == Emit(st, rhs);
      assert RhsVal(rhs, regs, mem, pow) == Some(FactV(Truth(x)));
      regs' := regs[st.regs := FactV(Truth(x))];
      GoesEmit(prog, pow, st.regs, st, rhs, regs, mem);
    }
  }

  lemma CompBody(e: Expr, scope: Scope, st: St)
    ensures st.body <= Comp(e, scope, st).st.body && st.regs <= Comp(e, scope, st).st.regs
  {
    SsaEmpty(st, scope);
    CompSsa(e, scope, st.regs, st, st);
  }

  lemma GoesCompCond(prog: seq<Line>, pow: Power, tokens: seq<Token>, types: Types, scope: Scope, vars: Vars, st: St,
                     regs: Regs, mem: Mem)
    returns (regs': Regs)
    requires Typed(Tree(tokens), types).Some? && Eval(Tree(tokens), vars, pow).Some?
    requires AllBound(types, scope, vars, regs, mem.cells) && ScopeBelow(types, scope, st.regs)
    requires CompileCond(tokens, scope, st).st.body <= prog
    ensures var out := CompileCond(tokens, scope, st);
      && Goes(prog, pow, st.regs, At(st, regs, mem), At(out.st, regs', mem)) && Agree(regs, regs', st.regs)
      && OpVal(out.op, regs') == Some(FactV(Truth(Eval(Tree(tokens), vars, pow).value)))
      && st.regs <= out.st.regs && st.body <= out.st.body && out.st.errors == st.errors
  {
    hide Goes, Comp, Eval, Typed, EnsureBool, AllBound, HasType, Tree;
    var v := Comp(Tree(tokens), scope, st);
    BoolBody(v.v, v.st);
    var regs1 := GoesComp(prog, pow, Tree(tokens), types, scope, vars, st, regs, mem);
    regs' := GoesBool(prog, pow, v.v, Eval(Tree(tokens), vars, pow).value, v.st, regs1, mem);
    var out := EnsureBool(v.v, v.st);
    GoesFewer(prog, pow, v.st.regs, st.regs, At(v.st, regs1, mem), At(out.st, regs', mem));
    GoesThen(prog, pow, st.regs, At(st, regs, mem), At(v.st, regs1, mem), At(out.st, regs', mem));
  }

  lemma BoolBody(v: TVal, st: St)
    ensures st.body <= EnsureBool(v, st).st.body && st.regs <= EnsureBool(v, st).st.regs
  {
  }
}
