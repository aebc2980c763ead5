// The statement generator: methods that fill the module line by line, label by
// label, proved to emit exactly the code of FlowSpec.
module Flow {
  import opened Options
  import opened ExprSyntax
  import opened Ir
  import opened ExprSpec
  import opened ExprCode
  import opened FlowSpec
  import opened FlowCheck

  class Generator {
    const mod: Module

    constructor (m: Module)
      ensures mod == m
    {
      mod := m;
    }

    function State(): Gen
      reads mod
    {
      Gen(mod.State(), mod.scope, mod.blockCounter, mod.currentDepth)
    }

    method EmitLine(line: Line)
      modifies mod`body
      ensures State() == old(State()).(st := Line1(old(mod.State()), line))
    {
      mod.body := mod.body + [line];
    }

    method FreshLabel(prefix: string) returns (l: Label)
      modifies mod`blockCounter
      ensures l == Label(prefix, old(mod.blockCounter)) && State() == old(State()).(blocks := old(mod.blockCounter) + 1)
    {
      l := Label(prefix, mod.blockCounter);
      mod.blockCounter := mod.blockCounter + 1;
    }

    // One new label for each of k branches.
    method FreshLabels(prefix: string, k: nat) returns (ls: seq<Label>)
      modifies mod`blockCounter
      ensures |ls| == k && forall i :: 0 <= i < k ==> ls[i] == Label(prefix, old(mod.blockCounter) + i)
      ensures State() == old(State()).(blocks := old(mod.blockCounter) + k)
    {
      ls := [];
      while |ls| < k
        invariant |ls| <= k && forall i :: 0 <= i < |ls| ==> ls[i] == Label(prefix, old(mod.blockCounter) + i)
        invariant State() == old(State()).(blocks := old(mod.blockCounter) + |ls|)
      {
        var l := FreshLabel(prefix);
        ls := ls + [l];
      }
    }

    method EmitReg(rhs: Rhs) returns (reg: Operand)
      modifies mod`regCounter, mod`body
      ensures State() == old(State()).(st := Emit(old(mod.State()), rhs).st) && reg == Emit(old(mod.State()), rhs).op
    {
      reg := mod.EmitReg(rhs);
    }

    // Zeroes the offsets of depths hi down to lo + 1.
    method ResetArenas(hi: nat, lo: nat)
      modifies mod`regCounter, mod`body
      ensures State() == old(State()).(st := GenReset(old(mod.State()), hi, lo))
    {
      var d: nat := hi;
      while d > lo
        invariant GenReset(mod.State(), d, lo) == GenReset(old(mod.State()), hi, lo)
        invariant State() == old(State()).(st := mod.State())
      {
        var p := EmitReg(GepOffset(d));
        EmitLine(Store(NUM, IntC(0), p));
        d := d - 1;
      }
    }

    method TrackDepth(depth: nat)
      modifies mod`regCounter, mod`body, mod`currentDepth
      ensures State() == Track(depth, old(State()))
    {
      if depth == mod.currentDepth { return; }
      if depth > mod.currentDepth {
        mod.currentDepth := depth;
        return;
      }
      ResetArenas(mod.currentDepth, depth);
      mod.currentDepth := depth;
    }

    method ArenaAllocTyped(ty: Ty, depth: nat) returns (ptr: Operand)
      modifies mod`regCounter, mod`body
      ensures State() == old(State()).(st := GenAlloc(old(mod.State()), ty, depth).st)
      ensures ptr == GenAlloc(old(mod.State()), ty, depth).op
    {
      var offPtr := EmitReg(GepOffset(depth));
      var oldOff := EmitReg(Load(NUM, offPtr));
      var newOff := EmitReg(IntBin(IAdd, oldOff, IntC(SizeOf(ty))));
      EmitLine(Store(NUM, newOff, offPtr));
      var raw := EmitReg(GepMemory(depth, oldOff));
      ptr := EmitReg(Bitcast(raw));
    }

    method Coerce(val: TVal, declared: Ty) returns (op: Operand)
      modifies mod`regCounter, mod`body, mod`errors
      ensures State() == old(State()).(st := CoerceTo(val, declared, old(mod.State())).st)
      ensures op == CoerceTo(val, declared, old(mod.State())).op
    {
      if val.ty == declared {
        return val.op;
      } else if declared == SCL && val.ty == NUM {
        op := EmitReg(SiToFp(val.op));
      } else if declared == NUM && val.ty == SCL {
        op := EmitReg(FpToSi(val.op));
      } else if declared == NUM && val.ty == FACT {
        op := EmitReg(Zext(val.op));
      } else if declared == FACT && val.ty == NUM {
        op := EmitReg(Trunc(val.op));
      } else {
        mod.Error(TypeMismatch(declared, val.ty));
        op := IntC(0);
      }
    }

    method CompileExpr(tokens: seq<Token>) returns (v: TVal)
      modifies mod`regCounter, mod`body, mod`errors
      ensures VOut(v, mod.State()) == Comp(Tree(tokens), mod.scope, old(mod.State()))
      ensures State() == old(State()).(st := mod.State())
    {
      var ec := new ExprCompiler(mod);
      v := ec.CompileExpr(tokens);
    }

    method CompileCond(tokens: seq<Token>) returns (op: Operand)
      modifies mod`regCounter, mod`body, mod`errors
      ensures Out(op, mod.State()) == FlowSpec.CompileCond(tokens, mod.scope, old(mod.State()))
      ensures State() == old(State()).(st := mod.State())
    {
      var ec := new ExprCompiler(mod);
      var v := ec.CompileExpr(tokens);
      op := ec.EnsureBool(v);
    }

    method GenCreate(s: Stmt)
      requires s.Create?
      modifies mod`regCounter, mod`body, mod`errors, mod`scope
      ensures State() == FlowSpec.GenCreate(s, old(State()))
    {
      hide GenAlloc, Comp, CoerceTo, Tree;
      AllocReg(mod.State(), s.ty, s.depth);
      var ptr := ArenaAllocTyped(s.ty, s.depth);
      var val := CompileExpr(s.e);
      var coerced := Coerce(val, s.ty);
      EmitLine(Store(s.ty, coerced, ptr));
      mod.scope := mod.scope[s.x := Info(ptr.n, s.ty)];
    }

    method GenSet(s: Stmt)
      requires s.Set?
      modifies mod`regCounter, mod`body, mod`errors
      ensures State() == FlowSpec.GenSet(s, old(State()))
    {
      hide Comp, CoerceTo, Tree;
      if s.x !in mod.scope {
        mod.Error(NotCreated(s.x));
        return;
      }
      var info := mod.scope[s.x];
      var val := CompileExpr(s.e);
      var coerced := Coerce(val, info.ty);
      EmitLine(Store(info.ty, coerced, Reg(info.ptr)));
    }

    method GenIncDec(s: Stmt)
      requires s.IncDec?
      modifies mod`regCounter, mod`body, mod`errors
      ensures State() == FlowSpec.GenIncDec(s, old(State()))
    {
      hide Comp, CoerceTo, Tree;
      if s.x !in mod.scope {
        mod.Error(NotCreated(s.x));
        return;
      }
      var info := mod.scope[s.x];
      if info.ty == FACT {
        mod.Error(NotNumeric(s.x));
        return;
      }
      var cur := EmitReg(Load(info.ty, Reg(info.ptr)));
      var amount := CompileExpr(s.e);
      var coerced := Coerce(amount, info.ty);
      var result;
      if info.ty == SCL {
        result := EmitReg(RealBin(if s.plus then FAdd else FSub, cur, coerced));
      } else {
        result := EmitReg(IntBin(if s.plus then IAdd else ISub, cur, coerced));
      }
      EmitLine(Store(info.ty, result, Reg(info.ptr)));
    }

    method GenStatement(s: Stmt)
      modifies mod
      ensures State() == GenStmt(s, old(State()))
      decreases s, 1
    {
      hide FlowSpec.GenCreate, FlowSpec.GenSet, FlowSpec.GenIncDec, FlowSpec.GenCycle, FlowSpec.GenSeason, GenArms,
           Track;
      TrackDepth(s.depth);
      ghost var g0 := State();
      match s
      case Create(_, _, _, _) => GenCreate(s);
      case Set(_, _, _) => GenSet(s);
      case IncDec(_, _, _, _) => GenIncDec(s);
      case If(_, arms) => GenIf(arms);
      case Cycle(_, _, _, _, _, _) => GenCycle(s);
      case Season(_, _, _) => GenSeason(s);
    }

    method GenStatements(b: Block)
      modifies mod
      ensures State() == GenBlock(b, old(State()))
      decreases b, 0
    {
      hide GenStmt;
      var rest := b;
      while rest.Cons?
        invariant GenBlock(rest, State()) == GenBlock(b, old(State()))
        invariant rest == b || rest < b
        decreases rest
      {
        GenStatement(rest.head);
        rest := rest.tail;
      }
    }

    method GenIf(arms: Arms)
      modifies mod
      ensures var g := old(State());
        var b, k := g.blocks, CountArms(arms);
        var end := GenArms(arms, 0, b, k, g.(st := Line1(g.st, Br(CondL(b, k, 0))), blocks := b + 1 + k + k));
        State() == end.(st := Line1(end.st, LabelLine(EndL(b))))
      decreases arms, 1
    {
      hide GenArms;
      ghost var b := mod.blockCounter;
      var k := CountArms(arms);
      var endLabel := FreshLabel("if.end");
      var bodyLabels := FreshLabels("if.then", k);
      var condLabels := FreshLabels("if.cond", k);
      EmitLine(Br(if k > 0 then condLabels[0] else endLabel));
      ghost var g1 := State();
      assert g1 == old(State()).(st := Line1(old(mod.State()), Br(CondL(b, k, 0))), blocks := b + 1 + k + k);
      var i := 0;
      var rest := arms;
      while rest.Arm?
        invariant i + CountArms(rest) == k && (rest == arms || rest < arms)
        invariant GenArms(rest, i, b, k, State()) == GenArms(arms, 0, b, k, g1)
        decreases rest
      {
        ArmStep(rest, i, b, k, State());
        var next := if i + 1 < k then condLabels[i + 1] else endLabel;
        GenArm(rest, condLabels[i], bodyLabels[i], next, endLabel, i, b, k);
        i := i + 1;
        rest := rest.rest;
      }
      GenArmsDone(rest, i, b, k, State());
      EmitLine(LabelLine(endLabel));
    }

    method GenArm(arm: Arms, cond: Label, body: Label, next: Label, end: Label, ghost i: nat, ghost b: nat,
                  ghost k: nat)
      requires arm.Arm? && i < k && cond == CondL(b, k, i) && body == ThenL(b, i) && next == CondL(b, k, i + 1)
      requires end == EndL(b)
      modifies mod
      ensures var g := old(State());
        var g1 := GenBlock(arm.body, g.(st := ArmHead(arm, i, b, k, g)));
        State() == g1.(st := Line1(g1.st, Br(EndL(b))))
      decreases arm, 0
    {
      hide GenBlock, FlowSpec.CompileCond;
      EmitLine(LabelLine(cond));
      if arm.cond.None? {
        EmitLine(Br(body));
      } else {
        var condReg := CompileCond(arm.cond.value);
        EmitLine(CondBr(condReg, body, next));
      }
      EmitLine(LabelLine(body));
      assert State() == old(State()).(st := ArmHead(arm, i, b, k, old(State())));
      GenStatements(arm.body);
      EmitLine(Br(end));
    }

    // Between the loop's body label and the branch back: the offset is read, the
    // body generated, the deeper arenas emptied and the offset written back.
    method GenLoopBody(body: Block, depth: nat)
      modifies mod
      ensures State() == GenBody(body, depth, old(State()))
      decreases body, 1
    {
      hide GenBlock, GenReset;
      var saveGep := EmitReg(GepOffset(depth));
      var savedOff := EmitReg(Load(NUM, saveGep));
      GenStatements(body);
      ResetArenas(mod.currentDepth, depth);
      EmitLine(Store(NUM, savedOff, saveGep));
      mod.currentDepth := depth;
    }

    method GenCycle(s: Stmt)
      requires s.Cycle?
      modifies mod
      ensures State() == FlowSpec.GenCycle(s, old(State()))
      decreases s, 0
    {
      hide GenCycleHead, GenCycleTest, GenCycleStep, GenBody;
      ghost var g := State();
      ghost var h := GenCycleHead(s, g);
      var toVal, stepVal, ptr, cond, body, inc, end := CycleStart(s);
      CycleTest(toVal, ptr, cond, body, end, h, g.blocks);
      GenLoopBody(s.body, s.depth);
      CycleStep(stepVal, ptr, cond, inc, end, h, g.blocks);
    }

    method CycleStart(s: Stmt)
      returns (toVal: TVal, stepVal: TVal, ptr: Operand, cond: Label, body: Label, inc: Label, end: Label)
      requires s.Cycle?
      modifies mod
      ensures CycleHead(toVal, stepVal, ptr, State()) == GenCycleHead(s, old(State()))
      ensures var b := old(mod.blockCounter);
        cond == Label("cycle.cond", b) && body == Label("cycle.body", b + 1) && inc == Label("cycle.inc", b + 2)
          && end == Label("cycle.end", b + 3)
    {
      hide GenAlloc, Comp, CoerceTo, Tree;
      var fromVal := CompileExpr(s.from);
      toVal := CompileExpr(s.to);
      if s.step.Some? {
        stepVal := CompileExpr(s.step.value);
      } else {
        stepVal := TVal(IntC(1), NUM);
      }
      AllocReg(mod.State(), NUM, s.depth);
      ptr := ArenaAllocTyped(NUM, s.depth);
      var first := Coerce(fromVal, NUM);
      EmitLine(Store(NUM, first, ptr));
      mod.scope := mod.scope[s.x := Info(ptr.n, NUM)];
      cond := FreshLabel("cycle.cond");
      body := FreshLabel("cycle.body");
      inc := FreshLabel("cycle.inc");
      end := FreshLabel("cycle.end");
      EmitLine(Br(cond));
    }

    method CycleTest(toVal: TVal, ptr: Operand, cond: Label, body: Label, end: Label, ghost h: CycleHead, ghost b: nat)
      requires h.to == toVal && h.ptr == ptr && State() == h.g
      requires cond == Label("cycle.cond", b) && body == Label("cycle.body", b + 1) && end == Label("cycle.end", b + 3)
      modifies mod
      ensures State() == h.g.(st := GenCycleTest(h, b))
    {
      hide CoerceTo;
      EmitLine(LabelLine(cond));
      var cur := EmitReg(Load(NUM, ptr));
      var cmp := mod.regCounter;
      mod.regCounter := mod.regCounter + 1;
      var bound := Coerce(toVal, NUM);
      EmitLine(Ins(cmp, Icmp(Le, cur, bound)));
      EmitLine(CondBr(Reg(cmp), body, end));
      EmitLine(LabelLine(body));
    }

    method CycleStep(stepVal: TVal, ptr: Operand, cond: Label, inc: Label, end: Label, ghost h: CycleHead, ghost b: nat)
      requires h.step == stepVal && h.ptr == ptr
      requires cond == Label("cycle.cond", b) && inc == Label("cycle.inc", b + 2) && end == Label("cycle.end", b + 3)
      modifies mod
      ensures State() == old(State()).(st := GenCycleStep(h, b, old(mod.State())))
    {
      hide CoerceTo;
      EmitLine(Br(inc));
      EmitLine(LabelLine(inc));
      var cur := EmitReg(Load(NUM, ptr));
      var next := mod.regCounter;
      mod.regCounter := mod.regCounter + 1;
      var step := Coerce(stepVal, NUM);
      EmitLine(Ins(next, IntBin(IAdd, cur, step)));
      EmitLine(Store(NUM, Reg(next), ptr));
      EmitLine(Br(cond));
      EmitLine(LabelLine(end));
    }

    method GenSeason(s: Stmt)
      requires s.Season?
      modifies mod
      ensures State() == FlowSpec.GenSeason(s, old(State()))
      decreases s, 0
    {
      hide GenBody, GenSeasonTest;
      var cond, end := SeasonTest(s);
      GenLoopBody(s.body, s.depth);
      EmitLine(Br(cond));
      EmitLine(LabelLine(end));
    }

    method SeasonTest(s: Stmt) returns (cond: Label, end: Label)
      requires s.Season?
      modifies mod
      ensures var g := old(State());
        State() == g.(st := GenSeasonTest(s, g), blocks := g.blocks + 3)
      ensures cond == Label("season.cond", old(mod.blockCounter))
      ensures end == Label("season.end", old(mod.blockCounter) + 2)
    {
      hide FlowSpec.CompileCond;
      cond := FreshLabel("season.cond");
      var body := FreshLabel("season.body");
      end := FreshLabel("season.end");
      EmitLine(Br(cond));
      EmitLine(LabelLine(cond));
      var condReg := CompileCond(s.cond);
      EmitLine(CondBr(condReg, body, end));
      EmitLine(LabelLine(body));
    }
  }

  lemma AllocReg(st: St, ty: Ty, d: nat)
    ensures GenAlloc(st, ty, d).op.Reg?
  {
  }

  lemma ArmStep(arms: Arms, i: nat, b: nat, k: nat, g: Gen)
    requires arms.Arm?
    ensures var g1 := GenBlock(arms.body, g.(st := ArmHead(arms, i, b, k, g)));
      GenArms(arms, i, b, k, g) == GenArms(arms.rest, i + 1, b, k, g1.(st := Line1(g1.st, Br(EndL(b)))))
  {
  }

  lemma GenArmsDone(arms: Arms, i: nat, b: nat, k: nat, g: Gen)
    requires arms.NoArm?
    ensures GenArms(arms, i, b, k, g) == g
  {
  }
}
