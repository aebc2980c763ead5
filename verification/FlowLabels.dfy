// Labels: every label is emitted once, and every branch target is emitted.
module FlowLabels {
  import opened Options
  import opened ExprSyntax
  import opened Ir
  import opened ExprSpec
  import opened ExprProof
  import opened FlowSpec
  import opened Machine
  import opened FlowRun
  import opened FlowStore
  import opened FlowCheck

  ghost function Emitted(body: seq<Line>): set<Label> {
    if body == [] then {}
    else
      var line := body[|body| - 1];
      Emitted(body[..|body| - 1]) + if line.LabelLine? then {line.l} else {}
  }

  function TargetsOf(line: Line): set<Label> {
    if line.Br? then {line.l} else if line.CondBr? then {line.yes, line.no} else {}
  }

  ghost function Targets(body: seq<Line>): set<Label> {
    if body == [] then {} else Targets(body[..|body| - 1]) + TargetsOf(body[|body| - 1])
  }

  // Branch targets whose label has not been emitted yet.
  ghost function Open(body: seq<Line>): set<Label> { Targets(body) - Emitted(body) }

  ghost predicate NewNumber(l: Label, seen: set<Label>) { forall m :: m in seen ==> m.n != l.n }

  // No two labels share a number.
  ghost predicate Once(body: seq<Line>) {
    body == [] ||
    var line, rest := body[|body| - 1], body[..|body| - 1];
    Once(rest) && (line.LabelLine? ==> NewNumber(line.l, Emitted(rest)))
  }

  lemma {:induction false} EmittedIff(body: seq<Line>, l: Label)
    ensures l in Emitted(body) <==> exists i :: 0 <= i < |body| && body[i] == LabelLine(l)
  {
    if body != [] {
      var last := |body| - 1;
      EmittedIff(body[..last], l);
      if l in Emitted(body[..last]) {
        var i :| 0 <= i < last && body[..last][i] == LabelLine(l);
        assert body[i] == LabelLine(l);
      }
      forall i | 0 <= i < |body| && body[i] == LabelLine(l)
        ensures l in Emitted(body)
      {
        if i < last { assert body[..last][i] == LabelLine(l); }
      }
    }
  }

  lemma {:induction false} TargetsIff(body: seq<Line>, l: Label)
    ensures l in Targets(body) <==> exists i :: 0 <= i < |body| && l in TargetsOf(body[i])
  {
    if body != [] {
      var last := |body| - 1;
      TargetsIff(body[..last], l);
      if l in Targets(body[..last]) {
        var i :| 0 <= i < last && l in TargetsOf(body[..last][i]);
        assert l in TargetsOf(body[i]);
      }
      forall i | 0 <= i < |body| && l in TargetsOf(body[i])
        ensures l in Targets(body)
      {
        if i < last { assert l in TargetsOf(body[..last][i]); }
      }
    }
  }

  lemma {:induction false} OnceLabels(body: seq<Line>)
    requires Once(body)
    ensures LabelsOnce(body)
  {
    if body != [] {
      var last := |body| - 1;
      OnceLabels(body[..last]);
      forall i, j | 0 <= i < j < |body| && body[i].LabelLine? && body[j].LabelLine?
        ensures body[i].l != body[j].l
      {
        assert body[..last][i] == body[i];
        EmittedIff(body[..last], body[i].l);
        if j < last { assert body[..last][j] == body[j]; }
      }
    }
  }

  // ── Lines without labels or branches ──

  ghost predicate PlainLine(line: Line) { line.Ins? || line.Store? }

  ghost predicate Plain(st: St, st': St) {
    st.body <= st'.body && forall i :: |st.body| <= i < |st'.body| ==> PlainLine(st'.body[i])
  }

  ghost predicate SameLabels(st: St, st': St) {
    Emitted(st'.body) == Emitted(st.body) && Targets(st'.body) == Targets(st.body) && (Once(st.body) ==> Once(st'.body))
  }

  lemma {:induction false} PlainKeeps(st: St, st': St)
    requires Plain(st, st')
    ensures SameLabels(st, st')
    decreases |st'.body|
  {
    if |st.body| == |st'.body| {
      assert st.body == st'.body;
    } else {
      var last := |st'.body| - 1;
      assert PlainLine(st'.body[last]);
      PlainKeeps(st, st'.(body := st'.body[..last]));
    }
  }

  lemma SameThen(st: St, st1: St, st2: St)
    requires SameLabels(st, st1) && SameLabels(st1, st2)
    ensures SameLabels(st, st2)
  {
  }

  lemma LineKeeps(st: St, line: Line)
    requires PlainLine(line)
    ensures SameLabels(st, Line1(st, line))
  {
    PlainKeeps(st, Line1(st, line));
  }

  lemma CompKeeps(e: Expr, scope: Scope, st: St)
    ensures SameLabels(st, Comp(e, scope, st).st)
  {
    SsaEmpty(st, scope);
    CompSsa(e, scope, st.regs, st, st);
    var st' := Comp(e, scope, st).st;
    forall i | |st.body| <= i < |st'.body|
      ensures PlainLine(st'.body[i])
    {
      assert LineOk(st'.body[i], st.regs + (i - |st.body|), st.regs, scope);
    }
    PlainKeeps(st, st');
  }

  lemma ConvertKeeps(v: TVal, ty: Ty, st: St)
    ensures SameLabels(st, CoerceTo(v, ty, st).st) && SameLabels(st, EnsureBool(v, st).st)
    ensures SameLabels(st, Reserve(st))
  {
    PlainKeeps(st, CoerceTo(v, ty, st).st);
    PlainKeeps(st, EnsureBool(v, st).st);
    PlainKeeps(st, Reserve(st));
  }

  lemma AllocKeeps(st: St, ty: Ty, d: nat)
    ensures SameLabels(st, GenAlloc(st, ty, d).st) && SameLabels(st, ReadOffset(st, d).st)
  {
    PlainKeeps(st, GenAlloc(st, ty, d).st);
    PlainKeeps(st, ReadOffset(st, d).st);
  }

  lemma EmitKeeps(st: St, rhs: Rhs)
    ensures SameLabels(st, Emit(st, rhs).st)
  {
    PlainKeeps(st, Emit(st, rhs).st);
  }

  lemma {:induction false} ResetKeeps(st: St, hi: nat, lo: nat)
    ensures SameLabels(st, GenReset(st, hi, lo))
    decreases hi
  {
    hide SameLabels;
    if lo < hi {
      var p := Emit(st, GepOffset(hi));
      var st1 := Line1(p.st, Store(NUM, IntC(0), p.op));
      EmitKeeps(st, GepOffset(hi));
      LineKeeps(p.st, Store(NUM, IntC(0), p.op));
      SameThen(st, p.st, st1);
      ResetKeeps(st1, hi - 1, lo);
      SameThen(st, st1, GenReset(st1, hi - 1, lo));
    } else {
      SameSelf(st);
    }
  }

  lemma SameSelf(st: St)
    ensures SameLabels(st, st)
  {
  }

  lemma CondKeeps(tokens: seq<Token>, scope: Scope, st: St)
    ensures SameLabels(st, CompileCond(tokens, scope, st).st)
  {
    hide Comp, EnsureBool, SameLabels;
    var v := Comp(Tree(tokens), scope, st);
    CompKeeps(Tree(tokens), scope, st);
    ConvertKeeps(v.v, NUM, v.st);
    SameThen(st, v.st, EnsureBool(v.v, v.st).st);
  }

  lemma PlainStmtKeeps(s: Stmt, g: Gen)
    ensures s.Create? ==> SameLabels(g.st, GenCreate(s, g).st)
    ensures s.Set? ==> SameLabels(g.st, GenSet(s, g).st)
    ensures s.IncDec? ==> SameLabels(g.st, GenIncDec(s, g).st)
  {
    hide Comp, CoerceTo, SameLabels, GenAlloc, Tree, Emit;
    if s.Create? {
      var p := GenAlloc(g.st, s.ty, s.depth);
      AllocKeeps(g.st, s.ty, s.depth);
      StoredKeeps(s.e, s.ty, g.scope, p.st, p.op);
      SameThen(g.st, p.st, GenCreate(s, g).st);
    } else if s.Set? && s.x in g.scope {
      StoredKeeps(s.e, g.scope[s.x].ty, g.scope, g.st, Reg(g.scope[s.x].ptr));
    } else if s.Set? {
      FailKeeps(g.st, NotCreated(s.x));
    } else if s.IncDec? && s.x in g.scope && g.scope[s.x].ty != FACT {
      IncDecKeeps(s, g);
    } else if s.IncDec? {
      FailKeeps(g.st, NotCreated(s.x));
      FailKeeps(g.st, NotNumeric(s.x));
    }
  }

  lemma FailKeeps(st: St, e: Error)
    ensures SameLabels(st, Fail(st, e))
  {
  }

  lemma StoredKeeps(tokens: seq<Token>, ty: Ty, scope: Scope, st: St, p: Operand)
    ensures var v := Comp(Tree(tokens), scope, st);
      var c := CoerceTo(v.v, ty, v.st);
      SameLabels(st, c.st) && SameLabels(st, Line1(c.st, Store(ty, c.op, p)))
  {
    hide Comp, CoerceTo, SameLabels, Tree;
    var v := Comp(Tree(tokens), scope, st);
    var c := CoerceTo(v.v, ty, v.st);
    CompKeeps(Tree(tokens), scope, st);
    ConvertKeeps(v.v, ty, v.st);
    LineKeeps(c.st, Store(ty, c.op, p));
    SameThen(st, v.st, c.st);
    SameThen(st, c.st, Line1(c.st, Store(ty, c.op, p)));
  }

  lemma IncDecKeeps(s: Stmt, g: Gen)
    requires s.IncDec? && s.x in g.scope && g.scope[s.x].ty != FACT
    ensures SameLabels(g.st, GenIncDec(s, g).st)
  {
    hide Comp, CoerceTo, SameLabels, Tree, Emit;
    var info := g.scope[s.x];
    var cur := Emit(g.st, Load(info.ty, Reg(info.ptr)));
    var v := Comp(Tree(s.e), g.scope, cur.st);
    var c := CoerceTo(v.v, info.ty, v.st);
    var rhs := if info.ty == SCL then RealBin(if s.plus then FAdd else FSub, cur.op, c.op)
               else IntBin(if s.plus then IAdd else ISub, cur.op, c.op);
    var r := Emit(c.st, rhs);
    EmitKeeps(g.st, Load(info.ty, Reg(info.ptr)));
    StoredKeeps(s.e, info.ty, g.scope, cur.st, Reg(info.ptr));
    EmitKeeps(c.st, rhs);
    LineKeeps(r.st, Store(info.ty, r.op, Reg(info.ptr)));
    SameThen(g.st, cur.st, c.st);
    SameThen(g.st, c.st, r.st);
    SameThen(g.st, r.st, GenIncDec(s, g).st);
  }

  // ── Labels of whole statements ──

  // What emitting did to the labels: numbers from lo to hi were added, and no
  // target is left open beyond those open before.
  ghost predicate Closed(st: St, st': St, lo: nat, hi: nat) {
    && Once(st'.body) && Emitted(st.body) <= Emitted(st'.body) && Open(st'.body) <= Open(st.body)
    && forall l :: l in Emitted(st'.body) ==> l in Emitted(st.body) || lo <= l.n < hi
  }

  ghost predicate Usable(g: Gen) {
    Once(g.st.body) && forall l :: l in Emitted(g.st.body) ==> l.n < g.blocks
  }

  lemma SameClosed(st: St, st': St, lo: nat, hi: nat)
    requires SameLabels(st, st') && Once(st.body)
    ensures Closed(st, st', lo, hi)
  {
  }

  lemma ClosedThen(st: St, st1: St, st2: St, lo: nat, mid: nat, hi: nat)
    requires Closed(st, st1, lo, mid) && Closed(st1, st2, mid, hi) && lo <= mid <= hi
    ensures Closed(st, st2, lo, hi)
  {
  }

  // A label emitted: it must be new, and it closes its target.
  lemma LabelAdds(st: St, l: Label)
    requires Once(st.body) && NewNumber(l, Emitted(st.body))
    ensures var st' := Line1(st, LabelLine(l));
      Once(st'.body) && Emitted(st'.body) == Emitted(st.body) + {l} && Open(st'.body) == Open(st.body) - {l}
  {
    var body' := Line1(st, LabelLine(l)).body;
    assert body'[..|body'| - 1] == st.body;
  }

  lemma BranchAdds(st: St, line: Line)
    requires line.Br? || line.CondBr?
    ensures var st' := Line1(st, line);
      (Once(st.body) ==> Once(st'.body)) && Emitted(st'.body) == Emitted(st.body)
        && Open(st'.body) <= Open(st.body) + TargetsOf(line)
  {
    var body' := Line1(st, line).body;
    assert body'[..|body'| - 1] == st.body;
  }

  lemma {:induction false} BlockLabels(b: Block, g: Gen)
    requires Usable(g)
    ensures Closed(g.st, GenBlock(b, g).st, g.blocks, GenBlock(b, g).blocks) && Usable(GenBlock(b, g))
    decreases b, 0
  {
    hide GenStmt, Once, Open, Emitted;
    if b.Cons? {
      var g1 := GenStmt(b.head, g);
      StmtLabels(b.head, g);
      StmtGrows(b.head, g);
      BlockLabels(b.tail, g1);
      BlockGrows(b.tail, g1);
      ClosedThen(g.st, g1.st, GenBlock(b, g).st, g.blocks, g1.blocks, GenBlock(b, g).blocks);
    }
  }

  lemma {:induction false} StmtLabels(s: Stmt, g: Gen)
    requires Usable(g)
    ensures Closed(g.st, GenStmt(s, g).st, g.blocks, GenStmt(s, g).blocks) && Usable(GenStmt(s, g))
    decreases s, 1
  {
    hide GenReset, GenCreate, GenSet, GenIncDec, GenArms, GenCycle, GenSeason, Once, Open, Emitted, SameLabels, Closed;
    var g0 := Track(s.depth, g);
    var end := GenStmt(s, g);
    ResetKeeps(g.st, g.depth, s.depth);
    UsableSame(g, g0);
    SameTrack(s, g);
    if s.If? {
      IfLabels(s, g0);
    } else if s.Cycle? {
      CycleLabels(s, g0);
    } else if s.Season? {
      SeasonLabels(s, g0);
    } else {
      PlainStmtKeeps(s, g0);
      PlainBlocks(s, g0);
      UsableSame(g0, end);
    }
    StmtGrows(s, g);
    ClosedThen(g.st, g0.st, end.st, g.blocks, g.blocks, end.blocks);
    ClosedUsable(g, end);
  }

  lemma UsableSame(g: Gen, g': Gen)
    requires Usable(g) && SameLabels(g.st, g'.st) && g'.blocks == g.blocks
    ensures Usable(g') && Closed(g.st, g'.st, g.blocks, g'.blocks)
  {
  }

  lemma ClosedUsable(g: Gen, g': Gen)
    requires Usable(g) && Closed(g.st, g'.st, g.blocks, g'.blocks) && g.blocks <= g'.blocks
    ensures Usable(g')
  {
  }

  // The labels of the arms before arm i, of what they contain, and of the module before the IF.
  ghost predicate ArmsSoFar(st: St, before: set<Label>, b: nat, k: nat, i: nat, hi: nat) {
    && Once(st.body) && (forall l :: l in before ==> l.n < b)
    && forall l :: l in Emitted(st.body) ==>
        l in before || b + 1 <= l.n < b + 1 + i || b + 1 + k <= l.n < b + 1 + k + i || b + 1 + k + k <= l.n < hi
  }

  lemma {:induction false} ArmsLabels(arms: Arms, i: nat, b: nat, k: nat, g: Gen, before: set<Label>, open: set<Label>)
    requires i + CountArms(arms) == k && ArmsSoFar(g.st, before, b, k, i, g.blocks) && b + 1 + k + k <= g.blocks
    requires Open(g.st.body) <= open + {CondL(b, k, i), EndL(b)}
    ensures var end := GenArms(arms, i, b, k, g);
      && ArmsSoFar(end.st, before, b, k, k, end.blocks) && Emitted(g.st.body) <= Emitted(end.st.body)
      && Open(end.st.body) <= open + {EndL(b)}
    decreases arms, 0
  {
    hide GenBlock, Once, Open, Emitted, ArmHead;
    if arms.Arm? {
      var h := g.(st := ArmHead(arms, i, b, k, g));
      HeadLabels(arms, i, b, k, g, before, open);
      var g1 := GenBlock(arms.body, h);
      assert Usable(h);
      BlockLabels(arms.body, h);
      BlockGrows(arms.body, h);
      BranchAdds(g1.st, Br(EndL(b)));
      ArmsLabels(arms.rest, i + 1, b, k, g1.(st := Line1(g1.st, Br(EndL(b)))), before, open);
    }
  }

  lemma HeadLabels(arms: Arms, i: nat, b: nat, k: nat, g: Gen, before: set<Label>, open: set<Label>)
    requires arms.Arm? && i < k && ArmsSoFar(g.st, before, b, k, i, g.blocks) && b + 1 + k + k <= g.blocks
    requires Open(g.st.body) <= open + {CondL(b, k, i), EndL(b)}
    ensures var st := ArmHead(arms, i, b, k, g);
      && Once(st.body) && Emitted(st.body) == Emitted(g.st.body) + {CondL(b, k, i), ThenL(b, i)}
      && Open(st.body) <= open + {CondL(b, k, i + 1), EndL(b)}
  {
    hide Once, Open, Emitted, CompileCond, SameLabels;
    var st := Line1(g.st, LabelLine(CondL(b, k, i)));
    LabelAdds(g.st, CondL(b, k, i));
    if arms.cond.None? {
      BranchAdds(st, Br(ThenL(b, i)));
      LabelAdds(Line1(st, Br(ThenL(b, i))), ThenL(b, i));
    } else {
      var c := CompileCond(arms.cond.value, g.scope, st);
      var line := CondBr(c.op, ThenL(b, i), CondL(b, k, i + 1));
      CondKeeps(arms.cond.value, g.scope, st);
      SameMeans(st, c.st);
      BranchAdds(c.st, line);
      LabelAdds(Line1(c.st, line), ThenL(b, i));
    }
  }

  lemma SameMeans(st: St, st': St)
    requires SameLabels(st, st')
    ensures Emitted(st'.body) == Emitted(st.body) && Open(st'.body) == Open(st.body)
    ensures (Once(st.body) ==> Once(st'.body))
  {
  }

  lemma {:induction false} IfLabels(s: Stmt, g: Gen)
    requires s.If? && Usable(g) && g.depth == s.depth
    ensures Closed(g.st, GenStmt(s, g).st, g.blocks, GenStmt(s, g).blocks)
    decreases s, 0
  {
    hide Once, Open, Emitted, GenArms, GenReset;
    var b, k := g.blocks, CountArms(s.arms);
    var g1 := g.(st := Line1(g.st, Br(CondL(b, k, 0))), blocks := b + 1 + k + k);
    BranchAdds(g.st, Br(CondL(b, k, 0)));
    ArmsLabels(s.arms, 0, b, k, g1, Emitted(g.st.body), Open(g.st.body));
    ArmsGrow(s.arms, 0, b, k, g1);
    var end := GenArms(s.arms, 0, b, k, g1);
    LabelAdds(end.st, EndL(b));
    IfIs(s, g);
  }

  lemma IfIs(s: Stmt, g: Gen)
    requires s.If? && g.depth == s.depth
    ensures var b, k := g.blocks, CountArms(s.arms);
      var end := GenArms(s.arms, 0, b, k, g.(st := Line1(g.st, Br(CondL(b, k, 0))), blocks := b + 1 + k + k));
      GenStmt(s, g) == end.(st := Line1(end.st, LabelLine(EndL(b))))
  {
    assert Track(s.depth, g) == g;
  }

  // A loop's body between its two labels.
  lemma {:induction false} BodyLabels(body: Block, d: nat, g: Gen)
    requires Usable(g)
    ensures Closed(g.st, GenBody(body, d, g).st, g.blocks, GenBody(body, d, g).blocks)
    decreases body, 1
  {
    hide Once, Open, Emitted, GenBlock, GenReset, SameLabels, Closed, ReadOffset;
    var o := ReadOffset(g.st, d);
    var h := g.(st := o.st);
    var g1 := GenBlock(body, h);
    var rs := GenReset(g1.st, g1.depth, d);
    var line := Store(NUM, o.op, Reg(g.st.regs));
    AllocKeeps(g.st, NUM, d);
    UsableSame(g, h);
    BlockLabels(body, h);
    BlockGrows(body, h);
    ClosedThen(g.st, h.st, g1.st, g.blocks, g.blocks, g1.blocks);
    ResetKeeps(g1.st, g1.depth, d);
    LineKeeps(rs, line);
    SameThen(g1.st, rs, Line1(rs, line));
    UsableSame(g1, g1.(st := Line1(rs, line)));
    ClosedThen(g.st, g1.st, Line1(rs, line), g.blocks, g1.blocks, g1.blocks);
  }

  lemma SeasonTestLabels(s: Stmt, g: Gen)
    requires s.Season? && Usable(g)
    ensures var st := GenSeasonTest(s, g);
      && Once(st.body) && Open(st.body) <= Open(g.st.body) + {Label("season.end", g.blocks + 2)}
      && Emitted(st.body) == Emitted(g.st.body) + {Label("season.cond", g.blocks), Label("season.body", g.blocks + 1)}
  {
    hide Once, Open, Emitted, CompileCond, SameLabels;
    var b := g.blocks;
    var cond, yes, no := Label("season.cond", b), Label("season.body", b + 1), Label("season.end", b + 2);
    var br := Line1(g.st, Br(cond));
    var entry := Line1(br, LabelLine(cond));
    var c := CompileCond(s.cond, g.scope, entry);
    var test := Line1(c.st, CondBr(c.op, yes, no));
    BranchAdds(g.st, Br(cond));
    LabelAdds(br, cond);
    CondKeeps(s.cond, g.scope, entry);
    SameMeans(entry, c.st);
    BranchAdds(c.st, CondBr(c.op, yes, no));
    LabelAdds(test, yes);
  }

  lemma {:induction false} SeasonLabels(s: Stmt, g: Gen)
    requires s.Season? && Usable(g)
    ensures Closed(g.st, GenSeason(s, g).st, g.blocks, GenSeason(s, g).blocks)
    decreases s, 0
  {
    hide Once, Open, Emitted, GenBody, GenSeasonTest;
    var b := g.blocks;
    var cond, no := Label("season.cond", b), Label("season.end", b + 2);
    var t := g.(st := GenSeasonTest(s, g), blocks := b + 3);
    SeasonTestLabels(s, g);
    assert Usable(t);
    BodyLabels(s.body, s.depth, t);
    BodyGrows(s.body, s.depth, t);
    var g1 := GenBody(s.body, s.depth, t);
    BranchAdds(g1.st, Br(cond));
    assert cond in Emitted(g1.st.body);
    OpenClosed(Line1(g1.st, Br(cond)).body, cond);
    LabelAdds(Line1(g1.st, Br(cond)), no);
  }

  lemma OpenClosed(body: seq<Line>, l: Label)
    requires l in Emitted(body)
    ensures l !in Open(body)
  {
  }

  lemma HeadKeeps(s: Stmt, g: Gen)
    requires s.Cycle?
    ensures var st := GenCycleHead(s, g).g.st;
      && Emitted(st.body) == Emitted(g.st.body) && Open(st.body) <= Open(g.st.body) + {Label("cycle.cond", g.blocks)}
      && (Once(g.st.body) ==> Once(st.body))
  {
    hide Comp, CoerceTo, GenAlloc, Tree, SameLabels, Once, Open, Emitted;
    var f := Comp(Tree(s.from), g.scope, g.st);
    var t := Comp(Tree(s.to), g.scope, f.st);
    var k := if s.step.Some? then Comp(Tree(s.step.value), g.scope, t.st) else VOut(TVal(IntC(1), NUM), t.st);
    var p := GenAlloc(k.st, NUM, s.depth);
    var c := CoerceTo(f.v, NUM, p.st);
    var stored := Line1(c.st, Store(NUM, c.op, p.op));
    CompKeeps(Tree(s.from), g.scope, g.st);
    CompKeeps(Tree(s.to), g.scope, f.st);
    if s.step.Some? { CompKeeps(Tree(s.step.value), g.scope, t.st); } else { SameSelf(t.st); }
    AllocKeeps(k.st, NUM, s.depth);
    ConvertKeeps(f.v, NUM, p.st);
    LineKeeps(c.st, Store(NUM, c.op, p.op));
    SameThen(g.st, f.st, t.st);
    SameThen(g.st, t.st, k.st);
    SameThen(g.st, k.st, p.st);
    SameThen(g.st, p.st, c.st);
    SameThen(g.st, c.st, stored);
    SameMeans(g.st, stored);
    BranchAdds(stored, Br(Label("cycle.cond", g.blocks)));
  }

  lemma TestLabels(h: CycleHead, b: nat)
    requires Once(h.g.st.body) && NewNumber(Label("cycle.cond", b), Emitted(h.g.st.body))
    requires NewNumber(Label("cycle.body", b + 1), Emitted(h.g.st.body))
    ensures var st := GenCycleTest(h, b);
      && Once(st.body)
      && Emitted(st.body) == Emitted(h.g.st.body) + {Label("cycle.cond", b), Label("cycle.body", b + 1)}
      && Open(st.body) <= Open(h.g.st.body) - {Label("cycle.cond", b)} + {Label("cycle.end", b + 3)}
  {
    hide CoerceTo, SameLabels, Once, Open, Emitted;
    var entry := Line1(h.g.st, LabelLine(Label("cycle.cond", b)));
    var load := Load(NUM, h.ptr);
    var cur := Emit(entry, load);
    var c := CoerceTo(h.to, NUM, Reserve(cur.st));
    var line := Ins(cur.st.regs, Icmp(Le, cur.op, c.op));
    var st := Line1(c.st, line);
    var br := CondBr(Reg(cur.st.regs), Label("cycle.body", b + 1), Label("cycle.end", b + 3));
    LabelAdds(h.g.st, Label("cycle.cond", b));
    EmitKeeps(entry, load);
    ConvertKeeps(h.to, NUM, cur.st);
    ConvertKeeps(h.to, NUM, Reserve(cur.st));
    LineKeeps(c.st, line);
    SameThen(entry, cur.st, Reserve(cur.st));
    SameThen(entry, Reserve(cur.st), c.st);
    SameThen(entry, c.st, st);
    SameMeans(entry, st);
    BranchAdds(st, br);
    LabelAdds(Line1(st, br), Label("cycle.body", b + 1));
  }

  lemma StepLabels(h: CycleHead, b: nat, st: St)
    requires Once(st.body) && NewNumber(Label("cycle.inc", b + 2), Emitted(st.body))
    requires NewNumber(Label("cycle.end", b + 3), Emitted(st.body))
    requires Label("cycle.cond", b) in Emitted(st.body)
    ensures var st' := GenCycleStep(h, b, st);
      && Once(st'.body)
      && Emitted(st'.body) == Emitted(st.body) + {Label("cycle.inc", b + 2), Label("cycle.end", b + 3)}
      && Open(st'.body) <= Open(st.body) - {Label("cycle.end", b + 3)}
  {
    hide CoerceTo, SameLabels, Once, Emitted;
    var inc, cond, end := Label("cycle.inc", b + 2), Label("cycle.cond", b), Label("cycle.end", b + 3);
    var br := Line1(st, Br(inc));
    var st1 := Line1(br, LabelLine(inc));
    var load := Load(NUM, h.ptr);
    var cur := Emit(st1, load);
    var c := CoerceTo(h.step, NUM, Reserve(cur.st));
    var add := Ins(cur.st.regs, IntBin(IAdd, cur.op, c.op));
    var store := Store(NUM, Reg(cur.st.regs), h.ptr);
    var st3 := Line1(Line1(c.st, add), store);
    BranchAdds(st, Br(inc));
    LabelAdds(br, inc);
    EmitKeeps(st1, load);
    ConvertKeeps(h.step, NUM, cur.st);
    ConvertKeeps(h.step, NUM, Reserve(cur.st));
    LineKeeps(c.st, add);
    LineKeeps(Line1(c.st, add), store);
    SameThen(st1, cur.st, Reserve(cur.st));
    SameThen(st1, Reserve(cur.st), c.st);
    SameThen(st1, c.st, Line1(c.st, add));
    SameThen(st1, Line1(c.st, add), st3);
    SameMeans(st1, st3);
    BranchAdds(st3, Br(cond));
    LabelAdds(Line1(st3, Br(cond)), end);
  }

  lemma {:induction false} CycleLabels(s: Stmt, g: Gen)
    requires s.Cycle? && Usable(g)
    ensures Closed(g.st, GenCycle(s, g).st, g.blocks, GenCycle(s, g).blocks)
    decreases s, 0
  {
    hide Once, Open, Emitted, GenBody, GenCycleTest, GenCycleStep;
    var b := g.blocks;
    var h := GenCycleHead(s, g);
    HeadKeeps(s, g);
    TestLabels(h, b);
    var t := h.g.(st := GenCycleTest(h, b));
    assert Usable(t);
    BodyLabels(s.body, s.depth, t);
    BodyGrows(s.body, s.depth, t);
    var g1 := GenBody(s.body, s.depth, t);
    StepLabels(h, b, g1.st);
  }

  // Every branch of a program goes to a label that is emitted exactly once.
  lemma ProgramLabels(b: Block, l: Label)
    ensures var prog := GenBlock(b, Gen(St(0, [], []), map[], 0, 0)).st.body;
      && LabelsOnce(prog)
      && ((exists i :: 0 <= i < |prog| && l in TargetsOf(prog[i])) ==>
        exists j :: 0 <= j < |prog| && prog[j] == LabelLine(l))
  {
    hide GenBlock, Once;
    var g := Gen(St(0, [], []), map[], 0, 0);
    assert Usable(g) by { OnceEmpty(); }
    BlockLabels(b, g);
    var prog := GenBlock(b, g).st.body;
    OnceLabels(prog);
    TargetsIff(prog, l);
    EmittedIff(prog, l);
    assert Open([]) == {};
    assert l in Targets(prog) && l !in Emitted(prog) ==> l in Open(prog);
  }

  lemma OnceEmpty()
    ensures Once([])
  {
  }
}
