// What whole small programs compute, for every input: counting loops, a conditional
// loop, a choice between arms, and the conversions between types.
module FlowMeaning {
  import opened Options
  import opened Arith
  import opened ExprSyntax
  import opened ExprGrammar
  import opened Ir
  import opened ExprSpec
  import opened ExprProof
  import opened ExprMeaning
  import opened FlowSpec
  import opened Machine
  import opened FlowRun
  import opened FlowStore
  import opened FlowCheck
  import opened FlowProof
  import opened FlowProgram

  // ── Conversions ──

  // NUM to SCL is exact, SCL to NUM goes toward zero, FACT counts as 0 or 1, and NUM is
  // a FACT by its lowest bit; nothing else converts.
  lemma ConversionMeaning(v: Val, ty: Ty)
    ensures HasType(v, ty) ==> CoerceVal(v, ty) == Some(v)
    ensures v.NumV? && ty == SCL ==> CoerceVal(v, ty) == Some(SclV(v.i as real))
    ensures v.SclV? && ty == NUM ==>
      CoerceVal(v, ty) == if Fits64(Truncate(v.r)) then Some(NumV(Truncate(v.r))) else None
    ensures v.FactV? && ty == NUM ==> CoerceVal(v, ty) == Some(NumV(if v.b then 1 else 0))
    ensures v.NumV? && ty == FACT ==> CoerceVal(v, ty) == Some(FactV(v.i % 2 != 0))
    ensures (v.SclV? && ty == FACT) || (v.FactV? && ty == SCL) ==> CoerceVal(v, ty) == None
  {
  }

  // ── Reading the tokens ──

  lemma TreeOf(e: Expr, tokens: seq<Token>)
    requires OrExpr(e, tokens)
    ensures Tree(tokens) == e
  {
    hide OrExpr, Parse;
    Grammar(e, tokens);
  }

  lemma One(e: Expr, t: Token)
    requires Literal(e, t)
    ensures AtomExpr(e, [t]) && Tree([t]) == e
  {
    hide Parse;
    AtomRungs(e, [t]);
    assert Sentence(OR_LEVEL, e, [t]);
    TreeOf(e, [t]);
  }

  // Two one-token operands around an operator.
  lemma Two(t: Token, op: Op, x: Expr, y: Expr, a: Token, b: Token)
    requires Means(t, op) && Literal(x, a) && Literal(y, b)
    ensures Tree([a, t, b]) == Bin(op, x, y)
  {
    hide Parse, AtomExpr, Sentence;
    One(x, a);
    One(y, b);
    AtomSentence(x, [a]);
    AtomSentence(y, [b]);
    TighterRung(t, op, t, op);
    BothRead(t, op, x, y, [a], [b], ATOM_LEVEL, ATOM_LEVEL);
    assert [a] + [t] + [b] == [a, t, b];
  }

  // ── Where a variable ends up in the machine ──

  // Whatever a checked program's run leaves in a variable in view, the emitted code
  // leaves at the variable's address.
  lemma VariableEnds(b: Block, fuel: nat, pow: Power, x: string) returns (regs: Regs, mem: Mem)
    requires CheckBlock(b, map[], 0).Some? && RunBlock(b, 0, World(map[], Zeros(DEPTHS)), fuel, pow).Some?
    requires x in CheckBlock(b, map[], 0).value
    ensures var g, w := GenBlock(b, START), RunBlock(b, 0, World(map[], Zeros(DEPTHS)), fuel, pow).value;
      && g.st.errors == []
      && Reaches(g.st.body, pow, Config(0, map[], Mem(map[], Zeros(DEPTHS))), Config(|g.st.body|, regs, mem))
      && x in g.scope && x in w.vars && g.scope[x].ptr in regs
      && LoadVal(CheckBlock(b, map[], 0).value[x].ty, regs[g.scope[x].ptr], mem) == Some(w.vars[x])
  {
    hide GenBlock, RunBlock, CheckBlock, Reaches;
    regs, mem := ProgramRuns(b, fuel, pow);
    var env, g, w := CheckBlock(b, map[], 0).value, GenBlock(b, START),
      RunBlock(b, 0, World(map[], Zeros(DEPTHS)), fuel, pow).value;
    assert SlotOk(env[x], g.scope[x], w.vars[x], regs, mem.cells, w.offs, g.st.regs);
  }

  // ── Statements step by step ──

  lemma NumAs(tokens: seq<Token>, e: Expr, vars: Vars, pow: Power, i: int)
    requires Tree(tokens) == e && Eval(e, vars, pow) == Some(NumV(i))
    ensures EvalAs(tokens, NUM, vars, pow) == Some(NumV(i))
  {
  }

  lemma SetRuns(d: nat, x: string, tokens: seq<Token>, cur: nat, w: World, fuel: nat, pow: Power, i: int)
    requires x in w.vars && w.vars[x].NumV? && EvalAs(tokens, NUM, w.vars, pow) == Some(NumV(i)) && cur <= d
    ensures RunStmt(Set(d, x, tokens), cur, w, fuel, pow) == Some(w.(vars := w.vars[x := NumV(i)]))
  {
    hide EvalAs;
  }

  lemma StepRuns(d: nat, x: string, plus: bool, tokens: seq<Token>, cur: nat, w: World, fuel: nat, pow: Power, i: int)
    requires x in w.vars && w.vars[x].NumV? && EvalAs(tokens, NUM, w.vars, pow) == Some(NumV(i)) && cur <= d
    requires Fits64(if plus then w.vars[x].i + i else w.vars[x].i - i)
    ensures RunStmt(IncDec(d, x, plus, tokens), cur, w, fuel, pow)
      == Some(w.(vars := w.vars[x := NumV(if plus then w.vars[x].i + i else w.vars[x].i - i)]))
  {
    hide EvalAs;
  }

  lemma CreateRuns(x: string, tokens: seq<Token>, w: World, fuel: nat, pow: Power, i: int)
    requires EvalAs(tokens, NUM, w.vars, pow) == Some(NumV(i)) && |w.offs| == DEPTHS && w.offs[0] + 8 <= ARENA
    ensures RunStmt(Create(0, x, NUM, tokens), 0, w, fuel, pow)
      == Some(World(w.vars[x := NumV(i)], w.offs[0 := w.offs[0] + 8]))
  {
    hide EvalAs;
  }

  // SET converts to the type the variable has and changes no other variable.
  lemma SetMeaning(s: Stmt, cur: nat, w: World, fuel: nat, pow: Power, v: Val, c: Val)
    requires s.Set? && s.x in w.vars && Eval(Tree(s.e), w.vars, pow) == Some(v)
    requires HasType(w.vars[s.x], TypeOf(w.vars[s.x])) && CoerceVal(v, TypeOf(w.vars[s.x])) == Some(c)
    ensures var r := RunStmt(s, cur, w, fuel, pow);
      r.Some? && r.value.vars == w.vars[s.x := c] && HasType(c, TypeOf(w.vars[s.x]))
  {
    hide Eval, Tree;
  }

  // INCREASE and DECREASE add and subtract, modulo 2^64 in a NUM and exactly in an SCL.
  lemma StepMeaning(s: Stmt, cur: nat, w: World, fuel: nat, pow: Power)
    requires s.IncDec? && s.x in w.vars
    ensures w.vars[s.x].NumV? && EvalAs(s.e, NUM, w.vars, pow).Some? ==>
      var a, b := w.vars[s.x].i, EvalAs(s.e, NUM, w.vars, pow).value;
      var r := RunStmt(s, cur, w, fuel, pow);
      b.NumV? && r.Some? && s.x in r.value.vars
        && IsWrapped(Some(r.value.vars[s.x]), if s.plus then a + b.i else a - b.i)
      && r.value.vars == w.vars[s.x := r.value.vars[s.x]]
    ensures w.vars[s.x].SclV? && EvalAs(s.e, SCL, w.vars, pow).Some? ==>
      var a, b := w.vars[s.x].r, EvalAs(s.e, SCL, w.vars, pow).value;
      var r := RunStmt(s, cur, w, fuel, pow);
      b.SclV? && r.Some? && r.value.vars == w.vars[s.x := SclV(if s.plus then a + b.r else a - b.r)]
  {
    hide Tree, Eval, Wrap, Wraps;
    if w.vars[s.x].NumV? && EvalAs(s.e, NUM, w.vars, pow).Some? {
      var a, b := w.vars[s.x].i, EvalAs(s.e, NUM, w.vars, pow).value;
      var x := if s.plus then a + b.i else a - b.i;
      WrapIs(x, Wrap(x));
    }
  }

  // A loop at depth 0 whose body stands at depth 1 and allocates nothing keeps the arenas.
  lemma PassKeeps(body: Block, w: World, fuel: nat, pow: Power)
    requires RunBlock(body, 0, w, fuel, pow).Some? && RunBlock(body, 0, w, fuel, pow).value.offs == w.offs
    requires |w.offs| == DEPTHS && w.offs[1] == 0 == w.offs[2] && DepthAfterBlock(body, 0) in {1, 2}
    ensures Tick(body, 0, w, fuel, pow) == RunBlock(body, 0, w, fuel, pow)
  {
    hide RunBlock;
    var offs, d := w.offs, DepthAfterBlock(body, 0);
    assert offs[1 := 0] == offs && offs[2 := 0] == offs && offs[0 := offs[0]] == offs;
    assert Reset(offs, 1, 0) == offs;
    assert Reset(offs, 2, 0) == Reset(offs[2 := 0], 1, 0);
  }

  // ── The sum of 1 to n ──

  ghost function SumTo(n: nat): nat { if n == 0 then 0 else SumTo(n - 1) + n }

  lemma {:induction false} SumToIs(n: nat)
    ensures 2 * SumTo(n) == n * (n + 1)
  {
    if n > 0 {
      SumToIs(n - 1);
      assert n * (n + 1) == (n - 1) * n + 2 * n;
    }
  }

  lemma {:induction false} SumToGrows(j: nat, n: nat)
    requires j <= n
    ensures SumTo(j) <= SumTo(n)
  {
    if j < n { SumToGrows(j, n - 1); }
  }

  // CYCLE i FROM 1 TO n with the body SET s = s + i.
  function Adding(n: int): Stmt {
    Cycle(0, "i", [IntNumber(1)], [IntNumber(n)], None, Cons(Set(1, "s", [Ident("s"), Plus, Ident("i")]), Nil))
  }

  function Triangle(n: int): Block { Cons(Create(0, "s", NUM, [IntNumber(0)]), Cons(Adding(n), Nil)) }

  lemma AddingPass(n: int, w: World, fuel: nat, pow: Power, s: int, i: int)
    requires |w.offs| == DEPTHS && w.offs[1] == 0 == w.offs[2] && "s" in w.vars && "i" in w.vars
    requires w.vars["s"] == NumV(s) && w.vars["i"] == NumV(i) && Fits64(s + i)
    ensures Tick(Adding(n).body, 0, w, fuel, pow) == Some(w.(vars := w.vars["s" := NumV(s + i)]))
  {
    hide Tree, EvalAs, Tick, Reset, Eval, RunStmt;
    var tokens, body := [Ident("s"), Plus, Ident("i")], Adding(n).body;
    AddingValue(w.vars, pow, s, i);
    SetRuns(1, "s", tokens, 0, w, fuel, pow, s + i);
    BlockOfOne(body.head, 0, w, fuel, pow);
    PassKeeps(body, w, fuel, pow);
  }

  lemma AddingValue(vars: Vars, pow: Power, s: int, i: int)
    requires "s" in vars && "i" in vars && vars["s"] == NumV(s) && vars["i"] == NumV(i) && Fits64(s + i)
    ensures EvalAs([Ident("s"), Plus, Ident("i")], NUM, vars, pow) == Some(NumV(s + i))
  {
    hide Tree, EvalAs, Apply;
    Two(Plus, AddOp, Var("s"), Var("i"), Ident("s"), Ident("i"));
    NumArithmetic(s, i, pow);
    WrapIs(s + i, s + i);
    NumAs([Ident("s"), Plus, Ident("i")], Bin(AddOp, Var("s"), Var("i")), vars, pow, s + i);
  }

  lemma BlockOfOne(s: Stmt, cur: nat, w: World, fuel: nat, pow: Power)
    ensures RunBlock(Cons(s, Nil), cur, w, fuel, pow) == RunStmt(s, cur, w, fuel, pow)
    ensures DepthAfterBlock(Cons(s, Nil), cur) == DepthAfter(s)
  {
    hide RunStmt;
  }

  lemma {:induction false} AddingLoop(n: int, w: World, fuel: nat, pow: Power, i: nat)
    requires 0 < i <= n + 1 && n < 0x7FFF_FFFF_FFFF_FFFF && Fits64(SumTo(n)) && fuel > n + 1 - i
    requires |w.offs| == DEPTHS && w.offs[1] == 0 == w.offs[2] && "s" in w.vars && "i" in w.vars
    requires w.vars["s"] == NumV(SumTo(i - 1)) && w.vars["i"] == NumV(i)
    ensures var r := RunCycle(Adding(n), NumV(n), NumV(1), w, fuel, pow);
      r.Some? && "s" in r.value.vars && r.value.vars["s"] == NumV(SumTo(n)) && "i" in r.value.vars
        && r.value.vars["i"] == NumV(n + 1)
    decreases n + 1 - i
  {
    hide Tick, Wrap;
    if i <= n {
      SumToGrows(i, n);
      AddingPass(n, w, fuel - 1, pow, SumTo(i - 1), i);
      WrapIs(i + 1, i + 1);
      var next := w.(vars := w.vars["s" := NumV(SumTo(i))]["i" := NumV(i + 1)]);
      AddingLoop(n, next, fuel - 1, pow, i + 1);
    }
  }

  lemma LiteralValue(i: int, vars: Vars, pow: Power)
    ensures Tree([IntNumber(i)]) == IntLit(i) && Eval(Tree([IntNumber(i)]), vars, pow) == Some(NumV(i))
    ensures EvalAs([IntNumber(i)], NUM, vars, pow) == Some(NumV(i))
  {
    hide Tree;
    One(IntLit(i), IntNumber(i));
  }

  lemma LiteralTyped(i: int, types: Types)
    requires Fits64(i)
    ensures AsTyped([IntNumber(i)], NUM, types)
  {
    hide Tree;
    One(IntLit(i), IntNumber(i));
  }

  lemma SumTyped(types: Types)
    requires "s" in types && "i" in types && types["s"] == NUM == types["i"]
    ensures AsTyped([Ident("s"), Plus, Ident("i")], NUM, types)
  {
    hide Tree;
    Two(Plus, AddOp, Var("s"), Var("i"), Ident("s"), Ident("i"));
    assert Typed(Var("s"), types) == Some(NUM) == Typed(Var("i"), types);
    assert Typed(Bin(AddOp, Var("s"), Var("i")), types) == Some(NUM);
  }

  lemma TriangleChecked(n: int)
    requires Fits64(n)
    ensures CheckBlock(Triangle(n), map[], 0) == Some(map["s" := Decl(NUM, 0)])
  {
    hide Tree, AsTyped;
    var none: Env := map[];
    var env: Env := map["s" := Decl(NUM, 0)];
    var inside := env["i" := Decl(NUM, 0)];
    assert Keep(none, 0) == none && Keep(env, 0) == env && Keep(inside, 1) == inside;
    LiteralTyped(0, TypesOf(none));
    LiteralTyped(1, TypesOf(env));
    LiteralTyped(n, TypesOf(env));
    SumTyped(TypesOf(inside));
    assert CheckStmt(Adding(n).body.head, inside, 0).Some?;
    assert CheckBlock(Adding(n).body, inside, 0).Some?;
    assert CheckStmt(Adding(n), env, 0) == Some(env);
    assert CheckStmt(Create(0, "s", NUM, [IntNumber(0)]), none, 0) == Some(env);
    assert CheckBlock(Cons(Adding(n), Nil), env, 0) == Some(env);
  }

  lemma TriangleRun(n: int, fuel: nat, pow: Power)
    requires 0 <= n < 0x7FFF_FFFF_FFFF_FFFF && Fits64(SumTo(n)) && fuel > n
    ensures var r := RunBlock(Triangle(n), 0, World(map[], Zeros(DEPTHS)), fuel, pow);
      r.Some? && "s" in r.value.vars && r.value.vars["s"] == NumV(SumTo(n))
  {
    hide Tree, EvalAs, Eval, RunCycle;
    var w0 := World(map[], Zeros(DEPTHS));
    var w1 := World(map["s" := NumV(0)], w0.offs[0 := 8]);
    LiteralValue(0, w0.vars, pow);
    LiteralValue(1, w1.vars, pow);
    LiteralValue(n, w1.vars, pow);
    CreateRuns("s", [IntNumber(0)], w0, fuel, pow, 0);
    assert w0.vars["s" := NumV(0)] == w1.vars;
    AddingLoop(n, World(w1.vars["i" := NumV(1)], w1.offs[0 := 16]), fuel, pow, 1);
    assert RunStmt(Adding(n), 0, w1, fuel, pow)
      == RunCycle(Adding(n), NumV(n), NumV(1), World(w1.vars["i" := NumV(1)], w1.offs[0 := 16]), fuel, pow);
    BlockOfOne(Adding(n), 0, w1, fuel, pow);
  }

  // The code emitted for CREATE s = 0; CYCLE i FROM 1 TO n: SET s = s + i leaves
  // n (n + 1) / 2 in s, for every n for which that fits.
  lemma TriangleMeaning(n: int, pow: Power) returns (regs: Regs, mem: Mem)
    requires 0 <= n < 0x7FFF_FFFF_FFFF_FFFF && Fits64(n * (n + 1) / 2)
    ensures var g := GenBlock(Triangle(n), START);
      && g.st.errors == []
      && Reaches(g.st.body, pow, Config(0, map[], Mem(map[], Zeros(DEPTHS))), Config(|g.st.body|, regs, mem))
      && "s" in g.scope && g.scope["s"].ptr in regs
      && LoadVal(NUM, regs[g.scope["s"].ptr], mem) == Some(NumV(n * (n + 1) / 2))
  {
    hide GenBlock, RunBlock, CheckBlock, Reaches;
    SumToIs(n);
    TriangleChecked(n);
    TriangleRun(n, n + 1, pow);
    regs, mem := VariableEnds(Triangle(n), n + 1, pow, "s");
  }

  // ── Counting with a step ──

  // CYCLE i FROM a TO b STEP k with the body INCREASE c BY 1.
  function Counting(a: int, b: int, k: int): Stmt {
    Cycle(0, "i", [IntNumber(a)], [IntNumber(b)], Some([IntNumber(k)]), Cons(IncDec(1, "c", true, [IntNumber(1)]), Nil))
  }

  lemma CountingPass(a: int, b: int, k: int, w: World, fuel: nat, pow: Power, c: int)
    requires |w.offs| == DEPTHS && w.offs[1] == 0 == w.offs[2] && "c" in w.vars && w.vars["c"] == NumV(c)
    requires Fits64(c + 1)
    ensures Tick(Counting(a, b, k).body, 0, w, fuel, pow) == Some(w.(vars := w.vars["c" := NumV(c + 1)]))
  {
    hide Tree, EvalAs, Tick, Reset, Eval, RunStmt;
    var body := Counting(a, b, k).body;
    LiteralValue(1, w.vars, pow);
    StepRuns(1, "c", true, [IntNumber(1)], 0, w, fuel, pow, 1);
    BlockOfOne(body.head, 0, w, fuel, pow);
    PassKeeps(body, w, fuel, pow);
  }

  // How many of i, i + k, i + 2 k, ... do not exceed b.
  function Upto(i: int, b: int, k: int): int
    requires k > 0
  {
    if i > b then 0 else (b - i) / k + 1
  }

  lemma UptoNext(i: int, b: int, k: int)
    requires k > 0 && i <= b
    ensures Upto(i, b, k) == 1 + Upto(i + k, b, k) && Upto(i + k, b, k) >= 0
  {
    var x := b - i;
    if x >= k {
      assert x == (x / k) * k + x % k;
      DivModUnique(x - k, x / k - 1, k, x % k);
    } else {
      DivModUnique(x, 0, k, x);
    }
  }

  // From a value i of the loop variable, with c counted so far.
  lemma {:induction false} CountingLoop(a: int, b: int, k: int, w: World, fuel: nat, pow: Power, i: int, c: int)
    requires k > 0 && -0x4000_0000_0000_0000 < i <= b + k < 0x4000_0000_0000_0000 && k < 0x4000_0000_0000_0000
    requires 0 <= c && c + Upto(i, b, k) < 0x4000_0000_0000_0000 && fuel > Upto(i, b, k)
    requires |w.offs| == DEPTHS && w.offs[1] == 0 == w.offs[2] && "c" in w.vars && "i" in w.vars
    requires w.vars["c"] == NumV(c) && w.vars["i"] == NumV(i)
    ensures var r := RunCycle(Counting(a, b, k), NumV(b), NumV(k), w, fuel, pow);
      r.Some? && "c" in r.value.vars && r.value.vars["c"] == NumV(c + Upto(i, b, k))
    decreases b - i
  {
    hide Tick, Wrap, Upto;
    UptoAt(i, b, k);
    if i <= b {
      UptoNext(i, b, k);
      CountingPass(a, b, k, w, fuel - 1, pow, c);
      WrapIs(i + k, i + k);
      var next := w.(vars := w.vars["c" := NumV(c + 1)]["i" := NumV(i + k)]);
      CountingLoop(a, b, k, next, fuel - 1, pow, i + k, c + 1);
    }
  }

  lemma UptoAt(i: int, b: int, k: int)
    requires k > 0
    ensures if i > b then Upto(i, b, k) == 0 else Upto(i, b, k) > 0
  {
    if i <= b { UptoNext(i, b, k); }
  }

  // The bound is included and the step is the one written: the body runs once for every
  // value a, a + k, a + 2 k, ... up to b.
  lemma CountingMeaning(a: int, b: int, k: int, w: World, fuel: nat, pow: Power)
    requires 0 <= a < 0x2000_0000_0000_0000 && 0 <= b < 0x2000_0000_0000_0000 && 0 < k < 0x2000_0000_0000_0000
    requires a <= b + k && fuel > Upto(a, b, k) && Upto(a, b, k) < 0x2000_0000_0000_0000
    requires |w.offs| == DEPTHS && w.offs[1] == 0 == w.offs[2] && w.offs[0] + 8 <= ARENA
    requires "c" in w.vars && w.vars["c"] == NumV(0)
    ensures var r := RunStmt(Counting(a, b, k), 0, w, fuel, pow);
      r.Some? && "c" in r.value.vars && r.value.vars["c"] == NumV(Upto(a, b, k))
  {
    hide Tree, EvalAs, Eval, RunCycle, Upto;
    LiteralValue(a, w.vars, pow);
    LiteralValue(b, w.vars, pow);
    LiteralValue(k, w.vars, pow);
    var w1 := World(w.vars["i" := NumV(a)], w.offs[0 := w.offs[0] + 8]);
    CountingLoop(a, b, k, w1, fuel, pow, a, 0);
    assert RunStmt(Counting(a, b, k), 0, w, fuel, pow) == RunCycle(Counting(a, b, k), NumV(b), NumV(k), w1, fuel, pow);
  }

  // ── A conditional loop and a choice ──

  // SEASON k > 0: DECREASE k BY 1; IF k % 2 = 0 INCREASE c BY 1, otherwise INCREASE d BY 1.
  const DROP := IncDec(1, "k", false, [IntNumber(1)])
  const COUNT_C := Cons(IncDec(1, "c", true, [IntNumber(1)]), Nil)
  const COUNT_D := Cons(IncDec(1, "d", true, [IntNumber(1)]), Nil)
  const EVEN := [Ident("k"), Percent, IntNumber(2), CmpTok(Eq), IntNumber(0)]
  const CHOOSE := If(1, Arm(Some(EVEN), COUNT_C, Arm(None, COUNT_D, NoArm)))
  const POSITIVE := [Ident("k"), CmpTok(Gt), IntNumber(0)]
  const HALVING := Season(0, POSITIVE, Cons(DROP, Cons(CHOOSE, Nil)))

  lemma PositiveValue(vars: Vars, pow: Power, k: int)
    requires "k" in vars && vars["k"] == NumV(k)
    ensures Eval(Tree(POSITIVE), vars, pow) == Some(FactV(k > 0))
  {
    hide Tree, Apply;
    Two(CmpTok(Gt), CmpOp(Gt), Var("k"), IntLit(0), Ident("k"), IntNumber(0));
    NumComparison(k, 0, pow);
    assert Eval(Var("k"), vars, pow) == Some(NumV(k)) && Eval(IntLit(0), vars, pow) == Some(NumV(0));
  }

  lemma EvenTree()
    ensures Tree(EVEN) == Bin(CmpOp(Eq), Bin(ModOp, Var("k"), IntLit(2)), IntLit(0))
  {
    hide Parse, AtomExpr, Sentence;
    One(Var("k"), Ident("k"));
    One(IntLit(2), IntNumber(2));
    One(IntLit(0), IntNumber(0));
    var a, b, c := [Ident("k")], [IntNumber(2)], [IntNumber(0)];
    TighterRight(CmpTok(Eq), CmpOp(Eq), Percent, ModOp, Var("k"), IntLit(2), IntLit(0), a, b, c);
    assert (a + [Percent] + b) + [CmpTok(Eq)] + c == EVEN;
  }

  lemma EvenValue(vars: Vars, pow: Power, k: nat)
    requires "k" in vars && vars["k"] == NumV(k)
    ensures Eval(Tree(EVEN), vars, pow) == Some(FactV(k % 2 == 0))
  {
    EvenTree();
    hide Tree;
    assert Eval(Bin(ModOp, Var("k"), IntLit(2)), vars, pow) == Some(NumV(k % 2));
  }

  lemma ChooseRuns(w: World, fuel: nat, pow: Power, k: nat, c: int, d: int)
    requires "k" in w.vars && "c" in w.vars && "d" in w.vars && Fits64(c + 1) && Fits64(d + 1)
    requires w.vars["k"] == NumV(k) && w.vars["c"] == NumV(c) && w.vars["d"] == NumV(d)
    ensures RunStmt(CHOOSE, 1, w, fuel, pow) == Some(w.(vars :=
      if k % 2 == 0 then w.vars["c" := NumV(c + 1)] else w.vars["d" := NumV(d + 1)]))
  {
    hide Tree, EvalAs, Eval;
    EvenValue(w.vars, pow, k);
    LiteralValue(1, w.vars, pow);
    StepRuns(1, "c", true, [IntNumber(1)], 1, w, fuel, pow, 1);
    StepRuns(1, "d", true, [IntNumber(1)], 1, w, fuel, pow, 1);
    BlockOfOne(COUNT_C.head, 1, w, fuel, pow);
    BlockOfOne(COUNT_D.head, 1, w, fuel, pow);
    ChooseArm(w, fuel, pow, k % 2 == 0);
  }

  lemma ChooseDepth()
    ensures DepthAfter(CHOOSE) == 1 && DepthAfter(DROP) == 1 && DepthAfterBlock(COUNT_C, 1) == 1
  {
    var arms := CHOOSE.arms;
    assert DepthAfterBlock(COUNT_C, 1) == 1 && DepthAfterBlock(COUNT_D, 1) == 1;
    assert DepthAfterArms(arms.rest, 1) == 1 && DepthAfterArms(arms, 1) == 1;
  }

  lemma ChooseArm(w: World, fuel: nat, pow: Power, even: bool)
    requires Eval(Tree(EVEN), w.vars, pow) == Some(FactV(even))
    ensures RunStmt(CHOOSE, 1, w, fuel, pow) == RunBlock(if even then COUNT_C else COUNT_D, 1, w, fuel, pow)
  {
    hide Tree, Eval, RunBlock;
    ChooseDepth();
    var arms := CHOOSE.arms;
    assert RunArms(arms.rest, 1, w, fuel, pow) == RunBlock(COUNT_D, 1, w, fuel, pow);
    assert RunArms(arms, 1, w, fuel, pow) == RunBlock(if even then COUNT_C else COUNT_D, 1, w, fuel, pow);
    assert w.(offs := Reset(w.offs, 1, 1)) == w;
  }

  lemma HalvingPass(w: World, fuel: nat, pow: Power, k: int, c: int, d: int)
    requires |w.offs| == DEPTHS && w.offs[1] == 0 == w.offs[2] && k > 0 && Fits64(k) && Fits64(c + 1) && Fits64(d + 1)
    requires "k" in w.vars && "c" in w.vars && "d" in w.vars
    requires w.vars["k"] == NumV(k) && w.vars["c"] == NumV(c) && w.vars["d"] == NumV(d)
    ensures var vars := w.vars["k" := NumV(k - 1)];
      Tick(HALVING.body, 0, w, fuel, pow) == Some(w.(vars :=
        if (k - 1) % 2 == 0 then vars["c" := NumV(c + 1)] else vars["d" := NumV(d + 1)]))
  {
    hide Tree, EvalAs, Eval, Tick, Reset, RunStmt, RunArms;
    LiteralValue(1, w.vars, pow);
    StepRuns(1, "k", false, [IntNumber(1)], 0, w, fuel, pow, 1);
    var w1 := w.(vars := w.vars["k" := NumV(k - 1)]);
    ChooseRuns(w1, fuel, pow, k - 1, c, d);
    ChooseDepth();
    TwoStatements(DROP, CHOOSE, 0, w, w1, fuel, pow);
    PassKeeps(HALVING.body, w, fuel, pow);
  }

  lemma TwoStatements(s: Stmt, t: Stmt, cur: nat, w: World, w1: World, fuel: nat, pow: Power)
    requires RunStmt(s, cur, w, fuel, pow) == Some(w1)
    ensures RunBlock(Cons(s, Cons(t, Nil)), cur, w, fuel, pow) == RunStmt(t, DepthAfter(s), w1, fuel, pow)
    ensures DepthAfterBlock(Cons(s, Cons(t, Nil)), cur) == DepthAfter(t)
  {
    hide RunStmt;
    BlockOfOne(t, DepthAfter(s), w1, fuel, pow);
  }

  // From k on: the even numbers below k are counted in c and the odd ones in d, and k
  // ends at 0.
  lemma {:induction false} HalvingMeaning(w: World, fuel: nat, pow: Power, k: nat, c: nat, d: nat)
    requires |w.offs| == DEPTHS && w.offs[1] == 0 == w.offs[2] && fuel > k && Fits64(k + c + d + 1)
    requires "k" in w.vars && "c" in w.vars && "d" in w.vars
    requires w.vars["k"] == NumV(k) && w.vars["c"] == NumV(c) && w.vars["d"] == NumV(d)
    ensures var r := RunSeason(HALVING, w, fuel, pow);
      r.Some? && "k" in r.value.vars && "c" in r.value.vars && "d" in r.value.vars &&
      r.value.vars["k"] == NumV(0) && r.value.vars["c"] == NumV(c + (k + 1) / 2) && r.value.vars["d"] == NumV(d + k / 2)
    decreases k
  {
    hide Tick, Tree, Eval;
    PositiveValue(w.vars, pow, k);
    if k > 0 {
      HalvingPass(w, fuel - 1, pow, k, c, d);
      var r := Tick(HALVING.body, 0, w, fuel - 1, pow).value;
      if (k - 1) % 2 == 0 {
        HalvingMeaning(r, fuel - 1, pow, k - 1, c + 1, d);
      } else {
        HalvingMeaning(r, fuel - 1, pow, k - 1, c, d + 1);
      }
    }
  }

  // ── IF with any number of arms ──

  function ArmAt(arms: Arms, i: nat): (r: Arms)
    decreases arms
  {
    if arms.NoArm? || i == 0 then arms else ArmAt(arms.rest, i - 1)
  }

  // Where the code of arm i begins: after the arms before it, whether or not they ran.
  function ArmDepth(arms: Arms, i: nat, cur: nat): nat
    decreases arms
  {
    if arms.NoArm? || i == 0 then cur else ArmDepth(arms.rest, i - 1, DepthAfterBlock(arms.body, cur))
  }

  ghost predicate Fails(arms: Arms, w: World, pow: Power) {
    arms.Arm? && arms.cond.Some? && Eval(Tree(arms.cond.value), w.vars, pow).Some?
    && !Truth(Eval(Tree(arms.cond.value), w.vars, pow).value)
  }

  ghost predicate Takes(arms: Arms, w: World, pow: Power) {
    arms.Arm? && (arms.cond.Some? ==>
      Eval(Tree(arms.cond.value), w.vars, pow).Some? && Truth(Eval(Tree(arms.cond.value), w.vars, pow).value))
  }

  // The first arm whose condition holds, or that has none, runs, and no other; with no
  // such arm nothing does.
  lemma {:induction false} FirstArm(arms: Arms, cur: nat, w: World, fuel: nat, pow: Power, i: nat)
    requires forall j :: 0 <= j < i ==> Fails(ArmAt(arms, j), w, pow)
    ensures Takes(ArmAt(arms, i), w, pow) ==>
      RunArms(arms, cur, w, fuel, pow) == RunBlock(ArmAt(arms, i).body, ArmDepth(arms, i, cur), w, fuel, pow)
    ensures ArmAt(arms, i).NoArm? ==> RunArms(arms, cur, w, fuel, pow) == Some(w)
    decreases arms
  {
    hide Eval, Tree, Truth, RunBlock, DepthAfterBlock;
    if i > 0 {
      assert Fails(ArmAt(arms, 0), w, pow);
      forall j | 0 <= j < i - 1
        ensures Fails(ArmAt(arms.rest, j), w, pow)
      {
        assert Fails(ArmAt(arms, j + 1), w, pow);
      }
      FirstArm(arms.rest, DepthAfterBlock(arms.body, cur), w, fuel, pow, i - 1);
    }
  }

  // ── How much an arena holds ──

  // Offsets after n variables of one type at one depth.
  function Filled(offs: seq<int>, d: nat, ty: Ty, n: nat): Option<seq<int>> {
    if n == 0 then Some(offs)
    else
      var before := Filled(offs, d, ty, n - 1);
      if before.None? then None else Allocate(before.value, d, ty)
  }

  // An empty arena takes 8192 variables of type NUM or SCL, or 65536 of type FACT.
  lemma {:induction false} ArenaHolds(offs: seq<int>, d: nat, ty: Ty, n: nat)
    requires d < |offs| && offs[d] == 0
    ensures Filled(offs, d, ty, n).Some? <==> if ty == FACT then n <= 65536 else n <= 8192
    ensures Filled(offs, d, ty, n).Some? ==>
      |Filled(offs, d, ty, n).value| == |offs| && Filled(offs, d, ty, n).value[d] == if ty == FACT then n else 8 * n
  {
    if n > 0 { ArenaHolds(offs, d, ty, n - 1); }
  }
}
