// When a loop pass gives back all it took from the deeper arenas.
module FlowTidy {
  import opened Options
  import opened ExprSyntax
  import opened Ir
  import opened ExprSpec
  import opened ExprProof
  import opened FlowSpec
  import opened FlowStore
  import opened FlowCheck
  import opened FlowProgram

  // In every IF each arm's code ends no deeper than the whole IF's code does.
  predicate TidyStmt(s: Stmt)
    decreases s
  {
    match s
    case If(d, arms) => TidyArms(arms, d, DepthAfterArms(arms, d))
    case Cycle(d, _, _, _, _, body) => TidyBlock(body, d)
    case Season(d, _, body) => TidyBlock(body, d)
    case _ => true
  }

  predicate TidyBlock(b: Block, cur: nat)
    decreases b
  {
    b.Cons? ==> TidyStmt(b.head) && TidyBlock(b.tail, DepthAfter(b.head))
  }

  predicate TidyArms(arms: Arms, cur: nat, last: nat)
    decreases arms
  {
    arms.Arm? ==>
      && DepthAfterBlock(arms.body, cur) <= last && TidyBlock(arms.body, cur)
      && TidyArms(arms.rest, DepthAfterBlock(arms.body, cur), last)
  }

  // Every arena deeper than cur is empty or as it was.
  ghost predicate Settled(start: seq<int>, offs: seq<int>, cur: nat) {
    |offs| == |start| && forall k :: cur < k < |offs| ==> offs[k] == 0 || offs[k] == start[k]
  }

  lemma SettledReset(start: seq<int>, offs: seq<int>, cur: nat, d: nat)
    requires Settled(start, offs, cur)
    ensures Settled(start, Reset(offs, cur, d), d)
  {
    forall k | d < k < |offs|
      ensures Reset(offs, cur, d)[k] == 0 || Reset(offs, cur, d)[k] == start[k]
    {
      ResetAt(offs, cur, d, k);
    }
  }

  lemma {:induction false} StmtTidy(s: Stmt, env: Env, floor: nat, cur: nat, start: seq<int>, w: World, fuel: nat,
                                    pow: Power)
    requires CheckStmt(s, env, floor).Some? && TidyStmt(s) && RunStmt(s, cur, w, fuel, pow).Some?
    requires Settled(start, w.offs, cur)
    ensures Settled(start, RunStmt(s, cur, w, fuel, pow).value.offs, DepthAfter(s))
    decreases fuel, s, 2
  {
    hide AsTyped, EvalAs, Eval, Typed, Tree, Mixed, CheckBlock, RunArms, RunCycle, RunSeason, CheckArms, TidyArms,
         TidyBlock, Settled;
    var kept := Keep(env, s.depth);
    var w0 := w.(offs := Reset(w.offs, cur, s.depth));
    SettledReset(start, w.offs, cur, s.depth);
    if s.If? {
      DepthBoundArms(s.arms, kept, s.depth, s.depth);
      ArmsTidy(s.arms, kept, s.depth, s.depth, DepthAfterArms(s.arms, s.depth), start, w0, fuel, pow);
    } else if s.Cycle? {
      var f, t := EvalAs(s.from, NUM, w0.vars, pow).value, Eval(Tree(s.to), w0.vars, pow).value;
      var step := if s.step.Some? then Eval(Tree(s.step.value), w0.vars, pow).value else NumV(1);
      var w1 := World(w0.vars[s.x := f], Allocate(w0.offs, s.depth, NUM).value);
      SettledAt(start, w0.offs, w1.offs, s.depth);
      CycleTidy(s, kept[s.x := Decl(NUM, s.depth)], t, step, start, w1, fuel, pow);
    } else if s.Season? {
      SeasonTidy(s, kept, start, w0, fuel, pow);
    } else {
      SettledAt(start, w0.offs, RunStmt(s, cur, w, fuel, pow).value.offs, s.depth);
    }
  }

  // Changes in the arena of depth cur itself do not matter.
  lemma SettledAt(start: seq<int>, offs: seq<int>, offs': seq<int>, cur: nat)
    requires Settled(start, offs, cur) && |offs'| == |offs| && forall k :: 0 <= k < |offs| && k != cur ==>
      offs'[k] == offs[k]
    ensures Settled(start, offs', cur)
  {
  }

  lemma SettledDeeper(start: seq<int>, offs: seq<int>, cur: nat, more: nat)
    requires Settled(start, offs, cur) && cur <= more
    ensures Settled(start, offs, more)
  {
  }

  lemma {:induction false} BlockTidy(b: Block, env: Env, floor: nat, cur: nat, start: seq<int>, w: World, fuel: nat,
                                     pow: Power)
    requires CheckBlock(b, env, floor).Some? && TidyBlock(b, cur) && RunBlock(b, cur, w, fuel, pow).Some?
    requires Settled(start, w.offs, cur)
    ensures Settled(start, RunBlock(b, cur, w, fuel, pow).value.offs, DepthAfterBlock(b, cur))
    decreases fuel, b, 0
  {
    hide CheckStmt, RunStmt, TidyStmt, Settled, DepthAfter;
    if b.Cons? {
      StmtTidy(b.head, env, floor, cur, start, w, fuel, pow);
      BlockTidy(b.tail, CheckStmt(b.head, env, floor).value, floor, DepthAfter(b.head), start,
        RunStmt(b.head, cur, w, fuel, pow).value, fuel, pow);
    }
  }

  lemma {:induction false} ArmsTidy(arms: Arms, env: Env, floor: nat, cur: nat, last: nat, start: seq<int>, w: World,
                                    fuel: nat, pow: Power)
    requires CheckArms(arms, env, floor) && TidyArms(arms, cur, last) && RunArms(arms, cur, w, fuel, pow).Some?
    requires floor <= cur < DEPTHS && floor <= last && Settled(start, w.offs, floor)
    ensures Settled(start, RunArms(arms, cur, w, fuel, pow).value.offs, last)
    decreases fuel, arms, 0
  {
    hide Eval, Typed, Tree, CheckBlock, RunBlock, Truth, Settled, TidyBlock, DepthAfterBlock;
    SettledDeeper(start, w.offs, floor, last);
    if arms.Arm? {
      DepthBoundBlock(arms.body, env, floor, cur);
      if arms.cond.None? || Truth(Eval(Tree(arms.cond.value), w.vars, pow).value) {
        SettledDeeper(start, w.offs, floor, cur);
        BlockTidy(arms.body, env, floor, cur, start, w, fuel, pow);
        SettledDeeper(start, RunBlock(arms.body, cur, w, fuel, pow).value.offs, DepthAfterBlock(arms.body, cur), last);
      } else {
        ArmsTidy(arms.rest, env, floor, DepthAfterBlock(arms.body, cur), last, start, w, fuel, pow);
      }
    }
  }

  lemma {:induction false} TickSettles(body: Block, d: nat, env: Env, start: seq<int>, w: World, fuel: nat, pow: Power)
    requires CheckBlock(body, env, d).Some? && TidyBlock(body, d) && Tick(body, d, w, fuel, pow).Some?
    requires Settled(start, w.offs, d)
    ensures Settled(start, Tick(body, d, w, fuel, pow).value.offs, d)
    decreases fuel, body, 1
  {
    hide CheckBlock, RunBlock, Settled, TidyBlock;
    BlockTidy(body, env, d, d, start, w, fuel, pow);
    var offs := RunBlock(body, d, w, fuel, pow).value.offs;
    var reset := Reset(offs, DepthAfterBlock(body, d), d);
    SettledReset(start, offs, DepthAfterBlock(body, d), d);
    SettledAt(start, reset, reset[d := w.offs[d]], d);
  }

  lemma {:induction false} CycleTidy(c: Stmt, env: Env, to: Val, step: Val, start: seq<int>, w: World, fuel: nat,
                                     pow: Power)
    requires c.Cycle? && CheckBlock(c.body, env, c.depth).Some? && TidyBlock(c.body, c.depth)
    requires RunCycle(c, to, step, w, fuel, pow).Some? && Settled(start, w.offs, c.depth)
    ensures Settled(start, RunCycle(c, to, step, w, fuel, pow).value.offs, c.depth)
    decreases fuel, c, 0
  {
    hide CheckBlock, Tick, CoerceVal, Settled, TidyBlock;
    NumValueOf(to);
    NumValueOf(step);
    if w.vars[c.x].i <= CoerceVal(to, NUM).value.i {
      TickSettles(c.body, c.depth, env, start, w, fuel - 1, pow);
      var r := Tick(c.body, c.depth, w, fuel - 1, pow).value;
      var next := NumV(Wrap(r.vars[c.x].i + CoerceVal(step, NUM).value.i));
      CycleTidy(c, env, to, step, start, r.(vars := r.vars[c.x := next]), fuel - 1, pow);
    }
  }

  lemma NumValueOf(v: Val)
    ensures CoerceVal(v, NUM).Some? ==> CoerceVal(v, NUM).value.NumV?
  {
  }

  lemma {:induction false} SeasonTidy(c: Stmt, env: Env, start: seq<int>, w: World, fuel: nat, pow: Power)
    requires c.Season? && CheckBlock(c.body, env, c.depth).Some? && TidyBlock(c.body, c.depth)
    requires RunSeason(c, w, fuel, pow).Some? && Settled(start, w.offs, c.depth)
    ensures Settled(start, RunSeason(c, w, fuel, pow).value.offs, c.depth)
    decreases fuel, c, 0
  {
    hide CheckBlock, Tick, Eval, Tree, Truth, Settled, TidyBlock;
    if Truth(Eval(Tree(c.cond), w.vars, pow).value) {
      TickSettles(c.body, c.depth, env, start, w, fuel - 1, pow);
      SeasonTidy(c, env, start, Tick(c.body, c.depth, w, fuel - 1, pow).value, fuel - 1, pow);
    }
  }

  // A pass through a tidy body leaks nothing: the arenas down to the loop's depth are
  // as they were, and every deeper one is as it was or empty.
  lemma TickTidy(body: Block, d: nat, env: Env, w: World, fuel: nat, pow: Power, k: nat)
    requires CheckBlock(body, env, d).Some? && TidyBlock(body, d) && Tick(body, d, w, fuel, pow).Some? && k < |w.offs|
    ensures var w' := Tick(body, d, w, fuel, pow).value;
      |w'.offs| == |w.offs| && (w'.offs[k] == w.offs[k] || (d < k && w'.offs[k] == 0))
  {
    hide CheckBlock, Tick, TidyBlock;
    TickKeepsOffset(body, d, env, w, fuel, pow, k);
    TickSettles(body, d, env, w.offs, w, fuel, pow);
  }

  // ── The converse ──

  // Every statement, nested ones included, stands at a depth below k.
  predicate ShallowStmt(s: Stmt, k: nat)
    decreases s
  {
    s.depth < k &&
    match s
    case If(_, arms) => ShallowArms(arms, k)
    case Cycle(_, _, _, _, _, body) => ShallowBlock(body, k)
    case Season(_, _, body) => ShallowBlock(body, k)
    case _ => true
  }

  predicate ShallowBlock(b: Block, k: nat)
    decreases b
  {
    b.Cons? ==> ShallowStmt(b.head, k) && ShallowBlock(b.tail, k)
  }

  predicate ShallowArms(arms: Arms, k: nat)
    decreases arms
  {
    arms.Arm? ==> ShallowBlock(arms.body, k) && ShallowArms(arms.rest, k)
  }

  lemma {:induction false} ShallowEnds(s: Stmt, k: nat)
    requires ShallowStmt(s, k)
    ensures DepthAfter(s) < k
    decreases s
  {
    if s.If? { ShallowArmsEnd(s.arms, s.depth, k); }
  }

  lemma {:induction false} ShallowBlockEnds(b: Block, cur: nat, k: nat)
    requires ShallowBlock(b, k) && cur < k
    ensures DepthAfterBlock(b, cur) < k
    decreases b
  {
    if b.Cons? {
      ShallowEnds(b.head, k);
      ShallowBlockEnds(b.tail, DepthAfter(b.head), k);
    }
  }

  lemma {:induction false} ShallowArmsEnd(arms: Arms, cur: nat, k: nat)
    requires ShallowArms(arms, k) && cur < k
    ensures DepthAfterArms(arms, cur) < k
    decreases arms
  {
    if arms.Arm? {
      ShallowBlockEnds(arms.body, cur, k);
      ShallowArmsEnd(arms.rest, DepthAfterBlock(arms.body, cur), k);
    }
  }

  ghost predicate SameAt(w: World, w': World, k: nat) {
    |w'.offs| == |w.offs| && (k < |w.offs| ==> w'.offs[k] == w.offs[k])
  }

  // Statements above an arena leave it alone.
  lemma {:induction false} ShallowRun(s: Stmt, k: nat, cur: nat, w: World, fuel: nat, pow: Power)
    requires ShallowStmt(s, k) && cur < k && RunStmt(s, cur, w, fuel, pow).Some?
    ensures SameAt(w, RunStmt(s, cur, w, fuel, pow).value, k)
    decreases fuel, s, 2
  {
    hide EvalAs, Eval, Tree, Mixed, RunArms, RunCycle, RunSeason, ShallowArms, ShallowBlock;
    var w0 := w.(offs := Reset(w.offs, cur, s.depth));
    if k < |w.offs| { ResetAt(w.offs, cur, s.depth, k); }
    if s.If? {
      ShallowArmsRun(s.arms, k, s.depth, w0, fuel, pow);
    } else if s.Cycle? {
      var f, t := EvalAs(s.from, NUM, w0.vars, pow).value, Eval(Tree(s.to), w0.vars, pow).value;
      var step := if s.step.Some? then Eval(Tree(s.step.value), w0.vars, pow).value else NumV(1);
      ShallowCycle(s, k, t, step, World(w0.vars[s.x := f], Allocate(w0.offs, s.depth, NUM).value), fuel, pow);
    } else if s.Season? {
      ShallowSeason(s, k, w0, fuel, pow);
    }
  }

  lemma {:induction false} ShallowBlockRun(b: Block, k: nat, cur: nat, w: World, fuel: nat, pow: Power)
    requires ShallowBlock(b, k) && cur < k && RunBlock(b, cur, w, fuel, pow).Some?
    ensures SameAt(w, RunBlock(b, cur, w, fuel, pow).value, k)
    decreases fuel, b, 0
  {
    hide RunStmt, ShallowStmt, DepthAfter;
    if b.Cons? {
      ShallowRun(b.head, k, cur, w, fuel, pow);
      ShallowEnds(b.head, k);
      ShallowBlockRun(b.tail, k, DepthAfter(b.head), RunStmt(b.head, cur, w, fuel, pow).value, fuel, pow);
    }
  }

  lemma {:induction false} ShallowArmsRun(arms: Arms, k: nat, cur: nat, w: World, fuel: nat, pow: Power)
    requires ShallowArms(arms, k) && cur < k && RunArms(arms, cur, w, fuel, pow).Some?
    ensures SameAt(w, RunArms(arms, cur, w, fuel, pow).value, k)
    decreases fuel, arms, 0
  {
    hide Eval, Tree, RunBlock, Truth, ShallowBlock, DepthAfterBlock;
    if arms.Arm? {
      if arms.cond.None? || Truth(Eval(Tree(arms.cond.value), w.vars, pow).value) {
        ShallowBlockRun(arms.body, k, cur, w, fuel, pow);
      } else {
        ShallowBlockEnds(arms.body, cur, k);
        ShallowArmsRun(arms.rest, k, DepthAfterBlock(arms.body, cur), w, fuel, pow);
      }
    }
  }

  lemma {:induction false} ShallowTick(body: Block, k: nat, d: nat, w: World, fuel: nat, pow: Power)
    requires ShallowBlock(body, k) && d < k && Tick(body, d, w, fuel, pow).Some?
    ensures SameAt(w, Tick(body, d, w, fuel, pow).value, k)
    decreases fuel, body, 1
  {
    hide RunBlock, ShallowBlock, DepthAfterBlock;
    ShallowBlockRun(body, k, d, w, fuel, pow);
    ShallowBlockEnds(body, d, k);
    if k < |w.offs| { ResetAt(RunBlock(body, d, w, fuel, pow).value.offs, DepthAfterBlock(body, d), d, k); }
  }

  lemma {:induction false} ShallowCycle(c: Stmt, k: nat, to: Val, step: Val, w: World, fuel: nat, pow: Power)
    requires c.Cycle? && ShallowBlock(c.body, k) && c.depth < k && RunCycle(c, to, step, w, fuel, pow).Some?
    ensures SameAt(w, RunCycle(c, to, step, w, fuel, pow).value, k)
    decreases fuel, c, 0
  {
    hide Tick, CoerceVal, ShallowBlock;
    NumValueOf(to);
    NumValueOf(step);
    if w.vars[c.x].i <= CoerceVal(to, NUM).value.i {
      ShallowTick(c.body, k, c.depth, w, fuel - 1, pow);
      var r := Tick(c.body, c.depth, w, fuel - 1, pow).value;
      var next := NumV(Wrap(r.vars[c.x].i + CoerceVal(step, NUM).value.i));
      ShallowCycle(c, k, to, step, r.(vars := r.vars[c.x := next]), fuel - 1, pow);
    }
  }

  lemma {:induction false} ShallowSeason(c: Stmt, k: nat, w: World, fuel: nat, pow: Power)
    requires c.Season? && ShallowBlock(c.body, k) && c.depth < k && RunSeason(c, w, fuel, pow).Some?
    ensures SameAt(w, RunSeason(c, w, fuel, pow).value, k)
    decreases fuel, c, 0
  {
    hide Tick, Eval, Tree, Truth, ShallowBlock;
    if Truth(Eval(Tree(c.cond), w.vars, pow).value) {
      ShallowTick(c.body, k, c.depth, w, fuel - 1, pow);
      ShallowSeason(c, k, Tick(c.body, c.depth, w, fuel - 1, pow).value, fuel - 1, pow);
    }
  }

  // The arm that is taken, and the depth the generator is at where its code begins.
  ghost function Taken(arms: Arms, cur: nat, w: World, pow: Power): Option<(Block, nat)>
    decreases arms
  {
    if arms.NoArm? then None
    else if arms.cond.None? then Some((arms.body, cur))
    else
      var c := Eval(Tree(arms.cond.value), w.vars, pow);
      if c.None? then None
      else if Truth(c.value) then Some((arms.body, cur))
      else Taken(arms.rest, DepthAfterBlock(arms.body, cur), w, pow)
  }

  lemma {:induction false} TakenRuns(arms: Arms, cur: nat, w: World, fuel: nat, pow: Power)
    requires Taken(arms, cur, w, pow).Some?
    ensures var t := Taken(arms, cur, w, pow).value;
      RunArms(arms, cur, w, fuel, pow) == RunBlock(t.0, t.1, w, fuel, pow)
    decreases arms
  {
    hide Eval, Tree, Truth, RunBlock, DepthAfterBlock;
    if arms.cond.Some? && !Truth(Eval(Tree(arms.cond.value), w.vars, pow).value) {
      TakenRuns(arms.rest, DepthAfterBlock(arms.body, cur), w, fuel, pow);
    }
  }

  function Join(pre: Block, b: Block): Block
    decreases pre
  {
    if pre.Nil? then b else Cons(pre.head, Join(pre.tail, b))
  }

  lemma {:induction false} JoinRuns(pre: Block, b: Block, env: Env, d: nat, cur: nat, w: World, fuel: nat, pow: Power)
    requires CheckBlock(Join(pre, b), env, d).Some? && RunBlock(Join(pre, b), cur, w, fuel, pow).Some?
    ensures RunBlock(pre, cur, w, fuel, pow).Some? && exists e :: CheckBlock(b, e, d).Some?
    ensures DepthAfterBlock(Join(pre, b), cur) == DepthAfterBlock(b, DepthAfterBlock(pre, cur))
    ensures RunBlock(Join(pre, b), cur, w, fuel, pow)
      == RunBlock(b, DepthAfterBlock(pre, cur), RunBlock(pre, cur, w, fuel, pow).value, fuel, pow)
    decreases pre
  {
    hide RunStmt, CheckStmt, DepthAfter;
    if pre.Cons? {
      JoinRuns(pre.tail, b, CheckStmt(pre.head, env, d).value, d, DepthAfter(pre.head),
        RunStmt(pre.head, cur, w, fuel, pow).value, fuel, pow);
    }
  }

  // The world in which the arm of an IF is chosen, after the statements before it.
  ghost function Entering(pre: Block, s: Stmt, cur: nat, w: World, fuel: nat, pow: Power): Option<World> {
    var r := RunBlock(pre, cur, w, fuel, pow);
    if r.None? then None
    else Some(r.value.(offs := Reset(r.value.offs, DepthAfterBlock(pre, cur), s.depth)))
  }

  // What the arm taken leaves in arena k.
  ghost function Left(pre: Block, s: Stmt, cur: nat, w: World, fuel: nat, pow: Power, k: nat): Option<int>
    requires s.If?
  {
    var w0 := Entering(pre, s, cur, w, fuel, pow);
    var t := if w0.None? then None else Taken(s.arms, s.depth, w0.value, pow);
    var r := if t.None? then None else RunBlock(t.value.0, t.value.1, w0.value, fuel, pow);
    if r.None? || |r.value.offs| <= k then None else Some(r.value.offs[k])
  }

  // An arm that leaves bytes in an arena deeper than where the IF's code ends leaks them
  // when only shallower statements follow: the pass ends with the arena neither empty nor
  // as it was. Such a body is not tidy.
  lemma DeepArmLeaks(pre: Block, s: Stmt, tail: Block, d: nat, env: Env, w: World, fuel: nat, pow: Power, k: nat)
    requires s.If? && DepthAfterArms(s.arms, s.depth) < k < |w.offs| && ShallowBlock(tail, k)
    requires CheckBlock(Join(pre, Cons(s, tail)), env, d).Some? && Tick(Join(pre, Cons(s, tail)), d, w, fuel, pow).Some?
    requires Left(pre, s, d, w, fuel, pow, k).Some?
    ensures var w' := Tick(Join(pre, Cons(s, tail)), d, w, fuel, pow).value;
      k < |w'.offs| && Some(w'.offs[k]) == Left(pre, s, d, w, fuel, pow, k)
    ensures Left(pre, s, d, w, fuel, pow, k).value !in {0, w.offs[k]} ==> !TidyBlock(Join(pre, Cons(s, tail)), d)
  {
    DeepArmStays(pre, s, tail, d, env, w, fuel, pow, k);
    if TidyBlock(Join(pre, Cons(s, tail)), d) {
      hide CheckBlock, Tick, TidyBlock, Left, Join;
      TickTidy(Join(pre, Cons(s, tail)), d, env, w, fuel, pow, k);
    }
  }

  lemma DeepArmStays(pre: Block, s: Stmt, tail: Block, d: nat, env: Env, w: World, fuel: nat, pow: Power, k: nat)
    requires s.If? && DepthAfterArms(s.arms, s.depth) < k < |w.offs| && ShallowBlock(tail, k)
    requires CheckBlock(Join(pre, Cons(s, tail)), env, d).Some? && Tick(Join(pre, Cons(s, tail)), d, w, fuel, pow).Some?
    requires Left(pre, s, d, w, fuel, pow, k).Some?
    ensures var w' := Tick(Join(pre, Cons(s, tail)), d, w, fuel, pow).value;
      k < |w'.offs| && Some(w'.offs[k]) == Left(pre, s, d, w, fuel, pow, k)
  {
    hide CheckBlock, Taken, RunArms, RunBlock, ShallowBlock, Reset, Join;
    JoinRuns(pre, Cons(s, tail), env, d, d, w, fuel, pow);
    var body, cur := Join(pre, Cons(s, tail)), DepthAfterBlock(pre, d);
    var w0 := Entering(pre, s, d, w, fuel, pow).value;
    var r0 := RunArms(s.arms, s.depth, w0, fuel, pow);
    TakenRuns(s.arms, s.depth, w0, fuel, pow);
    var whole := RunBlock(body, d, w, fuel, pow);
    IfThenTail(s, tail, cur, RunBlock(pre, d, w, fuel, pow).value, fuel, pow);
    ShallowBlockRun(tail, k, DepthAfter(s), r0.value, fuel, pow);
    ShallowBlockEnds(tail, DepthAfter(s), k);
    ResetAt(whole.value.offs, DepthAfterBlock(body, d), d, k);
    var e :| CheckBlock(Cons(s, tail), e, d).Some?;
    HeadDepth(s, tail, d, e);
  }

  lemma IfThenTail(s: Stmt, tail: Block, d: nat, w: World, fuel: nat, pow: Power)
    requires s.If? && RunBlock(Cons(s, tail), d, w, fuel, pow).Some?
    ensures var w0 := w.(offs := Reset(w.offs, d, s.depth));
      var r := RunArms(s.arms, s.depth, w0, fuel, pow);
      r.Some? && RunBlock(Cons(s, tail), d, w, fuel, pow) == RunBlock(tail, DepthAfter(s), r.value, fuel, pow)
  {
    hide RunArms;
  }

  lemma HeadDepth(s: Stmt, tail: Block, d: nat, env: Env)
    requires CheckBlock(Cons(s, tail), env, d).Some?
    ensures d <= DepthAfter(s)
  {
    DepthBound(s, env, d);
  }

  // The leaking body is one of these.
  lemma LeakyUntidy()
    ensures !TidyBlock(LEAKY, 0)
  {
    var arms := LEAKY.head.arms;
    assert DepthAfterBlock(arms.body, 1) == 3 && DepthAfterBlock(arms.rest.body, 3) == 2;
    assert DepthAfterArms(arms, 1) == DepthAfterArms(arms.rest, 3) == 2;
  }
}
