// The variables in the arenas: every variable in view has its own bytes, below
// the offset of its depth, and its address in a register.
module FlowStore {
  import opened Options
  import opened ExprSyntax
  import opened Ir
  import opened ExprSpec
  import opened ExprProof
  import opened FlowSpec
  import opened Machine
  import opened FlowRun

  datatype Decl = Decl(ty: Ty, depth: nat)
  type Env = map<string, Decl>

  ghost function TypesOf(env: Env): Types { map x | x in env :: env[x].ty }

  // The variables in view from depth d.
  ghost function Keep(env: Env, d: nat): Env { map x | x in env && env[x].depth <= d :: env[x] }

  ghost predicate Offsets(offs: seq<int>) {
    |offs| == DEPTHS && forall d :: 0 <= d < DEPTHS ==> 0 <= offs[d] <= ARENA
  }

  ghost predicate SlotOk(decl: Decl, info: Info, v: Val, regs: Regs, cells: Cells, offs: seq<int>, n: nat) {
    && info.ptr < n && Bound(info, decl.ty, v, regs, cells)
    && var p := regs[info.ptr];
      p.d == decl.depth && p.d < |offs| && 0 <= p.o && p.o + SizeOf(decl.ty) <= offs[p.d]
  }

  // The bytes of the variable behind a pointer register.
  ghost predicate Apart(p: Val, pty: Ty, d: nat, o: int, qty: Ty) {
    p.CellPtr? ==> p.d != d || !Meets(p.o, SizeOf(pty), o, SizeOf(qty))
  }

  ghost predicate Slots(env: Env, scope: Scope, vars: Vars, regs: Regs, cells: Cells, offs: seq<int>, n: nat) {
    forall x :: x in env ==> x in scope && x in vars && SlotOk(env[x], scope[x], vars[x], regs, cells, offs, n)
  }

  // No two variables share a byte.
  ghost predicate Disjoint(env: Env, scope: Scope, regs: Regs) {
    forall x, y :: x in env && y in env && x != y ==> ApartVars(env, scope, regs, x, y)
  }

  ghost predicate ApartVars(env: Env, scope: Scope, regs: Regs, x: string, y: string)
    requires x in env && y in env
  {
    x in scope && y in scope && scope[x].ptr in regs && scope[y].ptr in regs && regs[scope[y].ptr].CellPtr? &&
    Apart(regs[scope[x].ptr], env[x].ty, regs[scope[y].ptr].d, regs[scope[y].ptr].o, env[y].ty)
  }

  // The registers and arenas hold the world.
  ghost predicate Good(env: Env, scope: Scope, w: World, regs: Regs, mem: Mem, n: nat) {
    && Offsets(w.offs) && mem.offs == w.offs
    && Slots(env, scope, w.vars, regs, mem.cells, w.offs, n) && Disjoint(env, scope, regs)
  }

  // What compiled expressions need of it.
  lemma GoodBound(env: Env, scope: Scope, w: World, regs: Regs, mem: Mem, n: nat)
    requires Good(env, scope, w, regs, mem, n)
    ensures AllBound(TypesOf(env), scope, w.vars, regs, mem.cells) && ScopeBelow(TypesOf(env), scope, n)
  {
  }

  lemma GoodAgree(env: Env, scope: Scope, w: World, regs: Regs, regs': Regs, mem: Mem, n: nat, n': nat)
    requires Good(env, scope, w, regs, mem, n) && Agree(regs, regs', n) && n <= n'
    ensures Good(env, scope, w, regs', mem, n')
  {
    forall x | x in env
      ensures x in scope && x in w.vars && SlotOk(env[x], scope[x], w.vars[x], regs', mem.cells, w.offs, n')
    {
      assert SlotOk(env[x], scope[x], w.vars[x], regs, mem.cells, w.offs, n);
    }
    forall x, y | x in env && y in env && x != y
      ensures ApartVars(env, scope, regs', x, y)
    {
      assert ApartVars(env, scope, regs, x, y);
      assert SlotOk(env[x], scope[x], w.vars[x], regs, mem.cells, w.offs, n);
      assert SlotOk(env[y], scope[y], w.vars[y], regs, mem.cells, w.offs, n);
    }
  }

  // Fewer variables, and a scope that agrees on them.
  lemma GoodFewer(env: Env, env': Env, scope: Scope, scope': Scope, w: World, regs: Regs, mem: Mem, n: nat, n': nat)
    requires Good(env', scope', w, regs, mem, n')
    requires forall x :: x in env ==> x in env' && env'[x] == env[x]
    requires forall x :: x in env ==> x in scope && x in scope' && scope'[x] == scope[x] && scope[x].ptr < n
    ensures Good(env, scope, w, regs, mem, n)
  {
    forall x | x in env
      ensures x in scope && x in w.vars && SlotOk(env[x], scope[x], w.vars[x], regs, mem.cells, w.offs, n)
    {
      assert SlotOk(env'[x], scope'[x], w.vars[x], regs, mem.cells, w.offs, n');
    }
    forall x, y | x in env && y in env && x != y
      ensures ApartVars(env, scope, regs, x, y)
    {
      assert ApartVars(env', scope', regs, x, y);
    }
  }

  // Storing a value of its type into a variable.
  lemma GoodStore(env: Env, scope: Scope, w: World, regs: Regs, mem: Mem, n: nat, x: string, v: Val)
    requires Good(env, scope, w, regs, mem, n) && x in env && HasType(v, env[x].ty)
    ensures x in scope && OpVal(Reg(scope[x].ptr), regs).Some?
    ensures var stored := StoreVal(env[x].ty, v, OpVal(Reg(scope[x].ptr), regs).value, mem);
      stored.Some? && Good(env, scope, w.(vars := w.vars[x := v]), regs, stored.value, n)
  {
    assert SlotOk(env[x], scope[x], w.vars[x], regs, mem.cells, w.offs, n);
    var p := regs[scope[x].ptr];
    var cells := Write(mem.cells, p.d, p.o, v);
    forall y | y in env
      ensures y in scope && SlotOk(env[y], scope[y], w.vars[x := v][y], regs, cells, w.offs, n)
    {
      assert SlotOk(env[y], scope[y], w.vars[y], regs, mem.cells, w.offs, n);
      if y != x {
        assert ApartVars(env, scope, regs, y, x);
      }
    }
  }

  // The bytes a new variable gets are nobody else's.
  ghost predicate Fresh(env: Env, scope: Scope, regs: Regs, d: nat, o: int, ty: Ty) {
    forall y :: y in env ==> y in scope && scope[y].ptr in regs && Apart(regs[scope[y].ptr], env[y].ty, d, o, ty)
  }

  lemma FreshAgree(env: Env, scope: Scope, w: World, regs: Regs, regs': Regs, mem: Mem, n: nat, d: nat, o: int, ty: Ty)
    requires Fresh(env, scope, regs, d, o, ty) && Good(env, scope, w, regs, mem, n) && Agree(regs, regs', n)
    ensures Fresh(env, scope, regs', d, o, ty)
  {
    forall y | y in env
      ensures y in scope && scope[y].ptr in regs' && Apart(regs'[scope[y].ptr], env[y].ty, d, o, ty)
    {
      assert SlotOk(env[y], scope[y], w.vars[y], regs, mem.cells, w.offs, n);
    }
  }

  // Raising an offset for a new variable.
  lemma GoodAllocate(env: Env, scope: Scope, w: World, regs: Regs, mem: Mem, n: nat, d: nat, ty: Ty)
    requires Good(env, scope, w, regs, mem, n) && Allocate(w.offs, d, ty).Some?
    ensures var offs := Allocate(w.offs, d, ty).value;
      Good(env, scope, w.(offs := offs), regs, mem.(offs := offs), n) && Fresh(env, scope, regs, d, w.offs[d], ty)
  {
    var offs := Allocate(w.offs, d, ty).value;
    forall y | y in env
      ensures y in scope && y in w.vars && SlotOk(env[y], scope[y], w.vars[y], regs, mem.cells, offs, n)
      ensures scope[y].ptr in regs && Apart(regs[scope[y].ptr], env[y].ty, d, w.offs[d], ty)
    {
      assert SlotOk(env[y], scope[y], w.vars[y], regs, mem.cells, w.offs, n);
    }
  }

  // The first store into a new variable brings it into view.
  lemma GoodCreate(env: Env, scope: Scope, w: World, regs: Regs, mem: Mem, n: nat, x: string, decl: Decl, ptr: nat,
                   o: int, v: Val)
    requires Good(env, scope, w, regs, mem, n) && x !in env && HasType(v, decl.ty)
    requires ptr < n && ptr in regs && regs[ptr] == CellPtr(decl.depth, o)
    requires Fresh(env, scope, regs, decl.depth, o, decl.ty)
    requires decl.depth < DEPTHS && 0 <= o && o + SizeOf(decl.ty) <= w.offs[decl.depth]
    ensures var stored := StoreVal(decl.ty, v, regs[ptr], mem);
      && stored.Some?
      && Good(env[x := decl], scope[x := Info(ptr, decl.ty)], w.(vars := w.vars[x := v]), regs, stored.value, n)
  {
    var cells := Write(mem.cells, decl.depth, o, v);
    var env', scope', vars' := env[x := decl], scope[x := Info(ptr, decl.ty)], w.vars[x := v];
    forall y | y in env'
      ensures y in scope' && y in vars' && SlotOk(env'[y], scope'[y], vars'[y], regs, cells, w.offs, n)
    {
      if y != x {
        assert SlotOk(env[y], scope[y], w.vars[y], regs, mem.cells, w.offs, n);
        assert Apart(regs[scope[y].ptr], env[y].ty, decl.depth, o, decl.ty);
      }
    }
    forall y, z | y in env' && z in env' && y != z
      ensures ApartVars(env', scope', regs, y, z)
    {
      if y != x { assert SlotOk(env[y], scope[y], w.vars[y], regs, mem.cells, w.offs, n); }
      if z != x { assert SlotOk(env[z], scope[z], w.vars[z], regs, mem.cells, w.offs, n); }
      if y != x && z != x {
        assert ApartVars(env, scope, regs, y, z);
      } else if y == x {
        assert Apart(regs[scope[z].ptr], env[z].ty, decl.depth, o, decl.ty);
      } else {
        assert Apart(regs[scope[y].ptr], env[y].ty, decl.depth, o, decl.ty);
      }
    }
  }

  lemma {:induction false} ResetAt(offs: seq<int>, hi: nat, lo: nat, d: nat)
    requires d < |offs|
    ensures Reset(offs, hi, lo)[d] == if lo < d <= hi then 0 else offs[d]
    decreases hi
  {
    if lo < hi {
      ResetAt(if hi < |offs| then offs[hi := 0] else offs, hi - 1, lo, d);
    }
  }

  ghost predicate EndsBy(ty: Ty, x: string, scope: Scope, regs: Regs, o: int) {
    x in scope && scope[x].ptr in regs && regs[scope[x].ptr].CellPtr? && regs[scope[x].ptr].o + SizeOf(ty) <= o
  }

  // Emptying deeper arenas leaves alone what is in view; lowering this depth's
  // offset to where it was when these variables were in view does too.
  lemma GoodLower(env: Env, scope: Scope, w: World, regs: Regs, mem: Mem, n: nat, hi: nat, d: nat, saved: seq<int>)
    requires Good(env, scope, w, regs, mem, n) && d < DEPTHS && Offsets(saved)
    requires forall x :: x in env ==> env[x].depth <= d
    requires forall x :: x in env && env[x].depth == d ==> EndsBy(env[x].ty, x, scope, regs, saved[d])
    ensures var offs := Reset(w.offs, hi, d)[d := saved[d]];
      Good(env, scope, w.(offs := offs), regs, mem.(offs := offs), n)
  {
    var offs := Reset(w.offs, hi, d)[d := saved[d]];
    forall k | 0 <= k < DEPTHS
      ensures 0 <= offs[k] <= ARENA
    {
      ResetAt(w.offs, hi, d, k);
    }
    forall y | y in env
      ensures y in scope && y in w.vars && SlotOk(env[y], scope[y], w.vars[y], regs, mem.cells, offs, n)
    {
      assert SlotOk(env[y], scope[y], w.vars[y], regs, mem.cells, w.offs, n);
      ResetAt(w.offs, hi, d, env[y].depth);
    }
  }

  lemma GoodReset(env: Env, scope: Scope, w: World, regs: Regs, mem: Mem, n: nat, hi: nat, d: nat)
    requires Good(env, scope, w, regs, mem, n) && d < DEPTHS
    ensures var offs := Reset(w.offs, hi, d);
      Good(Keep(env, d), scope, w.(offs := offs), regs, mem.(offs := offs), n)
  {
    var kept := Keep(env, d);
    forall x | x in kept
      ensures x in scope && scope[x].ptr < n && (env[x].depth == d ==> EndsBy(env[x].ty, x, scope, regs, w.offs[d]))
    {
      assert SlotOk(env[x], scope[x], w.vars[x], regs, mem.cells, w.offs, n);
    }
    GoodFewer(kept, env, scope, scope, w, regs, mem, n, n);
    GoodLower(kept, scope, w, regs, mem, n, hi, d, w.offs);
    ResetAt(w.offs, hi, d, d);
    assert Reset(w.offs, hi, d)[d := w.offs[d]] == Reset(w.offs, hi, d);
  }

  // ── Running the arena code ──

  lemma {:induction false} GoesReset(prog: seq<Line>, pow: Power, st: St, hi: nat, lo: nat, regs: Regs, mem: Mem)
    returns (regs': Regs)
    requires GenReset(st, hi, lo).body <= prog && hi < DEPTHS && |mem.offs| == DEPTHS
    ensures var st' := GenReset(st, hi, lo);
      && Goes(prog, pow, st.regs, At(st, regs, mem), At(st', regs', mem.(offs := Reset(mem.offs, hi, lo))))
      && Agree(regs, regs', st.regs) && st.regs <= st'.regs && st.body <= st'.body && st'.errors == st.errors
    decreases hi
  {
    hide Goes;
    if hi <= lo {
      regs' := regs;
      GoesSelf(prog, pow, st.regs, At(st, regs, mem));
    } else {
      var p := Emit(st, GepOffset(hi));
      var line := Store(NUM, IntC(0), p.op);
      var st1 := Line1(p.st, line);
      var regs1 := regs[st.regs := OffPtr(hi)];
      var mem1 := mem.(offs := mem.offs[hi := 0]);
      ResetBody(st1, hi - 1, lo);
      GoesEmit(prog, pow, st.regs, st, GepOffset(hi), regs, mem);
      GoesStore(prog, pow, st.regs, p.st, line, regs1, mem, NumV(0), OffPtr(hi));
      GoesThen(prog, pow, st.regs, At(st, regs, mem), At(p.st, regs1, mem), At(st1, regs1, mem1));
      regs' := GoesReset(prog, pow, st1, hi - 1, lo, regs1, mem1);
      var st', mem' := GenReset(st, hi, lo), mem.(offs := Reset(mem.offs, hi, lo));
      GoesFewer(prog, pow, st1.regs, st.regs, At(st1, regs1, mem1), At(st', regs', mem'));
      GoesThen(prog, pow, st.regs, At(st, regs, mem), At(st1, regs1, mem1), At(st', regs', mem'));
    }
  }

  lemma {:induction false} ResetBody(st: St, hi: nat, lo: nat)
    ensures var st' := GenReset(st, hi, lo); st.body <= st'.body && st.regs <= st'.regs && st'.errors == st.errors
    decreases hi
  {
    if lo < hi {
      ResetBody(Line1(Emit(st, GepOffset(hi)).st, Store(NUM, IntC(0), Emit(st, GepOffset(hi)).op)), hi - 1, lo);
    }
  }

  lemma NextOffset(o: int, ty: Ty)
    requires 0 <= o <= ARENA
    ensures IntVal(IAdd, o, SizeOf(ty)) == Some(NumV(o + SizeOf(ty)))
  {
  }

  lemma GoesAlloc(prog: seq<Line>, pow: Power, st: St, ty: Ty, d: nat, regs: Regs, mem: Mem) returns (regs': Regs)
    requires GenAlloc(st, ty, d).st.body <= prog && Offsets(mem.offs) && Allocate(mem.offs, d, ty).Some?
    ensures var out := GenAlloc(st, ty, d);
      && Goes(prog, pow, st.regs, At(st, regs, mem), At(out.st, regs', mem.(offs := Allocate(mem.offs, d, ty).value)))
      && Agree(regs, regs', st.regs) && st.regs <= out.st.regs && st.body <= out.st.body && out.st.errors == st.errors
      && out.op.Reg? && out.op.n < out.st.regs && OpVal(out.op, regs') == Some(CellPtr(d, mem.offs[d]))
      && st.regs <= out.op.n
  {
    hide Goes, At, IntVal;
    var o := mem.offs[d];
    NextOffset(o, ty);
    var regs2, st2 := GoesReadOffset(prog, pow, st, d, regs, mem);
    var size := IntC(SizeOf(ty));
    var p, q := Reg(st.regs), Reg(st.regs + 1);
    var st3 := Emit(st2, IntBin(IAdd, q, size)).st;
    var regs3 := regs2[st2.regs := NumV(o + SizeOf(ty))];
    var line := Store(NUM, Reg(st2.regs), p);
    var st4, mem4 := Line1(st3, line), mem.(offs := Allocate(mem.offs, d, ty).value);
    var base := Emit(st4, GepMemory(d, q));
    var regs5 := regs3[st4.regs := CellPtr(d, o)];
    var out := Emit(base.st, Bitcast(base.op));
    regs' := regs5[base.st.regs := CellPtr(d, o)];
    assert out == GenAlloc(st, ty, d);
    GoesEmit(prog, pow, st.regs, base.st, Bitcast(base.op), regs5, mem4);
    GoesEmit(prog, pow, st.regs, st4, GepMemory(d, q), regs3, mem4);
    GoesStore(prog, pow, st.regs, st3, line, regs3, mem, NumV(o + SizeOf(ty)), OffPtr(d));
    GoesEmit(prog, pow, st.regs, st2, IntBin(IAdd, q, size), regs2, mem);
    var m := At(st, regs, mem);
    GoesThen(prog, pow, st.regs, m, At(st2, regs2, mem), At(st3, regs3, mem));
    GoesThen(prog, pow, st.regs, m, At(st3, regs3, mem), At(st4, regs3, mem4));
    GoesThen(prog, pow, st.regs, m, At(st4, regs3, mem4), At(base.st, regs5, mem4));
    GoesThen(prog, pow, st.regs, m, At(base.st, regs5, mem4), At(out.st, regs', mem4));
  }

  // Reading the offset of a depth: a pointer to it, then its value.
  lemma GoesReadOffset(prog: seq<Line>, pow: Power, st: St, d: nat, regs: Regs, mem: Mem) returns (regs': Regs, st': St)
    requires d < DEPTHS && |mem.offs| == DEPTHS && ReadOffset(st, d).st.body <= prog
    ensures st' == ReadOffset(st, d).st && st'.regs == st.regs + 2 && st.body <= st'.body && st'.errors == st.errors
    ensures regs' == regs[st.regs := OffPtr(d)][st.regs + 1 := NumV(mem.offs[d])] && Agree(regs, regs', st.regs)
    ensures Goes(prog, pow, st.regs, At(st, regs, mem), At(st', regs', mem))
  {
    hide Goes, At;
    var p := Emit(st, GepOffset(d));
    st' := Emit(p.st, Load(NUM, p.op)).st;
    var regs1 := regs[st.regs := OffPtr(d)];
    regs' := regs1[st.regs + 1 := NumV(mem.offs[d])];
    GoesEmit(prog, pow, st.regs, p.st, Load(NUM, p.op), regs1, mem);
    GoesEmit(prog, pow, st.regs, st, GepOffset(d), regs, mem);
    GoesThen(prog, pow, st.regs, At(st, regs, mem), At(p.st, regs1, mem), At(st', regs', mem));
  }
}
