// When the first pass computes something from w that it does not record.
module Ad2Cover {
  import opened Options
  import opened Arith
  import opened Shapes
  import opened Sums
  import opened Tape
  import opened Rules
  import opened NodeRule
  import opened Adjoint
  import opened Sweep
  import opened DualRun
  import opened Ad2Rule
  import opened Ad2
  import opened Ad2Tape
  import opened Ad2Pass
  import opened Ad2Sound
  import opened Ad2Second

  // ── Dependence while the pass runs ──

  ghost function Deps(p: Pass, S: set<Id>): set<Id> { Dependent(AllNodes(p.steps), S) }

  ghost predicate Dep(p: Pass, S: set<Id>, r: Ref) { r.Some? && r.value in Deps(p, S) }

  // What depends on S shows it in its flag.
  ghost predicate Honest(p: Pass, S: set<Id>, r: Ref) { InMem(p, r) && (Dep(p, S, r) ==> TrackedAt(p.mem, r)) }

  // Steps from k on are recorded if they read anything that depends on S.
  ghost predicate CoveredFrom(p: Pass, S: set<Id>, k: nat) {
    forall i :: k <= i < |p.steps| && !p.steps[i].recorded ==> !ReadsSome(p.steps[i].node, Deps(p, S))
  }

  // The steps stay within memory.
  ghost predicate Closed(p: Pass, S: set<Id>) {
    && (forall x :: x in S ==> x < |p.mem|)
    && (forall i :: 0 <= i < |p.steps| ==> p.steps[i].node.out < |p.mem|)
    && (forall i, x: Id :: 0 <= i < |p.steps| && Reads(p.steps[i].node, x) ==> x < |p.mem|)
  }

  // Every entry but the seed's is tracked, and every entry is honest.
  ghost predicate Marked(p: Pass, S: set<Id>, root: Id) {
    forall x :: x in p.grads ==> Honest(p, S, Some(p.grads[x])) && (x != root ==> TrackedAt(p.mem, Some(p.grads[x])))
  }

  ghost predicate Fair(p: Pass, S: set<Id>, k: nat, root: Id) {
    k <= |p.steps| && Closed(p, S) && CoveredFrom(p, S, k) && Marked(p, S, root)
  }

  // Older tensors depend on S as before, and lose no flag.
  ghost predicate Steady(p: Pass, q: Pass, S: set<Id>) {
    |p.mem| <= |q.mem| &&
    forall x :: 0 <= x < |p.mem| ==> (x in Deps(q, S) <==> x in Deps(p, S)) && (p.mem[x].tracked ==> q.mem[x].tracked)
  }

  lemma SteadyTwice(a: Pass, b: Pass, c: Pass, S: set<Id>)
    requires Steady(a, b, S) && Steady(b, c, S)
    ensures Steady(a, c, S)
  {
    hide Dependent;
  }

  lemma HonestCarried(p: Pass, q: Pass, S: set<Id>, r: Ref)
    requires Steady(p, q, S) && Honest(p, S, r)
    ensures Honest(q, S, r) && (Dep(q, S, r) <==> Dep(p, S, r)) && (TrackedAt(p.mem, r) ==> TrackedAt(q.mem, r))
  {
    hide Dependent;
  }

  ghost predicate Tells(p: Pass, S: set<Id>, op: Op, a: Ref, b: Ref) {
    Dep(p, S, a) || (Binary(op) && Dep(p, S, b)) ==> Records(p.mem, op, a, b)
  }

  lemma DependentStep(steps: seq<Step>, t: Step, S: set<Id>)
    ensures var D := Dependent(AllNodes(steps), S);
      Dependent(AllNodes(steps + [t]), S) == if ReadsSome(t.node, D) then D + {t.node.out} else D
  {
    hide ReadsSome;
    var nodes := AllNodes(steps + [t]);
    assert nodes[..|nodes| - 1] == AllNodes(steps);
  }

  lemma {:induction false} DependentBelow(p: Pass, S: set<Id>)
    requires Closed(p, S)
    ensures forall x :: x in Deps(p, S) ==> x < |p.mem|
  {
    forall x | x in Deps(p, S)
      ensures x < |p.mem|
    {
      if x >= |p.mem| { DependentOutside([], AllNodes(p.steps), S, x); }
    }
  }

  lemma PerformShape(p: Pass, op: Op, a: Ref, b: Ref, c: real, like: Shape)
    ensures var o := Perform(p, op, a, b, c, like); o.p.grads == p.grads && (o.r.None? ==> o.p == p)
    ensures var o := Perform(p, op, a, b, c, like);
      o.r.Some? ==> a.Some? && (Binary(op) ==> b.Some?) && o.r == Some(|p.mem|) && op != Conv2D
    ensures var o := Perform(p, op, a, b, c, like);
      o.r.Some? ==> |o.p.mem| == |p.mem| + 1 && o.p.mem[..|p.mem|] == p.mem
    ensures var o, rec := Perform(p, op, a, b, c, like), Records(p.mem, op, a, b);
      o.r.Some? ==>
        o.p.mem[|p.mem|].tracked == (rec && !Own(op))
        && o.p.steps == p.steps + [Step(NewNode(op, a, b, c, |p.mem|), rec)]
  {
    hide Records, TScale, TRelu, TTranspose, TReshape, TBcast, TAxisSum;
  }

  lemma NewReads(op: Op, a: Ref, b: Ref, c: real, out: Id)
    requires a.Some? && (Binary(op) ==> b.Some?) && op != Conv2D
    ensures var n := NewNode(op, a, b, c, out);
      n.out == out && forall x :: Reads(n, x) <==> x == a.value || (Binary(op) && x == b.value)
  {
    var n := NewNode(op, a, b, c, out);
    assert InId(n, 0) == a.value;
    if Binary(op) { assert InId(n, 1) == b.value; }
  }

  lemma NewReadsSome(op: Op, a: Ref, b: Ref, c: real, out: Id, D: set<Id>)
    requires a.Some? && (Binary(op) ==> b.Some?) && op != Conv2D
    ensures ReadsSome(NewNode(op, a, b, c, out), D) <==> a.value in D || (Binary(op) && b.value in D)
  {
    hide Reads, NewNode;
    NewReads(op, a, b, c, out);
    var n := NewNode(op, a, b, c, out);
    if a.value in D { assert Reads(n, a.value); }
    if Binary(op) && b.value in D { assert Reads(n, b.value); }
  }

  // One operation: its result depends on what its operands depend on, and the log
  // stays covered exactly if the operation tells of it.
  lemma PerformCovers(p: Pass, S: set<Id>, k: nat, op: Op, a: Ref, b: Ref, c: real, like: Shape)
    requires Closed(p, S) && InMem(p, a) && InMem(p, b) && k <= |p.steps|
    ensures var o := Perform(p, op, a, b, c, like);
      Closed(o.p, S) && Steady(p, o.p, S) && InMem(o.p, o.r) && o.p.grads == p.grads &&
      (CoveredFrom(o.p, S, k) <==> CoveredFrom(p, S, k) && (o.r.Some? ==> Tells(p, S, op, a, b))) &&
      (Dep(o.p, S, o.r) <==> o.r.Some? && (Dep(p, S, a) || (Binary(op) && Dep(p, S, b)))) &&
      (TrackedAt(o.p.mem, o.r) <==> o.r.Some? && Records(p.mem, op, a, b) && !Own(op))
  {
    hide Perform, Reads, NewNode, Records, Dependent, Own, ReadsSome;
    PerformShape(p, op, a, b, c, like);
    var o := Perform(p, op, a, b, c, like);
    if o.r.Some? {
      var n := NewNode(op, a, b, c, |p.mem|);
      NewReads(op, a, b, c, |p.mem|);
      var D := Deps(p, S);
      NewReadsSome(op, a, b, c, |p.mem|, D);
      DependentStep(p.steps, o.p.steps[|p.steps|], S);
      DependentBelow(p, S);
      var D' := Deps(o.p, S);
      assert forall x :: x in D' <==> x in D || (x == |p.mem| && ReadsSome(n, D));
      forall i | 0 <= i < |p.steps|
        ensures ReadsSome(p.steps[i].node, D') <==> ReadsSome(p.steps[i].node, D)
      {
        SameReads(p.steps[i].node, D, D', |p.mem|);
      }
      SameReads(n, D, D', |p.mem|);
      CoveredStep(p, o.p, S, k);
    }
  }

  lemma CoveredStep(p: Pass, q: Pass, S: set<Id>, k: nat)
    requires k <= |p.steps| && |q.steps| == |p.steps| + 1 && q.steps[..|p.steps|] == p.steps
    requires forall i :: 0 <= i < |p.steps| ==>
      (ReadsSome(p.steps[i].node, Deps(q, S)) <==> ReadsSome(p.steps[i].node, Deps(p, S)))
    ensures CoveredFrom(q, S, k) <==>
      CoveredFrom(p, S, k) && (q.steps[|p.steps|].recorded || !ReadsSome(q.steps[|p.steps|].node, Deps(q, S)))
  {
    hide ReadsSome, Dependent;
    forall i | 0 <= i < |p.steps|
      ensures q.steps[i] == p.steps[i]
    {
      assert q.steps[..|p.steps|][i] == p.steps[i];
    }
  }

  lemma SameReads(n: Node, D: set<Id>, D': set<Id>, bound: Id)
    requires forall x: Id :: Reads(n, x) ==> x < bound
    requires forall x: Id :: x < bound ==> (x in D <==> x in D')
    ensures ReadsSome(n, D') <==> ReadsSome(n, D)
  {
    hide Reads;
  }

  // ── A fair pass stays fair ──

  lemma FairPerform(p: Pass, S: set<Id>, k: nat, root: Id, op: Op, a: Ref, b: Ref, c: real, like: Shape)
    requires Fair(p, S, k, root) && InMem(p, a) && InMem(p, b) && Tells(p, S, op, a, b)
    ensures var o := Perform(p, op, a, b, c, like);
      Fair(o.p, S, k, root) && Steady(p, o.p, S) && InMem(o.p, o.r) && o.p.grads == p.grads &&
      (!Own(op) ==> Honest(o.p, S, o.r)) &&
      (Dep(o.p, S, o.r) ==> Dep(p, S, a) || (Binary(op) && Dep(p, S, b))) &&
      (TrackedAt(o.p.mem, o.r) <==> o.r.Some? && Records(p.mem, op, a, b) && !Own(op))
  {
    hide Perform, Closed, CoveredFrom, Records, Own, Binary, Steady, Dep, Honest;
    PerformCovers(p, S, k, op, a, b, c, like);
    var o := Perform(p, op, a, b, c, like);
    PerformValue(p, op, a, b, c, like);
    MarkedKept(p, o.p, S, root);
    if !Own(op) { HonestResult(o.p, S, o.r); }
  }

  lemma HonestResult(p: Pass, S: set<Id>, r: Ref)
    requires InMem(p, r) && (Dep(p, S, r) ==> TrackedAt(p.mem, r))
    ensures Honest(p, S, r)
  {
  }

  lemma MarkedKept(p: Pass, q: Pass, S: set<Id>, root: Id)
    requires Marked(p, S, root) && Steady(p, q, S) && q.grads == p.grads
    ensures Marked(q, S, root)
  {
    hide Dependent;
  }

  lemma Honestly(p: Pass, S: set<Id>, op: Op, a: Ref, b: Ref)
    requires Honest(p, S, a) && (Binary(op) ==> Honest(p, S, b))
    ensures Tells(p, S, op, a, b) && InMem(p, a) && (Binary(op) ==> InMem(p, b))
  {
    hide Dependent;
  }

  lemma FairEntered(p: Pass, S: set<Id>, k: nat, root: Id, x: Id)
    requires Fair(p, S, k, root) && x < |p.mem|
    ensures var t := Entered(p, x);
      Fair(t, S, k, root) && Steady(p, t, S) && t.grads[x] < |t.mem| && t.mem[t.grads[x]].tracked
  {
    hide Dependent, Reads, ReadsSome;
    DependentBelow(p, S);
  }

  lemma FairAddTo(p: Pass, S: set<Id>, k: nat, root: Id, x: Id, c: Ref)
    requires Fair(p, S, k, root) && x < |p.mem| && InMem(p, c)
    ensures var q := AddTo(p, Some(x), c); Fair(q, S, k, root) && Steady(p, q, S)
  {
    if c.Some? {
      hide Fair, Perform, Entered, AddTo, Steady, Dep, Honest, Dependent;
      FairEntered(p, S, k, root, x);
      AddToEntered(p, x, c.value);
      var t := Entered(p, x);
      var was := Some(t.grads[x]);
      SteadyLength(p, t, S);
      FairPerform(t, S, k, root, Add, was, c, 0.0, []);
      var o := Perform(t, Add, was, c, 0.0, []);
      SteadyTwice(p, t, o.p, S);
      if o.r.Some? { FairGrad(o.p, S, k, root, x, o.r.value); }
    } else {
      SteadySelf(p, S);
    }
  }

  lemma SteadyLength(p: Pass, q: Pass, S: set<Id>)
    requires Steady(p, q, S)
    ensures |p.mem| <= |q.mem|
  {
  }

  lemma SteadySelf(p: Pass, S: set<Id>)
    ensures Steady(p, p, S)
  {
  }

  lemma FairGrad(p: Pass, S: set<Id>, k: nat, root: Id, x: Id, y: Id)
    requires Fair(p, S, k, root) && y < |p.mem| && p.mem[y].tracked
    ensures var q := p.(grads := p.grads[x := y]);
      Fair(q, S, k, root) && forall r: Pass :: Steady(r, p, S) ==> Steady(r, q, S)
  {
    hide Dependent, Reads, ReadsSome;
  }

  // ── The rules ──

  lemma FairSent(p: Pass, S: set<Id>, k: nat, root: Id, op: Op, a: Ref, b: Ref, c: real, like: Shape, x: Id)
    requires Fair(p, S, k, root) && InMem(p, a) && InMem(p, b) && Tells(p, S, op, a, b) && x < |p.mem|
    ensures var q := Sent(Perform(p, op, a, b, c, like), Some(x)); Fair(q, S, k, root) && Steady(p, q, S)
  {
    hide Fair, Perform, AddTo, Steady, Dep, Honest, Tells;
    FairPerform(p, S, k, root, op, a, b, c, like);
    var o := Perform(p, op, a, b, c, like);
    SteadyLength(p, o.p, S);
    FairAddTo(o.p, S, k, root, x, o.r);
    SteadyTwice(p, o.p, Sent(o, Some(x)), S);
  }

  lemma OwnTells(p: Pass, S: set<Id>, op: Op, a: Ref, b: Ref)
    requires Own(op)
    ensures Tells(p, S, op, a, b)
  {
  }

  // Two results summed down onto the two operands.
  lemma FairTwo(p: Pass, S: set<Id>, k: nat, root: Id, a: Ref, b: Ref, s0: Shape, s1: Shape, x0: Id, x1: Id)
    requires Fair(p, S, k, root) && InMem(p, a) && InMem(p, b) && x0 < |p.mem| && x1 < |p.mem|
    ensures var q := Sent(Perform(p, AxisSum, a, None, 0.0, s0), Some(x0));
      Fair(q, S, k, root) && Steady(p, q, S) &&
      var r := Sent(Perform(q, AxisSum, b, None, 0.0, s1), Some(x1)); Fair(r, S, k, root) && Steady(p, r, S)
  {
    hide Fair, Perform, Sent, Steady, Tells;
    OwnTells(p, S, AxisSum, a, None);
    FairSent(p, S, k, root, AxisSum, a, None, 0.0, s0, x0);
    var q := Sent(Perform(p, AxisSum, a, None, 0.0, s0), Some(x0));
    SteadyLength(p, q, S);
    OwnTells(q, S, AxisSum, b, None);
    FairSent(q, S, k, root, AxisSum, b, None, 0.0, s1, x1);
    SteadyTwice(p, q, Sent(Perform(q, AxisSum, b, None, 0.0, s1), Some(x1)), S);
  }

  lemma FairSub(p: Pass, S: set<Id>, k: nat, root: Id, d: Ref, x0: Id, x1: Id)
    requires Fair(p, S, k, root) && Honest(p, S, d) && x0 < |p.mem| && x1 < |p.mem|
    ensures var q := RunSub(p, d, Some(x0), Some(x1)); Fair(q, S, k, root) && Steady(p, q, S)
  {
    hide Fair, Perform, Sent, Steady, Tells, Honest, ShapeAt;
    Honestly(p, S, Scale, d, None);
    FairPerform(p, S, k, root, Scale, d, None, -1.0, []);
    var neg := Perform(p, Scale, d, None, -1.0, []);
    SteadyLength(p, neg.p, S);
    FairTwo(neg.p, S, k, root, d, neg.r, ShapeAt(p.mem, Some(x0)), ShapeAt(p.mem, Some(x1)), x0, x1);
    SteadyTwice(p, neg.p, RunSub(p, d, Some(x0), Some(x1)), S);
  }

  lemma FairMul(p: Pass, S: set<Id>, k: nat, root: Id, d: Ref, x0: Id, x1: Id)
    requires Fair(p, S, k, root) && Honest(p, S, d) && Honest(p, S, Some(x0)) && Honest(p, S, Some(x1))
    ensures var q := RunMul(p, d, Some(x0), Some(x1)); Fair(q, S, k, root) && Steady(p, q, S)
  {
    hide Fair, Perform, Sent, Steady, Tells, Honest;
    Honestly(p, S, Mult, d, Some(x1));
    Honestly(p, S, Mult, d, Some(x0));
    FairSent(p, S, k, root, Mult, d, Some(x1), 0.0, [], x0);
    var q := Sent(Perform(p, Mult, d, Some(x1), 0.0, []), Some(x0));
    SteadyLength(p, q, S);
    HonestCarried(p, q, S, d);
    HonestCarried(p, q, S, Some(x0));
    Honestly(q, S, Mult, d, Some(x0));
    FairSent(q, S, k, root, Mult, d, Some(x0), 0.0, [], x1);
    SteadyTwice(p, q, RunMul(p, d, Some(x0), Some(x1)), S);
  }

  lemma FairDiv(p: Pass, S: set<Id>, k: nat, root: Id, d: Ref, x0: Id, x1: Id)
    requires Fair(p, S, k, root) && Honest(p, S, d) && Honest(p, S, Some(x0)) && Honest(p, S, Some(x1))
    ensures var q := RunDiv(p, d, Some(x0), Some(x1)); Fair(q, S, k, root) && Steady(p, q, S)
  {
    hide Fair, Perform, Sent, Steady, Tells, Honest;
    Honestly(p, S, Div, d, Some(x1));
    Honestly(p, S, Mult, d, Some(x0));
    FairSent(p, S, k, root, Div, d, Some(x1), 0.0, [], x0);
    var q := Sent(Perform(p, Div, d, Some(x1), 0.0, []), Some(x0));
    HonestCarried(p, q, S, d);
    HonestCarried(p, q, S, Some(x0));
    HonestCarried(p, q, S, Some(x1));
    Honestly(q, S, Mult, d, Some(x0));
    FairPerform(q, S, k, root, Mult, d, Some(x0), 0.0, []);
    var t1 := Perform(q, Mult, d, Some(x0), 0.0, []);
    HonestCarried(q, t1.p, S, Some(x1));
    Honestly(t1.p, S, Mult, Some(x1), Some(x1));
    FairPerform(t1.p, S, k, root, Mult, Some(x1), Some(x1), 0.0, []);
    var t2 := Perform(t1.p, Mult, Some(x1), Some(x1), 0.0, []);
    HonestCarried(t1.p, t2.p, S, t1.r);
    HonestCarried(t1.p, t2.p, S, Some(x1));
    Honestly(t2.p, S, Div, t1.r, t2.r);
    FairPerform(t2.p, S, k, root, Div, t1.r, t2.r, 0.0, []);
    var t3 := Perform(t2.p, Div, t1.r, t2.r, 0.0, []);
    HonestCarried(t2.p, t3.p, S, Some(x1));
    Honestly(t3.p, S, Scale, t3.r, None);
    Honestly(t3.p, S, Mult, Some(x1), Some(x1));
    FairSent(t3.p, S, k, root, Scale, t3.r, None, -1.0, [], x1);
    SteadyFive(p, q, t1.p, t2.p, t3.p, RunDiv(p, d, Some(x0), Some(x1)), S);
  }

  lemma SteadyFive(a: Pass, b: Pass, c: Pass, d: Pass, e: Pass, f: Pass, S: set<Id>)
    requires Steady(a, b, S) && Steady(b, c, S) && Steady(c, d, S) && Steady(d, e, S) && Steady(e, f, S)
    ensures Steady(a, f, S)
  {
    hide Steady;
    SteadyTwice(a, b, c, S);
    SteadyTwice(a, c, d, S);
    SteadyTwice(a, d, e, S);
    SteadyTwice(a, e, f, S);
  }

  lemma FirstTells(p: Pass, S: set<Id>, op: Op, a: Ref, b: Ref)
    requires Honest(p, S, a) && (TrackedAt(p.mem, a) || !Dep(p, S, b))
    ensures Tells(p, S, op, a, b)
  {
    hide Dependent;
  }

  lemma StaysIndependent(p: Pass, q: Pass, S: set<Id>, r: Ref)
    requires Steady(p, q, S) && InMem(p, r) && !Dep(p, S, r)
    ensures !Dep(q, S, r) && InMem(q, r)
  {
    hide Dependent;
  }

  lemma StaysIn(p: Pass, q: Pass, S: set<Id>, r: Ref)
    requires Steady(p, q, S) && InMem(p, r)
    ensures InMem(q, r) && (Dep(q, S, r) <==> Dep(p, S, r)) && (TrackedAt(p.mem, r) ==> TrackedAt(q.mem, r))
  {
    hide Dependent;
  }

  lemma FairMulSpread(p: Pass, S: set<Id>, k: nat, root: Id, d: Ref, x0: Id, x1: Id)
    requires Fair(p, S, k, root) && Honest(p, S, d) && InMem(p, d) && x0 < |p.mem| && x1 < |p.mem|
    requires TrackedAt(p.mem, d) || (!Dep(p, S, Some(x0)) && !Dep(p, S, Some(x1)))
    ensures var q := RunMulSpread(p, d, Some(x0), Some(x1)); Fair(q, S, k, root) && Steady(p, q, S)
  {
    hide Fair, Perform, Sent, Steady, Tells, Honest, ShapeAt, Dep, TrackedAt;
    var os := ShapeAt(p.mem, d);
    OwnTells(p, S, Bcast, Some(x1), None);
    FairPerform(p, S, k, root, Bcast, Some(x1), None, 0.0, os);
    var bb := Perform(p, Bcast, Some(x1), None, 0.0, os);
    SteadyLength(p, bb.p, S);
    HonestCarried(p, bb.p, S, d);
    StaysIn(p, bb.p, S, d);
    StaysIn(p, bb.p, S, Some(x0));
    OwnTells(bb.p, S, Bcast, Some(x0), None);
    FairPerform(bb.p, S, k, root, Bcast, Some(x0), None, 0.0, os);
    var ba := Perform(bb.p, Bcast, Some(x0), None, 0.0, os);
    HonestCarried(bb.p, ba.p, S, d);
    StaysIn(bb.p, ba.p, S, bb.r);
    StaysIn(bb.p, ba.p, S, d);
    FirstTells(ba.p, S, Mult, d, bb.r);
    FairPerform(ba.p, S, k, root, Mult, d, bb.r, 0.0, []);
    var da := Perform(ba.p, Mult, d, bb.r, 0.0, []);
    HonestCarried(ba.p, da.p, S, d);
    StaysIn(ba.p, da.p, S, ba.r);
    StaysIn(ba.p, da.p, S, d);
    FirstTells(da.p, S, Mult, d, ba.r);
    FairPerform(da.p, S, k, root, Mult, d, ba.r, 0.0, []);
    var db := Perform(da.p, Mult, d, ba.r, 0.0, []);
    StaysIn(da.p, db.p, S, da.r);
    SteadyLength(bb.p, ba.p, S);
    SteadyLength(ba.p, da.p, S);
    SteadyLength(da.p, db.p, S);
    FairTwo(db.p, S, k, root, da.r, db.r, ShapeAt(p.mem, Some(x0)), ShapeAt(p.mem, Some(x1)), x0, x1);
    SteadyFive(p, bb.p, ba.p, da.p, db.p, RunMulSpread(p, d, Some(x0), Some(x1)), S);
  }

  lemma FairDivSpread(p: Pass, S: set<Id>, k: nat, root: Id, d: Ref, x0: Id, x1: Id)
    requires Fair(p, S, k, root) && Honest(p, S, d) && InMem(p, d) && x0 < |p.mem| && x1 < |p.mem|
    requires !Dep(p, S, Some(x1)) && (TrackedAt(p.mem, d) || !Dep(p, S, Some(x0)))
    ensures var q := RunDivSpread(p, d, Some(x0), Some(x1)); Fair(q, S, k, root) && Steady(p, q, S)
  {
    hide Fair, Perform, Sent, Steady, Tells, Honest, ShapeAt, Dep, TrackedAt;
    var os := ShapeAt(p.mem, d);
    OwnTells(p, S, Bcast, Some(x1), None);
    FairPerform(p, S, k, root, Bcast, Some(x1), None, 0.0, os);
    var bb := Perform(p, Bcast, Some(x1), None, 0.0, os);
    SteadyLength(p, bb.p, S);
    HonestCarried(p, bb.p, S, d);
    StaysIn(p, bb.p, S, d);
    StaysIn(p, bb.p, S, Some(x0));
    OwnTells(bb.p, S, Bcast, Some(x0), None);
    FairPerform(bb.p, S, k, root, Bcast, Some(x0), None, 0.0, os);
    var ba := Perform(bb.p, Bcast, Some(x0), None, 0.0, os);
    HonestCarried(bb.p, ba.p, S, d);
    StaysIn(bb.p, ba.p, S, bb.r);
    StaysIn(bb.p, ba.p, S, d);
    FirstTells(ba.p, S, Div, d, bb.r);
    FairPerform(ba.p, S, k, root, Div, d, bb.r, 0.0, []);
    var da := Perform(ba.p, Div, d, bb.r, 0.0, []);
    HonestCarried(ba.p, da.p, S, d);
    StaysIn(ba.p, da.p, S, ba.r);
    StaysIn(ba.p, da.p, S, bb.r);
    StaysIn(ba.p, da.p, S, d);
    FirstTells(da.p, S, Mult, d, ba.r);
    FairPerform(da.p, S, k, root, Mult, d, ba.r, 0.0, []);
    var num := Perform(da.p, Mult, d, ba.r, 0.0, []);
    StaysIn(da.p, num.p, S, bb.r);
    IndependentHonest(num.p, S, bb.r);
    FirstTells(num.p, S, Mult, bb.r, bb.r);
    FairPerform(num.p, S, k, root, Mult, bb.r, bb.r, 0.0, []);
    var bb2 := Perform(num.p, Mult, bb.r, bb.r, 0.0, []);
    StaysIn(num.p, bb2.p, S, num.r);
    HonestCarried(num.p, bb2.p, S, num.r);
    FirstTells(bb2.p, S, Div, num.r, bb2.r);
    FairPerform(bb2.p, S, k, root, Div, num.r, bb2.r, 0.0, []);
    var db := Perform(bb2.p, Div, num.r, bb2.r, 0.0, []);
    StaysIn(da.p, num.p, S, da.r);
    StaysIn(num.p, bb2.p, S, da.r);
    StaysIn(bb2.p, db.p, S, da.r);
    SteadyLength(bb.p, ba.p, S);
    SteadyLength(ba.p, da.p, S);
    SteadyLength(da.p, num.p, S);
    SteadyLength(num.p, bb2.p, S);
    SteadyLength(bb2.p, db.p, S);
    FairTwoNegated(db.p, S, k, root, da.r, db.r, ShapeAt(p.mem, Some(x0)), ShapeAt(p.mem, Some(x1)), x0, x1);
    SteadyFive(p, bb.p, ba.p, da.p, num.p, bb2.p, S);
    SteadyTwice(p, bb2.p, db.p, S);
    SteadyTwice(p, db.p, RunDivSpread(p, d, Some(x0), Some(x1)), S);
  }

  lemma IndependentHonest(p: Pass, S: set<Id>, r: Ref)
    requires InMem(p, r) && !Dep(p, S, r)
    ensures Honest(p, S, r)
  {
  }

  lemma FairTwoNegated(p: Pass, S: set<Id>, k: nat, root: Id, a: Ref, b: Ref, s0: Shape, s1: Shape, x0: Id, x1: Id)
    requires Fair(p, S, k, root) && InMem(p, a) && Honest(p, S, b) && x0 < |p.mem| && x1 < |p.mem|
    ensures var q := Sent(Perform(p, AxisSum, a, None, 0.0, s0), Some(x0));
      var neg := Perform(q, Scale, b, None, -1.0, []);
      var r := Sent(Perform(neg.p, AxisSum, neg.r, None, 0.0, s1), Some(x1)); Fair(r, S, k, root) && Steady(p, r, S)
  {
    hide Fair, Perform, Sent, Steady, Tells, Honest, Dep;
    OwnTells(p, S, AxisSum, a, None);
    FairSent(p, S, k, root, AxisSum, a, None, 0.0, s0, x0);
    var q := Sent(Perform(p, AxisSum, a, None, 0.0, s0), Some(x0));
    HonestCarried(p, q, S, b);
    Honestly(q, S, Scale, b, None);
    FairPerform(q, S, k, root, Scale, b, None, -1.0, []);
    var neg := Perform(q, Scale, b, None, -1.0, []);
    SteadyLength(p, q, S);
    SteadyLength(q, neg.p, S);
    OwnTells(neg.p, S, AxisSum, neg.r, None);
    FairSent(neg.p, S, k, root, AxisSum, neg.r, None, 0.0, s1, x1);
    SteadyTwice(p, q, neg.p, S);
    SteadyTwice(p, neg.p, Sent(Perform(neg.p, AxisSum, neg.r, None, 0.0, s1), Some(x1)), S);
  }

  lemma FairMatMul(p: Pass, S: set<Id>, k: nat, root: Id, d: Ref, x0: Id, x1: Id)
    requires Fair(p, S, k, root) && Honest(p, S, d) && Honest(p, S, Some(x0)) && Honest(p, S, Some(x1))
    requires x0 < |p.mem| && x1 < |p.mem|
    ensures var q := RunMatMul(p, d, Some(x0), Some(x1)); Fair(q, S, k, root) && Steady(p, q, S)
  {
    hide Fair, Perform, AddTo, Steady, Tells, Honest, Dep, TrackedAt;
    Honestly(p, S, Transpose, Some(x1), None);
    FairPerform(p, S, k, root, Transpose, Some(x1), None, 0.0, []);
    var tb := Perform(p, Transpose, Some(x1), None, 0.0, []);
    HonestCarried(p, tb.p, S, Some(x0));
    HonestCarried(p, tb.p, S, d);
    Honestly(tb.p, S, Transpose, Some(x0), None);
    FairPerform(tb.p, S, k, root, Transpose, Some(x0), None, 0.0, []);
    var ta := Perform(tb.p, Transpose, Some(x0), None, 0.0, []);
    HonestCarried(tb.p, ta.p, S, d);
    HonestCarried(tb.p, ta.p, S, tb.r);
    Honestly(ta.p, S, MatMul, d, tb.r);
    FairPerform(ta.p, S, k, root, MatMul, d, tb.r, 0.0, []);
    var da := Perform(ta.p, MatMul, d, tb.r, 0.0, []);
    HonestCarried(ta.p, da.p, S, d);
    HonestCarried(ta.p, da.p, S, ta.r);
    Honestly(da.p, S, MatMul, ta.r, d);
    FairPerform(da.p, S, k, root, MatMul, ta.r, d, 0.0, []);
    var db := Perform(da.p, MatMul, ta.r, d, 0.0, []);
    StaysIn(da.p, db.p, S, da.r);
    SteadyLength(p, tb.p, S);
    SteadyLength(tb.p, ta.p, S);
    SteadyLength(ta.p, da.p, S);
    SteadyLength(da.p, db.p, S);
    FairAddTo(db.p, S, k, root, x0, da.r);
    var q := AddTo(db.p, Some(x0), da.r);
    StaysIn(db.p, q, S, db.r);
    SteadyLength(db.p, q, S);
    FairAddTo(q, S, k, root, x1, db.r);
    SteadyFive(p, tb.p, ta.p, da.p, db.p, q, S);
    SteadyTwice(p, q, RunMatMul(p, d, Some(x0), Some(x1)), S);
  }

  // The scaling after the spreading is recorded only if the seed is not all there is.
  lemma FairMean(p: Pass, S: set<Id>, k: nat, root: Id, d: Ref, x0: Id, size: nat)
    requires Fair(p, S, k, root) && InMem(p, d) && !Dep(p, S, d) && x0 < |p.mem|
    ensures var q := RunMean(p, d, Some(x0), size); Fair(q, S, k, root) && Steady(p, q, S)
  {
    hide Fair, Perform, Sent, Steady, Tells, Honest, Dep, ShapeAt;
    var s := ShapeAt(p.mem, Some(x0));
    OwnTells(p, S, Bcast, d, None);
    FairPerform(p, S, k, root, Bcast, d, None, 0.0, s);
    var b := Perform(p, Bcast, d, None, 0.0, s);
    IndependentHonest(b.p, S, b.r);
    Honestly(b.p, S, Scale, b.r, None);
    SteadyLength(p, b.p, S);
    FairSent(b.p, S, k, root, Scale, b.r, None, Inv(size), [], x0);
    SteadyTwice(p, b.p, RunMean(p, d, Some(x0), size), S);
  }

  lemma FairCreate(p: Pass, S: set<Id>, k: nat, root: Id, shape: Shape, data: seq<real>)
    requires Fair(p, S, k, root)
    ensures var m := Create(p, shape, data);
      Fair(m.p, S, k, root) && Steady(p, m.p, S) && m.r == Some(|p.mem|) && InMem(m.p, m.r) && !Dep(m.p, S, m.r)
  {
    hide Dependent, Reads, ReadsSome;
    DependentBelow(p, S);
    assert Deps(Create(p, shape, data).p, S) == Deps(p, S);
  }

  lemma FairRelu(p: Pass, S: set<Id>, k: nat, root: Id, d: Ref, x0: Id, data: seq<real>)
    requires Fair(p, S, k, root) && Honest(p, S, d) && x0 < |p.mem|
    ensures var q := RunRelu(p, d, Some(x0), data); Fair(q, S, k, root) && Steady(p, q, S)
  {
    hide Fair, Perform, Create, Sent, Steady, Tells, Honest, Dep, ShapeAt, ReluMask;
    var s := ShapeAt(p.mem, Some(x0));
    FairCreate(p, S, k, root, s, ReluMask(data));
    var m := Create(p, s, ReluMask(data));
    HonestCarried(p, m.p, S, d);
    IndependentHonest(m.p, S, m.r);
    Honestly(m.p, S, Mult, d, m.r);
    SteadyLength(p, m.p, S);
    FairSent(m.p, S, k, root, Mult, d, m.r, 0.0, [], x0);
    SteadyTwice(p, m.p, RunRelu(p, d, Some(x0), data), S);
  }

  // ── One node ──

  // A broadcasting product or quotient whose factors the rule multiplies unseen: the
  // square of a spread divisor is never recorded, and next to the untracked seed no
  // product with a spread operand is.
  ghost predicate Lossy(mem: Memory, n: Node, D: set<Id>, root: Id) {
    Uses(n, 1) && |OperandAt(mem, n, 0).data| != |OperandAt(mem, n, 1).data| &&
    match n.op
    case Mult => n.out == root && (n.in0 in D || n.in1.value in D)
    case Div => n.in1.value in D || (n.out == root && n.in0 in D)
    case _ => false
  }

  // The operands are honest.
  ghost predicate Trusted(p: Pass, S: set<Id>, n: Node) {
    n.in0 < |p.mem| && Honest(p, S, Some(n.in0)) && (Uses(n, 1) ==> n.in1.value < |p.mem| && Honest(p, S, n.in1))
  }

  ghost predicate SeedFree(p: Pass, S: set<Id>, root: Id) {
    root in p.grads ==> !Dep(p, S, Some(p.grads[root]))
  }

  lemma EntryFacts(p: Pass, S: set<Id>, k: nat, root: Id, x: Id)
    requires Fair(p, S, k, root) && (x == root ==> SeedFree(p, S, root)) && x in p.grads
    ensures var d := Some(p.grads[x]);
      Honest(p, S, d) && InMem(p, d) && (x != root ==> TrackedAt(p.mem, d)) && (x == root ==> !Dep(p, S, d))
  {
    hide Dependent;
  }

  lemma FairBinary(p: Pass, S: set<Id>, k: nat, root: Id, n: Node)
    requires Fair(p, S, k, root) && (n.out == root ==> SeedFree(p, S, root)) && Trusted(p, S, n) && n.out in p.grads
    requires Binary(n.op) && Uses(n, 1) && !Lossy(p.mem, n, Deps(p, S), root)
    ensures var r := RunRule(p, n, Some(p.grads[n.out])); r.Ran? ==> Fair(r.p, S, k, root) && Steady(p, r.p, S)
  {
    hide Fair, Steady, Honest, RunSub, RunMul, RunMulSpread, RunDiv, RunDivSpread, RunMatMul, Perform, Sent, ShapeAt,
         HasZero, Dependent;
    EntryFacts(p, S, k, root, n.out);
    var d, x0, x1 := Some(p.grads[n.out]), n.in0, n.in1.value;
    var t0, t1 := OperandAt(p.mem, n, 0), OperandAt(p.mem, n, 1);
    match n.op
    case Add => FairTwo(p, S, k, root, d, d, ShapeAt(p.mem, Some(x0)), ShapeAt(p.mem, Some(x1)), x0, x1);
    case Sub => FairSub(p, S, k, root, d, x0, x1);
    case Mult =>
      if |t0.data| == |t1.data| { FairMul(p, S, k, root, d, x0, x1); } else { FairMulSpread(p, S, k, root, d, x0, x1); }
    case Div =>
      if |t0.data| == |t1.data| { FairDiv(p, S, k, root, d, x0, x1); } else { FairDivSpread(p, S, k, root, d, x0, x1); }
    case MatMul => FairMatMul(p, S, k, root, d, x0, x1);
  }

  lemma FairUnary(p: Pass, S: set<Id>, k: nat, root: Id, n: Node)
    requires Fair(p, S, k, root) && (n.out == root ==> SeedFree(p, S, root)) && Trusted(p, S, n) && n.out in p.grads
    requires !Binary(n.op)
    requires ScalarRoot(n) ==> n.out == root
    ensures var r := RunRule(p, n, Some(p.grads[n.out])); r.Ran? ==> Fair(r.p, S, k, root) && Steady(p, r.p, S)
  {
    hide Fair, Steady, Honest, RunMean, RunRelu, Perform, Sent, ShapeAt, Dep, Tells, ReluMask;
    EntryFacts(p, S, k, root, n.out);
    var d, x0, t0 := Some(p.grads[n.out]), n.in0, OperandAt(p.mem, n, 0);
    OwnTells(p, S, Bcast, d, None);
    OwnTells(p, S, AxisSum, d, None);
    Honestly(p, S, Scale, d, None);
    Honestly(p, S, Transpose, d, None);
    Honestly(p, S, Reshape, d, None);
    match n.op
    case Scale => FairSent(p, S, k, root, Scale, d, None, n.scalar, [], x0);
    case SumAll => FairSent(p, S, k, root, Bcast, d, None, 0.0, t0.shape, x0);
    case MeanAll => FairMean(p, S, k, root, d, x0, |t0.data|);
    case Transpose => FairSent(p, S, k, root, Transpose, d, None, 0.0, [], x0);
    case Reshape => FairSent(p, S, k, root, Reshape, d, None, 0.0, t0.shape, x0);
    case Relu => FairRelu(p, S, k, root, d, x0, t0.data);
    case Bcast => FairSent(p, S, k, root, AxisSum, d, None, 0.0, t0.shape, x0);
    case AxisSum => FairSent(p, S, k, root, Bcast, d, None, 0.0, t0.shape, x0);
    case _ =>
  }

  // ── The converse ──

  lemma {:induction false} DependentGrows(nodes: seq<Node>, more: seq<Node>, S: set<Id>)
    requires nodes <= more
    ensures Dependent(nodes, S) <= Dependent(more, S)
    decreases |more|
  {
    hide ReadsSome;
    if |nodes| == |more| {
      assert nodes == more;
    } else {
      DependentGrows(nodes, more[..|more| - 1], S);
    }
  }

  // A step that went unrecorded stays so.
  lemma UncoveredStays(p: Pass, q: Pass, S: set<Id>, k: nat)
    requires !CoveredFrom(p, S, k) && p.steps <= q.steps
    ensures !CoveredFrom(q, S, k)
  {
    hide Reads;
    var i :| k <= i < |p.steps| && !p.steps[i].recorded && ReadsSome(p.steps[i].node, Deps(p, S));
    DependentGrows(AllNodes(p.steps), AllNodes(q.steps), S);
    assert q.steps[i] == p.steps[i];
    var x :| x in Deps(p, S) && Reads(p.steps[i].node, x);
    assert x in Deps(q, S);
  }

  lemma OnwardSteps(p: Pass, q: Pass)
    requires Onward(p, q)
    ensures p.steps <= q.steps && |p.mem| <= |q.mem|
  {
  }

  lemma GoodIn(p: Pass, r: Ref)
    requires Good(p, r)
    ensures InMem(p, r) && r.Some?
  {
  }

  // An operation on something that depends on S and has no flag goes unrecorded.
  lemma Unseen(p: Pass, S: set<Id>, k: nat, op: Op, a: Ref, b: Ref)
    requires Closed(p, S) && InMem(p, a) && InMem(p, b) && k <= |p.steps| && !Own(op)
    requires Perform(p, op, a, b, 0.0, []).r.Some?
    requires Dep(p, S, a) || (Binary(op) && Dep(p, S, b))
    requires !TrackedAt(p.mem, a) && !TrackedAt(p.mem, b)
    ensures !CoveredFrom(Perform(p, op, a, b, 0.0, []).p, S, k)
  {
    hide Perform, Closed, CoveredFrom, Dep;
    PerformCovers(p, S, k, op, a, b, 0.0, []);
  }

  // The spread operands: what they depend on, and that their flags are down.
  lemma SpreadCovers(p: Pass, S: set<Id>, k: nat, d: Ref, x0: Id, x1: Id)
    requires Closed(p, S) && k <= |p.steps| && InMem(p, d) && x0 < |p.mem| && x1 < |p.mem|
    requires var os := ShapeAt(p.mem, d);
      var bb := Perform(p, Bcast, Some(x1), None, 0.0, os);
        bb.r.Some? && Perform(bb.p, Bcast, Some(x0), None, 0.0, os).r.Some?
    ensures var os := ShapeAt(p.mem, d);
      var bb := Perform(p, Bcast, Some(x1), None, 0.0, os);
      var ba := Perform(bb.p, Bcast, Some(x0), None, 0.0, os);
      Closed(ba.p, S) && k <= |ba.p.steps| && InMem(ba.p, d) && InMem(ba.p, bb.r) && InMem(ba.p, ba.r) &&
      (Dep(ba.p, S, bb.r) <==> Dep(p, S, Some(x1))) && (Dep(ba.p, S, ba.r) <==> Dep(p, S, Some(x0))) &&
      !TrackedAt(ba.p.mem, bb.r) && !TrackedAt(ba.p.mem, ba.r) && (TrackedAt(ba.p.mem, d) <==> TrackedAt(p.mem, d))
  {
    hide Closed, CoveredFrom, Dep, Perform, Records;
    var os := ShapeAt(p.mem, d);
    PerformCovers(p, S, k, Bcast, Some(x1), None, 0.0, os);
    PerformValue(p, Bcast, Some(x1), None, 0.0, os);
    var bb := Perform(p, Bcast, Some(x1), None, 0.0, os);
    StaysIn(p, bb.p, S, Some(x0));
    PerformCovers(bb.p, S, k, Bcast, Some(x0), None, 0.0, os);
    PerformValue(bb.p, Bcast, Some(x0), None, 0.0, os);
    var ba := Perform(bb.p, Bcast, Some(x0), None, 0.0, os);
    StaysIn(bb.p, ba.p, S, bb.r);
    FlagKept(p, bb.p, d);
    FlagKept(bb.p, ba.p, d);
    FlagKept(bb.p, ba.p, bb.r);
  }

  lemma FlagKept(p: Pass, q: Pass, r: Ref)
    requires InMem(p, r) && |p.mem| <= |q.mem| && forall x :: 0 <= x < |p.mem| ==> q.mem[x] == p.mem[x]
    ensures InMem(q, r) && (TrackedAt(q.mem, r) <==> TrackedAt(p.mem, r))
  {
  }

  lemma SpreadSome(p: Pass, k: nat, d: Ref, x0: Id, x1: Id)
    requires Ready(p, k) && Good(p, d) && Good(p, Some(x0)) && Good(p, Some(x1)) && x0 < |p.mem| && x1 < |p.mem|
    requires Compatible(p.mem[x0].shape, ShapeAt(p.mem, d)) && Compatible(p.mem[x1].shape, ShapeAt(p.mem, d))
    ensures var os := ShapeAt(p.mem, d);
      var bb := Perform(p, Bcast, Some(x1), None, 0.0, os);
        bb.r.Some? && Perform(bb.p, Bcast, Some(x0), None, 0.0, os).r.Some?
  {
    OperandShape(p, x0);
    OperandShape(p, x1);
    hide Ready, Good, Onward, Perform, Sent, Compatible, ZeroAt, ShapeAt, Closed, CoveredFrom, Dep, Records;
    SpreadReady(p, k, d, x0, x1);
    var os := ShapeAt(p.mem, d);
    var bb := Perform(p, Bcast, Some(x1), None, 0.0, os);
    var ba := Perform(bb.p, Bcast, Some(x0), None, 0.0, os);
    GoodIn(ba.p, bb.r);
    GoodIn(ba.p, ba.r);
  }

  // Both operands spread: the results are usable, untracked, and depend on S as the operands do.
  ghost predicate SpreadOut(p: Pass, S: set<Id>, k: nat, d: Ref, x0: Id, x1: Id, q: Pass, bb: Ref, ba: Ref) {
    && Ready(q, k) && Onward(p, q) && q.grads == p.grads && Closed(q, S) && k <= |q.steps|
    && Good(q, d) && Good(q, bb) && Good(q, ba) && InMem(q, d) && InMem(q, bb) && InMem(q, ba)
    && ShapeAt(q.mem, bb) == ShapeAt(q.mem, ba) == ShapeAt(q.mem, d) == ShapeAt(p.mem, d)
    && (Dep(q, S, bb) <==> Dep(p, S, Some(x1))) && (Dep(q, S, ba) <==> Dep(p, S, Some(x0)))
    && !TrackedAt(q.mem, bb) && !TrackedAt(q.mem, ba) && (TrackedAt(q.mem, d) <==> TrackedAt(p.mem, d))
    && (!ZeroAt(p, Some(x1)) ==> !ZeroAt(q, bb))
  }

  lemma SpreadBoth(p: Pass, S: set<Id>, k: nat, d: Ref, x0: Id, x1: Id)
    requires Ready(p, k) && Good(p, d) && Good(p, Some(x0)) && Good(p, Some(x1)) && x0 < |p.mem| && x1 < |p.mem|
    requires Compatible(p.mem[x0].shape, ShapeAt(p.mem, d)) && Compatible(p.mem[x1].shape, ShapeAt(p.mem, d))
    requires Closed(p, S)
    ensures var os := ShapeAt(p.mem, d);
      var bb := Perform(p, Bcast, Some(x1), None, 0.0, os);
      var ba := Perform(bb.p, Bcast, Some(x0), None, 0.0, os);
      SpreadOut(p, S, k, d, x0, x1, ba.p, bb.r, ba.r)
  {
    OperandShape(p, x0);
    OperandShape(p, x1);
    ReadyParts(p, k);
    hide Ready, Good, Onward, Perform, Sent, Compatible, ZeroAt, ShapeAt, Closed, CoveredFrom, Dep, Records;
    SpreadReady(p, k, d, x0, x1);
    GoodIn(p, d);
    SpreadSome(p, k, d, x0, x1);
    SpreadCovers(p, S, k, d, x0, x1);
  }

  lemma LossyMul(p: Pass, S: set<Id>, k: nat, d: Ref, x0: Id, x1: Id)
    requires Ready(p, k) && Good(p, d) && Good(p, Some(x0)) && Good(p, Some(x1)) && x0 < |p.mem| && x1 < |p.mem|
    requires Compatible(p.mem[x0].shape, ShapeAt(p.mem, d)) && Compatible(p.mem[x1].shape, ShapeAt(p.mem, d))
    requires Closed(p, S) && !TrackedAt(p.mem, d) && (Dep(p, S, Some(x0)) || Dep(p, S, Some(x1)))
    ensures !CoveredFrom(RunMulSpread(p, d, Some(x0), Some(x1)), S, k)
  {
    OperandShape(p, x0);
    OperandShape(p, x1);
    hide Ready, Good, Onward, Perform, Sent, Compatible, ZeroAt, ShapeAt, Closed, CoveredFrom, Dep, Records;
    hide SpreadOut, TrackedAt;
    SpreadBoth(p, S, k, d, x0, x1);
    var os := ShapeAt(p.mem, d);
    var bb := Perform(p, Bcast, Some(x1), None, 0.0, os);
    var ba := Perform(bb.p, Bcast, Some(x0), None, 0.0, os);
    MulTail(p, S, k, d, x0, x1, ba.p, bb.r, ba.r);
  }

  lemma MulTail(p: Pass, S: set<Id>, k: nat, d: Ref, x0: Id, x1: Id, q: Pass, bb: Ref, ba: Ref)
    requires SpreadOut(p, S, k, d, x0, x1, q, bb, ba) && x0 < |p.mem| && x1 < |p.mem|
    requires Compatible(p.mem[x0].shape, ShapeAt(p.mem, d)) && Compatible(p.mem[x1].shape, ShapeAt(p.mem, d))
    requires !TrackedAt(p.mem, d) && (Dep(p, S, Some(x0)) || Dep(p, S, Some(x1)))
    ensures var da := Perform(q, Mult, d, bb, 0.0, []);
      var db := Perform(da.p, Mult, d, ba, 0.0, []);
      var r := Sent(Perform(db.p, AxisSum, da.r, None, 0.0, p.mem[x0].shape), Some(x0));
      !CoveredFrom(Sent(Perform(r, AxisSum, db.r, None, 0.0, p.mem[x1].shape), Some(x1)), S, k)
  {
    hide Ready, Good, Onward, Perform, Sent, Compatible, ZeroAt, ShapeAt, Closed, CoveredFrom, Dep, Records;
    SameReady(q, k, Mult, d, bb);
    var da := Perform(q, Mult, d, bb, 0.0, []);
    Carried(q, da.p, d);
    Carried(q, da.p, ba);
    SameReady(da.p, k, Mult, d, ba);
    var db := Perform(da.p, Mult, d, ba, 0.0, []);
    Carried(da.p, db.p, da.r);
    OnwardTwice(p, q, da.p);
    OnwardTwice(p, da.p, db.p);
    TwoSent(db.p, k, da.r, db.r, x0, x1, p);
    var r := Sent(Perform(db.p, AxisSum, da.r, None, 0.0, p.mem[x0].shape), Some(x0));
    var last := Sent(Perform(r, AxisSum, db.r, None, 0.0, p.mem[x1].shape), Some(x1));
    OnwardTwice(da.p, db.p, last);
    OnwardSteps(da.p, last);
    OnwardSteps(db.p, last);
    GoodIn(da.p, da.r);
    GoodIn(db.p, db.r);
    if Dep(p, S, Some(x1)) {
      Unseen(q, S, k, Mult, d, bb);
      UncoveredStays(da.p, last, S, k);
    } else {
      PerformCovers(q, S, k, Mult, d, bb, 0.0, []);
      PerformValue(q, Mult, d, bb, 0.0, []);
      StaysIn(q, da.p, S, ba);
      FlagKept(q, da.p, d);
      FlagKept(q, da.p, ba);
      Unseen(da.p, S, k, Mult, d, ba);
      UncoveredStays(db.p, last, S, k);
    }
  }

  lemma LossyDiv(p: Pass, S: set<Id>, k: nat, d: Ref, x0: Id, x1: Id)
    requires Ready(p, k) && Good(p, d) && Good(p, Some(x0)) && Good(p, Some(x1)) && x0 < |p.mem| && x1 < |p.mem|
    requires Compatible(p.mem[x0].shape, ShapeAt(p.mem, d)) && Compatible(p.mem[x1].shape, ShapeAt(p.mem, d))
    requires Closed(p, S) && !ZeroAt(p, Some(x1))
    requires Dep(p, S, Some(x1)) || (!TrackedAt(p.mem, d) && Dep(p, S, Some(x0)))
    ensures !CoveredFrom(RunDivSpread(p, d, Some(x0), Some(x1)), S, k)
  {
    OperandShape(p, x0);
    OperandShape(p, x1);
    hide Ready, Good, Onward, Perform, Sent, Compatible, ZeroAt, ShapeAt, Closed, CoveredFrom, Dep, Records;
    hide SpreadOut, TrackedAt;
    SpreadBoth(p, S, k, d, x0, x1);
    var os := ShapeAt(p.mem, d);
    var bb := Perform(p, Bcast, Some(x1), None, 0.0, os);
    var ba := Perform(bb.p, Bcast, Some(x0), None, 0.0, os);
    DivHead(p, S, k, d, x0, x1, ba.p, bb.r, ba.r);
  }

  lemma DivHead(p: Pass, S: set<Id>, k: nat, d: Ref, x0: Id, x1: Id, q: Pass, bb: Ref, ba: Ref)
    requires SpreadOut(p, S, k, d, x0, x1, q, bb, ba) && x0 < |p.mem| && x1 < |p.mem| && !ZeroAt(p, Some(x1))
    requires Compatible(p.mem[x0].shape, ShapeAt(p.mem, d)) && Compatible(p.mem[x1].shape, ShapeAt(p.mem, d))
    requires Dep(p, S, Some(x1)) || (!TrackedAt(p.mem, d) && Dep(p, S, Some(x0)))
    ensures var da := Perform(q, Div, d, bb, 0.0, []);
      var num := Perform(da.p, Mult, d, ba, 0.0, []);
      var bb2 := Perform(num.p, Mult, bb, bb, 0.0, []);
      var db := Perform(bb2.p, Div, num.r, bb2.r, 0.0, []);
      var r := Sent(Perform(db.p, AxisSum, da.r, None, 0.0, p.mem[x0].shape), Some(x0));
      var neg := Perform(r, Scale, db.r, None, -1.0, []);
      !CoveredFrom(Sent(Perform(neg.p, AxisSum, neg.r, None, 0.0, p.mem[x1].shape), Some(x1)), S, k)
  {
    hide Ready, Good, Onward, Perform, Sent, Compatible, ZeroAt, ShapeAt, Closed, CoveredFrom, Dep, Records;
    SameReady(q, k, Div, d, bb);
    var da := Perform(q, Div, d, bb, 0.0, []);
    Carried(q, da.p, d);
    Carried(q, da.p, ba);
    Carried(q, da.p, bb);
    PerformCovers(q, S, k, Div, d, bb, 0.0, []);
    PerformValue(q, Div, d, bb, 0.0, []);
    StaysIn(q, da.p, S, ba);
    StaysIn(q, da.p, S, bb);
    FlagKept(q, da.p, d);
    FlagKept(q, da.p, ba);
    FlagKept(q, da.p, bb);
    OnwardTwice(p, q, da.p);
    OnwardSteps(q, da.p);
    DivTail(p, S, k, d, x0, x1, da.p, da.r, bb, ba);
  }

  // From the quotient on: the products d ba and bb bb, their quotient, and the sums.
  lemma DivTail(p: Pass, S: set<Id>, k: nat, d: Ref, x0: Id, x1: Id, q: Pass, da: Ref, bb: Ref, ba: Ref)
    requires Ready(q, k) && Good(q, d) && Good(q, da) && Good(q, bb) && Good(q, ba) && Closed(q, S) && k <= |q.steps|
    requires Onward(p, q) && q.grads == p.grads && x0 < |p.mem| && x1 < |p.mem| && !ZeroAt(q, bb)
    requires ShapeAt(q.mem, d) == ShapeAt(q.mem, da) == ShapeAt(q.mem, bb) == ShapeAt(q.mem, ba)
    requires Compatible(p.mem[x0].shape, ShapeAt(q.mem, d)) && Compatible(p.mem[x1].shape, ShapeAt(q.mem, d))
    requires InMem(q, d) && InMem(q, bb) && InMem(q, ba) && !TrackedAt(q.mem, bb) && !TrackedAt(q.mem, ba)
    requires Dep(q, S, bb) || (!TrackedAt(q.mem, d) && Dep(q, S, ba))
    ensures var num := Perform(q, Mult, d, ba, 0.0, []);
      var bb2 := Perform(num.p, Mult, bb, bb, 0.0, []);
      var db := Perform(bb2.p, Div, num.r, bb2.r, 0.0, []);
      var r := Sent(Perform(db.p, AxisSum, da, None, 0.0, p.mem[x0].shape), Some(x0));
      var neg := Perform(r, Scale, db.r, None, -1.0, []);
      !CoveredFrom(Sent(Perform(neg.p, AxisSum, neg.r, None, 0.0, p.mem[x1].shape), Some(x1)), S, k)
  {
    hide Ready, Good, Onward, Perform, Sent, Compatible, ZeroAt, ShapeAt, Closed, CoveredFrom, Dep, Records;
    SameReady(q, k, Mult, d, ba);
    var num := Perform(q, Mult, d, ba, 0.0, []);
    Carried(q, num.p, bb);
    Carried(q, num.p, da);
    SameReady(num.p, k, Mult, bb, bb);
    var bb2 := Perform(num.p, Mult, bb, bb, 0.0, []);
    Carried(num.p, bb2.p, num.r);
    Carried(num.p, bb2.p, da);
    SameReady(bb2.p, k, Div, num.r, bb2.r);
    var db := Perform(bb2.p, Div, num.r, bb2.r, 0.0, []);
    Carried(bb2.p, db.p, da);
    OnwardTwice(p, q, num.p);
    OnwardTwice(p, num.p, bb2.p);
    OnwardTwice(p, bb2.p, db.p);
    TwoSentNegated(db.p, k, da, db.r, x0, x1, p);
    var r := Sent(Perform(db.p, AxisSum, da, None, 0.0, p.mem[x0].shape), Some(x0));
    var neg := Perform(r, Scale, db.r, None, -1.0, []);
    var last := Sent(Perform(neg.p, AxisSum, neg.r, None, 0.0, p.mem[x1].shape), Some(x1));
    OnwardTwice(bb2.p, db.p, last);
    OnwardTwice(num.p, bb2.p, last);
    OnwardSteps(bb2.p, last);
    OnwardSteps(num.p, last);
    GoodIn(num.p, num.r);
    GoodIn(bb2.p, bb2.r);
    if Dep(q, S, bb) {
      PerformCovers(q, S, k, Mult, d, ba, 0.0, []);
      PerformValue(q, Mult, d, ba, 0.0, []);
      StaysIn(q, num.p, S, bb);
      FlagKept(q, num.p, bb);
      Unseen(num.p, S, k, Mult, bb, bb);
      UncoveredStays(bb2.p, last, S, k);
    } else {
      Unseen(q, S, k, Mult, d, ba);
      UncoveredStays(num.p, last, S, k);
    }
  }

  lemma LossyNode(p: Pass, S: set<Id>, k: nat, root: Id, n: Node)
    requires Ready(p, k) && Walkable(Ungated(p.mem), n) && Operands(p, n) && n.out in p.grads && Closed(p, S)
    requires Lossy(p.mem, n, Deps(p, S), root)
    requires n.out == root ==> !TrackedAt(p.mem, Some(p.grads[n.out]))
    ensures var r := RunRule(p, n, Some(p.grads[n.out])); r.Ran? && !CoveredFrom(r.p, S, k)
  {
    hide RunMulSpread, RunDivSpread, Sure, Good, Onward, GradsOk, NodeInMemory, ShapeAt, Compatible, Closed,
         CoveredFrom, Dependent, NodeOk;
    NodeShapes(p, n);
    var d, x0, x1 := Some(p.grads[n.out]), n.in0, n.in1.value;
    if n.op == Mult { LossyMul(p, S, k, d, x0, x1); } else { LossyDiv(p, S, k, d, x0, x1); }
  }

  // ── A frame ──

  // A node the root leads to, from the tensors of L on, is lossy.
  ghost predicate LossyIn(mem: Memory, nodes: seq<Node>, L: set<Id>, D: set<Id>, root: Id) {
    nodes != [] &&
    ((nodes[0].out in L && Lossy(mem, nodes[0], D, root)) ||
     LossyIn(mem, nodes[1..], if nodes[0].out in L then L + ReadIds(nodes[0]) else L, D, root))
  }

  ghost predicate Eligible(b: Pass, S: set<Id>, n: Node) {
    Walkable(Ungated(b.mem), n) && Operands(b, n) && Trusted(b, S, n)
  }

  lemma EligibleKept(b: Pass, p: Pass, S: set<Id>, n: Node, root: Id)
    requires Eligible(b, S, n) && Onward(b, p) && Steady(b, p, S)
    ensures Eligible(p, S, n) && (Lossy(p.mem, n, Deps(p, S), root) <==> Lossy(b.mem, n, Deps(b, S), root))
  {
    hide Dependent, Walkable, Operands;
    WalkableKept(b, p, n);
    HonestCarried(b, p, S, Some(n.in0));
    if Uses(n, 1) { HonestCarried(b, p, S, n.in1); }
    SameOperands(b, p, n);
  }

  lemma SameOperands(b: Pass, p: Pass, n: Node)
    requires Onward(b, p) && n.in0 < |b.mem| && (Uses(n, 1) ==> n.in1.value < |b.mem|)
    ensures OperandAt(p.mem, n, 0).data == OperandAt(b.mem, n, 0).data
    ensures OperandAt(p.mem, n, 1).data == OperandAt(b.mem, n, 1).data
  {
    hide Usable;
  }

  // One reached node that is not lossy leaves the pass fair.
  lemma FairNode(p: Pass, S: set<Id>, k: nat, root: Id, n: Node)
    requires Ready(p, k) && Fair(p, S, k, root) && Eligible(p, S, n) && n.out in p.grads
    requires n.out == root ==> SeedFree(p, S, root)
    requires ScalarRoot(n) ==> n.out == root
    requires !Lossy(p.mem, n, Deps(p, S), root)
    ensures var r := RunNode(p, n);
      r.Ran? && Fair(r.p, S, k, root) && Steady(p, r.p, S) && Ready(r.p, k) && Onward(p, r.p)
        && r.p.grads.Keys == p.grads.Keys + ReadIds(n)
  {
    hide Ready, Fair, Walkable, Operands, Trusted, RunRule, Lossy, SeedFree, Dependent, Steady, Onward;
    NodeRuns(p, k, n);
    if Binary(n.op) {
      BinaryUses(p, n);
      FairBinary(p, S, k, root, n);
    } else {
      FairUnary(p, S, k, root, n);
    }
  }

  lemma BinaryUses(p: Pass, n: Node)
    requires Walkable(Ungated(p.mem), n) && Binary(n.op)
    ensures Uses(n, 1)
  {
    hide Ungated, OperandAt;
  }

  ghost predicate HeadOnly(p: Pass, S: set<Id>, nodes: seq<Node>, root: Id) {
    && (forall i :: 0 < i < |nodes| ==> nodes[i].out != root)
    && (nodes != [] && nodes[0].out == root && root in p.grads ==>
      SeedFree(p, S, root) && !TrackedAt(p.mem, Some(p.grads[root])))
    && (forall i :: 0 <= i < |nodes| && ScalarRoot(nodes[i]) ==> nodes[i].out == root || nodes[i].out !in p.grads)
    && (forall i, j :: 0 <= i < |nodes| && 0 <= j < |nodes| && ScalarRoot(nodes[i]) ==>
      nodes[i].out !in ReadIds(nodes[j]))
  }

  lemma HeadOnlyRest(p: Pass, q: Pass, S: set<Id>, nodes: seq<Node>, root: Id)
    requires HeadOnly(p, S, nodes, root) && nodes != [] && q.grads.Keys <= p.grads.Keys + ReadIds(nodes[0])
    ensures HeadOnly(q, S, nodes[1..], root)
  {
    hide SeedFree;
    var rest := nodes[1..];
    forall i | 0 <= i < |rest|
      ensures rest[i] == nodes[i + 1]
    {
    }
    forall i | 0 <= i < |rest| && ScalarRoot(rest[i])
      ensures rest[i].out == root || rest[i].out !in q.grads
    {
      assert nodes[i + 1].out !in ReadIds(nodes[0]);
    }
  }

  // Everything the pass computes from S is recorded if and only if no node the
  // root leads to is lossy.
  lemma {:induction false} NodesCover(b: Pass, p: Pass, S: set<Id>, k: nat, nodes: seq<Node>, root: Id)
    requires Ready(p, k) && Fair(p, S, k, root) && Onward(b, p) && Steady(b, p, S) && HeadOnly(p, S, nodes, root)
    requires forall i :: 0 <= i < |nodes| ==> Eligible(b, S, nodes[i])
    ensures var r := RunNodes(p, nodes);
      r.Ran? && (CoveredFrom(r.p, S, k) <==> !LossyIn(b.mem, nodes, p.grads.Keys, Deps(b, S), root))
    decreases |nodes|
  {
    hide Ready, Onward, Steady, Eligible, RunNode, Lossy, CoveredFrom, SeedFree, Dependent, HeadOnly, Fair;
    if nodes == [] {
      FairCovered(p, S, k, root);
    } else {
      var n, rest := nodes[0], nodes[1..];
      EligibleKept(b, p, S, n, root);
      HeadFacts(p, S, nodes, root);
      if n.out !in p.grads {
        SkippedNode(p, n);
        HeadOnlyRest(p, p, S, nodes, root);
        NodesCover(b, p, S, k, rest, root);
      } else if Lossy(p.mem, n, Deps(p, S), root) {
        LossyRun(b, p, S, k, nodes, root);
      } else {
        FairNode(p, S, k, root, n);
        var q := RunNode(p, n).p;
        OnwardTwice(b, p, q);
        SteadyTwice(b, p, q, S);
        HeadOnlyRest(p, q, S, nodes, root);
        NodesCover(b, q, S, k, rest, root);
      }
    }
  }

  lemma FairCovered(p: Pass, S: set<Id>, k: nat, root: Id)
    requires Fair(p, S, k, root)
    ensures CoveredFrom(p, S, k) && Closed(p, S)
  {
  }

  lemma SkippedNode(p: Pass, n: Node)
    requires n.out !in p.grads
    ensures RunNode(p, n) == Ran(p)
  {
  }

  lemma HeadFacts(p: Pass, S: set<Id>, nodes: seq<Node>, root: Id)
    requires HeadOnly(p, S, nodes, root) && nodes != []
    ensures var n := nodes[0];
      n.out in p.grads ==>
        (ScalarRoot(n) ==> n.out == root)
          && (n.out == root ==> SeedFree(p, S, root) && !TrackedAt(p.mem, Some(p.grads[n.out])))
  {
    hide SeedFree;
  }

  // After a lossy node the log stays uncovered to the end of the frame.
  lemma LossyRun(b: Pass, p: Pass, S: set<Id>, k: nat, nodes: seq<Node>, root: Id)
    requires Ready(p, k) && Fair(p, S, k, root) && Onward(b, p) && Steady(b, p, S) && nodes != []
    requires nodes[0].out in p.grads
    requires forall i :: 0 <= i < |nodes| ==> Eligible(b, S, nodes[i])
    requires Lossy(p.mem, nodes[0], Deps(p, S), root)
    requires nodes[0].out == root ==> !TrackedAt(p.mem, Some(p.grads[root]))
    ensures var r := RunNodes(p, nodes); r.Ran? && !CoveredFrom(r.p, S, k)
  {
    hide Ready, Onward, Steady, Walkable, Operands, Trusted, RunRule, Lossy, CoveredFrom, Dependent, Fair;
    var n, rest := nodes[0], nodes[1..];
    FairCovered(p, S, k, root);
    EligibleKept(b, p, S, n, root);
    LossyNode(p, S, k, root, n);
    NodeRuns(p, k, n);
    var q := RunNode(p, n).p;
    forall i | 0 <= i < |rest|
      ensures Walkable(Ungated(q.mem), rest[i]) && Operands(q, rest[i])
    {
      assert Eligible(b, S, nodes[i + 1]);
      OnwardTwice(b, p, q);
      WalkableKept(b, q, rest[i]);
    }
    NodesRun(q, k, rest);
    OnwardSteps(q, RunNodes(q, rest).p);
    UncoveredStays(q, RunNodes(q, rest).p, S, k);
  }
}
