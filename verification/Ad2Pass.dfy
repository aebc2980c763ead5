// The recording pass computes the gradients of the walk over values, and what it
// records is a well-formed tape of true operations.
module Ad2Pass {
  import opened Options
  import opened Arith
  import opened Shapes
  import opened Sums
  import opened Tape
  import opened Rules
  import opened NodeRule
  import opened Adjoint
  import opened Sweep
  import opened DualRun
  import opened Ad2Rule
  import Ad2
  import opened Ad2Tape

  // ── Values ──

  // Memory only grows; flags aside, what is there stays.
  ghost predicate Kept(m: Memory, m': Memory) {
    |m| <= |m'| && forall x :: 0 <= x < |m| ==> Of(m'[x]) == Of(m[x])
  }

  ghost predicate Shows(p: Pass, V: Ad2.GradMap) {
    p.grads.Keys == V.Keys &&
    forall x :: x in p.grads ==> p.grads[x] < |p.mem| && V[x] == Of(p.mem[p.grads[x]])
  }

  ghost predicate InMem(p: Pass, r: Ref) { r.Some? ==> r.value < |p.mem| }

  lemma ApplyBad(op: Op, b: Value, c: real, like: Shape)
    ensures Apply(op, Bad, b, c, like) == Bad
  {
  }

  lemma PerformValue(p: Pass, op: Op, a: Ref, b: Ref, c: real, like: Shape)
    ensures var o := Perform(p, op, a, b, c, like);
      Kept(p.mem, o.p.mem) && o.p.grads == p.grads && InMem(o.p, o.r) && p.steps <= o.p.steps &&
      (forall x :: 0 <= x < |p.mem| ==> o.p.mem[x] == p.mem[x]) &&
      ValueAt(o.p.mem, o.r) == Apply(op, ValueAt(p.mem, a), ValueAt(p.mem, b), c, like)
  {
    hide Apply;
    if a.None? { ApplyBad(op, ValueAt(p.mem, b), c, like); }
  }

  lemma KeptValue(m: Memory, m': Memory, r: Ref)
    requires Kept(m, m') && (r.Some? ==> r.value < |m|)
    ensures ValueAt(m', r) == ValueAt(m, r) && ShapeAt(m', r) == ShapeAt(m, r)
    ensures |m| <= |m'| && (r.Some? ==> r.value < |m'|)
  {
  }

  lemma ApplyAdd(a: Value, b: Value, c: real, like: Shape)
    ensures Apply(Add, a, b, c, like) == TAdd(a, b)
  {
    hide TAdd, TSub, TMul, TDiv, TMatMul, TScale, TRelu, TTranspose, TReshape, TBcast, TAxisSum;
  }

  lemma ApplyIs(a: Value, b: Value, c: real, like: Shape)
    ensures Apply(Add, a, b, c, like) == TAdd(a, b) && Apply(Mult, a, b, c, like) == TMul(a, b)
    ensures Apply(Div, a, b, c, like) == TDiv(a, b) && Apply(MatMul, a, b, c, like) == TMatMul(a, b)
    ensures Apply(Scale, a, b, c, like) == TScale(a, c) && Apply(Transpose, a, b, c, like) == TTranspose(a)
    ensures Apply(Reshape, a, b, c, like) == TReshape(a, like)
    ensures Apply(Bcast, a, b, c, like) == TBcast(a, like) && Apply(AxisSum, a, b, c, like) == TAxisSum(a, like)
  {
    hide TAdd, TSub, TMul, TDiv, TMatMul, TScale, TRelu, TTranspose, TReshape, TBcast, TAxisSum;
  }

  // The memory an accumulation adds in: the entry is there, and tracked.
  ghost function Entered(p: Pass, x: Id): Pass {
    var s := ShapeAt(p.mem, Some(x));
    var q := if x in p.grads then p else Create(p, s, Zeros(Size(s))).p.(grads := p.grads[x := |p.mem|]);
    q.(mem := Track(q.mem, q.grads[x]))
  }

  lemma EnteredShows(M: Memory, p: Pass, x: Id, V: Ad2.GradMap)
    requires Kept(M, p.mem) && Shows(p, V) && x < |M|
    ensures var t := Entered(p, x);
      Kept(p.mem, t.mem) && t.steps == p.steps && Shows(t, V[x := if x in V then V[x] else Ad2.ZerosLike(M[x])])
  {
  }

  lemma AddToEntered(p: Pass, x: Id, c: Id)
    ensures var t := Entered(p, x);
      var o := Perform(t, Add, Some(t.grads[x]), Some(c), 0.0, []);
      AddTo(p, Some(x), Some(c)) == if o.r.None? then o.p else o.p.(grads := t.grads[x := o.r.value])
  {
    hide Perform, Create;
  }

  lemma ShowsUpdate(p: Pass, q: Pass, x: Id, y: Id, V: Ad2.GradMap)
    requires Shows(p, V) && Kept(p.mem, q.mem) && q.grads == p.grads && y < |q.mem|
    ensures Shows(q, V) && Shows(q.(grads := p.grads[x := y]), V[x := Of(q.mem[y])])
  {
  }

  lemma AccOf(M: Memory, x: Id, c: Value, V: Ad2.GradMap)
    requires x < |M| && c.Value?
    ensures var was := if x in V then V[x] else Ad2.ZerosLike(M[x]);
      Ad2.Acc(M, x, c, V) == V[x := if TAdd(was, c).Bad? then was else TAdd(was, c)]
  {
    hide TAdd, Ad2.ZerosLike;
  }

  lemma KeptTwice(a: Memory, b: Memory, c: Memory)
    requires Kept(a, b) && Kept(b, c)
    ensures Kept(a, c) && |a| <= |b| <= |c|
  {
  }

  lemma AddToShows(M: Memory, p: Pass, x: Id, c: Ref, V: Ad2.GradMap)
    requires Kept(M, p.mem) && Shows(p, V) && x < |M| && InMem(p, c)
    ensures var q := AddTo(p, Some(x), c);
      Kept(p.mem, q.mem) && Kept(M, q.mem) && Shows(q, Ad2.Acc(M, x, ValueAt(p.mem, c), V)) && p.steps <= q.steps
  {
    if c.None? {
      hide Shows, Kept, Ad2.ZerosLike, Perform, Create;
      AccBad(M, x, V);
    } else {
      AddToShowsSome(M, p, x, c.value, V);
    }
  }

  lemma AddToShowsSome(M: Memory, p: Pass, x: Id, c: Id, V: Ad2.GradMap)
    requires Kept(M, p.mem) && Shows(p, V) && x < |M| && c < |p.mem|
    ensures var q := AddTo(p, Some(x), Some(c));
      Kept(p.mem, q.mem) && Kept(M, q.mem) && Shows(q, Ad2.Acc(M, x, ValueAt(p.mem, Some(c)), V)) && p.steps <= q.steps
  {
    hide TAdd, Apply, Perform, Entered, Ad2.ZerosLike, Ad2.Acc, AddTo, Shows, Kept;
    EnteredShows(M, p, x, V);
    AddToEntered(p, x, c);
    var t := Entered(p, x);
    var V1 := V[x := if x in V then V[x] else Ad2.ZerosLike(M[x])];
    ShownAt(t, V1, x);
    var was := Some(t.grads[x]);
    var v := ValueAt(t.mem, was);
    var o := Perform(t, Add, was, Some(c), 0.0, []);
    PerformValue(t, Add, was, Some(c), 0.0, []);
    ApplyAdd(v, ValueAt(t.mem, Some(c)), 0.0, []);
    KeptValue(p.mem, t.mem, Some(c));
    AccOf(M, x, ValueAt(p.mem, Some(c)), V);
    KeptTwice(p.mem, t.mem, o.p.mem);
    ShowsUpdate(t, o.p, x, if o.r.Some? then o.r.value else t.grads[x], V1);
    if o.r.Some? {
      assert V1[x := TAdd(v, ValueAt(p.mem, Some(c)))] == Ad2.Acc(M, x, ValueAt(p.mem, Some(c)), V);
    }
    KeptTwice(M, p.mem, o.p.mem);
  }

  lemma ShownAt(p: Pass, V: Ad2.GradMap, x: Id)
    requires Shows(p, V)
    ensures x in V <==> x in p.grads
    ensures x in V ==> p.grads[x] < |p.mem| && V[x] == Of(p.mem[p.grads[x]]) == ValueAt(p.mem, Some(p.grads[x]))
  {
  }

  lemma AccBad(M: Memory, x: Id, V: Ad2.GradMap)
    requires x < |M|
    ensures Ad2.Acc(M, x, Bad, V) == V
  {
  }

  ghost predicate Agrees(M: Memory, p: Pass, V: Ad2.GradMap) {
    Kept(M, p.mem) && Shows(p, V)
  }

  // Performing changes no entry.
  lemma Performed(M: Memory, p: Pass, op: Op, a: Ref, b: Ref, c: real, like: Shape, V: Ad2.GradMap)
    requires Agrees(M, p, V)
    ensures var o := Perform(p, op, a, b, c, like);
      Agrees(M, o.p, V) && Kept(p.mem, o.p.mem) && InMem(o.p, o.r) && p.steps <= o.p.steps &&
      ValueAt(o.p.mem, o.r) == Apply(op, ValueAt(p.mem, a), ValueAt(p.mem, b), c, like)
  {
    hide Perform, Apply, ValueAt;
    PerformValue(p, op, a, b, c, like);
  }

  // Performing and accumulating is the walk's step on values.
  lemma Delivered(M: Memory, p: Pass, op: Op, a: Ref, b: Ref, c: real, like: Shape, x: Id, V: Ad2.GradMap)
    requires Agrees(M, p, V) && x < |M|
    ensures var q := Sent(Perform(p, op, a, b, c, like), Some(x));
      Kept(p.mem, q.mem) && p.steps <= q.steps &&
      Agrees(M, q, Ad2.Acc(M, x, Apply(op, ValueAt(p.mem, a), ValueAt(p.mem, b), c, like), V))
  {
    hide Perform, Apply, ValueAt, Ad2.Acc, AddTo, Kept, Shows;
    var o := Perform(p, op, a, b, c, like);
    Performed(M, p, op, a, b, c, like, V);
    AddToShows(M, o.p, x, o.r, V);
    KeptTwice(p.mem, o.p.mem, Sent(o, Some(x)).mem);
  }

  lemma OperandShown(M: Memory, p: Pass, x: Id)
    requires Kept(M, p.mem) && x < |M|
    ensures x < |p.mem| && ShapeAt(p.mem, Some(x)) == M[x].shape && ValueAt(p.mem, Some(x)) == Of(M[x])
  {
  }

  lemma AddShows(M: Memory, p: Pass, d: Ref, x0: Id, x1: Id, V: Ad2.GradMap)
    requires Agrees(M, p, V) && InMem(p, d) && x0 < |M| && x1 < |M|
    ensures var dv := ValueAt(p.mem, d);
      Agrees(M, RunAdd(p, d, Some(x0), Some(x1)),
        Ad2.Acc(M, x1, TAxisSum(dv, M[x1].shape), Ad2.Acc(M, x0, TAxisSum(dv, M[x0].shape), V)))
  {
    hide Perform, Apply, ValueAt, ShapeAt, Ad2.Acc, Sent, Kept, Shows, TAxisSum, TBcast, TScale, TMul, TDiv, TMatMul,
         TTranspose, TReshape;
    OperandShown(M, p, x0);
    OperandShown(M, p, x1);
    var dv := ValueAt(p.mem, d);
    ApplyIs(dv, ValueAt(p.mem, None), 0.0, M[x0].shape);
    Delivered(M, p, AxisSum, d, None, 0.0, M[x0].shape, x0, V);
    var q := Sent(Perform(p, AxisSum, d, None, 0.0, M[x0].shape), Some(x0));
    var V1 := Ad2.Acc(M, x0, TAxisSum(dv, M[x0].shape), V);
    KeptValue(p.mem, q.mem, d);
    ApplyIs(dv, ValueAt(q.mem, None), 0.0, M[x1].shape);
    Delivered(M, q, AxisSum, d, None, 0.0, M[x1].shape, x1, V1);
  }

  lemma SubShows(M: Memory, p: Pass, d: Ref, x0: Id, x1: Id, V: Ad2.GradMap)
    requires Agrees(M, p, V) && InMem(p, d) && x0 < |M| && x1 < |M|
    ensures var dv := ValueAt(p.mem, d);
      Agrees(M, RunSub(p, d, Some(x0), Some(x1)),
        Ad2.Acc(M, x1, TAxisSum(TScale(dv, -1.0), M[x1].shape), Ad2.Acc(M, x0, TAxisSum(dv, M[x0].shape), V)))
  {
    hide Perform, Apply, ValueAt, ShapeAt, Ad2.Acc, Sent, Kept, Shows, TAxisSum, TBcast, TScale, TMul, TDiv, TMatMul,
         TTranspose, TReshape;
    OperandShown(M, p, x0);
    OperandShown(M, p, x1);
    var dv := ValueAt(p.mem, d);
    var neg := Perform(p, Scale, d, None, -1.0, []);
    Performed(M, p, Scale, d, None, -1.0, [], V);
    ApplyIs(dv, ValueAt(p.mem, None), -1.0, []);
    KeptValue(p.mem, neg.p.mem, d);
    Delivered(M, neg.p, AxisSum, d, None, 0.0, M[x0].shape, x0, V);
    ApplyIs(dv, ValueAt(neg.p.mem, None), 0.0, M[x0].shape);
    var q := Sent(Perform(neg.p, AxisSum, d, None, 0.0, M[x0].shape), Some(x0));
    KeptValue(neg.p.mem, q.mem, neg.r);
    Delivered(M, q, AxisSum, neg.r, None, 0.0, M[x1].shape, x1, Ad2.Acc(M, x0, TAxisSum(dv, M[x0].shape), V));
    ApplyIs(ValueAt(q.mem, neg.r), ValueAt(q.mem, None), 0.0, M[x1].shape);
  }

  lemma MulShows(M: Memory, p: Pass, d: Ref, x0: Id, x1: Id, V: Ad2.GradMap)
    requires Agrees(M, p, V) && InMem(p, d) && x0 < |M| && x1 < |M|
    ensures var dv := ValueAt(p.mem, d);
      Agrees(M, RunMul(p, d, Some(x0), Some(x1)),
        Ad2.Acc(M, x1, TMul(dv, Of(M[x0])), Ad2.Acc(M, x0, TMul(dv, Of(M[x1])), V)))
  {
    hide Perform, Apply, ValueAt, ShapeAt, Ad2.Acc, Sent, Kept, Shows, TAxisSum, TBcast, TScale, TMul, TDiv, TMatMul,
         TTranspose, TReshape;
    OperandShown(M, p, x1);
    var dv := ValueAt(p.mem, d);
    Delivered(M, p, Mult, d, Some(x1), 0.0, [], x0, V);
    ApplyIs(dv, Of(M[x1]), 0.0, []);
    var q := Sent(Perform(p, Mult, d, Some(x1), 0.0, []), Some(x0));
    KeptValue(p.mem, q.mem, d);
    OperandShown(M, q, x0);
    Delivered(M, q, Mult, d, Some(x0), 0.0, [], x1, Ad2.Acc(M, x0, TMul(dv, Of(M[x1])), V));
    ApplyIs(dv, Of(M[x0]), 0.0, []);
  }

  // The two operands spread to the shape of d.
  lemma SpreadShows(M: Memory, p: Pass, d: Ref, x0: Id, x1: Id, V: Ad2.GradMap)
    requires Agrees(M, p, V) && InMem(p, d) && x0 < |M| && x1 < |M|
    ensures var os := ShapeAt(p.mem, d);
      var bb := Perform(p, Bcast, Some(x1), None, 0.0, os);
      var ba := Perform(bb.p, Bcast, Some(x0), None, 0.0, os);
      Agrees(M, ba.p, V) && Kept(p.mem, ba.p.mem) && InMem(ba.p, bb.r) && InMem(ba.p, ba.r) && InMem(ba.p, d) &&
      ValueAt(ba.p.mem, d) == ValueAt(p.mem, d) &&
      ValueAt(ba.p.mem, bb.r) == TBcast(Of(M[x1]), os) && ValueAt(ba.p.mem, ba.r) == TBcast(Of(M[x0]), os)
  {
    hide Perform, Apply, ValueAt, ShapeAt, Shows, TBcast;
    var os := ShapeAt(p.mem, d);
    OperandShown(M, p, x1);
    Performed(M, p, Bcast, Some(x1), None, 0.0, os, V);
    ApplyIs(Of(M[x1]), ValueAt(p.mem, None), 0.0, os);
    var bb := Perform(p, Bcast, Some(x1), None, 0.0, os);
    OperandShown(M, bb.p, x0);
    Performed(M, bb.p, Bcast, Some(x0), None, 0.0, os, V);
    ApplyIs(Of(M[x0]), ValueAt(bb.p.mem, None), 0.0, os);
    var ba := Perform(bb.p, Bcast, Some(x0), None, 0.0, os);
    KeptTwice(p.mem, bb.p.mem, ba.p.mem);
    KeptValue(p.mem, ba.p.mem, d);
    KeptValue(bb.p.mem, ba.p.mem, bb.r);
  }

  lemma MulSpreadShows(M: Memory, p: Pass, d: Ref, x0: Id, x1: Id, V: Ad2.GradMap)
    requires Agrees(M, p, V) && InMem(p, d) && x0 < |M| && x1 < |M|
    ensures var dv, os := ValueAt(p.mem, d), ShapeAt(p.mem, d);
      Agrees(M, RunMulSpread(p, d, Some(x0), Some(x1)),
        Ad2.Acc(M, x1, TAxisSum(TMul(dv, TBcast(Of(M[x0]), os)), M[x1].shape),
          Ad2.Acc(M, x0, TAxisSum(TMul(dv, TBcast(Of(M[x1]), os)), M[x0].shape), V)))
  {
    hide Perform, Apply, ValueAt, ShapeAt, Ad2.Acc, Sent, Kept, Shows, TAxisSum, TBcast, TScale, TMul, TDiv, TMatMul,
         TTranspose, TReshape;
    OperandShown(M, p, x0);
    OperandShown(M, p, x1);
    var dv, os := ValueAt(p.mem, d), ShapeAt(p.mem, d);
    SpreadShows(M, p, d, x0, x1, V);
    var bb := Perform(p, Bcast, Some(x1), None, 0.0, os);
    var ba := Perform(bb.p, Bcast, Some(x0), None, 0.0, os);
    Performed(M, ba.p, Mult, d, bb.r, 0.0, [], V);
    ApplyIs(dv, TBcast(Of(M[x1]), os), 0.0, []);
    var da := Perform(ba.p, Mult, d, bb.r, 0.0, []);
    KeptValue(ba.p.mem, da.p.mem, d);
    KeptValue(ba.p.mem, da.p.mem, ba.r);
    Performed(M, da.p, Mult, d, ba.r, 0.0, [], V);
    ApplyIs(dv, TBcast(Of(M[x0]), os), 0.0, []);
    var db := Perform(da.p, Mult, d, ba.r, 0.0, []);
    KeptValue(da.p.mem, db.p.mem, da.r);
    TwoReduced(M, db.p, da.r, db.r, x0, x1, V);
  }

  // Both results summed down onto their operands.
  lemma TwoReduced(M: Memory, p: Pass, a: Ref, b: Ref, x0: Id, x1: Id, V: Ad2.GradMap)
    requires Agrees(M, p, V) && InMem(p, a) && InMem(p, b) && x0 < |M| && x1 < |M|
    ensures var q := Sent(Perform(p, AxisSum, a, None, 0.0, M[x0].shape), Some(x0));
      Kept(p.mem, q.mem) && Agrees(M, q, Ad2.Acc(M, x0, TAxisSum(ValueAt(p.mem, a), M[x0].shape), V)) &&
      ValueAt(q.mem, b) == ValueAt(p.mem, b) && InMem(q, b) &&
      Agrees(M, Sent(Perform(q, AxisSum, b, None, 0.0, M[x1].shape), Some(x1)),
        Ad2.Acc(M, x1, TAxisSum(ValueAt(p.mem, b), M[x1].shape),
          Ad2.Acc(M, x0, TAxisSum(ValueAt(p.mem, a), M[x0].shape), V)))
  {
    hide Perform, Apply, ValueAt, ShapeAt, Ad2.Acc, Sent, Shows, TAxisSum;
    Delivered(M, p, AxisSum, a, None, 0.0, M[x0].shape, x0, V);
    ApplyIs(ValueAt(p.mem, a), ValueAt(p.mem, None), 0.0, M[x0].shape);
    var q := Sent(Perform(p, AxisSum, a, None, 0.0, M[x0].shape), Some(x0));
    KeptValue(p.mem, q.mem, b);
    Delivered(M, q, AxisSum, b, None, 0.0, M[x1].shape, x1,
      Ad2.Acc(M, x0, TAxisSum(ValueAt(p.mem, a), M[x0].shape), V));
    ApplyIs(ValueAt(q.mem, b), ValueAt(q.mem, None), 0.0, M[x1].shape);
  }

  lemma DivShows(M: Memory, p: Pass, d: Ref, x0: Id, x1: Id, V: Ad2.GradMap)
    requires Agrees(M, p, V) && InMem(p, d) && x0 < |M| && x1 < |M|
    ensures var dv, a, b := ValueAt(p.mem, d), Of(M[x0]), Of(M[x1]);
      Agrees(M, RunDiv(p, d, Some(x0), Some(x1)),
        Ad2.Acc(M, x1, TScale(TDiv(TMul(dv, a), TMul(b, b)), -1.0), Ad2.Acc(M, x0, TDiv(dv, b), V)))
  {
    hide Perform, Apply, ValueAt, ShapeAt, Ad2.Acc, Sent, Kept, Shows, TAxisSum, TBcast, TScale, TMul, TDiv, TMatMul,
         TTranspose, TReshape;
    var dv, a, b := ValueAt(p.mem, d), Of(M[x0]), Of(M[x1]);
    OperandShown(M, p, x1);
    Delivered(M, p, Div, d, Some(x1), 0.0, [], x0, V);
    ApplyIs(dv, b, 0.0, []);
    var q := Sent(Perform(p, Div, d, Some(x1), 0.0, []), Some(x0));
    var W := Ad2.Acc(M, x0, TDiv(dv, b), V);
    KeptValue(p.mem, q.mem, d);
    OperandShown(M, q, x0);
    Performed(M, q, Mult, d, Some(x0), 0.0, [], W);
    ApplyIs(dv, a, 0.0, []);
    var t1 := Perform(q, Mult, d, Some(x0), 0.0, []);
    OperandShown(M, t1.p, x1);
    Performed(M, t1.p, Mult, Some(x1), Some(x1), 0.0, [], W);
    ApplyIs(b, b, 0.0, []);
    var t2 := Perform(t1.p, Mult, Some(x1), Some(x1), 0.0, []);
    KeptValue(t1.p.mem, t2.p.mem, t1.r);
    Performed(M, t2.p, Div, t1.r, t2.r, 0.0, [], W);
    ApplyIs(TMul(dv, a), TMul(b, b), 0.0, []);
    var t3 := Perform(t2.p, Div, t1.r, t2.r, 0.0, []);
    Delivered(M, t3.p, Scale, t3.r, None, -1.0, [], x1, W);
    ApplyIs(ValueAt(t3.p.mem, t3.r), ValueAt(t3.p.mem, None), -1.0, []);
  }

  lemma DivSpreadShows(M: Memory, p: Pass, d: Ref, x0: Id, x1: Id, V: Ad2.GradMap)
    requires Agrees(M, p, V) && InMem(p, d) && x0 < |M| && x1 < |M|
    ensures var dv, os := ValueAt(p.mem, d), ShapeAt(p.mem, d);
      var bb, ba := TBcast(Of(M[x1]), os), TBcast(Of(M[x0]), os);
      Agrees(M, RunDivSpread(p, d, Some(x0), Some(x1)),
        Ad2.Acc(M, x1, TAxisSum(TScale(TDiv(TMul(dv, ba), TMul(bb, bb)), -1.0), M[x1].shape),
          Ad2.Acc(M, x0, TAxisSum(TDiv(dv, bb), M[x0].shape), V)))
  {
    hide Perform, Apply, ValueAt, ShapeAt, Ad2.Acc, Sent, Kept, Shows, TAxisSum, TBcast, TScale, TMul, TDiv, TMatMul,
         TTranspose, TReshape;
    OperandShown(M, p, x0);
    OperandShown(M, p, x1);
    var dv, os := ValueAt(p.mem, d), ShapeAt(p.mem, d);
    var vb, va := TBcast(Of(M[x1]), os), TBcast(Of(M[x0]), os);
    SpreadShows(M, p, d, x0, x1, V);
    var bb := Perform(p, Bcast, Some(x1), None, 0.0, os);
    var ba := Perform(bb.p, Bcast, Some(x0), None, 0.0, os);
    Performed(M, ba.p, Div, d, bb.r, 0.0, [], V);
    ApplyIs(dv, vb, 0.0, []);
    var da := Perform(ba.p, Div, d, bb.r, 0.0, []);
    KeptValue(ba.p.mem, da.p.mem, d);
    KeptValue(ba.p.mem, da.p.mem, ba.r);
    KeptValue(ba.p.mem, da.p.mem, bb.r);
    Performed(M, da.p, Mult, d, ba.r, 0.0, [], V);
    ApplyIs(dv, va, 0.0, []);
    var num := Perform(da.p, Mult, d, ba.r, 0.0, []);
    KeptValue(da.p.mem, num.p.mem, bb.r);
    Performed(M, num.p, Mult, bb.r, bb.r, 0.0, [], V);
    ApplyIs(vb, vb, 0.0, []);
    var bb2 := Perform(num.p, Mult, bb.r, bb.r, 0.0, []);
    KeptValue(num.p.mem, bb2.p.mem, num.r);
    Performed(M, bb2.p, Div, num.r, bb2.r, 0.0, [], V);
    ApplyIs(TMul(dv, va), TMul(vb, vb), 0.0, []);
    var db := Perform(bb2.p, Div, num.r, bb2.r, 0.0, []);
    KeptTwice(da.p.mem, num.p.mem, bb2.p.mem);
    KeptTwice(da.p.mem, bb2.p.mem, db.p.mem);
    KeptValue(da.p.mem, db.p.mem, da.r);
    TwoReducedNegated(M, db.p, da.r, db.r, x0, x1, V);
  }

  lemma TwoReducedNegated(M: Memory, p: Pass, a: Ref, b: Ref, x0: Id, x1: Id, V: Ad2.GradMap)
    requires Agrees(M, p, V) && InMem(p, a) && InMem(p, b) && x0 < |M| && x1 < |M|
    ensures var q := Sent(Perform(p, AxisSum, a, None, 0.0, M[x0].shape), Some(x0));
      var neg := Perform(q, Scale, b, None, -1.0, []);
      Agrees(M, Sent(Perform(neg.p, AxisSum, neg.r, None, 0.0, M[x1].shape), Some(x1)),
        Ad2.Acc(M, x1, TAxisSum(TScale(ValueAt(p.mem, b), -1.0), M[x1].shape),
          Ad2.Acc(M, x0, TAxisSum(ValueAt(p.mem, a), M[x0].shape), V)))
  {
    hide Perform, Apply, ValueAt, ShapeAt, Ad2.Acc, Sent, Kept, Shows, TAxisSum, TBcast, TScale, TMul, TDiv, TMatMul,
         TTranspose, TReshape;
    TwoReduced(M, p, a, b, x0, x1, V);
    var q := Sent(Perform(p, AxisSum, a, None, 0.0, M[x0].shape), Some(x0));
    var W := Ad2.Acc(M, x0, TAxisSum(ValueAt(p.mem, a), M[x0].shape), V);
    Performed(M, q, Scale, b, None, -1.0, [], W);
    ApplyIs(ValueAt(q.mem, b), ValueAt(q.mem, None), -1.0, []);
    var neg := Perform(q, Scale, b, None, -1.0, []);
    Delivered(M, neg.p, AxisSum, neg.r, None, 0.0, M[x1].shape, x1, W);
    ApplyIs(ValueAt(neg.p.mem, neg.r), ValueAt(neg.p.mem, None), 0.0, M[x1].shape);
  }

  lemma MatMulShows(M: Memory, p: Pass, d: Ref, x0: Id, x1: Ref, V: Ad2.GradMap)
    requires Agrees(M, p, V) && InMem(p, d) && x0 < |M| && (x1.Some? ==> x1.value < |M|)
    ensures var dv, a, b := ValueAt(p.mem, d), Of(M[x0]), ValueAt(M, x1);
      var W := Ad2.Acc(M, x0, TMatMul(dv, TTranspose(b)), V);
      Agrees(M, RunMatMul(p, d, Some(x0), x1),
        if x1.None? then W else Ad2.Acc(M, x1.value, TMatMul(TTranspose(a), dv), W))
  {
    hide Perform, Apply, ValueAt, ShapeAt, Ad2.Acc, Sent, Kept, Shows, TAxisSum, TBcast, TScale, TMul, TDiv, TMatMul,
         TTranspose, TReshape;
    var dv, a, b := ValueAt(p.mem, d), Of(M[x0]), ValueAt(M, x1);
    KeptValue(M, p.mem, x1);
    Performed(M, p, Transpose, x1, None, 0.0, [], V);
    ApplyIs(b, ValueAt(p.mem, None), 0.0, []);
    var tb := Perform(p, Transpose, x1, None, 0.0, []);
    OperandShown(M, tb.p, x0);
    Performed(M, tb.p, Transpose, Some(x0), None, 0.0, [], V);
    ApplyIs(a, ValueAt(tb.p.mem, None), 0.0, []);
    var ta := Perform(tb.p, Transpose, Some(x0), None, 0.0, []);
    KeptTwice(p.mem, tb.p.mem, ta.p.mem);
    KeptValue(p.mem, ta.p.mem, d);
    KeptValue(tb.p.mem, ta.p.mem, tb.r);
    Performed(M, ta.p, MatMul, d, tb.r, 0.0, [], V);
    ApplyIs(dv, TTranspose(b), 0.0, []);
    var da := Perform(ta.p, MatMul, d, tb.r, 0.0, []);
    KeptValue(ta.p.mem, da.p.mem, d);
    KeptValue(ta.p.mem, da.p.mem, ta.r);
    Performed(M, da.p, MatMul, ta.r, d, 0.0, [], V);
    ApplyIs(TTranspose(a), dv, 0.0, []);
    var db := Perform(da.p, MatMul, ta.r, d, 0.0, []);
    KeptValue(da.p.mem, db.p.mem, da.r);
    AddToShows(M, db.p, x0, da.r, V);
    var q := AddTo(db.p, Some(x0), da.r);
    KeptValue(db.p.mem, q.mem, db.r);
    if x1.Some? {
      AddToShows(M, q, x1.value, db.r, Ad2.Acc(M, x0, TMatMul(dv, TTranspose(b)), V));
    } else {
      AddToNone(q, db.r);
    }
  }

  lemma AddToNone(p: Pass, c: Ref)
    ensures AddTo(p, None, c) == p
  {
  }

  lemma MeanShows(M: Memory, p: Pass, d: Ref, x0: Id, size: nat, V: Ad2.GradMap)
    requires Agrees(M, p, V) && InMem(p, d) && x0 < |M|
    ensures Agrees(M, RunMean(p, d, Some(x0), size),
      Ad2.Acc(M, x0, TScale(TBcast(ValueAt(p.mem, d), M[x0].shape), Inv(size)), V))
  {
    hide Perform, Apply, ValueAt, ShapeAt, Ad2.Acc, Sent, Kept, Shows, TAxisSum, TBcast, TScale, TMul, TDiv, TMatMul,
         TTranspose, TReshape;
    OperandShown(M, p, x0);
    Performed(M, p, Bcast, d, None, 0.0, M[x0].shape, V);
    ApplyIs(ValueAt(p.mem, d), ValueAt(p.mem, None), 0.0, M[x0].shape);
    var b := Perform(p, Bcast, d, None, 0.0, M[x0].shape);
    Delivered(M, b.p, Scale, b.r, None, Inv(size), [], x0, V);
    ApplyIs(ValueAt(b.p.mem, b.r), ValueAt(b.p.mem, None), Inv(size), []);
  }

  lemma CreatedShows(M: Memory, p: Pass, shape: Shape, data: seq<real>, V: Ad2.GradMap)
    requires Agrees(M, p, V)
    ensures var m := Create(p, shape, data);
      Agrees(M, m.p, V) && Kept(p.mem, m.p.mem) && InMem(m.p, m.r) && ValueAt(m.p.mem, m.r) == Value(shape, data)
  {
  }

  lemma ReluShows(M: Memory, p: Pass, d: Ref, x0: Id, data: seq<real>, V: Ad2.GradMap)
    requires Agrees(M, p, V) && InMem(p, d) && x0 < |M|
    ensures Agrees(M, RunRelu(p, d, Some(x0), data),
      Ad2.Acc(M, x0, TMul(ValueAt(p.mem, d), Value(M[x0].shape, ReluMask(data))), V))
  {
    hide Create, ReluMask;
    hide Perform, Apply, ValueAt, ShapeAt, Ad2.Acc, Sent, Kept, Shows, TAxisSum, TBcast, TScale, TMul, TDiv, TMatMul,
         TTranspose, TReshape;
    OperandShown(M, p, x0);
    CreatedShows(M, p, M[x0].shape, ReluMask(data), V);
    var m := Create(p, M[x0].shape, ReluMask(data));
    KeptValue(p.mem, m.p.mem, d);
    Delivered(M, m.p, Mult, d, m.r, 0.0, [], x0, V);
    ApplyIs(ValueAt(p.mem, d), Value(M[x0].shape, ReluMask(data)), 0.0, []);
  }

  // ── One node, and a frame ──

  // What the walk over values does with a node's contributions.
  ghost function Taken(M: Memory, n: Node, r: Rule, V: Ad2.GradMap): Ad2.Walked
    requires Ad2.InMemory(M, n)
  {
    match r
    case Refused(m) => Ad2.Failed(m)
    case One(c0) => Ad2.Done(Ad2.Acc(M, n.in0, c0, V))
    case Two(c0, c1) =>
      if n.in1.None? then Ad2.Done(V) else Ad2.Done(Ad2.Acc(M, n.in1.value, c1, Ad2.Acc(M, n.in0, c0, V)))
  }

  ghost predicate Follows(M: Memory, p: Pass, r: Ran, w: Ad2.Walked) {
    if w.Failed? then r == Halted(p, w.message) else r.Ran? && Agrees(M, r.p, w.H)
  }

  lemma OperandOf(M: Memory, p: Pass, n: Node, slot: nat)
    requires Kept(M, p.mem) && Ad2.InMemory(M, n) && slot < 2
    ensures var t, u := OperandAt(p.mem, n, slot), OperandAt(M, n, slot);
      t.shape == u.shape && t.data == u.data && HasZero(t) == HasZero(u)
    ensures OperandAt(M, n, 0) == M[n.in0]
    ensures Binary(n.op) && n.in1.Some? ==> OperandAt(M, n, 1) == M[n.in1.value]
  {
  }

  lemma BinaryFollows(M: Memory, p: Pass, n: Node, d: Ref, V: Ad2.GradMap)
    requires Agrees(M, p, V) && Ad2.InMemory(M, n) && InMem(p, d) && ValueAt(p.mem, d).Value?
    requires Binary(n.op) && n.op != MatMul
    ensures Follows(M, p, RunRule(p, n, d),
      Taken(M, n, RuleOf(n, OperandAt(M, n, 0), OperandAt(M, n, 1), ValueAt(p.mem, d)), V))
  {
    hide Agrees, HasZero, RunAdd, RunSub, RunMul, RunMulSpread, RunDiv, RunDivSpread;
    hide Perform, Apply, ValueAt, ShapeAt, Ad2.Acc, Sent, Kept, Shows, TAxisSum, TBcast, TScale, TMul, TDiv, TMatMul,
         TTranspose, TReshape;
    KeptOf(M, p, V);
    OperandOf(M, p, n, 0);
    OperandOf(M, p, n, 1);
    ShapeOfValue(p, d);
    if n.in1.Some? {
      var x0, x1 := n.in0, n.in1.value;
      match n.op
      case Add => AddShows(M, p, d, x0, x1, V);
      case Sub => SubShows(M, p, d, x0, x1, V);
      case Mult => if |M[x0].data| == |M[x1].data| { MulShows(M, p, d, x0, x1, V);
        } else { MulSpreadShows(M, p, d, x0, x1, V); }
      case Div => if |M[x0].data| == |M[x1].data| { DivShows(M, p, d, x0, x1, V);
        } else { DivSpreadShows(M, p, d, x0, x1, V); }
    }
  }

  lemma KeptOf(M: Memory, p: Pass, V: Ad2.GradMap)
    requires Agrees(M, p, V)
    ensures Kept(M, p.mem)
  {
  }

  lemma ShapeOfValue(p: Pass, d: Ref)
    requires ValueAt(p.mem, d).Value?
    ensures d.Some? && ShapeAt(p.mem, d) == ValueAt(p.mem, d).shape
  {
  }

  lemma SpreadFollows(M: Memory, p: Pass, n: Node, d: Ref, V: Ad2.GradMap)
    requires Agrees(M, p, V) && Ad2.InMemory(M, n) && InMem(p, d) && ValueAt(p.mem, d).Value?
    requires n.op == SumAll || n.op == Bcast || n.op == AxisSum || n.op == Reshape
    ensures Follows(M, p, RunRule(p, n, d),
      Taken(M, n, RuleOf(n, OperandAt(M, n, 0), OperandAt(M, n, 1), ValueAt(p.mem, d)), V))
  {
    hide Agrees, HasZero, RunMean, RunRelu, ReluMask;
    hide Perform, Apply, ValueAt, ShapeAt, Ad2.Acc, Sent, Kept, Shows, TAxisSum, TBcast, TScale, TMul, TDiv, TMatMul,
         TTranspose, TReshape;
    KeptOf(M, p, V);
    OperandOf(M, p, n, 0);
    var x0, dv, none, like := n.in0, ValueAt(p.mem, d), ValueAt(p.mem, None), M[n.in0].shape;
    ApplyIs(dv, none, 0.0, like);
    match n.op
    case Reshape => Delivered(M, p, Reshape, d, None, 0.0, like, x0, V);
    case Bcast => Delivered(M, p, AxisSum, d, None, 0.0, like, x0, V);
    case _ => Delivered(M, p, Bcast, d, None, 0.0, like, x0, V);
  }

  lemma PlainFollows(M: Memory, p: Pass, n: Node, d: Ref, V: Ad2.GradMap)
    requires Agrees(M, p, V) && Ad2.InMemory(M, n) && InMem(p, d) && ValueAt(p.mem, d).Value?
    requires n.op == Scale || n.op == Transpose
    ensures Follows(M, p, RunRule(p, n, d),
      Taken(M, n, RuleOf(n, OperandAt(M, n, 0), OperandAt(M, n, 1), ValueAt(p.mem, d)), V))
  {
    hide Agrees, HasZero;
    hide Perform, Apply, ValueAt, ShapeAt, Ad2.Acc, Sent, Kept, Shows, TAxisSum, TBcast, TScale, TMul, TDiv, TMatMul,
         TTranspose, TReshape;
    KeptOf(M, p, V);
    var c := if n.op == Scale then n.scalar else 0.0;
    ApplyIs(ValueAt(p.mem, d), ValueAt(p.mem, None), c, []);
    Delivered(M, p, n.op, d, None, c, [], n.in0, V);
  }

  lemma FactorFollows(M: Memory, p: Pass, n: Node, d: Ref, V: Ad2.GradMap)
    requires Agrees(M, p, V) && Ad2.InMemory(M, n) && InMem(p, d) && ValueAt(p.mem, d).Value?
    requires n.op == MeanAll || n.op == Relu
    ensures Follows(M, p, RunRule(p, n, d),
      Taken(M, n, RuleOf(n, OperandAt(M, n, 0), OperandAt(M, n, 1), ValueAt(p.mem, d)), V))
  {
    hide Agrees, HasZero, RunMean, RunRelu, ReluMask, Inv;
    hide Perform, Apply, ValueAt, ShapeAt, Ad2.Acc, Sent, Kept, Shows, TAxisSum, TBcast, TScale, TMul, TDiv, TMatMul,
         TTranspose, TReshape;
    KeptOf(M, p, V);
    OperandOf(M, p, n, 0);
    var x0 := n.in0;
    if n.op == MeanAll { MeanShows(M, p, d, x0, |M[x0].data|, V); } else { ReluShows(M, p, d, x0, M[x0].data, V); }
  }

  lemma UnaryFollows(M: Memory, p: Pass, n: Node, d: Ref, V: Ad2.GradMap)
    requires Agrees(M, p, V) && Ad2.InMemory(M, n) && InMem(p, d) && ValueAt(p.mem, d).Value?
    requires !Binary(n.op)
    ensures Follows(M, p, RunRule(p, n, d),
      Taken(M, n, RuleOf(n, OperandAt(M, n, 0), OperandAt(M, n, 1), ValueAt(p.mem, d)), V))
  {
    if n.op == SumAll || n.op == Bcast || n.op == AxisSum || n.op == Reshape {
      hide Follows, RunRule, Taken, RuleOf, Agrees, ValueAt;
      SpreadFollows(M, p, n, d, V);
    } else if n.op == MeanAll || n.op == Relu {
      hide Follows, RunRule, Taken, RuleOf, Agrees, ValueAt;
      FactorFollows(M, p, n, d, V);
    } else if n.op == Scale || n.op == Transpose {
      hide Follows, RunRule, Taken, RuleOf, Agrees, ValueAt;
      PlainFollows(M, p, n, d, V);
    }
  }

  lemma MatMulFollows(M: Memory, p: Pass, n: Node, d: Ref, V: Ad2.GradMap)
    requires Agrees(M, p, V) && Ad2.InMemory(M, n) && InMem(p, d) && n.op == MatMul
    ensures Follows(M, p, RunRule(p, n, d),
      Taken(M, n, RuleOf(n, OperandAt(M, n, 0), OperandAt(M, n, 1), ValueAt(p.mem, d)), V))
  {
    hide Agrees, HasZero, RunMatMul;
    hide Perform, Apply, ShapeAt, Ad2.Acc, Sent, Kept, Shows, TMatMul, TTranspose;
    KeptOf(M, p, V);
    OperandOf(M, p, n, 0);
    OperandOf(M, p, n, 1);
    var dv := ValueAt(p.mem, d);
    MatMulShows(M, p, d, n.in0, n.in1, V);
    if n.in1.None? {
      TransposeBad();
      MatMulBad(dv);
      AccBad(M, n.in0, V);
    }
  }

  lemma TransposeBad()
    ensures TTranspose(Bad) == Bad
  {
  }

  lemma MatMulBad(a: Value)
    ensures TMatMul(a, Bad) == Bad
  {
  }

  lemma NodeFollows(M: Memory, p: Pass, n: Node, V: Ad2.GradMap)
    requires Agrees(M, p, V) && Ad2.InMemory(M, n)
    ensures Follows(M, p, RunNode(p, n), Ad2.WalkNode(M, n, V))
  {
    hide RuleOf, RunRule, Kept, Ad2.Acc;
    ShownAt(p, V, n.out);
    if n.out in p.grads {
      var d := Some(p.grads[n.out]);
      if !Binary(n.op) { UnaryFollows(M, p, n, d, V); }
      else if n.op == MatMul { MatMulFollows(M, p, n, d, V); }
      else { BinaryFollows(M, p, n, d, V); }
    }
  }

  // The pass computes what the walk over values computes, node for node, and stops where it stops.
  lemma {:induction false} NodesFollow(M: Memory, p: Pass, nodes: seq<Node>, V: Ad2.GradMap)
    requires Agrees(M, p, V) && forall i :: 0 <= i < |nodes| ==> Ad2.InMemory(M, nodes[i])
    ensures var r, w := RunNodes(p, nodes), Ad2.WalkNodes(M, nodes, V);
      if w.Failed? then r.Halted? && r.message == w.message else r.Ran? && Agrees(M, r.p, w.H)
    decreases |nodes|
  {
    hide Agrees, RunNode, Ad2.WalkNode, Ad2.InMemory;
    if nodes != [] {
      var n := nodes[0];
      NodeFollows(M, p, n, V);
      var w := Ad2.WalkNode(M, n, V);
      if w.Done? { NodesFollow(M, RunNode(p, n).p, nodes[1..], w.H); }
    }
  }

  lemma {:induction false} FramesFollow(M: Memory, p: Pass, frames: seq<Ad2.Frame>, V: Ad2.GradMap)
    requires Agrees(M, p, V) && Ad2.FramesInMemory(M, frames)
    ensures var r, w := RunFrames(p, frames), Ad2.WalkFrames(M, frames, V);
      if w.Failed? then r.Halted? && r.message == w.message else r.Ran? && Agrees(M, r.p, w.H)
    decreases |frames|
  {
    hide Agrees, RunNodes, Ad2.WalkNodes, Ad2.InMemory;
    if frames != [] {
      NodesFollow(M, p, frames[0].nodes, V);
      var w := Ad2.WalkNodes(M, frames[0].nodes, V);
      if w.Done? { FramesFollow(M, RunNodes(p, frames[0].nodes).p, frames[1..], w.H); }
    }
  }

  lemma SeededAgrees(mem: Memory, steps: seq<Step>, root: Id)
    requires root < |mem|
    ensures Agrees(Ad2.Ungated(mem), Seeded(mem, steps, root), Ad2.SeedMap(mem, root))
  {
  }
}
