// A quotient whose second derivative is lost: the sum of a / b for a of shape [2]
// and a tracked b of shape [1].
module Ad2Lost {
  import opened Options
  import opened Arith
  import opened Shapes
  import opened Sums
  import opened Tape
  import opened Rules
  import opened NodeRule
  import opened Adjoint
  import opened Sweep
  import opened DualRun
  import opened Ad2Rule
  import opened Ad2
  import opened Ad2Tape
  import opened Ad2Pass
  import opened Ad2Sound
  import opened Ad2Second
  import opened Ad2Cover
  import opened Ad2Twice

  // ── What a rule appends to the log ──

  function Entry(op: Op, a: Id, b: Ref, c: real, out: Id, rec: bool): Step {
    Step(NewNode(op, Some(a), b, c, out), rec)
  }

  lemma AddToLog(p: Pass, k: nat, x: Id, c: Ref)
    requires Ready(p, k) && x < |p.mem| && x !in p.grads && Good(p, c) && ShapeAt(p.mem, c) == p.mem[x].shape
    ensures var q, m := AddTo(p, Some(x), c), |p.mem|;
      q.steps == p.steps + [Entry(Add, m, c, 0.0, m + 1, true)] && |q.mem| == m + 2 && q.grads == p.grads[x := m + 1] &&
      Of(q.mem[m]) == Value(p.mem[x].shape, Zeros(Size(p.mem[x].shape))) && q.mem[m + 1].shape == p.mem[x].shape
        && q.mem[m + 1].tracked
    ensures var q := AddTo(p, Some(x), c); Ready(q, k) && Onward(p, q) && Good(q, Some(|p.mem| + 1))
  {
    hide Sure, AddTo, Perform, Usable, Onward, Zeros, Size, Ready, Entered, ValueAt;
    AddToReady(p, k, x, c);
    EnteredReady(p, k, x);
    AddToEntered(p, x, c.value);
    FreshEntry(p, x);
    var t, m := Entered(p, x), |p.mem|;
    Carried(p, t, c);
    KeptShape(p, t, x);
    EntryAdded(t, k, x, c);
    MapTwice(p.grads, x, m, m + 1);
    var o := Perform(t, Add, Some(m), c, 0.0, []);
    UsableGrads(o.p, AddTo(p, Some(x), c), m + 1);
  }

  ghost predicate Added(t: Pass, x: Id, c: Ref, o: Out)
    requires |t.mem| > 0 && x < |t.mem|
  {
    var m := |t.mem| - 1;
    && o.r == Some(m + 1) && o.p.steps == t.steps + [Entry(Add, m, c, 0.0, m + 1, true)] && |o.p.mem| == m + 2
    && o.p.mem[m] == t.mem[m]
    && o.p.mem[m + 1].shape == t.mem[x].shape && o.p.mem[m + 1].tracked && Good(o.p, Some(m + 1))
    && o.p.grads == t.grads
  }

  // The addition to an entry that is there.
  lemma EntryAdded(t: Pass, k: nat, x: Id, c: Ref)
    requires Ready(t, k) && x in t.grads && t.grads[x] == |t.mem| - 1 && t.mem[|t.mem| - 1].tracked && x < |t.mem|
    requires Good(t, c) && ShapeAt(t.mem, c) == t.mem[x].shape
    ensures Added(t, x, c, Perform(t, Add, Some(|t.mem| - 1), c, 0.0, []))
  {
    hide Sure, Perform, Usable, Onward, Ready, ValueAt;
    var m := |t.mem| - 1;
    ReadyParts(t, k);
    EntryGood(t, k, x);
    SameSure(t, k, Add, Some(m), c);
    FirstRecords(t.mem, Add, Some(m), c);
    var o := Perform(t, Add, Some(m), c, 0.0, []);
    GoodIn(o.p, o.r);
    Logged(t, Add, Some(m), c, 0.0, []);
  }

  lemma MapTwice(g: map<Id, Id>, x: Id, y: Id, z: Id)
    ensures g[x := y][x := z] == g[x := z]
  {
  }

  lemma UsableGrads(p: Pass, q: Pass, y: Id)
    requires Good(p, Some(y)) && q.mem == p.mem && q.steps == p.steps
    ensures Good(q, Some(y))
  {
  }

  lemma EntryGood(t: Pass, k: nat, x: Id)
    requires Ready(t, k) && x in t.grads
    ensures x < |t.mem| && Good(t, Some(t.grads[x])) && ShapeAt(t.mem, Some(t.grads[x])) == t.mem[x].shape
  {
    hide Sure, Usable;
    GradShape(t, x);
  }

  lemma FreshEntry(p: Pass, x: Id)
    requires x < |p.mem| && x !in p.grads
    ensures var t, m := Entered(p, x), |p.mem|;
      |t.mem| == m + 1 && t.grads == p.grads[x := m] && t.steps == p.steps && t.mem[m].tracked &&
      Of(t.mem[m]) == Value(p.mem[x].shape, Zeros(Size(p.mem[x].shape)))
  {
    hide Zeros, Size;
  }

  // An operation that went through.
  lemma Logged(p: Pass, op: Op, a: Ref, b: Ref, c: real, like: Shape)
    requires Perform(p, op, a, b, c, like).r.Some?
    ensures var o, m := Perform(p, op, a, b, c, like), |p.mem|;
      a.Some? && o.r == Some(m) && |o.p.mem| == m + 1
        && o.p.steps == p.steps + [Entry(op, a.value, b, c, m, Records(p.mem, op, a, b))] &&
      o.p.mem[m].tracked == (Records(p.mem, op, a, b) && !Own(op)) && o.p.grads == p.grads &&
      (forall x :: 0 <= x < m ==> o.p.mem[x] == p.mem[x])
  {
    hide Perform, Records;
    PerformShape(p, op, a, b, c, like);
    PerformValue(p, op, a, b, c, like);
  }

  lemma SumLog(p: Pass, k: nat, d: Id, x: Id)
    requires Ready(p, k) && Good(p, Some(d)) && x < |p.mem| && x !in p.grads
    requires Compatible(ShapeAt(p.mem, Some(d)), p.mem[x].shape)
    ensures var q, m := Sent(Perform(p, Bcast, Some(d), None, 0.0, p.mem[x].shape), Some(x)), |p.mem|;
      q.steps == p.steps + [Entry(Bcast, d, None, 0.0, m, true), Entry(Add, m + 1, Some(m), 0.0, m + 2, true)] &&
      |q.mem| == m + 3 && q.grads == p.grads[x := m + 2] && q.mem[m + 2].tracked &&
      Of(q.mem[m + 1]) == Value(p.mem[x].shape, Zeros(Size(p.mem[x].shape))) &&
      q.mem[m].shape == q.mem[m + 2].shape == p.mem[x].shape
    ensures var q := Sent(Perform(p, Bcast, Some(d), None, 0.0, p.mem[x].shape), Some(x));
      Ready(q, k) && Onward(p, q) && Good(q, Some(|p.mem| + 2))
  {
    hide Ready, Perform, AddTo, Usable, Onward, Compatible, Zeros, Size;
    var s := p.mem[x].shape;
    BcastReady(p, k, Some(d), s);
    Logged(p, Bcast, Some(d), None, 0.0, s);
    var o := Perform(p, Bcast, Some(d), None, 0.0, s);
    KeptShape(p, o.p, x);
    AddToLog(o.p, k, x, o.r);
    var q := AddTo(o.p, Some(x), o.r);
    OnwardTwice(p, o.p, q);
    KeptShape(o.p, q, |p.mem|);
  }

  // The quotient's rule up to the second quotient, when the gradient is tracked.
  ghost function QuotientSteps(m: nat, d: Id, x0: Id, x1: Id): seq<Step> {
    [Entry(Bcast, x1, None, 0.0, m, true), Entry(Bcast, x0, None, 0.0, m + 1, true),
     Entry(Div, d, Some(m), 0.0, m + 2, true), Entry(Mult, d, Some(m + 1), 0.0, m + 3, true),
     Entry(Mult, m, Some(m), 0.0, m + 4, false), Entry(Div, m + 3, Some(m + 4), 0.0, m + 5, true)]
  }

  // After the first n of them.
  ghost predicate Stage(p: Pass, k: nat, d: Id, x0: Id, x1: Id, n: nat, q: Pass)
    requires n <= 6
  {
    var m := |p.mem|;
    && Ready(q, k) && Onward(p, q) && q.grads == p.grads && |q.mem| == m + n
    && q.steps == p.steps + QuotientSteps(m, d, x0, x1)[..n]
    && (forall x: Id :: m <= x < m + n ==> Good(q, Some(x)) && ShapeAt(q.mem, Some(x)) == ShapeAt(p.mem, Some(d)))
    && (n >= 1 ==> !ZeroAt(q, Some(m)) && !TrackedAt(q.mem, Some(m)))
    && (n >= 4 ==> TrackedAt(q.mem, Some(m + 3)))
    && (n >= 5 ==> !ZeroAt(q, Some(m + 4)))
    && (n >= 6 ==> TrackedAt(q.mem, Some(m + 5)))
  }

  ghost predicate Given(p: Pass, k: nat, d: Id, x0: Id, x1: Id) {
    && Ready(p, k) && Good(p, Some(d)) && Good(p, Some(x0)) && Good(p, Some(x1))
    && Compatible(ShapeAt(p.mem, Some(x0)), ShapeAt(p.mem, Some(d)))
    && Compatible(ShapeAt(p.mem, Some(x1)), ShapeAt(p.mem, Some(d)))
    && !ZeroAt(p, Some(x1)) && TrackedAt(p.mem, Some(d))
  }

  lemma StepsTaken(m: nat, d: Id, x0: Id, x1: Id, n: nat)
    requires n < 6
    ensures var all := QuotientSteps(m, d, x0, x1); all[..n + 1] == all[..n] + [all[n]]
  {
  }

  // One more operation that went through and kept the shape.
  lemma StageStep(p: Pass, k: nat, d: Id, x0: Id, x1: Id, n: nat, q: Pass, op: Op, a: Id, b: Ref, like: Shape)
    requires n < 6 && Stage(p, k, d, x0, x1, n, q)
    requires var o := Perform(q, op, Some(a), b, 0.0, like);
      Ready(o.p, k) && Onward(q, o.p) && Good(o.p, o.r) && ShapeAt(o.p.mem, o.r) == ShapeAt(p.mem, Some(d))
    requires QuotientSteps(|p.mem|, d, x0, x1)[n] == Entry(op, a, b, 0.0, |p.mem| + n, Records(q.mem, op, Some(a), b))
    requires n == 0 || n == 4 ==> !ZeroAt(Perform(q, op, Some(a), b, 0.0, like).p, Some(|p.mem| + n))
    requires n == 0 ==> Own(op)
    requires n == 3 || n == 5 ==> Records(q.mem, op, Some(a), b) && !Own(op)
    ensures var o := Perform(q, op, Some(a), b, 0.0, like);
      o.r == Some(|p.mem| + n) && Stage(p, k, d, x0, x1, n + 1, o.p)
  {
    hide Ready, Good, Onward, Perform, ZeroAt, ShapeAt, Records, Entry, QuotientSteps;
    var m, o := |p.mem|, Perform(q, op, Some(a), b, 0.0, like);
    GoodIn(o.p, o.r);
    Logged(q, op, Some(a), b, 0.0, like);
    OnwardTwice(p, q, o.p);
    StepsTaken(m, d, x0, x1, n);
    forall x: Id | m <= x < m + n
      ensures Good(o.p, Some(x)) && ShapeAt(o.p.mem, Some(x)) == ShapeAt(p.mem, Some(d))
      ensures ZeroAt(o.p, Some(x)) == ZeroAt(q, Some(x))
    {
      Carried(q, o.p, Some(x));
    }
  }

  lemma SpreadStages(p: Pass, k: nat, d: Id, x0: Id, x1: Id)
    requires Given(p, k, d, x0, x1)
    ensures var os := ShapeAt(p.mem, Some(d));
      var bb := Perform(p, Bcast, Some(x1), None, 0.0, os);
      var ba := Perform(bb.p, Bcast, Some(x0), None, 0.0, os);
      bb.r == Some(|p.mem|) && ba.r == Some(|p.mem| + 1) && Stage(p, k, d, x0, x1, 2, ba.p)
  {
    hide Ready, Good, Onward, Perform, ZeroAt, ShapeAt, Compatible;
    var os, m := ShapeAt(p.mem, Some(d)), |p.mem|;
    OnwardSelf(p);
    assert Stage(p, k, d, x0, x1, 0, p);
    BcastReady(p, k, Some(x1), os);
    var bb := Perform(p, Bcast, Some(x1), None, 0.0, os);
    GoodIn(bb.p, bb.r);
    Logged(p, Bcast, Some(x1), None, 0.0, os);
    StageStep(p, k, d, x0, x1, 0, p, Bcast, x1, None, os);
    Carried(p, bb.p, Some(x0));
    BcastReady(bb.p, k, Some(x0), os);
    StageStep(p, k, d, x0, x1, 1, bb.p, Bcast, x0, None, os);
  }

  lemma GivenLater(p: Pass, k: nat, d: Id, x0: Id, x1: Id, n: nat, q: Pass)
    requires Given(p, k, d, x0, x1) && n <= 6 && Stage(p, k, d, x0, x1, n, q)
    ensures Good(q, Some(d)) && ShapeAt(q.mem, Some(d)) == ShapeAt(p.mem, Some(d)) && TrackedAt(q.mem, Some(d))
  {
    hide Ready, Usable, ZeroAt, Compatible;
    Carried(p, q, Some(d));
    StillTracked(p, q, d);
  }

  lemma ProductStages(p: Pass, k: nat, d: Id, x0: Id, x1: Id, q: Pass)
    requires Given(p, k, d, x0, x1) && Stage(p, k, d, x0, x1, 2, q)
    ensures var m := |p.mem|;
      var da := Perform(q, Div, Some(d), Some(m), 0.0, []);
      var num := Perform(da.p, Mult, Some(d), Some(m + 1), 0.0, []);
      da.r == Some(m + 2) && num.r == Some(m + 3) && Stage(p, k, d, x0, x1, 4, num.p)
  {
    hide Ready, Good, Onward, Perform, ZeroAt, ShapeAt, Compatible, TrackedAt, Given;
    var m := |p.mem|;
    GivenLater(p, k, d, x0, x1, 2, q);
    SameReady(q, k, Div, Some(d), Some(m));
    FirstRecords(q.mem, Div, Some(d), Some(m));
    StageStep(p, k, d, x0, x1, 2, q, Div, d, Some(m), []);
    var da := Perform(q, Div, Some(d), Some(m), 0.0, []);
    GivenLater(p, k, d, x0, x1, 3, da.p);
    SameReady(da.p, k, Mult, Some(d), Some(m + 1));
    FirstRecords(da.p.mem, Mult, Some(d), Some(m + 1));
    StageStep(p, k, d, x0, x1, 3, da.p, Mult, d, Some(m + 1), []);
  }

  lemma FirstRecords(mem: Memory, op: Op, a: Ref, b: Ref)
    requires TrackedAt(mem, a)
    ensures Records(mem, op, a, b)
  {
  }

  // The square of the spread divisor goes unrecorded.
  lemma SquareStages(p: Pass, k: nat, d: Id, x0: Id, x1: Id, q: Pass)
    requires Stage(p, k, d, x0, x1, 4, q)
    ensures var m := |p.mem|;
      var bb2 := Perform(q, Mult, Some(m), Some(m), 0.0, []);
      var db := Perform(bb2.p, Div, Some(m + 3), Some(m + 4), 0.0, []);
      bb2.r == Some(m + 4) && db.r == Some(m + 5) && Stage(p, k, d, x0, x1, 6, db.p)
  {
    hide Ready, Good, Onward, Perform, ZeroAt, ShapeAt, TrackedAt;
    var m := |p.mem|;
    SameReady(q, k, Mult, Some(m), Some(m));
    NeitherRecords(q.mem, Some(m));
    var bb2 := Perform(q, Mult, Some(m), Some(m), 0.0, []);
    GoodIn(bb2.p, bb2.r);
    Logged(q, Mult, Some(m), Some(m), 0.0, []);
    StageStep(p, k, d, x0, x1, 4, q, Mult, m, Some(m), []);
    SameReady(bb2.p, k, Div, Some(m + 3), Some(m + 4));
    FirstRecords(bb2.p.mem, Div, Some(m + 3), Some(m + 4));
    StageStep(p, k, d, x0, x1, 5, bb2.p, Div, m + 3, Some(m + 4), []);
  }

  lemma NeitherRecords(mem: Memory, a: Ref)
    requires !TrackedAt(mem, a)
    ensures !Records(mem, Mult, a, a)
  {
  }

  lemma AxisSumLog(p: Pass, k: nat, a: Id, x: Id)
    requires Ready(p, k) && Good(p, Some(a)) && x < |p.mem| && x !in p.grads
    requires Compatible(p.mem[x].shape, ShapeAt(p.mem, Some(a)))
    ensures var q, m := Sent(Perform(p, AxisSum, Some(a), None, 0.0, p.mem[x].shape), Some(x)), |p.mem|;
      q.steps == p.steps + [Entry(AxisSum, a, None, 0.0, m, true), Entry(Add, m + 1, Some(m), 0.0, m + 2, true)] &&
      |q.mem| == m + 3 && q.grads == p.grads[x := m + 2] && q.mem[m + 2].tracked &&
      q.mem[m].shape == q.mem[m + 1].shape == q.mem[m + 2].shape == p.mem[x].shape
    ensures var q := Sent(Perform(p, AxisSum, Some(a), None, 0.0, p.mem[x].shape), Some(x));
      Ready(q, k) && Onward(p, q) && Good(q, Some(|p.mem| + 2))
  {
    hide Ready, Perform, AddTo, Usable, Onward, Compatible, Size;
    var s := p.mem[x].shape;
    UnaryReady(p, k, AxisSum, Some(a), 0.0, s);
    Logged(p, AxisSum, Some(a), None, 0.0, s);
    var o := Perform(p, AxisSum, Some(a), None, 0.0, s);
    KeptShape(p, o.p, x);
    AddToLog(o.p, k, x, o.r);
    var q := AddTo(o.p, Some(x), o.r);
    OnwardTwice(p, o.p, q);
    KeptShape(o.p, q, |p.mem|);
  }

  // The sums onto the operands, once the quotients are there.
  ghost function SumSteps(m: nat): seq<Step> {
    [Entry(AxisSum, m + 2, None, 0.0, m + 6, true), Entry(Add, m + 7, Some(m + 6), 0.0, m + 8, true),
     Entry(Scale, m + 5, None, -1.0, m + 9, true),
     Entry(AxisSum, m + 9, None, 0.0, m + 10, true), Entry(Add, m + 11, Some(m + 10), 0.0, m + 12, true)]
  }

  ghost predicate SumsDone(p: Pass, k: nat, x0: Id, x1: Id, os: Shape, m: nat, r: Pass) {
    && Ready(r, k) && Onward(p, r) && |r.mem| == m + 13 && r.steps == p.steps + SumSteps(m)
    && r.grads == p.grads[x0 := m + 8][x1 := m + 12] && r.mem[m + 12].tracked && Good(r, Some(m + 12))
    && r.mem[m + 9].shape == os
    && r.mem[m + 10].shape == r.mem[m + 11].shape == r.mem[m + 12].shape == ShapeAt(p.mem, Some(x1))
  }

  lemma SumsLog(p: Pass, k: nat, m: nat, x0: Id, x1: Id, os: Shape)
    requires Ready(p, k) && |p.mem| == m + 6 && Good(p, Some(m + 2)) && Good(p, Some(m + 5))
    requires ShapeAt(p.mem, Some(m + 2)) == ShapeAt(p.mem, Some(m + 5)) == os && TrackedAt(p.mem, Some(m + 5))
    requires x0 < m && x1 < m && x0 != x1 && x0 !in p.grads && x1 !in p.grads
    requires Compatible(p.mem[x0].shape, os) && Compatible(p.mem[x1].shape, os)
    ensures var q := Sent(Perform(p, AxisSum, Some(m + 2), None, 0.0, p.mem[x0].shape), Some(x0));
      var neg := Perform(q, Scale, Some(m + 5), None, -1.0, []);
      SumsDone(p, k, x0, x1, os, m, Sent(Perform(neg.p, AxisSum, neg.r, None, 0.0, p.mem[x1].shape), Some(x1)))
  {
    hide Ready, Good, Perform, Sent, Usable, Onward, Compatible, Size, Entry, Records;
    OperandShape(p, x1);
    AxisSumLog(p, k, m + 2, x0);
    var q := Sent(Perform(p, AxisSum, Some(m + 2), None, 0.0, p.mem[x0].shape), Some(x0));
    Carried(p, q, Some(m + 5));
    StillTracked(p, q, m + 5);
    KeptShape(p, q, x1);
    SecondSumLog(q, k, m, x1);
    var neg := Perform(q, Scale, Some(m + 5), None, -1.0, []);
    var r := Sent(Perform(neg.p, AxisSum, neg.r, None, 0.0, p.mem[x1].shape), Some(x1));
    OnwardTwice(p, q, r);
    StepsJoin(p.steps, m);
  }

  ghost predicate SecondSumDone(q: Pass, k: nat, m: nat, x1: Id, r: Pass)
    requires x1 < |q.mem| && m + 5 < |q.mem|
  {
    && Ready(r, k) && Onward(q, r) && |r.mem| == m + 13
    && r.steps == q.steps + [SumSteps(m)[2]] + [SumSteps(m)[3], SumSteps(m)[4]]
    && r.grads == q.grads[x1 := m + 12] && r.mem[m + 12].tracked && Good(r, Some(m + 12))
    && r.mem[m + 9].shape == q.mem[m + 5].shape
    && r.mem[m + 10].shape == r.mem[m + 11].shape == r.mem[m + 12].shape == q.mem[x1].shape
  }

  lemma SecondSumLog(q: Pass, k: nat, m: nat, x1: Id)
    requires Ready(q, k) && |q.mem| == m + 9 && Good(q, Some(m + 5)) && TrackedAt(q.mem, Some(m + 5))
    requires x1 < m && x1 !in q.grads && Compatible(q.mem[x1].shape, q.mem[m + 5].shape)
    ensures var neg := Perform(q, Scale, Some(m + 5), None, -1.0, []);
      SecondSumDone(q, k, m, x1, Sent(Perform(neg.p, AxisSum, neg.r, None, 0.0, q.mem[x1].shape), Some(x1)))
  {
    hide Ready, Good, Perform, Sent, Usable, Onward, Compatible, Size, Entry, Records;
    OperandShape(q, m + 5);
    UnaryReady(q, k, Scale, Some(m + 5), -1.0, []);
    var neg := Perform(q, Scale, Some(m + 5), None, -1.0, []);
    GoodIn(neg.p, neg.r);
    FirstRecords(q.mem, Scale, Some(m + 5), None);
    Logged(q, Scale, Some(m + 5), None, -1.0, []);
    KeptShape(q, neg.p, x1);
    AxisSumLog(neg.p, k, m + 9, x1);
    var r := Sent(Perform(neg.p, AxisSum, neg.r, None, 0.0, q.mem[x1].shape), Some(x1));
    OnwardTwice(q, neg.p, r);
    KeptShape(neg.p, r, m + 9);
  }

  lemma StepsJoin(a: seq<Step>, m: nat)
    ensures var s := SumSteps(m); a + [s[0], s[1]] + [s[2]] + [s[3], s[4]] == a + s
  {
  }

  // The whole rule.
  lemma QuotientRun(p: Pass, k: nat, d: Id, x0: Id, x1: Id)
    requires Given(p, k, d, x0, x1) && x0 < |p.mem| && x1 < |p.mem| && x0 != x1 && x0 !in p.grads && x1 !in p.grads
    ensures var r, m := RunDivSpread(p, Some(d), Some(x0), Some(x1)), |p.mem|;
      Ready(r, k) && Onward(p, r) && |r.mem| == m + 13
        && r.steps == p.steps + QuotientSteps(m, d, x0, x1) + SumSteps(m) &&
      x1 in r.grads && r.grads[x1] == m + 12 && r.mem[m + 12].tracked && Good(r, Some(m + 12)) &&
      (forall x: Id :: m <= x < m + 6 ==> ShapeAt(r.mem, Some(x)) == ShapeAt(p.mem, Some(d))) &&
      r.mem[m + 9].shape == ShapeAt(p.mem, Some(d)) &&
      r.mem[m + 10].shape == r.mem[m + 11].shape == r.mem[m + 12].shape == ShapeAt(p.mem, Some(x1))
  {
    hide Ready, Good, Perform, Sent, Onward, Compatible, ZeroAt, QuotientSteps;
    var os, m := ShapeAt(p.mem, Some(d)), |p.mem|;
    SpreadStages(p, k, d, x0, x1);
    var bb := Perform(p, Bcast, Some(x1), None, 0.0, os);
    var ba := Perform(bb.p, Bcast, Some(x0), None, 0.0, os);
    ProductStages(p, k, d, x0, x1, ba.p);
    var da := Perform(ba.p, Div, Some(d), Some(m), 0.0, []);
    var num := Perform(da.p, Mult, Some(d), Some(m + 1), 0.0, []);
    SquareStages(p, k, d, x0, x1, num.p);
    var bb2 := Perform(num.p, Mult, Some(m), Some(m), 0.0, []);
    var db := Perform(bb2.p, Div, Some(m + 3), Some(m + 4), 0.0, []);
    AllTaken(m, d, x0, x1);
    KeptShape(p, db.p, x0);
    KeptShape(p, db.p, x1);
    OperandShape(p, x0);
    OperandShape(p, x1);
    SumsLog(db.p, k, m, x0, x1, os);
    var r := RunDivSpread(p, Some(d), Some(x0), Some(x1));
    OnwardTwice(p, db.p, r);
    forall x: Id | m <= x < m + 6
      ensures ShapeAt(r.mem, Some(x)) == os
    {
      Carried(db.p, r, Some(x));
    }
  }

  lemma AllTaken(m: nat, d: Id, x0: Id, x1: Id)
    ensures QuotientSteps(m, d, x0, x1)[..6] == QuotientSteps(m, d, x0, x1)
  {
  }

  // ── The forward program: c = a / b, loss = SUM(c) ──

  function Leaves(a0: real, a1: real, b: real): Pass {
    Pass([Tensor([2], [a0, a1], false), Tensor([1], [b], true)], [], map[])
  }

  ghost function Divided(a0: real, a1: real, b: real): Pass {
    Perform(Leaves(a0, a1, b), Div, Some(0), Some(1), 0.0, []).p
  }

  ghost function Forwarded(a0: real, a1: real, b: real): Pass {
    var p := Divided(a0, a1, b);
    if 2 < |p.mem| then Totalled(p, 2) else p
  }

  const DIVIDE := Entry(Div, 0, Some(1), 0.0, 2, true)

  lemma Shapes21()
    ensures Joint([2], [1]) == [2] && Compatible([2], [2]) && Compatible([1], [2]) && Compatible([1], [1])
    ensures Size([2]) == 2 && Size([1]) == 1
  {
    assert Size([2][1..]) == 1 && Size([1][1..]) == 1;
    assert Joint([2], [1])[0] == 2;
  }

  lemma LeavesSure(a0: real, a1: real, b: real)
    requires b != 0.0
    ensures var p := Leaves(a0, a1, b);
      Sure(p, 0) && Good(p, Some(0)) && Good(p, Some(1)) && Allowed(p, Div, Some(0), Some(1), [])
        && Records(p.mem, Div, Some(0), Some(1))
  {
    Shapes21();
    var p := Leaves(a0, a1, b);
    assert !HasZero(p.mem[1]);
  }

  lemma DividedValue(a0: real, a1: real, b: real)
    ensures var p := Leaves(a0, a1, b); var v := Apply(Div, ValueAt(p.mem, Some(0)), ValueAt(p.mem, Some(1)), 0.0, []);
      v.Value? && v.shape == [2]
  {
    hide Size, Bc;
    Shapes21();
  }

  lemma DividedIs(a0: real, a1: real, b: real)
    requires b != 0.0
    ensures var p := Divided(a0, a1, b);
      Sure(p, 0) && |p.mem| == 3 && p.steps == [DIVIDE] && p.mem[..2] == Leaves(a0, a1, b).mem &&
      p.mem[2].shape == [2] && p.mem[2].tracked && Usable(p, 2)
  {
    hide Sure, Apply, Allowed, Perform, Onward;
    var p := Leaves(a0, a1, b);
    LeavesSure(a0, a1, b);
    DividedValue(a0, a1, b);
    PerformSure(p, 0, Div, Some(0), Some(1), 0.0, []);
    PerformValue(p, Div, Some(0), Some(1), 0.0, []);
    Logged(p, Div, Some(0), Some(1), 0.0, []);
    assert p.steps + [DIVIDE] == [DIVIDE];
  }

  ghost predicate IsTotal(n: Node, x: Id, out: Id) { n == Node(SumAll, x, None, None, n.scalar, out, 0, 0) }

  lemma ForwardedIs(a0: real, a1: real, b: real)
    requires b != 0.0
    ensures var f := Forwarded(a0, a1, b);
      Sure(f, 0) && |f.mem| == 4 && |f.steps| == 2 && f.steps[0] == DIVIDE && f.steps[1].recorded
        && IsTotal(f.steps[1].node, 2, 3) &&
      f.mem[..2] == Leaves(a0, a1, b).mem && f.mem[2].shape == [2] && f.mem[2].tracked && f.mem[3].shape == [1]
  {
    hide Sure, Divided;
    DividedIs(a0, a1, b);
    TotalSound(Divided(a0, a1, b), 0, 2);
  }

  // Its frame, head first.
  ghost function ForwardFrame(a0: real, a1: real, b: real): seq<Node> {
    var f := Forwarded(a0, a1, b);
    if |f.steps| == 2 then [f.steps[1].node, f.steps[0].node] else []
  }

  lemma ForwardProgram(a0: real, a1: real, b: real)
    requires b != 0.0
    ensures var f := Forwarded(a0, a1, b); Program(f.mem, f.steps, ForwardFrame(a0, a1, b))
  {
    hide Forwarded, Sound;
    var f, nodes := Forwarded(a0, a1, b), ForwardFrame(a0, a1, b);
    ForwardedIs(a0, a1, b);
    assert f.steps[..1] == [f.steps[0]] && f.steps == [f.steps[0]] + [f.steps[1]];
    assert f.steps[..1][..0] == [];
    assert Taped(f.steps[..1]) == [f.steps[0].node];
    assert Taped(f.steps) == [f.steps[0].node, f.steps[1].node];
    forall i | 0 <= i < 2
      ensures Walkable(Ungated(f.mem), f.steps[i].node)
    {
      FrameNode(f, i);
    }
    FrameReads(f.steps[1].node);
    forall i, x: Id | 0 <= i < |f.steps| && Reads(f.steps[i].node, x) && x < |f.mem| && f.mem[x].tracked
      ensures f.steps[i].recorded && (ScalarRoot(f.steps[i].node) || f.mem[f.steps[i].node.out].tracked)
    {
    }
  }

  lemma FrameNode(f: Pass, i: nat)
    requires Sure(f, 0) && i < |f.steps| == 2 && f.steps[0] == DIVIDE && IsTotal(f.steps[1].node, 2, 3) && |f.mem| == 4
    requires f.mem[2].shape == [2]
    ensures Walkable(Ungated(f.mem), f.steps[i].node)
  {
    hide Regular, NodeOk, NodeValue;
    assert NodeSound(Ungated(f.mem), AllNodes(f.steps)[i]);
    if i == 1 { assert OperandAt(Ungated(f.mem), f.steps[1].node, 0) == Ungated(f.mem)[2]; }
  }

  lemma FrameReads(n: Node)
    requires IsTotal(n, 2, 3)
    ensures forall x :: Reads(n, x) <==> x == 2
    ensures forall x :: Reads(DIVIDE.node, x) <==> x == 0 || x == 1
  {
    assert InId(n, 0) == 2;
    assert InId(DIVIDE.node, 0) == 0 && InId(DIVIDE.node, 1) == 1;
  }

  // ── The first GRAD_HO, for b ──

  ghost function Middle(): seq<Step> {
    [Entry(Bcast, 4, None, 0.0, 5, true), Entry(Add, 6, Some(5), 0.0, 7, true)]
  }

  // Shapes and leaves after the first pass and the total.
  ghost predicate Laid(mem: Memory, a0: real, a1: real, b: real) {
    && |mem| >= 21
    && Of(mem[0]) == Value([2], [a0, a1]) && Of(mem[1]) == Value([1], [b])
    && Of(mem[4]) == Value([1], [1.0]) && Of(mem[6]) == Value([2], Zeros(2))
    && mem[5].shape == mem[7].shape == [2] && (forall x :: 8 <= x < 14 ==> mem[x].shape == [2])
    && mem[17].shape == [2] && mem[18].shape == mem[19].shape == mem[20].shape == [1]
  }

  ghost predicate Begun(p: Pass) {
    Ready(p, 2) && |p.mem| == 5 && p.grads == map[3 := 4] && Of(p.mem[4]) == Value([1], [1.0]) && Good(p, Some(4))
      && p.mem[2].shape == [2]
  }

  lemma SeededIs(f: Pass)
    requires Sure(f, 0) && |f.mem| == 4 && |f.steps| == 2 && f.mem[3].shape == [1] && f.mem[2].shape == [2]
    ensures var p := Seeded(f.mem, f.steps, 3);
      Begun(p) && Onward(Pass(f.mem, f.steps, map[]), p) && p.steps == f.steps && p.mem[..4] == f.mem
  {
    hide Ready, Onward, Fair, Steady, Usable, SeedFree, Sound;
    Shapes21();
    SureParts(f);
    SeededFacts(f.mem, f.steps, 3, {});
    var p := Seeded(f.mem, f.steps, 3);
    ReadyGrads(p, 2);
    assert Ones(1) == [1.0];
    GradShape(p, 3);
  }

  lemma SureParts(f: Pass)
    requires Sure(f, 0)
    ensures Sound(Ungated(f.mem), AllNodes(f.steps))
  {
  }

  lemma ReadyGrads(p: Pass, k: nat)
    requires Ready(p, k)
    ensures GradsOk(p)
  {
  }

  ghost predicate HeadDone(p: Pass, q: Pass) {
    && Ready(q, 2) && Onward(p, q) && |q.mem| == 8 && q.steps == p.steps + Middle()
    && q.grads == map[3 := 4, 2 := 7] && q.mem[7].tracked && Good(q, Some(7)) && q.mem[5].shape == q.mem[7].shape == [2]
    && Of(q.mem[4]) == Value([1], [1.0]) && Of(q.mem[6]) == Value([2], Zeros(2))
  }

  // The head: the seed is spread and added.
  lemma HeadRun(p: Pass, n: Node)
    requires Begun(p) && IsTotal(n, 2, 3)
    ensures var r := RunNode(p, n); r.Ran? && HeadDone(p, r.p)
  {
    hide Ready, Onward, Usable, Perform, AddTo, Zeros, Compatible;
    Shapes21();
    OperandFirst(p.mem, n);
    SumLog(p, 2, 4, 2);
    var q := Sent(Perform(p, Bcast, Some(4), None, 0.0, [2]), Some(2));
    KeptShape(p, q, 4);
    assert map[3 := 4][2 := 7] == map[3 := 4, 2 := 7];
  }

  ghost predicate RuleDone(p: Pass, q: Pass) {
    && Ready(q, 2) && Onward(p, q) && |q.mem| == 21 && q.steps == p.steps + QuotientSteps(8, 7, 0, 1) + SumSteps(8)
    && 1 in q.grads && q.grads[1] == 20 && q.mem[20].tracked && Good(q, Some(20))
    && (forall x: Id :: 8 <= x < 14 ==> ShapeAt(q.mem, Some(x)) == [2])
    && q.mem[17].shape == [2] && q.mem[18].shape == q.mem[19].shape == q.mem[20].shape == [1]
  }

  // The quotient, with two elements over one.
  lemma TailRun(p: Pass, q: Pass)
    requires HeadDone(p, q) && Good(q, Some(0)) && Good(q, Some(1)) && q.mem[0].shape == [2] && q.mem[1].shape == [1]
    requires |q.mem[0].data| == 2 && |q.mem[1].data| == 1 && !HasZero(q.mem[1])
    ensures var r := RunNode(q, DIVIDE.node); r.Ran? && RuleDone(q, r.p)
  {
    hide Ready, Onward, Usable, RunDivSpread, HasZero, QuotientSteps, SumSteps, Compatible, HeadDone, Given, ShapeAt;
    Shapes21();
    TailGiven(p, q);
    DivideOperands(q.mem);
    QuotientRun(q, 2, 7, 0, 1);
  }

  lemma TailGiven(p: Pass, q: Pass)
    requires HeadDone(p, q) && Good(q, Some(0)) && Good(q, Some(1)) && q.mem[0].shape == [2] && q.mem[1].shape == [1]
    requires !HasZero(q.mem[1])
    ensures Given(q, 2, 7, 0, 1) && |q.mem| == 8 && 0 !in q.grads && 1 !in q.grads && 2 in q.grads && q.grads[2] == 7
    ensures ShapeAt(q.mem, Some(7)) == [2] && ShapeAt(q.mem, Some(1)) == [1]
  {
    hide Ready, Onward, Usable, HasZero, Middle;
    Shapes21();
  }

  lemma DivideOperands(mem: Memory)
    requires |mem| >= 2
    ensures OperandAt(mem, DIVIDE.node, 0) == mem[0] && OperandAt(mem, DIVIDE.node, 1) == mem[1]
  {
  }

  lemma TwoNodes(p: Pass, n: Node, m: Node)
    requires RunNode(p, n).Ran? && RunNode(RunNode(p, n).p, m).Ran?
    ensures RunNodes(p, [n, m]) == RunNode(RunNode(p, n).p, m)
  {
    hide RunNode;
    var q := RunNode(p, n).p;
    assert [n, m][1..] == [m] && [m][1..] == [];
    assert RunNodes(q, [m]) == RunNode(q, m);
  }

  lemma LeafGood(a0: real, a1: real, b: real)
    requires b != 0.0
    ensures var f := Forwarded(a0, a1, b);
      |f.mem| == 4 && Good(Pass(f.mem, f.steps, map[]), Some(0)) && Good(Pass(f.mem, f.steps, map[]), Some(1)) &&
      Of(f.mem[0]) == Value([2], [a0, a1]) && Of(f.mem[1]) == Value([1], [b]) && f.mem[1].tracked
  {
    hide Forwarded, Sure;
    ForwardedIs(a0, a1, b);
    var f := Forwarded(a0, a1, b);
    assert f.mem[0] == f.mem[..2][0] && f.mem[1] == f.mem[..2][1];
  }

  ghost predicate LostLog(q: Pass) {
    && |q.steps| == 16 && q.steps[0] == DIVIDE && IsTotal(q.steps[1].node, 2, 3)
    && q.steps[2..15] == Middle() + QuotientSteps(8, 7, 0, 1) + SumSteps(8)
    && IsTotal(q.steps[15].node, 20, 21) && q.steps[15].recorded && |q.mem| == 22
  }

  // The whole log, operation by operation.
  lemma LostRun(a0: real, a1: real, b: real)
    requires b != 0.0
    ensures var f, nodes := Forwarded(a0, a1, b), ForwardFrame(a0, a1, b);
      var q := AfterTotal(f.mem, f.steps, nodes, 1);
      LostLog(q) && Laid(q.mem, a0, a1, b) && Reached(nodes, 1) && 1 < |f.mem| && f.mem[1].tracked
  {
    hide Ready, Onward, Forwarded, Usable, RunNode, HeadDone, RuleDone, Middle, QuotientSteps, SumSteps, Seeded, Begun;
    var f, nodes := Forwarded(a0, a1, b), ForwardFrame(a0, a1, b);
    ForwardedIs(a0, a1, b);
    LeafGood(a0, a1, b);
    SeededIs(f);
    var p0, p := Pass(f.mem, f.steps, map[]), Seeded(f.mem, f.steps, 3);
    HeadRun(p, nodes[0]);
    var q := RunNode(p, nodes[0]).p;
    assert HeadDone(p, q);
    HeadOnward(p, q);
    OnwardTwice(p0, p, q);
    LeafCarried(p0, q, 0);
    LeafCarried(p0, q, 1);
    TailRun(p, q);
    var r := RunNode(q, DIVIDE.node).p;
    TwoNodes(p, nodes[0], nodes[1]);
    assert AfterFirst(f.mem, f.steps, nodes) == r;
    LostTotal(f, p, q, r, a0, a1, b);
    RuleEntry(q, r);
    FrameReached(f);
  }

  lemma HeadOnward(p: Pass, q: Pass)
    requires HeadDone(p, q)
    ensures Onward(p, q)
  {
  }

  lemma LeafCarried(p: Pass, q: Pass, x: Id)
    requires Onward(p, q) && Good(p, Some(x))
    ensures Good(q, Some(x)) && x < |p.mem| && x < |q.mem| && Of(q.mem[x]) == Of(p.mem[x])
  {
  }

  lemma RuleEntry(q: Pass, r: Pass)
    requires RuleDone(q, r)
    ensures 1 in r.grads && r.grads[1] == 20 && |r.mem| == 21
  {
  }

  lemma FrameReached(f: Pass)
    requires |f.steps| == 2 && f.steps[0] == DIVIDE && IsTotal(f.steps[1].node, 2, 3)
    ensures Reached([f.steps[1].node, f.steps[0].node], 1)
  {
    var n, m := f.steps[1].node, f.steps[0].node;
    assert [n, m][1..] == [m] && [m][1..] == [];
    assert Live([m], {3, 2}) == {3, 2} + ReadIds(m);
    assert {3} + ReadIds(n) == {3, 2};
  }

  lemma LostTotal(f: Pass, p: Pass, q: Pass, r: Pass, a0: real, a1: real, b: real)
    requires |f.steps| == 2 && f.steps[0] == DIVIDE && IsTotal(f.steps[1].node, 2, 3) && p.steps == f.steps
    requires HeadDone(p, q) && RuleDone(q, r)
    requires Of(q.mem[0]) == Value([2], [a0, a1]) && Of(q.mem[1]) == Value([1], [b])
    ensures LostLog(Totalled(r, 20)) && Laid(Totalled(r, 20).mem, a0, a1, b)
  {
    hide Ready, Usable, Middle, QuotientSteps, SumSteps;
    var t := Totalled(r, 20);
    Lengths();
    assert t.steps[2..15] == Middle() + QuotientSteps(8, 7, 0, 1) + SumSteps(8);
    forall x | 0 <= x < 8
      ensures Of(t.mem[x]) == Of(q.mem[x])
    {
      assert Of(r.mem[x]) == Of(q.mem[x]);
    }
    forall x: Id | 8 <= x < 14
      ensures t.mem[x].shape == [2]
    {
      assert ShapeAt(r.mem, Some(x)) == [2];
    }
  }

  lemma Lengths()
    ensures |Middle()| == 2 && |QuotientSteps(8, 7, 0, 1)| == 6 && |SumSteps(8)| == 5
  {
  }

  // ── The second GRAD_HO finds no way to b ──

  // Where no recorded node outside K reads a tensor of K, no gradient reaches K.
  lemma {:induction false} Unreached(M: Memory, tape: seq<Node>, G: Gradients, K: set<Id>)
    requires forall i, x :: 0 <= i < |tape| && tape[i].out !in K && x in K ==> !Reads(tape[i], x)
    requires forall x :: x in G ==> x !in K
    ensures forall x :: x in Backward(M, tape, G) ==> x !in K
  {
    if tape != [] {
      var n := tape[|tape| - 1];
      UnreachedNode(M, n, G, K);
      Unreached(M, tape[..|tape| - 1], SweepNode(M, n, G), K);
    }
  }

  lemma UnreachedNode(M: Memory, n: Node, G: Gradients, K: set<Id>)
    requires forall x :: n.out !in K && x in K ==> !Reads(n, x)
    requires forall x :: x in G ==> x !in K
    ensures forall x :: x in SweepNode(M, n, G) ==> x !in K
  {
    hide NodeContribution;
    if n.out in G {
      forall slot: nat | Uses(n, slot)
        ensures InId(n, slot) !in K
      {
        assert Reads(n, InId(n, slot));
      }
    }
  }

  // b, what reads it, and what reads that.
  const AWAY: set<Id> := {1, 2, 3, 8, 10, 14, 16}

  lemma LostStep(q: Pass, j: nat)
    requires LostLog(q) && j < 16 && q.steps[j].recorded && q.steps[j].node.out !in AWAY
    ensures forall x :: x in AWAY ==> !Reads(q.steps[j].node, x)
  {
    if j < 2 {
    } else if j == 15 {
    } else {
      assert q.steps[j] == q.steps[2..15][j - 2];
    }
  }

  lemma LostGradient(q: Pass)
    requires LostLog(q)
    ensures 1 !in Gradient(q.mem, q.steps, 21)
  {
    hide LostLog, Reads;
    var tape := Taped(q.steps);
    forall i, x | 0 <= i < |tape| && tape[i].out !in AWAY && x in AWAY
      ensures !Reads(tape[i], x)
    {
      TapedFrom(q.steps, i);
      var j :| 0 <= j < |q.steps| && q.steps[j].recorded && tape[i] == q.steps[j].node;
      LostLength(q);
      LostStep(q, j);
    }
    Unreached(Ungated(q.mem), tape, Seed(Ungated(q.mem), 21), AWAY);
  }

  lemma LostLength(q: Pass)
    requires LostLog(q)
    ensures |q.steps| == 16 && |q.mem| == 22
  {
  }

  // ── The derivative, node by node ──

  ghost predicate Evaluated(M: Memory, R: Tangents, n: Node) {
    |R| == |M| && NodeSound(M, n) && R[n.out] == NodeTangent(M, n, R)
  }

  ghost predicate Two(M: Memory, R: Tangents, x: Id, v0: real, v1: real, t0: real, t1: real) {
    x < |M| && x < |R| && M[x].shape == [2] && M[x].data == [v0, v1] && R[x] == [t0, t1]
  }

  ghost predicate One(M: Memory, R: Tangents, x: Id, v: real, t: real) {
    x < |M| && x < |R| && M[x].shape == [1] && M[x].data == [v] && R[x] == [t]
  }

  lemma BcOf()
    ensures Bc([2], [2], 0) == 0 && Bc([2], [2], 1) == 1 && Bc([1], [2], 0) == 0 && Bc([1], [2], 1) == 0
    ensures Bc([1], [1], 0) == 0
  {
    Shapes21();
    BcSelf([2], 0);
    BcSelf([2], 1);
    BcSelf([1], 0);
    BcBound([1], [2], 0);
    BcBound([1], [2], 1);
  }

  // The two elements of a result of shape [2].
  lemma PairOf(M: Memory, R: Tangents, n: Node)
    requires Evaluated(M, R, n) && !ScalarRoot(n) && M[n.out].shape == [2]
    ensures var f := (o: int) => ForwardAt(n, [2], OperandAt(M, n, 0), OperandAt(M, n, 1), OperandAt(M, n, 2),
                                           TangentAt(R, n, 0), TangentAt(R, n, 1), TangentAt(R, n, 2), o);
      M[n.out].data == [f(0).re, f(1).re] && R[n.out] == [f(0).du, f(1).du]
  {
    hide ForwardAt, NodeInMemory;
    EvaluatedIn(M, R, n);
    Shapes21();
    NodeValueOf(M, n, R);
    var v, y := NodeValue(M, n, R), NodeTangent(M, n, R);
    assert M[n.out].data == v && R[n.out] == y && |v| == 2 == |y|;
    assert v == [v[0], v[1]] && y == [y[0], y[1]];
  }

  lemma ReadOperands(M: Memory, R: Tangents, n: Node)
    requires Evaluated(M, R, n)
    ensures OperandAt(M, n, 0) == M[n.in0] && TangentAt(R, n, 0) == R[n.in0]
    ensures Uses(n, 1) ==> n.in1.value < |M| && OperandAt(M, n, 1) == M[n.in1.value]
    ensures Uses(n, 1) ==> TangentAt(R, n, 1) == R[n.in1.value]
  {
    hide NodeTangent, NodeValue;
  }

  lemma SpreadTwo(M: Memory, R: Tangents, n: Node, v: real, t: real)
    requires Evaluated(M, R, n) && n.op == Bcast && M[n.out].shape == [2] && One(M, R, n.in0, v, t)
    ensures Two(M, R, n.out, v, v, t, t)
  {
    hide Evaluated, Bc;
    PairOf(M, R, n);
    ReadOperands(M, R, n);
    BcOf();
    EvaluatedIn(M, R, n);
  }

  lemma EvaluatedIn(M: Memory, R: Tangents, n: Node)
    requires Evaluated(M, R, n)
    ensures n.out < |M| == |R|
  {
    hide NodeTangent, NodeValue;
  }

  lemma CopyTwo(M: Memory, R: Tangents, n: Node, v0: real, v1: real, t0: real, t1: real)
    requires Evaluated(M, R, n) && n.op == Bcast && M[n.out].shape == [2] && Two(M, R, n.in0, v0, v1, t0, t1)
    ensures Two(M, R, n.out, v0, v1, t0, t1)
  {
    hide Evaluated, Bc;
    PairOf(M, R, n);
    ReadOperands(M, R, n);
    BcOf();
    EvaluatedIn(M, R, n);
  }

  lemma BinaryTwo(M: Memory, R: Tangents, n: Node, v0: real, v1: real, t0: real, t1: real, u0: real, u1: real,
                  s0: real, s1: real)
    requires Evaluated(M, R, n) && (n.op == Add || n.op == Mult || n.op == Div) && n.in1.Some? && M[n.out].shape == [2]
    requires Two(M, R, n.in0, v0, v1, t0, t1) && Two(M, R, n.in1.value, u0, u1, s0, s1)
    ensures var f := (x: Dual, y: Dual) => match n.op case Add => DAdd(x, y) case Mult => DMul(x, y)
      case _ => DDiv(x, y);
      var p, q := f(Dual(v0, t0), Dual(u0, s0)), f(Dual(v1, t1), Dual(u1, s1));
      Two(M, R, n.out, p.re, q.re, p.du, q.du)
  {
    hide Evaluated, Bc, DAdd, DMul, DDiv;
    PairOf(M, R, n);
    ReadOperands(M, R, n);
    BcOf();
    EvaluatedIn(M, R, n);
  }

  lemma ScaleTwo(M: Memory, R: Tangents, n: Node, t0: real, t1: real)
    requires Evaluated(M, R, n) && n.op == Scale && M[n.out].shape == [2] && R[n.in0] == [t0, t1]
    ensures n.out < |R| && R[n.out] == [Mul(n.scalar, t0), Mul(n.scalar, t1)]
  {
    hide Evaluated;
    PairOf(M, R, n);
    ReadOperands(M, R, n);
    EvaluatedIn(M, R, n);
  }

  // The tangent of a result of shape [1].
  lemma SingleOf(M: Memory, R: Tangents, n: Node)
    requires Evaluated(M, R, n) && M[n.out].shape == [1]
    ensures R[n.out] == [ForwardAt(n, [1], OperandAt(M, n, 0), OperandAt(M, n, 1), OperandAt(M, n, 2),
                                   TangentAt(R, n, 0), TangentAt(R, n, 1), TangentAt(R, n, 2), 0).du]
  {
    hide ForwardAt, NodeInMemory;
    EvaluatedIn(M, R, n);
    Shapes21();
    var y := NodeTangent(M, n, R);
    assert |y| == 1 && y == [y[0]];
  }

  lemma AxisSumOne(M: Memory, R: Tangents, n: Node, t0: real, t1: real)
    requires Evaluated(M, R, n) && n.op == AxisSum && M[n.out].shape == [1] && M[n.in0].shape == [2]
    requires R[n.in0] == [t0, t1]
    ensures n.out < |R| && R[n.out] == [t0 + t1]
  {
    hide Evaluated, Bc;
    SingleOf(M, R, n);
    ReadOperands(M, R, n);
    BcSum();
    EvaluatedIn(M, R, n);
    OperandTwo(M, R, n);
    var x, t := M[n.in0], R[n.in0];
    var f := (i: int) => if Bc([1], [2], i) == 0 then DAt(x, t, i) else Dual(0.0, 0.0);
    assert DSum(2, f) == DAdd(DSum(1, f), f(1)) && DSum(1, f) == DAdd(DSum(0, f), f(0));
    DSumDuSame(2, f, i => if Bc([1], [2], i) == 0 then DAt(x, t, i) else Dual(0.0, 0.0));
  }

  lemma {:induction false} DSumDuSame(n: nat, f: int -> Dual, g: int -> Dual)
    requires forall i :: 0 <= i < n ==> f(i) == g(i)
    ensures DSum(n, f) == DSum(n, g)
  {
    if n > 0 { DSumDuSame(n - 1, f, g); }
  }

  lemma BcSum()
    ensures Bc([1], [2], 0) == 0 && Bc([1], [2], 1) == 0
  {
    BcOf();
  }

  lemma OperandTwo(M: Memory, R: Tangents, n: Node)
    requires Evaluated(M, R, n) && M[n.in0].shape == [2]
    ensures |M[n.in0].data| == 2
  {
    hide NodeTangent, NodeValue;
    Shapes21();
    ReadOperands(M, R, n);
  }

  lemma AddOne(M: Memory, R: Tangents, n: Node, t: real, s: real)
    requires Evaluated(M, R, n) && n.op == Add && n.in1.Some? && M[n.out].shape == [1]
    requires M[n.in0].shape == [1] && n.in1.value < |M| && M[n.in1.value].shape == [1] && R[n.in0] == [t]
    requires R[n.in1.value] == [s]
    ensures n.out < |R| && R[n.out] == [t + s]
  {
    hide Evaluated, Bc;
    SingleOf(M, R, n);
    ReadOperands(M, R, n);
    BcOf();
    EvaluatedIn(M, R, n);
  }

  lemma SumOne(M: Memory, R: Tangents, n: Node, t: real)
    requires Evaluated(M, R, n) && n.op == SumAll && M[n.out].shape == [1] && |M[n.in0].data| == 1 && R[n.in0] == [t]
    ensures n.out < |R| && R[n.out] == [t]
  {
    hide Evaluated;
    SingleOf(M, R, n);
    ReadOperands(M, R, n);
    EvaluatedIn(M, R, n);
    var x, u := M[n.in0], R[n.in0];
    var h := (i: int) => At(u, i);
    DSumDu(|x.data|, i => DAt(x, u, i), h);
    assert Sum(1, h) == Sum(0, h) + h(0);
  }

  lemma StepEvaluated(q: Pass, j: nat)
    requires SoundPass(q) && j < |q.steps| && 1 < |q.mem|
    ensures Evaluated(Ungated(q.mem), Moved(q.mem, q.steps, 1, 0), q.steps[j].node)
  {
    hide NodeInMemory, NodeValue, NodeTangent, Reads, Forward, Ungated;
    var M, nodes, T := Ungated(q.mem), AllNodes(q.steps), Toward(q.mem, 1, 0);
    TowardSized(q.mem, 1, 0);
    AllAtRest(q.mem, T);
    SoundWellFormed(M, nodes);
    ForwardConsistent(M, nodes, T);
    assert nodes[j] == q.steps[j].node && NodeSound(M, nodes[j]);
    ReadsOlder(M, nodes[j]);
  }

  lemma LeafMoved(q: Pass, x: Id)
    requires SoundPass(q) && LostLog(q) && x in {0, 1, 4, 6, 19}
    ensures Moved(q.mem, q.steps, 1, 0)[x] == Toward(q.mem, 1, 0)[x]
  {
    hide Forward, Ungated, Sound;
    var M, nodes, T := Ungated(q.mem), AllNodes(q.steps), Toward(q.mem, 1, 0);
    TowardSized(q.mem, 1, 0);
    AllAtRest(q.mem, T);
    SoundWellFormed(M, nodes);
    ForwardConsistent(M, nodes, T);
    if x in Outputs(nodes) {
      var j :| 0 <= j < |nodes| && nodes[j].out == x;
      LostOut(q, j);
      assert false;
    }
  }

  lemma LostOut(q: Pass, j: nat)
    requires LostLog(q) && j < 16
    ensures q.steps[j].node.out !in {0, 1, 4, 6, 19}
  {
    if 2 <= j < 15 { assert q.steps[j] == q.steps[2..15][j - 2]; }
  }

  lemma LostAt(q: Pass)
    requires LostLog(q)
    ensures q.steps[2] == Entry(Bcast, 4, None, 0.0, 5, true) && q.steps[3] == Entry(Add, 6, Some(5), 0.0, 7, true)
    ensures q.steps[4] == Entry(Bcast, 1, None, 0.0, 8, true) && q.steps[5] == Entry(Bcast, 0, None, 0.0, 9, true)
    ensures q.steps[7] == Entry(Mult, 7, Some(9), 0.0, 11, true)
    ensures q.steps[8] == Entry(Mult, 8, Some(8), 0.0, 12, false)
    ensures q.steps[9] == Entry(Div, 11, Some(12), 0.0, 13, true)
    ensures q.steps[12] == Entry(Scale, 13, None, -1.0, 17, true)
    ensures q.steps[13] == Entry(AxisSum, 17, None, 0.0, 18, true)
    ensures q.steps[14] == Entry(Add, 19, Some(18), 0.0, 20, true)
  {
    var more := Middle() + QuotientSteps(8, 7, 0, 1) + SumSteps(8);
    forall j | 2 <= j < 15
      ensures q.steps[j] == more[j - 2]
    {
      assert q.steps[j] == q.steps[2..15][j - 2];
    }
  }

  // Leaves of shape [2] and [1]: only b moves.
  lemma LeafTangents(q: Pass, a0: real, a1: real, b: real)
    requires SoundPass(q) && LostLog(q) && Laid(q.mem, a0, a1, b)
    ensures var M, R := Ungated(q.mem), Moved(q.mem, q.steps, 1, 0);
      Two(M, R, 0, a0, a1, 0.0, 0.0) && One(M, R, 1, b, 1.0) && One(M, R, 4, 1.0, 0.0)
        && Two(M, R, 6, 0.0, 0.0, 0.0, 0.0) && R[19] == [0.0]
  {
    hide Moved, SoundPass, LostLog;
    Shapes21();
    LostLength(q);
    var R := Moved(q.mem, q.steps, 1, 0);
    LeafMoved(q, 0);
    LeafMoved(q, 1);
    LeafMoved(q, 4);
    LeafMoved(q, 6);
    LeafMoved(q, 19);
    SizedAt(q, 19);
    assert R[0] == Zeros(2) == [0.0, 0.0];
    assert R[1] == Unit(1, 0) == [1.0];
    assert R[4] == Zeros(1) == [0.0];
    assert R[6] == Zeros(2);
    assert R[19] == Zeros(1);
  }

  lemma ShapeOf(q: Pass, a0: real, a1: real, b: real, x: Id)
    requires Laid(q.mem, a0, a1, b) && (x == 5 || x == 7 || 8 <= x < 14 || x == 17)
    ensures Ungated(q.mem)[x].shape == [2]
  {
  }

  // The seed's side of the pass does not move.
  lemma SeedSide(q: Pass, a0: real, a1: real, b: real)
    requires SoundPass(q) && LostLog(q) && Laid(q.mem, a0, a1, b)
    ensures var M, R := Ungated(q.mem), Moved(q.mem, q.steps, 1, 0); Two(M, R, 7, 1.0, 1.0, 0.0, 0.0)
  {
    hide SoundPass, LostLog, Laid, Moved, Ungated, Evaluated, Two, One;
    LostLength(q);
    LostAt(q);
    var M, R := Ungated(q.mem), Moved(q.mem, q.steps, 1, 0);
    LeafTangents(q, a0, a1, b);
    LaidLong(q.mem, a0, a1, b);
    StepEvaluated(q, 2);
    StepEvaluated(q, 3);
    ShapeOf(q, a0, a1, b, 5);
    ShapeOf(q, a0, a1, b, 7);
    SpreadTwo(M, R, q.steps[2].node, 1.0, 0.0);
    BinaryTwo(M, R, q.steps[3].node, 0.0, 0.0, 0.0, 0.0, 1.0, 1.0, 0.0, 0.0);
  }

  lemma LaidLong(mem: Memory, a0: real, a1: real, b: real)
    requires Laid(mem, a0, a1, b)
    ensures |mem| >= 21 && mem[18].shape == mem[19].shape == mem[20].shape == [1]
    ensures Ungated(mem)[18].shape == Ungated(mem)[19].shape == Ungated(mem)[20].shape == [1]
    ensures Ungated(mem)[17].shape == [2]
  {
  }

  // The quotient of the second partial, before its sign: -(2 b a) / b^4.
  function Bent(a: real, b: real): real { Quot(-Mul(a, Mul(b, 1.0) + Mul(1.0, b)), Mul(Mul(b, b), Mul(b, b))) }

  lemma QuotientSide(q: Pass, a0: real, a1: real, b: real)
    requires SoundPass(q) && LostLog(q) && Laid(q.mem, a0, a1, b)
    ensures Moved(q.mem, q.steps, 1, 0)[13] == [Bent(a0, b), Bent(a1, b)]
  {
    hide SoundPass, LostLog, Laid, Moved, Ungated, Evaluated, Two, One, Mul, Quot;
    LostLength(q);
    LostAt(q);
    var M, R := Ungated(q.mem), Moved(q.mem, q.steps, 1, 0);
    LeafTangents(q, a0, a1, b);
    LaidLong(q.mem, a0, a1, b);
    SeedSide(q, a0, a1, b);
    forall j | j in {4, 5, 7, 8, 9}
      ensures Evaluated(M, R, q.steps[j].node) && M[q.steps[j].node.out].shape == [2]
    {
      StepEvaluated(q, j);
      ShapeOf(q, a0, a1, b, q.steps[j].node.out);
    }
    SpreadTwo(M, R, q.steps[4].node, b, 1.0);
    CopyTwo(M, R, q.steps[5].node, a0, a1, 0.0, 0.0);
    BinaryTwo(M, R, q.steps[7].node, 1.0, 1.0, 0.0, 0.0, a0, a1, 0.0, 0.0);
    NumeratorIs(a0);
    NumeratorIs(a1);
    BinaryTwo(M, R, q.steps[8].node, b, b, 1.0, 1.0, b, b, 1.0, 1.0);
    var bb, tt := Mul(b, b), Mul(b, 1.0) + Mul(1.0, b);
    BinaryTwo(M, R, q.steps[9].node, a0, a1, 0.0, 0.0, bb, bb, tt, tt);
    MulDistributes(bb, 0.0, 0.0);
    TwoParts(M, R, 13, Quot(a0, bb), Quot(a1, bb), Bent(a0, b), Bent(a1, b));
  }

  lemma NumeratorIs(a: real)
    ensures DMul(Dual(1.0, 0.0), Dual(a, 0.0)) == Dual(a, 0.0)
  {
    MulOne(a);
    MulDistributes(1.0, 0.0, 0.0);
    MulDistributes(a, 0.0, 0.0);
  }

  lemma TwoParts(M: Memory, R: Tangents, x: Id, v0: real, v1: real, t0: real, t1: real)
    requires Two(M, R, x, v0, v1, t0, t1)
    ensures x < |R| && R[x] == [t0, t1]
  {
  }

  // Negated, summed and added up.
  lemma SumSide(q: Pass, a0: real, a1: real, b: real)
    requires SoundPass(q) && LostLog(q) && Laid(q.mem, a0, a1, b)
    ensures Moved(q.mem, q.steps, 1, 0)[21] == [0.0 + (Mul(-1.0, Bent(a0, b)) + Mul(-1.0, Bent(a1, b)))]
  {
    hide SoundPass, LostLog, Laid, Moved, Ungated, Evaluated, Two, One, Mul, Bent;
    LostLength(q);
    LostAt(q);
    var M, R := Ungated(q.mem), Moved(q.mem, q.steps, 1, 0);
    LeafTangents(q, a0, a1, b);
    LaidLong(q.mem, a0, a1, b);
    QuotientSide(q, a0, a1, b);
    var t0, t1 := Mul(-1.0, Bent(a0, b)), Mul(-1.0, Bent(a1, b));
    forall j | j in {12, 13, 14, 15}
      ensures Evaluated(M, R, q.steps[j].node)
    {
      StepEvaluated(q, j);
    }
    ScaleTwo(M, R, q.steps[12].node, Bent(a0, b), Bent(a1, b));
    AxisSumOne(M, R, q.steps[13].node, t0, t1);
    AddOne(M, R, q.steps[14].node, 0.0, t0 + t1);
    TotalNode(q);
    SizedAt(q, 20);
    Shapes21();
    SumOne(M, R, q.steps[15].node, 0.0 + (t0 + t1));
  }

  lemma TotalNode(q: Pass)
    requires LostLog(q) && SoundPass(q)
    ensures var n := q.steps[15].node; n.op == SumAll && n.in0 == 20 && n.out == 21 && Ungated(q.mem)[21].shape == [1]
  {
    hide NodeValue, Reads, Regular;
    assert NodeSound(Ungated(q.mem), AllNodes(q.steps)[15]);
  }

  lemma BentIs(a: real, b: real)
    requires b != 0.0
    ensures Mul(-1.0, Bent(a, b)) == 2.0 * a / (b * b * b)
  {
    var c := b * b * b;
    assert c != 0.0;
    var r := 1.0 / b;
    assert b * r == 1.0;
    var y := (b * b) * (b * b);
    assert y == c * b && y != 0.0;
    var s := 2.0 * a / c;
    assert s * c == 2.0 * a;
    assert s * y == 2.0 * a * b by { assert s * y == (s * c) * b; }
    assert Quot(-(a * (b * 1.0 + 1.0 * b)), y) == -s by {
      assert -(a * (b * 1.0 + 1.0 * b)) == -s * y;
      QuotByInverse(-s * y, y, 1.0 / y);
      assert (-s * y) * (1.0 / y) == -s * (y * (1.0 / y));
    }
  }

  // The log and frames the second GRAD_HO finds.
  ghost predicate Found(q: Pass, frames: seq<Frame>, b: real) {
    && SoundPass(q) && LostLog(q) && Concatenated(frames) == Taped(q.steps) && AllHandled(Ungated(q.mem), frames)
    && |frames| > 0 && frames[0].level < 2 && frames[0].nodes != [] && frames[0].nodes[0].out == 21
    && |q.mem| == 22 && q.mem[1].tracked && Of(q.mem[1]) == Value([1], [b])
  }

  lemma LostFound(a0: real, a1: real, b: real)
    requires b != 0.0
    ensures var f, nodes := Forwarded(a0, a1, b), ForwardFrame(a0, a1, b);
      var q := AfterTotal(f.mem, f.steps, nodes, 1);
      Program(f.mem, f.steps, nodes) && |f.steps| <= |q.steps| && Laid(q.mem, a0, a1, b)
        && Found(q, SecondFrames(f.steps, nodes, q), b)
  {
    hide Forwarded, ForwardFrame, Program, Sound, Ungated, AfterTotal, AfterFirst, LostLog, Laid, SecondFrames,
         Concatenated, Reached;
    hide Handled, Onward, Sure;
    var f, nodes := Forwarded(a0, a1, b), ForwardFrame(a0, a1, b);
    var q := AfterTotal(f.mem, f.steps, nodes, 1);
    ForwardProgram(a0, a1, b);
    LostRun(a0, a1, b);
    LostLength(q);
    LaidLeaf(q.mem, a0, a1, b);
    AfterTotalFacts(f.mem, f.steps, nodes, 1);
    TotalIsHead(f.mem, f.steps, nodes, 1);
    SecondHandled(f.mem, f.steps, nodes, q);
    ProgramReversed(f.mem, f.steps, nodes);
    SecondFramesAreLog(f.steps, nodes, q);
    SecondLevel(f.steps, nodes, q);
    StillTracked(Pass(f.mem, f.steps, map[]), q, 1);
  }

  lemma LostTangent(q: Pass, a0: real, a1: real, b: real, vals: Memory)
    requires b != 0.0 && SoundPass(q) && LostLog(q) && Laid(q.mem, a0, a1, b)
    requires SameLeaves(Ungated(q.mem), AllNodes(q.steps), vals)
    ensures |q.mem| == 22
    ensures var tans := Run(AllNodes(q.steps), State(vals, Toward(q.mem, 1, 0))).tans;
      |tans| == 22 && tans[21] == [2.0 * a0 / (b * b * b) + 2.0 * a1 / (b * b * b)]
  {
    hide Sound, SameLeaves, Run, Ungated, LostLog, Laid, Moved, Bent, Mul;
    LostLength(q);
    RunIsMoved(q.mem, q.steps, 1, 0, vals);
    SumSide(q, a0, a1, b);
    BentIs(a0, b);
    BentIs(a1, b);
  }

  // For a of two elements over a tracked b of one, the second GRAD_HO returns 0 for b,
  // where the total of the first one's gradient has the derivative 2 (a0 + a1) / b^3.
  lemma SecondDerivativeLost(a0: real, a1: real, b: real, vals: Memory)
    requires b != 0.0
    requires var f := Forwarded(a0, a1, b);
      var q := AfterTotal(f.mem, f.steps, ForwardFrame(a0, a1, b), 1);
        SameLeaves(Ungated(q.mem), AllNodes(q.steps), vals)
    ensures var f, nodes := Forwarded(a0, a1, b), ForwardFrame(a0, a1, b);
      var q := AfterTotal(f.mem, f.steps, nodes, 1);
      Program(f.mem, f.steps, nodes) && |f.steps| <= |q.steps| && |q.mem| == 22 && Of(q.mem[1]) == Value([1], [b])
    ensures var f, nodes := Forwarded(a0, a1, b), ForwardFrame(a0, a1, b);
      var q := AfterTotal(f.mem, f.steps, nodes, 1);
      var frames, tans := SecondFrames(f.steps, nodes, q),
        Run(AllNodes(q.steps), State(vals, Toward(q.mem, 1, 0))).tans;
      FramesInMemory(q.mem, frames) && frames[0].nodes != [] && frames[0].nodes[0].out == 21 &&
      GradOf(q.mem, frames, 1) == Grad(Value([1], [0.0])) && |tans| == 22 &&
      tans[21] == [2.0 * a0 / (b * b * b) + 2.0 * a1 / (b * b * b)]
  {
    hide Forwarded, ForwardFrame, Program, Sound, SameLeaves, Run, Ungated, GradOf, AfterTotal, LostLog, Laid,
         SecondFrames, Concatenated;
    hide FramesInMemory, Handled, Toward;
    var f, nodes := Forwarded(a0, a1, b), ForwardFrame(a0, a1, b);
    var q := AfterTotal(f.mem, f.steps, nodes, 1);
    LostFound(a0, a1, b);
    LostResult(q, SecondFrames(f.steps, nodes, q), b);
    LostTangent(q, a0, a1, b, vals);
  }

  lemma LaidLeaf(mem: Memory, a0: real, a1: real, b: real)
    requires Laid(mem, a0, a1, b)
    ensures |mem| > 1 && Of(mem[1]) == Value([1], [b])
  {
  }

  lemma LostResult(q: Pass, frames: seq<Frame>, b: real)
    requires Found(q, frames, b)
    ensures FramesInMemory(q.mem, frames) && GradOf(q.mem, frames, 1) == Grad(Value([1], [0.0]))
  {
    hide Sound, Ungated, GradOf, Handled, InMemory, Backward, Concatenated, LostLog;
    FramesInLog(q.mem, q.steps, frames);
    LostGradient(q);
    Shapes21();
    assert Zeros(1) == [0.0];
    GradHoIsFirstOrder(q.mem, frames, 1);
  }
}
