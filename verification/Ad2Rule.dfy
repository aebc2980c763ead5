// The second engine's backward rules: the values of its taped tensor
// operations, and when they are the first engine's contributions.
module Ad2Rule {
  import opened Options
  import opened Arith
  import opened Shapes
  import opened Sums
  import opened Tape
  import opened Rules
  import opened NodeRule
  import opened Adjoint
  import opened Sweep

  // The value of a tensor operation; Bad is an error tensor.
  datatype Value = Value(shape: Shape, data: seq<real>) | Bad

  function Of(x: Tensor): Value { Value(x.shape, x.data) }

  // ── Tensor operations of plant_tensor.c, by value ──

  // Extent k from the right.
  function FromRight(s: Shape, k: nat): nat { if k < |s| then s[|s| - 1 - k] else 1 }

  // The shape two operands broadcast to.
  function Joint(s: Shape, t: Shape): (r: Shape)
    ensures |r| == if |s| < |t| then |t| else |s|
  {
    var n := if |s| < |t| then |t| else |s|;
    seq(n, k requires 0 <= k < n => if FromRight(s, n - 1 - k) == 1 then FromRight(t, n - 1 - k)
      else FromRight(s, n - 1 - k))
  }

  function Elementwise(a: Value, b: Value, f: (real, real) -> real): Value {
    if a.Bad? || b.Bad? then Bad
    else
      var sh := Joint(a.shape, b.shape);
      if Compatible(a.shape, sh) && Compatible(b.shape, sh) then
        Value(sh, seq(Size(sh), o => f(At(a.data, Bc(a.shape, sh, o)), At(b.data, Bc(b.shape, sh, o)))))
      else Bad
  }

  function AddOf(x: real, y: real): real { x + y }
  function SubOf(x: real, y: real): real { x - y }

  function TAdd(a: Value, b: Value): Value { Elementwise(a, b, AddOf) }
  function TSub(a: Value, b: Value): Value { Elementwise(a, b, SubOf) }
  function TMul(a: Value, b: Value): Value { Elementwise(a, b, Mul) }
  function TDiv(a: Value, b: Value): Value { Elementwise(a, b, Quot) }
  function TScale(a: Value, c: real): Value { if a.Bad? then Bad else Value(a.shape, ScaleBy(c, a.data)) }

  function TRelu(a: Value): Value {
    if a.Bad? then Bad else Value(a.shape, seq(|a.data|, i => if At(a.data, i) > 0.0 then At(a.data, i) else 0.0))
  }

  function TTranspose(a: Value): Value {
    if a.Bad? || |a.shape| != 2 then Bad
    else
      Value([a.shape[1], a.shape[0]],
            Gather(a.shape[1] * a.shape[0], q => Swap(a.shape[0], a.shape[1], q), a.data))
  }

  function TReshape(a: Value, s: Shape): Value {
    if a.Bad? || Size(a.shape) != Size(s) then Bad else Value(s, a.data)
  }

  function TMatMul(a: Value, b: Value): Value {
    if a.Bad? || b.Bad? || |a.shape| != 2 || |b.shape| != 2 || a.shape[1] != b.shape[0] then Bad
    else
      var k, p := a.shape[1], b.shape[1];
      Value([a.shape[0], p], seq(a.shape[0] * p, o =>
        if p == 0 then 0.0 else Sum(k, j => Mul(At(a.data, Ix(k, o / p, j)), At(b.data, Ix(p, j, o % p))))))
  }

  // The engine's own pair.
  function TBcast(d: Value, s: Shape): Value {
    if d.Bad? then Bad else Value(s, Spread(s, Tensor(d.shape, d.data, true)))
  }

  function TAxisSum(d: Value, s: Shape): Value {
    if d.Bad? then Bad else Value(s, ReduceTo(s, d.shape, d.data))
  }

  // ── One node ──

  // What is accumulated, operand by operand.
  datatype Rule = One(c0: Value) | Two(c0: Value, c1: Value) | Refused(message: string)

  function HasZero(x: Tensor): bool { exists i :: 0 <= i < |x.data| && x.data[i] == 0.0 }

  function RuleOf(n: Node, x0: Tensor, x1: Tensor, d: Value): Rule {
    match n.op
    case Add =>
      if n.in1.None? then Refused("ad2: add null operand")
      else Two(TAxisSum(d, x0.shape), TAxisSum(d, x1.shape))
    case Sub =>
      if n.in1.None? then Refused("ad2: sub null operand")
      else Two(TAxisSum(d, x0.shape), TAxisSum(TScale(d, -1.0), x1.shape))
    case Mult =>
      if n.in1.None? then Refused("ad2: mul null operand")
      else if |x0.data| == |x1.data| then Two(TMul(d, Of(x1)), TMul(d, Of(x0)))
      else if d.Bad? then One(Bad)
      else
        Two(TAxisSum(TMul(d, TBcast(Of(x1), d.shape)), x0.shape), TAxisSum(TMul(d, TBcast(Of(x0), d.shape)), x1.shape))
    case Div =>
      if n.in1.None? then Refused("ad2: div null operand")
      else if HasZero(x1) then Refused("ad2: division by zero in backward")
      else if |x0.data| == |x1.data| then
        Two(TDiv(d, Of(x1)), TScale(TDiv(TMul(d, Of(x0)), TMul(Of(x1), Of(x1))), -1.0))
      else if d.Bad? then One(Bad)
      else
        var bb, ba := TBcast(Of(x1), d.shape), TBcast(Of(x0), d.shape);
        Two(TAxisSum(TDiv(d, bb), x0.shape),
            TAxisSum(TScale(TDiv(TMul(d, ba), TMul(bb, bb)), -1.0), x1.shape))
    case Scale => One(TScale(d, n.scalar))
    case SumAll => One(TBcast(d, x0.shape))
    case MeanAll => One(TScale(TBcast(d, x0.shape), Inv(|x0.data|)))
    case Transpose => One(TTranspose(d))
    case Reshape => One(TReshape(d, x0.shape))
    case MatMul => Two(TMatMul(d, TTranspose(Of(x1))), TMatMul(TTranspose(Of(x0)), d))
    case Relu => One(TMul(d, Value(x0.shape, ReluMask(x0.data))))
    case Conv2D => Refused("ad2: CONV2D unsupported (use GRAD)")
    case SumAxis => Refused("ad2: SUM_AXIS unsupported (use GRAD)")
    case MeanAxis => Refused("ad2: MEAN_AXIS unsupported (use GRAD)")
    case VarAxis => Refused("ad2: VAR_AXIS unsupported (use GRAD)")
    case Bcast => One(TAxisSum(d, x0.shape))
    case AxisSum => One(TBcast(d, x0.shape))
  }

  // ── Equal shapes ──

  // A shape broadcasts onto itself position by position.
  lemma BcSelf(s: Shape, o: int)
    requires 0 <= o < Size(s)
    ensures Bc(s, s, o) == o
  {
    RavelUnravel(s, o);
    var u := Unravel(s, o);
    forall k | 0 <= k < |s|
      ensures BcCoords(s, u)[k] == u[k]
    {
    }
    assert BcCoords(s, u) == u;
  }

  lemma SelfCompatible(s: Shape)
    ensures Compatible(s, s) && Joint(s, s) == s
  {
    forall k | 0 <= k < |s|
      ensures Joint(s, s)[k] == s[k]
    {
    }
  }

  // Summing down onto the shape it already has changes nothing.
  lemma AxisSumIdentity(s: Shape, d: seq<real>)
    requires |d| == Size(s)
    ensures ReduceTo(s, s, d) == d
  {
    forall o | 0 <= o < |d|
      ensures Bc(s, s, o) == o
    {
      BcSelf(s, o);
    }
    ReduceOfBijection(Size(s), o => Bc(s, s, o), o => o, d);
    assert Gather(Size(s), o => o, d) == d;
  }

  lemma SpreadIdentity(s: Shape, d: seq<real>)
    requires |d| == Size(s)
    ensures Spread(s, Tensor(s, d, true)) == d
  {
    var u := Tensor(s, d, true);
    forall o | 0 <= o < Size(s)
      ensures Spread(s, u)[o] == d[o]
    {
      BcSelf(s, o);
      assert Spread(s, u)[o] == At(u.data, Bc(u.shape, s, o));
    }
  }

  lemma ElementwiseSame(s: Shape, a: seq<real>, b: seq<real>, f: (real, real) -> real)
    requires |a| == |b| == Size(s)
    ensures var r := Elementwise(Value(s, a), Value(s, b), f);
      r.Value? && r.shape == s && |r.data| == |a| && forall o :: 0 <= o < |a| ==> r.data[o] == f(a[o], b[o])
  {
    hide Bc, Compatible, Joint;
    SelfCompatible(s);
    var r := Elementwise(Value(s, a), Value(s, b), f);
    forall o | 0 <= o < |a|
      ensures r.data[o] == f(a[o], b[o])
    {
      BcSelf(s, o);
      assert r.data[o] == f(At(a, Bc(s, s, o)), At(b, Bc(s, s, o)));
    }
  }

  lemma AddSame(s: Shape, a: seq<real>, b: seq<real>)
    requires |a| == |b| == Size(s)
    ensures TAdd(Value(s, a), Value(s, b)) == Value(s, Plus(a, b))
  {
    ElementwiseSame(s, a, b, AddOf);
  }

  lemma MulSame(s: Shape, a: seq<real>, b: seq<real>)
    requires |a| == |b| == Size(s)
    ensures TMul(Value(s, a), Value(s, b)) == Value(s, Times(a, b))
  {
    ElementwiseSame(s, a, b, Mul);
    forall o | 0 <= o < |a|
      ensures TMul(Value(s, a), Value(s, b)).data[o] == Times(a, b)[o]
    {
    }
  }

  lemma DivSame(s: Shape, a: seq<real>, b: seq<real>)
    requires |a| == |b| == Size(s)
    ensures TDiv(Value(s, a), Value(s, b)) == Value(s, DivAData(a, b))
  {
    ElementwiseSame(s, a, b, Quot);
  }

  // ── Agreement with the first engine ──

  // Nodes the second engine handles as the first one does. A product or quotient
  // of equally many elements is taken element by element, whatever the shapes.
  ghost predicate Regular(mem: Memory, n: Node) {
    var x0, x1 := OperandAt(mem, n, 0), OperandAt(mem, n, 1);
    match n.op
    case Add => n.in1.Some?
    case Sub => n.in1.Some?
    case Mult => |x0.data| == |x1.data| ==> x0.shape == x1.shape == OutShape(mem, n)
    case Div => !HasZero(x1) && (|x0.data| == |x1.data| ==> x0.shape == x1.shape == OutShape(mem, n))
    case Conv2D => false
    case SumAxis => false
    case MeanAxis => false
    case VarAxis => false
    case _ => true
  }

  // The contribution to an operand, as the first engine computes it.
  ghost function Due(mem: Memory, n: Node, d: seq<real>, slot: nat): Value {
    Value(OperandAt(mem, n, slot).shape, NodeContribution(mem, n, d, slot))
  }

  ghost predicate RuleIsDue(mem: Memory, n: Node, d: seq<real>) {
    var r := RuleOf(n, OperandAt(mem, n, 0), OperandAt(mem, n, 1), Value(OutShape(mem, n), d));
    !r.Refused? && r.c0 == Due(mem, n, d, 0) && (r.Two? <==> Uses(n, 1)) && (r.Two? ==> r.c1 == Due(mem, n, d, 1))
  }

  lemma {:induction false} ScatterScale(n: nat, sigma: int -> int, v: seq<real>, c: real, k: nat)
    requires k <= |v|
    ensures Scatter(n, sigma, ScaleBy(c, v), k) == ScaleBy(c, Scatter(n, sigma, v, k))
  {
    if k == 0 {
      MulDistributes(c, 0.0, 0.0);
      assert ScaleBy(c, Zeros(n)) == Zeros(n);
    } else {
      ScatterScale(n, sigma, v, c, k - 1);
      var before := Scatter(n, sigma, v, k - 1);
      var i := sigma(k - 1);
      if 0 <= i < n { MulDistributes(c, before[i], At(v, k - 1)); }
      assert At(ScaleBy(c, v), k - 1) == Mul(c, At(v, k - 1));
      assert Bump(ScaleBy(c, before), i, Mul(c, At(v, k - 1))) == ScaleBy(c, Bump(before, i, At(v, k - 1)));
    }
  }

  // Scaling and summing down commute.
  lemma ReduceScale(s: Shape, os: Shape, d: seq<real>, c: real)
    ensures ReduceTo(s, os, ScaleBy(c, d)) == ScaleBy(c, ReduceTo(s, os, d))
  {
    ScatterScale(Size(s), o => Bc(s, os, o), d, c, |d|);
  }

  lemma MultRule(mem: Memory, n: Node, d: seq<real>)
    requires n.op == Mult && NodeInMemory(mem, n) && |d| == |mem[n.out].data| && Regular(mem, n)
    ensures RuleIsDue(mem, n, d)
  {
    hide ReduceTo, Spread, Times, Elementwise;
    var os, x0, x1 := OutShape(mem, n), OperandAt(mem, n, 0), OperandAt(mem, n, 1);
    if |x0.data| == |x1.data| {
      MulSame(os, d, x1.data);
      MulSame(os, d, x0.data);
      SpreadSelf(os, x1);
      SpreadSelf(os, x0);
      AxisSumIdentity(os, Times(d, x1.data));
      AxisSumIdentity(os, Times(d, x0.data));
    } else {
      MulSame(os, d, Spread(os, x1));
      MulSame(os, d, Spread(os, x0));
      SpreadFlag(os, x0);
      SpreadFlag(os, x1);
    }
  }

  lemma SpreadFlag(os: Shape, x: Tensor)
    ensures Spread(os, Tensor(x.shape, x.data, true)) == Spread(os, x)
  {
    var y := Tensor(x.shape, x.data, true);
    forall o | 0 <= o < Size(os)
      ensures Spread(os, y)[o] == Spread(os, x)[o]
    {
      assert Spread(os, y)[o] == At(x.data, Bc(x.shape, os, o));
    }
  }

  lemma SpreadSelf(os: Shape, x: Tensor)
    requires x.shape == os && |x.data| == Size(os)
    ensures Spread(os, x) == x.data
  {
    hide Spread;
    SpreadFlag(os, x);
    SpreadIdentity(os, x.data);
  }

  // -(d * a) / (b * b), as two products, a quotient and a scaling by -1.
  lemma QuotSame(s: Shape, d: seq<real>, a: seq<real>, b: seq<real>)
    requires |d| == |a| == |b| == Size(s)
    ensures var q := TDiv(TMul(Value(s, d), Value(s, a)), TMul(Value(s, b), Value(s, b)));
      q.Value? && TScale(q, -1.0) == Value(s, DivBData(d, a, b))
  {
    hide Elementwise;
    MulSame(s, d, a);
    MulSame(s, b, b);
    DivSame(s, Times(d, a), Times(b, b));
    var q := DivAData(Times(d, a), Times(b, b));
    forall o | 0 <= o < |d|
      ensures ScaleBy(-1.0, q)[o] == DivBData(d, a, b)[o]
    {
      QuotNegated(Mul(d[o], a[o]), Mul(b[o], b[o]));
    }
  }

  lemma QuotNegated(x: real, y: real)
    ensures Mul(-1.0, Quot(x, y)) == Quot(-x, y)
  {
    if y != 0.0 {
      var q := x / y;
      assert q * y == x;
      assert (-x) / y == -q;
    }
  }

  lemma DivRule(mem: Memory, n: Node, d: seq<real>)
    requires n.op == Div && NodeInMemory(mem, n) && |d| == |mem[n.out].data| && Regular(mem, n)
    ensures RuleIsDue(mem, n, d)
  {
    hide ReduceTo, Spread, Times, Elementwise, DivAData, DivBData, HasZero;
    var os, x0, x1 := OutShape(mem, n), OperandAt(mem, n, 0), OperandAt(mem, n, 1);
    if |x0.data| == |x1.data| {
      DivSame(os, d, x1.data);
      QuotSame(os, d, x0.data, x1.data);
      SpreadSelf(os, x1);
      SpreadSelf(os, x0);
      AxisSumIdentity(os, DivAData(d, x1.data));
      AxisSumIdentity(os, DivBData(d, x0.data, x1.data));
    } else {
      DivSame(os, d, Spread(os, x1));
      QuotSame(os, d, Spread(os, x0), Spread(os, x1));
      SpreadFlag(os, x0);
      SpreadFlag(os, x1);
    }
  }

  lemma ScalarRule(mem: Memory, n: Node, d: seq<real>)
    requires (n.op == SumAll || n.op == MeanAll) && NodeInMemory(mem, n) && |d| == |mem[n.out].data|
    ensures RuleIsDue(mem, n, d)
  {
    var x0 := OperandAt(mem, n, 0);
    var one := Tensor([1], d, true);
    forall i | 0 <= i < Size(x0.shape)
      ensures Spread(x0.shape, one)[i] == At(d, 0)
    {
      assert Spread(x0.shape, one)[i] == At(d, Bc([1], x0.shape, i));
      assert BcCoords([1], Unravel(x0.shape, i)) == [0];
      RavelZeros([1], [0]);
    }
    MulComm(At(d, 0), Inv(|x0.data|));
    assert NodeContribution(mem, n, d, 0) == RuleOf(n, x0, OperandAt(mem, n, 1), Value(OutShape(mem, n), d)).c0.data;
  }

  lemma TransposedAt(rows: nat, cols: nat, b: seq<real>, l: nat, j: nat)
    requires j < rows && l < cols
    ensures var t := TTranspose(Value([rows, cols], b));
      t.Value? && t.shape == [cols, rows] && |t.data| == cols * rows
        && At(t.data, Ix(rows, l, j)) == At(b, Ix(cols, j, l))
  {
    FlatBound(cols, rows, l, j);
    var t := TTranspose(Value([rows, cols], b));
    assert t.data[Ix(rows, l, j)] == At(b, Swap(rows, cols, Ix(rows, l, j)));
  }

  lemma MatARule(d: seq<real>, b: seq<real>, m: nat, k: nat, p: nat)
    ensures TMatMul(Value([m, p], d), TTranspose(Value([k, p], b))) == Value([m, k], MatAData(d, b, m, k, p))
  {
    hide TTranspose;
    var t := TTranspose(Value([k, p], b));
    TransposeShape(k, p, b);
    var r := TMatMul(Value([m, p], d), t);
    forall o | 0 <= o < m * k
      ensures r.data[o] == MatAData(d, b, m, k, p)[o]
    {
      MulZero(m, k);
      DivBound(o, m, k);
      forall l | 0 <= l < p
        ensures Mul(At(d, Ix(p, o / k, l)), At(t.data, Ix(k, l, o % k)))
          == Mul(At(d, Ix(p, o / k, l)), At(b, Ix(p, o % k, l)))
      {
        TransposedAt(k, p, b, l, o % k);
      }
      SumEq(p, l => Mul(At(d, Ix(p, o / k, l)), At(t.data, Ix(k, l, o % k))),
        l => Mul(At(d, Ix(p, o / k, l)), At(b, Ix(p, o % k, l))));
    }
  }

  lemma TransposeShape(rows: nat, cols: nat, b: seq<real>)
    ensures var t := TTranspose(Value([rows, cols], b)); t.Value? && t.shape == [cols, rows] && |t.data| == cols * rows
  {
  }

  lemma MatBRule(a: seq<real>, d: seq<real>, m: nat, k: nat, p: nat)
    ensures TMatMul(TTranspose(Value([m, k], a)), Value([m, p], d)) == Value([k, p], MatBData(a, d, m, k, p))
  {
    hide TTranspose;
    var t := TTranspose(Value([m, k], a));
    TransposeShape(m, k, a);
    var r := TMatMul(t, Value([m, p], d));
    forall o | 0 <= o < k * p
      ensures r.data[o] == MatBData(a, d, m, k, p)[o]
    {
      MulZero(k, p);
      DivBound(o, k, p);
      forall i | 0 <= i < m
        ensures Mul(At(t.data, Ix(m, o / p, i)), At(d, Ix(p, i, o % p)))
          == Mul(At(a, Ix(k, i, o / p)), At(d, Ix(p, i, o % p)))
      {
        TransposedAt(m, k, a, o / p, i);
      }
      SumEq(m, i => Mul(At(t.data, Ix(m, o / p, i)), At(d, Ix(p, i, o % p))),
        i => Mul(At(a, Ix(k, i, o / p)), At(d, Ix(p, i, o % p))));
    }
  }

  lemma MatMulRules(mem: Memory, n: Node, d: seq<real>)
    requires n.op == MatMul && NodeInMemory(mem, n) && |d| == |mem[n.out].data|
    ensures RuleIsDue(mem, n, d)
  {
    hide TMatMul, TTranspose;
    var x0, x1 := OperandAt(mem, n, 0), OperandAt(mem, n, 1);
    var m, k, p := x0.shape[0], x0.shape[1], x1.shape[1];
    assert x0.shape == [m, k] && x1.shape == [k, p];
    MatARule(d, x1.data, m, k, p);
    MatBRule(x0.data, d, m, k, p);
  }

  lemma PlainRule(mem: Memory, n: Node, d: seq<real>)
    requires n.op == Add || n.op == Sub || n.op == Scale || n.op == Reshape || n.op == Bcast || n.op == AxisSum
    requires NodeInMemory(mem, n) && |d| == |mem[n.out].data| && Regular(mem, n)
    ensures RuleIsDue(mem, n, d)
  {
    hide ReduceTo, ScaleBy;
    var os, x0 := OutShape(mem, n), OperandAt(mem, n, 0);
    if n.op == Sub {
      ReduceScale(OperandAt(mem, n, 1).shape, os, d, -1.0);
    } else if n.op == AxisSum {
      SpreadGather(x0.shape, os, d);
    }
  }

  lemma SpreadGather(s: Shape, os: Shape, d: seq<real>)
    ensures Spread(s, Tensor(os, d, true)) == Gather(Size(s), i => Bc(os, s, i), d)
  {
    var u := Tensor(os, d, true);
    forall i | 0 <= i < Size(s)
      ensures Spread(s, u)[i] == Gather(Size(s), i => Bc(os, s, i), d)[i]
    {
      assert Spread(s, u)[i] == At(u.data, Bc(u.shape, s, i));
    }
  }

  lemma TransposeRule(mem: Memory, n: Node, d: seq<real>)
    requires n.op == Transpose && NodeInMemory(mem, n) && |d| == |mem[n.out].data|
    ensures RuleIsDue(mem, n, d)
  {
    var x0 := OperandAt(mem, n, 0);
    Size2(x0.shape);
  }

  lemma ReluRule(mem: Memory, n: Node, d: seq<real>)
    requires n.op == Relu && NodeInMemory(mem, n) && |d| == |mem[n.out].data|
    ensures RuleIsDue(mem, n, d)
  {
    hide Times, ReluMask, Elementwise;
    var x0 := OperandAt(mem, n, 0);
    MulSame(x0.shape, d, ReluMask(x0.data));
  }

  // A regular node hands its operands exactly what the first engine does, in their own shapes.
  lemma RuleMatches(mem: Memory, n: Node, d: seq<real>)
    requires NodeInMemory(mem, n) && |d| == |mem[n.out].data| && Regular(mem, n)
    ensures RuleIsDue(mem, n, d)
  {
    hide RuleIsDue, NodeInMemory;
    match n.op
    case Mult => MultRule(mem, n, d);
    case Div => DivRule(mem, n, d);
    case SumAll => ScalarRule(mem, n, d);
    case MeanAll => ScalarRule(mem, n, d);
    case MatMul => MatMulRules(mem, n, d);
    case Transpose => TransposeRule(mem, n, d);
    case Relu => ReluRule(mem, n, d);
    case Add => PlainRule(mem, n, d);
    case Sub => PlainRule(mem, n, d);
    case Scale => PlainRule(mem, n, d);
    case Reshape => PlainRule(mem, n, d);
    case Bcast => PlainRule(mem, n, d);
    case AxisSum => PlainRule(mem, n, d);
  }

  // ── Where it does not agree ──

  lemma JointFromRight(s: Shape, t: Shape, k: nat)
    ensures FromRight(Joint(s, t), k) == if FromRight(s, k) == 1 then FromRight(t, k) else FromRight(s, k)
  {
  }

  lemma SameFromRight(r: Shape, s: Shape)
    requires |r| == |s| && forall k: nat :: k < |r| ==> FromRight(r, k) == FromRight(s, k)
    ensures r == s
  {
    forall i | 0 <= i < |r|
      ensures r[i] == s[i]
    {
      assert FromRight(r, |r| - 1 - i) == FromRight(s, |r| - 1 - i);
    }
  }

  lemma JointAbsorbs(s: Shape, t: Shape)
    ensures Joint(Joint(s, t), s) == Joint(s, t) && Joint(Joint(s, t), t) == Joint(s, t)
  {
    hide Joint, FromRight;
    var os := Joint(s, t);
    forall k: nat
      ensures FromRight(Joint(os, s), k) == FromRight(os, k) && FromRight(Joint(os, t), k) == FromRight(os, k)
    {
      JointFromRight(s, t, k);
      JointFromRight(os, s, k);
      JointFromRight(os, t, k);
    }
    SameFromRight(Joint(os, s), os);
    SameFromRight(Joint(os, t), os);
  }

  // A product's or quotient's contributions have their operands' shapes exactly
  // when the node is regular.
  lemma ProductShapes(mem: Memory, n: Node, d: seq<real>)
    requires (n.op == Mult || (n.op == Div && !HasZero(OperandAt(mem, n, 1)))) && NodeInMemory(mem, n)
    requires |d| == |mem[n.out].data|
    requires OutShape(mem, n) == Joint(OperandAt(mem, n, 0).shape, OperandAt(mem, n, 1).shape)
    ensures var x0, x1 := OperandAt(mem, n, 0), OperandAt(mem, n, 1);
      var r := RuleOf(n, x0, x1, Value(OutShape(mem, n), d));
      Regular(mem, n) <==> r.Two? && r.c0.Value? && r.c1.Value? && r.c0.shape == x0.shape && r.c1.shape == x1.shape
  {
    hide Joint, Compatible, HasZero;
    var x0, x1, os := OperandAt(mem, n, 0), OperandAt(mem, n, 1), OutShape(mem, n);
    if Regular(mem, n) {
      RuleMatches(mem, n, d);
    } else {
      JointAbsorbs(x0.shape, x1.shape);
      SelfCompatible(x1.shape);
    }
  }

  // A column of 2 times a row of 2: as many elements each, and a 2 x 2 gradient for the column.
  lemma ColumnTimesRow(d: seq<real>)
    requires |d| == 4
    ensures var x0, x1 := Tensor([2, 1], [1.0, 2.0], true), Tensor([1, 2], [3.0, 4.0], true);
      var r := RuleOf(Node(Mult, 0, Some(1), None, 0.0, 2, 0, 0), x0, x1, Value([2, 2], d));
      r.Two? && r.c0.Value? && r.c0.shape == [2, 2] && |r.c0.data| == 4
  {
    assert Joint([2, 2], [1, 2]) == [2, 2];
    assert Size([2, 2]) == 4 by { Size2([2, 2]); }
  }
}
