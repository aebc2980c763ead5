// For every recorded operation: <d, tangent of the result> equals the sum over
// the operands of <contribution of d, tangent of the operand>.
module Adjoint {
  import opened Options
  import opened Arith
  import opened Shapes
  import opened Sums
  import opened Tape
  import opened Rules
  import opened NodeRule
  import MatMulRule
  import AxisRule
  import ConvRule

  // Which operand slots the operation reads.
  predicate Uses(n: Node, slot: nat) {
    || slot == 0
    || (slot == 1 && n.in1.Some? &&
        (n.op == Add || n.op == Sub || n.op == Mult || n.op == Div || n.op == MatMul || n.op == Conv2D))
    || (slot == 2 && n.in2.Some? && n.op == Conv2D)
  }

  ghost predicate Filled(x: Tensor, present: bool) {
    |x.data| == if present then Size(x.shape) else 0
  }

  ghost predicate NodeOk(n: Node, os: Shape, x0: Tensor, x1: Tensor, x2: Tensor) {
    && ShapesOk(n, os, x0, x1, x2)
    && Filled(x0, true) && Filled(x1, Uses(n, 1)) && Filled(x2, Uses(n, 2))
  }

  ghost function Pairing(n: Node, os: Shape, x0: Tensor, x1: Tensor, x2: Tensor, d: seq<real>,
                         t0: seq<real>, t1: seq<real>, t2: seq<real>): real {
    Dot(Contribution(n, os, x0, x1, x2, d, 0), t0)
    + (if Uses(n, 1) then Dot(Contribution(n, os, x0, x1, x2, d, 1), t1) else 0.0)
    + (if Uses(n, 2) then Dot(Contribution(n, os, x0, x1, x2, d, 2), t2) else 0.0)
  }

  lemma SpreadOfNothing(os: Shape, x: Tensor, d: seq<real>)
    ensures Dot(d, Spread(os, x.(data := []))) == 0.0
  {
    var s := Spread(os, x.(data := []));
    forall i | 0 <= i < |s|
      ensures s[i] == 0.0
    {
      assert s[i] == At([], Bc(x.shape, os, i));
    }
    DotZeroRight(d, s);
  }

  lemma AddAdjoint(n: Node, os: Shape, x0: Tensor, x1: Tensor, x2: Tensor, d: seq<real>,
                   t0: seq<real>, t1: seq<real>, t2: seq<real>)
    requires n.op == Add && NodeOk(n, os, x0, x1, x2) && |d| == Size(os) && |t1| == |x1.data|
    ensures Dot(d, Tangent(n, os, x0, x1, x2, t0, t1, t2)) == Pairing(n, os, x0, x1, x2, d, t0, t1, t2)
  {
    hide Dot, ReduceTo, Bc, Compatible;
    var a, b := Spread(os, x0.(data := t0)), Spread(os, x1.(data := t1));
    assert Tangent(n, os, x0, x1, x2, t0, t1, t2) == Plus(a, b);
    DotPlusRight(d, a, b);
    BroadcastAdjoint(os, x0, d, t0);
    if n.in1.Some? { BroadcastAdjoint(os, x1, d, t1); } else { SpreadOfNothing(os, x1, d); }
  }

  lemma SubAdjoint(n: Node, os: Shape, x0: Tensor, x1: Tensor, x2: Tensor, d: seq<real>,
                   t0: seq<real>, t1: seq<real>, t2: seq<real>)
    requires n.op == Sub && NodeOk(n, os, x0, x1, x2) && |d| == Size(os) && |t1| == |x1.data|
    ensures Dot(d, Tangent(n, os, x0, x1, x2, t0, t1, t2)) == Pairing(n, os, x0, x1, x2, d, t0, t1, t2)
  {
    hide Dot, ReduceTo, Bc, Compatible;
    var a, b := Spread(os, x0.(data := t0)), Spread(os, x1.(data := t1));
    assert Tangent(n, os, x0, x1, x2, t0, t1, t2) == Plus(a, ScaleBy(-1.0, b));
    DotPlusRight(d, a, ScaleBy(-1.0, b));
    DotScaleRight(d, -1.0, b);
    DotScaleLeft(-1.0, ReduceTo(x1.shape, os, d), t1);
    BroadcastAdjoint(os, x0, d, t0);
    if n.in1.Some? { BroadcastAdjoint(os, x1, d, t1); } else { SpreadOfNothing(os, x1, d); }
  }

  lemma MultAdjoint(n: Node, os: Shape, x0: Tensor, x1: Tensor, x2: Tensor, d: seq<real>,
                    t0: seq<real>, t1: seq<real>, t2: seq<real>)
    requires n.op == Mult && NodeOk(n, os, x0, x1, x2) && |d| == Size(os)
    ensures Dot(d, Tangent(n, os, x0, x1, x2, t0, t1, t2)) == Pairing(n, os, x0, x1, x2, d, t0, t1, t2)
  {
    hide Dot, ReduceTo, Bc, Compatible, Mul;
    var u0, u1 := Spread(os, x0), Spread(os, x1);
    var a, b := Spread(os, x0.(data := t0)), Spread(os, x1.(data := t1));
    var y := Tangent(n, os, x0, x1, x2, t0, t1, t2);
    var z := Plus(Times(u0, b), Times(u1, a));
    forall o | 0 <= o < Size(os)
      ensures y[o] == z[o]
    {
      MulComm(At(u1, o), At(a, o));
    }
    assert y == z;
    DotPlusRight(d, Times(u0, b), Times(u1, a));
    BroadcastTimesAdjoint(os, x0, d, u1, t0);
    BroadcastTimesAdjoint(os, x1, d, u0, t1);
  }

  lemma DivAdjoint(n: Node, os: Shape, x0: Tensor, x1: Tensor, x2: Tensor, d: seq<real>,
                   t0: seq<real>, t1: seq<real>, t2: seq<real>)
    requires n.op == Div && NodeOk(n, os, x0, x1, x2) && |d| == Size(os)
    ensures Dot(d, Tangent(n, os, x0, x1, x2, t0, t1, t2)) == Pairing(n, os, x0, x1, x2, d, t0, t1, t2)
  {
    hide Dot, ReduceTo, Bc, Compatible, Mul, Quot, DivA, DivB;
    var u0, u1 := Spread(os, x0), Spread(os, x1);
    var a, b := Spread(os, x0.(data := t0)), Spread(os, x1.(data := t1));
    var y := Tangent(n, os, x0, x1, x2, t0, t1, t2);
    var da, db := DivAData(d, u1), DivBData(d, u0, u1);
    forall o | 0 <= o < |d|
      ensures Prod(d, y, o) == Prod(da, a, o) + Prod(db, b, o)
    {
      QuotientPoint(At(d, o), At(u0, o), At(u1, o), At(a, o), At(b, o));
      assert At(y, o) == Quot(Mul(At(a, o), At(u1, o)) - Mul(At(u0, o), At(b, o)), Mul(At(u1, o), At(u1, o)));
    }
    DotSplit(d, y, da, a, db, b);
    BroadcastAdjoint(os, x0, da, t0);
    BroadcastAdjoint(os, x1, db, t1);
  }

  lemma DotSplit(d: seq<real>, y: seq<real>, a: seq<real>, s: seq<real>, b: seq<real>, t: seq<real>)
    requires |a| == |b| == |d|
    requires forall o :: 0 <= o < |d| ==> Prod(d, y, o) == Prod(a, s, o) + Prod(b, t, o)
    ensures Dot(d, y) == Dot(a, s) + Dot(b, t)
  {
    SumAdd(|d|, o => Prod(a, s, o), o => Prod(b, t, o), o => Prod(d, y, o));
  }

  lemma ScaleAdjoint(n: Node, os: Shape, x0: Tensor, x1: Tensor, x2: Tensor, d: seq<real>,
                     t0: seq<real>, t1: seq<real>, t2: seq<real>)
    requires n.op == Scale && NodeOk(n, os, x0, x1, x2) && |d| == Size(os) && |t0| == |x0.data|
    ensures Dot(d, Tangent(n, os, x0, x1, x2, t0, t1, t2)) == Pairing(n, os, x0, x1, x2, d, t0, t1, t2)
  {
    hide Dot, Mul;
    assert Tangent(n, os, x0, x1, x2, t0, t1, t2) == ScaleBy(n.scalar, t0);
    DotScaleRight(d, n.scalar, t0);
    DotScaleLeft(n.scalar, d, t0);
  }

  lemma ReluAdjoint(n: Node, os: Shape, x0: Tensor, x1: Tensor, x2: Tensor, d: seq<real>,
                    t0: seq<real>, t1: seq<real>, t2: seq<real>)
    requires n.op == Relu && NodeOk(n, os, x0, x1, x2) && |d| == Size(os) && |t0| == |x0.data|
    ensures Dot(d, Tangent(n, os, x0, x1, x2, t0, t1, t2)) == Pairing(n, os, x0, x1, x2, d, t0, t1, t2)
  {
    hide Dot;
    assert Tangent(n, os, x0, x1, x2, t0, t1, t2) == Times(ReluMask(x0.data), t0);
    TimesAdjoint(d, ReluMask(x0.data), t0);
  }

  // The total of a tensor pairs a one-element gradient with every element.
  lemma TotalAdjoint(d: seq<real>, y: seq<real>, c: real, t: seq<real>, n: nat)
    requires |d| == 1 == |y| && |t| == n && y[0] == Mul(c, Sum(n, i => At(t, i)))
    ensures Dot(d, y) == Dot(seq(n, _ => Mul(At(d, 0), c)), t)
  {
    hide Mul;
    var e := Mul(At(d, 0), c);
    var g := seq(n, _ => e);
    assert g == seq(n, _ => Mul(At(d, 0), c));
    SumScale(n, e, i => At(t, i), i => Prod(g, t, i));
    MulAssoc(At(d, 0), c, Sum(n, i => At(t, i)));
    assert Dot(d, y) == Sum(0, o => Prod(d, y, o)) + Prod(d, y, 0);
  }

  lemma SumAdjoint(n: Node, os: Shape, x0: Tensor, x1: Tensor, x2: Tensor, d: seq<real>,
                   t0: seq<real>, t1: seq<real>, t2: seq<real>)
    requires (n.op == SumAll || n.op == MeanAll) && NodeOk(n, os, x0, x1, x2) && |d| == Size(os) && |t0| == |x0.data|
    ensures Dot(d, Tangent(n, os, x0, x1, x2, t0, t1, t2)) == Pairing(n, os, x0, x1, x2, d, t0, t1, t2)
  {
    hide Dot, Mul;
    var m := |x0.data|;
    var y := Tangent(n, os, x0, x1, x2, t0, t1, t2);
    var c := if n.op == SumAll then 1.0 else Inv(m);
    DSumDu(m, i => DAt(x0, t0, i), i => At(t0, i));
    assert Size(os) == 1 by { assert Size([1][1..]) == 1; }
    MulOne(Sum(m, i => At(t0, i)));
    MulOne(At(d, 0));
    TotalAdjoint(d, y, c, t0, m);
    assert Contribution(n, os, x0, x1, x2, d, 0) == seq(m, _ => Mul(At(d, 0), c));
  }

  lemma MatMulAdjoint(n: Node, os: Shape, x0: Tensor, x1: Tensor, x2: Tensor, d: seq<real>,
                      t0: seq<real>, t1: seq<real>, t2: seq<real>)
    requires n.op == MatMul && NodeOk(n, os, x0, x1, x2) && |d| == Size(os)
    ensures Dot(d, Tangent(n, os, x0, x1, x2, t0, t1, t2)) == Pairing(n, os, x0, x1, x2, d, t0, t1, t2)
  {
    hide Dot, Mul, MatAData, MatBData, Ix;
    var m, k, p := Dim(x0.shape, 0), Dim(x0.shape, 1), Dim(x1.shape, 1);
    Size2(os);
    var a, b := x0.data, x1.data;
    var left, right := MatMulRule.Product(t0, b, m, k, p), MatMulRule.Product(a, t1, m, k, p);
    var y := Tangent(n, os, x0, x1, x2, t0, t1, t2);
    forall o | 0 <= o < m * p
      ensures y[o] == Plus(right, left)[o]
    {
      MulZero(m, p);
      var du := (j: int) => Mul(At(a, Ix(k, o / p, j)), At(t1, Ix(p, j, o % p)))
        + Mul(At(t0, Ix(k, o / p, j)), At(b, Ix(p, j, o % p)));
      DSumDu(k, j => DMul(DAt(x0, t0, Ix(k, o / p, j)), DAt(x1, t1, Ix(p, j, o % p))), du);
      SumAdd(k, j => Mul(At(a, Ix(k, o / p, j)), At(t1, Ix(p, j, o % p))),
             j => Mul(At(t0, Ix(k, o / p, j)), At(b, Ix(p, j, o % p))), du);
    }
    assert y == Plus(right, left);
    DotPlusRight(d, right, left);
    MatMulRule.GradAAdjoint(d, b, t0, m, k, p);
    MatMulRule.GradBAdjoint(a, d, t1, m, k, p);
  }

  lemma Size2(s: Shape)
    requires |s| == 2
    ensures Size(s) == s[0] * s[1]
  {
    assert Size(s[1..][1..]) == 1;
  }

  lemma TransposeAdjoint(n: Node, os: Shape, x0: Tensor, x1: Tensor, x2: Tensor, d: seq<real>,
                         t0: seq<real>, t1: seq<real>, t2: seq<real>)
    requires n.op == Transpose && NodeOk(n, os, x0, x1, x2) && |d| == Size(os)
    ensures Dot(d, Tangent(n, os, x0, x1, x2, t0, t1, t2)) == Pairing(n, os, x0, x1, x2, d, t0, t1, t2)
  {
    hide Dot, Ix;
    var r, c := x0.shape[0], x0.shape[1];
    Size2(os);
    Size2(x0.shape);
    var size := r * c;
    var there, back := (o: int) => Swap(r, c, o), (q: int) => Swap(c, r, q);
    forall i | 0 <= i < size
      ensures 0 <= back(i) < |d| && there(back(i)) == i && 0 <= there(i) < size && back(there(i)) == i
    {
      SwapInverse(c, r, i);
      SwapInverse(r, c, i);
    }
    ReduceAdjoint(size, there, d, t0);
    ReduceOfBijection(size, there, back, d);
    assert Tangent(n, os, x0, x1, x2, t0, t1, t2) == Gather(|d|, there, t0);
    assert Contribution(n, os, x0, x1, x2, d, 0) == Gather(size, back, d);
  }

  lemma ReshapeAdjoint(n: Node, os: Shape, x0: Tensor, x1: Tensor, x2: Tensor, d: seq<real>,
                       t0: seq<real>, t1: seq<real>, t2: seq<real>)
    requires n.op == Reshape && NodeOk(n, os, x0, x1, x2) && |d| == Size(os) && |t0| == |x0.data|
    ensures Dot(d, Tangent(n, os, x0, x1, x2, t0, t1, t2)) == Pairing(n, os, x0, x1, x2, d, t0, t1, t2)
  {
    hide Dot;
    assert Tangent(n, os, x0, x1, x2, t0, t1, t2) == t0;
  }

  lemma BcastAdjoint(n: Node, os: Shape, x0: Tensor, x1: Tensor, x2: Tensor, d: seq<real>,
                     t0: seq<real>, t1: seq<real>, t2: seq<real>)
    requires n.op == Bcast && NodeOk(n, os, x0, x1, x2) && |d| == Size(os)
    ensures Dot(d, Tangent(n, os, x0, x1, x2, t0, t1, t2)) == Pairing(n, os, x0, x1, x2, d, t0, t1, t2)
  {
    hide Dot, Bc;
    assert Tangent(n, os, x0, x1, x2, t0, t1, t2) == Spread(os, x0.(data := t0));
    BroadcastAdjoint(os, x0, d, t0);
  }

  lemma DotComm(a: seq<real>, b: seq<real>)
    requires |a| == |b|
    ensures Dot(a, b) == Dot(b, a)
  {
    forall i | 0 <= i < |a|
      ensures Prod(a, b, i) == Prod(b, a, i)
    {
      MulComm(At(a, i), At(b, i));
    }
    DotEq(a, b, b, a);
  }

  // A scatter collects, at each place, everything that is sent there.
  lemma {:induction false} ScatterSum(n: nat, sigma: int -> int, v: seq<real>, k: nat, o: nat)
    requires o < n
    ensures Scatter(n, sigma, v, k)[o] == Sum(k, i => if sigma(i) == o then At(v, i) else 0.0)
  {
    if k > 0 { ScatterSum(n, sigma, v, k - 1, o); }
  }

  lemma AxisSumAdjoint(n: Node, os: Shape, x0: Tensor, x1: Tensor, x2: Tensor, d: seq<real>,
                       t0: seq<real>, t1: seq<real>, t2: seq<real>)
    requires n.op == AxisSum && NodeOk(n, os, x0, x1, x2) && |d| == Size(os) && |t0| == |x0.data|
    ensures Dot(d, Tangent(n, os, x0, x1, x2, t0, t1, t2)) == Pairing(n, os, x0, x1, x2, d, t0, t1, t2)
  {
    hide Dot, Bc, Compatible;
    var m, s0 := |x0.data|, x0.shape;
    var sigma := (i: int) => Bc(os, s0, i);
    forall i | 0 <= i < m
      ensures 0 <= sigma(i) < Size(os)
    {
      BcBound(os, s0, i);
    }
    var y := Tangent(n, os, x0, x1, x2, t0, t1, t2);
    forall o | 0 <= o < Size(os)
      ensures y[o] == Reduce(Size(os), sigma, t0)[o]
    {
      ScatterSum(Size(os), sigma, t0, m, o);
      var h := (i: int) => if sigma(i) == o then At(t0, i) else 0.0;
      DSumDu(m, i => if Bc(os, s0, i) == o then DAt(x0, t0, i) else Dual(0.0, 0.0), h);
      SumEq(m, h, i => if sigma(i) == o then At(t0, i) else 0.0);
    }
    assert y == Reduce(Size(os), sigma, t0);
    var back := Gather(m, sigma, d);
    assert Contribution(n, os, x0, x1, x2, d, 0) == back;
    ReduceAdjoint(Size(os), sigma, t0, d);
    DotComm(y, d);
    DotComm(back, t0);
  }

  lemma SizeStep(s: Shape)
    requires s != []
    ensures Size(s) == s[0] * Size(s[1..])
  {
  }

  lemma ProductAssoc(a: int, b: int, c: int)
    ensures a * (b * c) == a * b * c
  {
  }

  lemma SizeSplit(s: Shape, axis: nat)
    requires axis < |s|
    ensures Size(s) == Outer(s, axis) * Red(s, axis) * Inner(s, axis)
  {
    hide Size;
    var rest := s[axis..];
    SizeConcat(s[..axis], rest);
    assert s == s[..axis] + rest;
    SizeStep(rest);
    assert rest[1..] == s[axis + 1..];
    ProductAssoc(Size(s[..axis]), s[axis], Size(s[axis + 1..]));
  }

  lemma {:induction false} SizeConcat(a: Shape, b: Shape)
    ensures Size(a + b) == Size(a) * Size(b)
  {
    if a == [] {
      assert a + b == b;
    } else {
      SizeConcat(a[1..], b);
      assert (a + b)[1..] == a[1..] + b;
    }
  }

  ghost function WeightData(op: Op, x: seq<real>, red: nat, inner: nat): (w: seq<real>)
    ensures |w| == |x|
  {
    seq(|x|, q => AxisWeight(op, x, red, inner, q))
  }

  // The tangent of an axis statistic is the weighted sum of its group's tangents.
  lemma AxisTangent(n: Node, x0: Tensor, t0: seq<real>, outer: nat, red: nat, inner: nat, o: int)
    requires n.op == SumAxis || n.op == MeanAxis || n.op == VarAxis
    requires 0 <= o < outer * inner && |x0.data| == outer * red * inner
    ensures (match n.op
             case SumAxis => DSum(red, r => DAt(x0, t0, AxisAt(red, inner, o, r)))
             case MeanAxis => AxisMean(x0, t0, red, inner, o)
             case _ => DScale(Inv(red), DSum(red, r => SquareDev(x0, t0, red, inner, o, r)))).du
         == AxisRule.GroupSum(WeightData(n.op, x0.data, red, inner), t0, red, inner, o)
  {
    hide Mul, AxisAt, GroupOf, Inv;
    var w := WeightData(n.op, x0.data, red, inner);
    var x, t := (r: int) => At(x0.data, AxisAt(red, inner, o, r)), (r: int) => At(t0, AxisAt(red, inner, o, r));
    DSumDu(red, r => DAt(x0, t0, AxisAt(red, inner, o, r)), t);
    DSumRe(red, r => DAt(x0, t0, AxisAt(red, inner, o, r)), x);
    var terms := (r: int) => Prod(w, t0, AxisAt(red, inner, o, r));
    forall r | 0 <= r < red
      ensures GroupOf(red, inner, AxisAt(red, inner, o, r)) == o
      ensures terms(r) == Mul(AxisWeight(n.op, x0.data, red, inner, AxisAt(red, inner, o, r)), t(r))
    {
      GroupGeometry(outer, red, inner, o, r);
    }
    match n.op
    case SumAxis =>
      forall r | 0 <= r < red
        ensures terms(r) == t(r)
      {
        MulOne(t(r));
      }
      SumEq(red, terms, t);
    case MeanAxis =>
      SumScale(red, Inv(red), t, terms);
    case _ =>
      VarAxisTangent(x0, t0, red, inner, o, x, t, terms);
  }

  lemma VarAxisTangent(x0: Tensor, t0: seq<real>, red: nat, inner: nat, o: int,
                       x: int -> real, t: int -> real, terms: int -> real)
    requires forall r :: 0 <= r < red ==> x(r) == At(x0.data, AxisAt(red, inner, o, r))
    requires forall r :: 0 <= r < red ==> t(r) == At(t0, AxisAt(red, inner, o, r))
    requires forall r :: 0 <= r < red ==> GroupOf(red, inner, AxisAt(red, inner, o, r)) == o
    requires forall r :: 0 <= r < red ==>
      terms(r) == Mul(VarWeight(x0.data, red, inner, AxisAt(red, inner, o, r)), t(r))
    ensures DScale(Inv(red), DSum(red, r => SquareDev(x0, t0, red, inner, o, r))).du == Sum(red, terms)
  {
    hide Mul, AxisAt, GroupOf, Inv, SquareDev, Cross, VarWeight, Weighted, Mean;
    var mu, mt := Mean(red, x), Mean(red, t);
    AxisMeanIs(x0, t0, red, inner, o, x, t);
    forall r | 0 <= r < red
      ensures SquareDev(x0, t0, red, inner, o, r).du == Cross(x, t, mu, mt, r)
      ensures terms(r) == Weighted(x, t, mu, Inv(red), r)
    {
      SquareDevIs(x0, t0, red, inner, o, x, t, r);
      VarWeightIs(x0.data, red, inner, o, x, t, r);
    }
    DSumDu(red, r => SquareDev(x0, t0, red, inner, o, r), r => Cross(x, t, mu, mt, r));
    VarianceTangent(red, x, t);
    SumEq(red, terms, r => Weighted(x, t, mu, Inv(red), r));
  }

  lemma AxisMeanIs(x0: Tensor, t0: seq<real>, red: nat, inner: nat, o: int, x: int -> real, t: int -> real)
    requires forall r :: 0 <= r < red ==> x(r) == At(x0.data, AxisAt(red, inner, o, r))
    requires forall r :: 0 <= r < red ==> t(r) == At(t0, AxisAt(red, inner, o, r))
    ensures AxisMean(x0, t0, red, inner, o) == Dual(Mean(red, x), Mean(red, t))
    ensures MeanOf(x0.data, red, inner, o) == Mean(red, x)
  {
    hide Mul, AxisAt, Inv;
    DSumDu(red, r => DAt(x0, t0, AxisAt(red, inner, o, r)), t);
    DSumRe(red, r => DAt(x0, t0, AxisAt(red, inner, o, r)), x);
    SumEq(red, x, r => At(x0.data, AxisAt(red, inner, o, r)));
  }

  lemma SquareDevIs(x0: Tensor, t0: seq<real>, red: nat, inner: nat, o: int, x: int -> real, t: int -> real, r: int)
    requires x(r) == At(x0.data, AxisAt(red, inner, o, r)) && t(r) == At(t0, AxisAt(red, inner, o, r))
    requires AxisMean(x0, t0, red, inner, o) == Dual(Mean(red, x), Mean(red, t))
    ensures SquareDev(x0, t0, red, inner, o, r).du == Cross(x, t, Mean(red, x), Mean(red, t), r)
  {
    hide Mul, AxisAt, AxisMean, Mean;
  }

  lemma VarWeightIs(data: seq<real>, red: nat, inner: nat, o: int, x: int -> real, t: int -> real, r: int)
    requires x(r) == At(data, AxisAt(red, inner, o, r)) && GroupOf(red, inner, AxisAt(red, inner, o, r)) == o
    requires MeanOf(data, red, inner, o) == Mean(red, x)
    ensures Mul(VarWeight(data, red, inner, AxisAt(red, inner, o, r)), t(r))
      == Weighted(x, t, Mean(red, x), Inv(red), r)
  {
    hide Mul, AxisAt, GroupOf, MeanOf, Mean, Inv;
  }

  lemma AxisAdjoint(n: Node, os: Shape, x0: Tensor, x1: Tensor, x2: Tensor, d: seq<real>,
                    t0: seq<real>, t1: seq<real>, t2: seq<real>)
    requires n.op == SumAxis || n.op == MeanAxis || n.op == VarAxis
    requires NodeOk(n, os, x0, x1, x2) && |d| == Size(os)
    ensures Dot(d, Tangent(n, os, x0, x1, x2, t0, t1, t2)) == Pairing(n, os, x0, x1, x2, d, t0, t1, t2)
  {
    hide Dot, Mul, GroupOf, AxisAt, AxisWeight, AxisMean, SquareDev, Outer, Inner, Red;
    var axis := AxisOf(n);
    var outer, red, inner := Outer(x0.shape, axis), Red(x0.shape, axis), Inner(x0.shape, axis);
    SizeSplit(x0.shape, axis);
    var w := WeightData(n.op, x0.data, red, inner);
    var y := Tangent(n, os, x0, x1, x2, t0, t1, t2);
    forall o | 0 <= o < |d|
      ensures y[o] == AxisRule.GroupSum(w, t0, red, inner, o)
    {
      AxisTangent(n, x0, t0, outer, red, inner, o);
    }
    assert y == AxisRule.GroupSums(w, t0, |d|, red, inner);
    assert Contribution(n, os, x0, x1, x2, d, 0) == AxisRule.Shares(d, w, red, inner);
    AxisRule.AxisAdjoint(d, w, t0, outer, red, inner);
  }

  lemma ConvTangent(g: ConvGeo, x: Tensor, k: Tensor, b: Tensor, tx: seq<real>, tk: seq<real>, tb: seq<real>, o: int)
    ensures DAdd(DAt(b, tb, DecodeOut(g, o).j), DSum(Taps(g), tap => ConvTap(g, x, k, tx, tk, o, tap))).du
         == At(tb, DecodeOut(g, o).j) + ConvRule.ConvAt(g, x.data, tk, o) + ConvRule.ConvAt(g, tx, k.data, o)
  {
    hide Mul, DecodeOut, DecodeTap, Inside, XPos, KPos, Taps;
    var du := (tap: int) => ConvRule.TapTerm(g, x.data, tk, o, tap) + ConvRule.TapTerm(g, tx, k.data, o, tap);
    DSumDu(Taps(g), tap => ConvTap(g, x, k, tx, tk, o, tap), du);
    SumAdd(Taps(g), tap => ConvRule.TapTerm(g, x.data, tk, o, tap), tap => ConvRule.TapTerm(g, tx, k.data, o, tap), du);
  }

  lemma Conv2DAdjoint(n: Node, os: Shape, x0: Tensor, x1: Tensor, x2: Tensor, d: seq<real>,
                      t0: seq<real>, t1: seq<real>, t2: seq<real>)
    requires n.op == Conv2D && NodeOk(n, os, x0, x1, x2) && |d| == Size(os) && |t2| == |x2.data|
    ensures Dot(d, Tangent(n, os, x0, x1, x2, t0, t1, t2)) == Pairing(n, os, x0, x1, x2, d, t0, t1, t2)
  {
    hide Dot, Mul, ConvData, DecodeOut, ConvTap, Taps, ConvRule.ConvAt, DAt;
    var g := GeoOf(n, os, x0.shape, x1.shape);
    var nn, m := os[0], |d|;
    ConvRule.Size4(os);
    ConvRule.Size4(x0.shape);
    ConvRule.Size4(x1.shape);
    var x, k := x0.data, x1.data;
    var byK, byX, byB := ConvRule.Conv(g, x, t1, m), ConvRule.Conv(g, t0, k, m), ConvRule.BiasSpread(g, t2, m);
    var y := Tangent(n, os, x0, x1, x2, t0, t1, t2);
    forall o | 0 <= o < m
      ensures y[o] == Plus(Plus(byB, byK), byX)[o]
    {
      ConvTangent(g, x0, x1, x2, t0, t1, t2, o);
    }
    assert y == Plus(Plus(byB, byK), byX);
    DotPlusRight(d, Plus(byB, byK), byX);
    DotPlusRight(d, byB, byK);
    ConvRule.ConvAdjoint(g, nn, Input, x, k, d, |x|, t0);
    ConvRule.ConvAdjoint(g, nn, Kernel, x, k, d, |k|, t1);
    if n.in2.Some? {
      assert Size(x2.shape) == g.co by { assert Size(x2.shape[1..]) == 1; }
      ConvRule.ConvAdjoint(g, nn, Bias, x, k, d, |x2.data|, t2);
    } else {
      DotZeroRight(d, byB);
    }
  }

  // The tape-node identity, for every operation.
  lemma NodeAdjoint(n: Node, os: Shape, x0: Tensor, x1: Tensor, x2: Tensor, d: seq<real>,
                    t0: seq<real>, t1: seq<real>, t2: seq<real>)
    requires NodeOk(n, os, x0, x1, x2) && |d| == Size(os)
    requires |t0| == |x0.data| && |t1| == |x1.data| && |t2| == |x2.data|
    ensures Dot(d, Tangent(n, os, x0, x1, x2, t0, t1, t2)) == Pairing(n, os, x0, x1, x2, d, t0, t1, t2)
  {
    hide Pairing, Tangent, Dot, NodeOk;
    match n.op
    case Add => AddAdjoint(n, os, x0, x1, x2, d, t0, t1, t2);
    case Sub => SubAdjoint(n, os, x0, x1, x2, d, t0, t1, t2);
    case Mult => MultAdjoint(n, os, x0, x1, x2, d, t0, t1, t2);
    case Div => DivAdjoint(n, os, x0, x1, x2, d, t0, t1, t2);
    case Scale => ScaleAdjoint(n, os, x0, x1, x2, d, t0, t1, t2);
    case SumAll => SumAdjoint(n, os, x0, x1, x2, d, t0, t1, t2);
    case MeanAll => SumAdjoint(n, os, x0, x1, x2, d, t0, t1, t2);
    case MatMul => MatMulAdjoint(n, os, x0, x1, x2, d, t0, t1, t2);
    case Relu => ReluAdjoint(n, os, x0, x1, x2, d, t0, t1, t2);
    case Transpose => TransposeAdjoint(n, os, x0, x1, x2, d, t0, t1, t2);
    case Reshape => ReshapeAdjoint(n, os, x0, x1, x2, d, t0, t1, t2);
    case SumAxis => AxisAdjoint(n, os, x0, x1, x2, d, t0, t1, t2);
    case MeanAxis => AxisAdjoint(n, os, x0, x1, x2, d, t0, t1, t2);
    case VarAxis => AxisAdjoint(n, os, x0, x1, x2, d, t0, t1, t2);
    case Conv2D => Conv2DAdjoint(n, os, x0, x1, x2, d, t0, t1, t2);
    case Bcast => BcastAdjoint(n, os, x0, x1, x2, d, t0, t1, t2);
    case AxisSum => AxisSumAdjoint(n, os, x0, x1, x2, d, t0, t1, t2);
  }
}
