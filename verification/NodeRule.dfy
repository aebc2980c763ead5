// One tape node: its backward contributions are the transpose of its tangent.
module NodeRule {
  import opened Arith
  import opened Shapes
  import opened Sums
  import opened Tape
  import opened Rules
  import MatMulRule
  import AxisRule
  import ConvRule

  // What the backward branch of node n adds to the gradient of operand slot.
  ghost function Contribution(n: Node, os: Shape, x0: Tensor, x1: Tensor, x2: Tensor, d: seq<real>,
                              slot: nat): seq<real> {
    var s0, s1 := x0.shape, x1.shape;
    match n.op
    case Add => ReduceTo(if slot == 0 then s0 else s1, os, d)
    case Sub => if slot == 0 then ReduceTo(s0, os, d) else ScaleBy(-1.0, ReduceTo(s1, os, d))
    case Mult =>
      if slot == 0 then ReduceTo(s0, os, Times(d, Spread(os, x1))) else ReduceTo(s1, os, Times(d, Spread(os, x0)))
    case Div =>
      if slot == 0 then ReduceTo(s0, os, DivAData(d, Spread(os, x1)))
      else ReduceTo(s1, os, DivBData(d, Spread(os, x0), Spread(os, x1)))
    case Scale => ScaleBy(n.scalar, d)
    case SumAll => seq(|x0.data|, _ => At(d, 0))
    case MeanAll => seq(|x0.data|, _ => Mul(At(d, 0), Inv(|x0.data|)))
    case MatMul =>
      if slot == 0 then MatAData(d, x1.data, Dim(s0, 0), Dim(s0, 1), Dim(s1, 1))
      else MatBData(x0.data, d, Dim(s0, 0), Dim(s0, 1), Dim(s1, 1))
    case Relu => Times(d, ReluMask(x0.data))
    case Transpose => Gather(|x0.data|, q => Swap(Dim(s0, 1), Dim(s0, 0), q), d)
    case Reshape => d
    case SumAxis => AxisData(n.op, x0.data, Red(s0, AxisOf(n)), Inner(s0, AxisOf(n)), d)
    case MeanAxis => AxisData(n.op, x0.data, Red(s0, AxisOf(n)), Inner(s0, AxisOf(n)), d)
    case VarAxis => AxisData(n.op, x0.data, Red(s0, AxisOf(n)), Inner(s0, AxisOf(n)), d)
    case Conv2D =>
      ConvData(GeoOf(n, os, s0, s1), if slot == 0 then Input else if slot == 1 then Kernel else Bias,
               x0.data, x1.data, d, |d|, Zeros(|if slot == 0 then x0.data else if slot == 1 then x1.data else x2.data|))
    case Bcast => ReduceTo(s0, os, d)
    case AxisSum => Gather(|x0.data|, i => Bc(os, s0, i), d)
  }

  function ReluMask(x: seq<real>): (r: seq<real>)
    ensures |r| == |x|
  {
    seq(|x|, i => if At(x, i) > 0.0 then 1.0 else 0.0)
  }

  // Element q = i * cols + j of a matrix sits at j * rows + i of its transpose.
  function Swap(cols: nat, rows: nat, q: int): int {
    if cols == 0 then 0 else Ix(rows, q % cols, q / cols)
  }

  lemma SwapInverse(cols: nat, rows: nat, q: int)
    requires 0 <= q < rows * cols
    ensures 0 <= Swap(cols, rows, q) < cols * rows && Swap(rows, cols, Swap(cols, rows, q)) == q
  {
    MulZero(rows, cols);
    DivBound(q, rows, cols);
    FlatBound(cols, rows, q % cols, q / cols);
  }

  lemma {:induction false} DSumDu(n: nat, f: int -> Dual, h: int -> real)
    requires forall i :: 0 <= i < n ==> f(i).du == h(i)
    ensures DSum(n, f).du == Sum(n, h)
  {
    if n > 0 { DSumDu(n - 1, f, h); }
  }

  lemma {:induction false} DSumRe(n: nat, f: int -> Dual, h: int -> real)
    requires forall i :: 0 <= i < n ==> f(i).re == h(i)
    ensures DSum(n, f).re == Sum(n, h)
  {
    if n > 0 { DSumRe(n - 1, f, h); }
  }

  // ── Broadcasting ──

  // <reduce(d), t> = <d, broadcast(t)>
  lemma BroadcastAdjoint(os: Shape, x: Tensor, d: seq<real>, t: seq<real>)
    requires Compatible(x.shape, os) && |d| == Size(os)
    ensures Dot(ReduceTo(x.shape, os, d), t) == Dot(d, Spread(os, x.(data := t)))
  {
    forall o | 0 <= o < |d|
      ensures 0 <= Bc(x.shape, os, o) < Size(x.shape)
    {
      BcBound(x.shape, os, o);
    }
    ReduceAdjoint(Size(x.shape), o => Bc(x.shape, os, o), d, t);
    assert Gather(|d|, o => Bc(x.shape, os, o), t) == Spread(os, x.(data := t));
  }

  // With an elementwise factor in front of the reduction.
  lemma BroadcastTimesAdjoint(os: Shape, x: Tensor, d: seq<real>, u: seq<real>, t: seq<real>)
    requires Compatible(x.shape, os) && |d| == |u| == Size(os)
    ensures Dot(ReduceTo(x.shape, os, Times(d, u)), t) == Dot(d, Times(u, Spread(os, x.(data := t))))
  {
    BroadcastAdjoint(os, x, Times(d, u), t);
    TimesAdjoint(d, u, Spread(os, x.(data := t)));
  }

  // ── Axis statistics ──

  lemma GroupGeometry(outer: nat, red: nat, inner: nat, o: int, r: int)
    requires 0 <= o < outer * inner && 0 <= r < red
    ensures 0 <= AxisAt(red, inner, o, r) < outer * red * inner
    ensures GroupOf(red, inner, AxisAt(red, inner, o, r)) == o
  {
    MulZero(outer, inner);
    DivBound(o, outer, inner);
    AxisRule.Geometry(outer, red, inner, o / inner, r, o % inner);
  }

  function Mean(n: nat, f: int -> real): real { Mul(Inv(n), Sum(n, f)) }

  // A quotient by the count, as the loops write it.
  lemma MeanQuotient(s: real, n: nat)
    requires 0 < n
    ensures s / (n as real) == Mul(Inv(n), s) == Mul(s, Inv(n))
  {
    var y := n as real;
    var r := 1.0 / y;
    assert y * r == 1.0;
    assert s == (s / y) * y;
    assert s * r == (s / y) * (y * r);
  }

  lemma {:induction false} SumConst(n: nat, c: real)
    ensures Sum(n, _ => c) == Mul(n as real, c)
  {
    if n > 0 {
      SumConst(n - 1, c);
      MulDistributes(c, (n - 1) as real, 1.0);
    } else {
      MulDistributes(c, 0.0, 0.0);
    }
  }

  // Deviations from the mean add up to nothing.
  lemma DeviationsCancel(n: nat, x: int -> real)
    ensures Sum(n, r => x(r) - Mean(n, x)) == 0.0
  {
    var mu := Mean(n, x);
    SumConst(n, -mu);
    SumAdd(n, x, _ => -mu, r => x(r) - mu);
    SumEq(n, r => x(r) - mu, r => x(r) - Mean(n, x));
    if n > 0 {
      assert Mul(n as real, -mu) == -((n as real) * (1.0 / (n as real))) * Sum(n, x);
    }
  }

  ghost function Cross(x: int -> real, t: int -> real, mu: real, mt: real, r: int): real {
    Mul(x(r) - mu, t(r) - mt) + Mul(t(r) - mt, x(r) - mu)
  }

  ghost function Weighted(x: int -> real, t: int -> real, mu: real, c: real, r: int): real {
    Mul(Mul(Mul(2.0, x(r) - mu), c), t(r))
  }

  // The tangent of the variance: the mean's own tangent drops out.
  lemma VarianceTangent(n: nat, x: int -> real, t: int -> real)
    ensures Mul(Inv(n), Sum(n, r => Cross(x, t, Mean(n, x), Mean(n, t), r)))
         == Sum(n, r => Weighted(x, t, Mean(n, x), Inv(n), r))
  {
    var mu, mt, c := Mean(n, x), Mean(n, t), Inv(n);
    var scaled := (r: int) => Mul(c, Cross(x, t, mu, mt, r));
    var drop := (r: int) => Mul(-2.0 * c * mt, x(r) - mu);
    var dev := (r: int) => x(r) - mu;
    forall r | 0 <= r < n
      ensures scaled(r) == Weighted(x, t, mu, c, r) + drop(r)
    {
      CrossSplit(c, x(r) - mu, t(r), mt);
    }
    DeviationsCancel(n, x);
    SumEq(n, dev, r => x(r) - Mean(n, x));
    SumScale(n, -2.0 * c * mt, dev, drop);
    SumAdd(n, r => Weighted(x, t, mu, c, r), drop, scaled);
    SumScale(n, c, r => Cross(x, t, mu, mt, r), scaled);
  }

  lemma CrossSplit(c: real, e: real, t: real, mt: real)
    ensures Mul(c, Mul(e, t - mt) + Mul(t - mt, e)) == Mul(Mul(Mul(2.0, e), c), t) + Mul(-2.0 * c * mt, e)
  {
    var p := c * e;
    assert c * (e * (t - mt) + (t - mt) * e) == 2.0 * (p * (t - mt));
    assert p * (t - mt) == p * t - p * mt;
    assert 2.0 * e * c * t == 2.0 * (p * t);
    assert (-2.0 * c * mt) * e == -2.0 * (p * mt);
  }

  // ── Division ──

  // At a zero divisor the guards of the source and the dual quotient both give 0.
  lemma QuotientPoint(d: real, a: real, b: real, ta: real, tb: real)
    ensures Mul(d, Quot(Mul(ta, b) - Mul(a, tb), Mul(b, b))) == Mul(DivA(d, b), ta) + Mul(DivB(d, a, b), tb)
  {
    if b != 0.0 {
      var r := 1.0 / b;
      var bb := b * b;
      assert b * r == 1.0;
      assert bb != 0.0;
      assert bb * (r * r) == (b * r) * (b * r) == 1.0;
      QuotByInverse(ta * b - a * tb, bb, r * r);
      QuotByInverse(d, b, r);
      QuotByInverse(-(d * a), bb, r * r);
      var dr := d * r;
      assert d * ((ta * b - a * tb) * (r * r)) == dr * ((ta * (b * r)) - (a * tb) * r);
      assert -(d * a) * (r * r) * tb == -(dr * ((a * tb) * r));
    }
  }

  lemma QuotByInverse(x: real, y: real, r: real)
    requires y != 0.0 && y * r == 1.0
    ensures Quot(x, y) == x * r
  {
    assert x == (x / y) * y;
    assert x * r == (x / y) * (y * r);
  }
}
