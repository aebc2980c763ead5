// Tensors, tape nodes and the forward meaning of every recorded operation,
// evaluated on dual numbers so that its tangent is not a hand-written rule.
module Tape {
  import opened Options
  import opened Arith
  import opened Shapes
  import opened Sums

  // A tensor in row-major layout; tracked is the requires_grad flag.
  datatype Tensor = Tensor(shape: Shape, data: seq<real>, tracked: bool)

  // Tensors are referred to by their position in tensor memory.
  type Id = nat

  datatype Op =
    | Add | Sub | Mult | Div | Scale | SumAll | MeanAll
    | MatMul | Relu | Transpose | Reshape
    | SumAxis | MeanAxis | VarAxis | Conv2D
    | Bcast | AxisSum   // local to the second engine

  datatype Node = Node(op: Op, in0: Id, in1: Option<Id>, in2: Option<Id>,
                       scalar: real, out: Id, p0: int, p1: int)

  // ── Dual numbers ──

  datatype Dual = Dual(re: real, du: real)

  ghost function DAdd(a: Dual, b: Dual): Dual { Dual(a.re + b.re, a.du + b.du) }
  ghost function DSub(a: Dual, b: Dual): Dual { Dual(a.re - b.re, a.du - b.du) }
  ghost function DMul(a: Dual, b: Dual): Dual { Dual(Mul(a.re, b.re), Mul(a.re, b.du) + Mul(a.du, b.re)) }
  ghost function DScale(c: real, a: Dual): Dual { Dual(Mul(c, a.re), Mul(c, a.du)) }
  ghost function DSum(n: nat, f: int -> Dual): Dual {
    if n == 0 then Dual(0.0, 0.0) else DAdd(DSum(n - 1, f), f(n - 1))
  }

  // Division by zero has no dual value; 0 stands in for it, as in the source's guards.
  function Quot(x: real, y: real): real { if y == 0.0 then 0.0 else x / y }
  ghost function DDiv(a: Dual, b: Dual): Dual {
    Dual(Quot(a.re, b.re), Quot(Mul(a.du, b.re) - Mul(a.re, b.du), Mul(b.re, b.re)))
  }
  ghost function DRelu(a: Dual): Dual { if a.re > 0.0 then a else Dual(0.0, 0.0) }

  function Inv(n: nat): real { if n == 0 then 0.0 else 1.0 / (n as real) }

  // ── Index geometry ──

  // Position read in an operand of shape ts when a result of shape os is at multi-index oidx:
  // trailing dimensions are aligned, and a dimension of extent 1 is repeated.
  function BcCoords(ts: Shape, oidx: seq<int>): (c: seq<int>)
    ensures |c| == |ts|
  {
    seq(|ts|, k requires 0 <= k < |ts| =>
      var j := |oidx| - |ts| + k;
      if ts[k] == 1 || j < 0 then 0 else oidx[j])
  }

  function BcIndex(ts: Shape, oidx: seq<int>): int {
    Ravel(ts, BcCoords(ts, oidx))
  }

  predicate Compatible(ts: Shape, os: Shape) {
    |ts| <= |os| && forall k :: 0 <= k < |ts| ==> ts[k] == 1 || ts[k] == os[|os| - |ts| + k]
  }

  function Bc(ts: Shape, os: Shape, o: int): int {
    BcIndex(ts, Unravel(os, o))
  }

  lemma BcBound(ts: Shape, os: Shape, o: int)
    requires Compatible(ts, os) && 0 <= o < Size(os)
    ensures 0 <= Bc(ts, os, o) < Size(ts)
  {
    RavelUnravel(os, o);
    var u, c := Unravel(os, o), BcCoords(ts, Unravel(os, o));
    forall k | 0 <= k < |ts|
      ensures 0 <= c[k] < ts[k]
    {
      assert 0 <= u[|os| - |ts| + k] < os[|os| - |ts| + k];
    }
    RavelBound(ts, c);
  }

  // Axis reductions view their operand as outer x red x inner.
  function Outer(s: Shape, axis: int): nat { if 0 <= axis < |s| then Size(s[..axis]) else 1 }
  function Red(s: Shape, axis: int): nat { if 0 <= axis < |s| then s[axis] else 1 }
  function Inner(s: Shape, axis: int): nat { if 0 <= axis < |s| then Size(s[axis + 1..]) else 1 }

  function AxisOf(n: Node): int { n.scalar.Floor }

  // Element r of the group that is reduced into position o.
  function AxisAt(red: nat, inner: nat, o: int, r: int): int {
    if inner == 0 then 0 else Ix(inner, Ix(red, o / inner, r), o % inner)
  }

  // The input position, if any, that a convolution tap reads for output position o.
  datatype ConvGeo = ConvGeo(co: nat, ho: nat, wo: nat, cin: nat, hh: nat, ww: nat,
                             kh: nat, kw: nat, stride: int, pad: int)

  ghost function Taps(g: ConvGeo): nat { g.cin * g.kh * g.kw }

  function Dim(s: Shape, k: nat): nat { if k < |s| then s[k] else 1 }

  function GeoOf(n: Node, os: Shape, s0: Shape, s1: Shape): ConvGeo {
    ConvGeo(Dim(os, 1), Dim(os, 2), Dim(os, 3), Dim(s0, 1), Dim(s0, 2), Dim(s0, 3),
            Dim(s1, 2), Dim(s1, 3), n.p0, n.p1)
  }

  datatype OutPos = OutPos(i: int, j: int, oh: int, ow: int)
  datatype TapPos = TapPos(ci: int, ki: int, kj: int)

  ghost function DecodeOut(g: ConvGeo, o: int): OutPos {
    if g.wo == 0 || g.ho == 0 || g.co == 0 then OutPos(0, 0, 0, 0)
    else OutPos(o / g.wo / g.ho / g.co, o / g.wo / g.ho % g.co, o / g.wo % g.ho, o % g.wo)
  }

  ghost function DecodeTap(g: ConvGeo, tap: int): TapPos {
    if g.kw == 0 || g.kh == 0 then TapPos(0, 0, 0)
    else TapPos(tap / g.kw / g.kh, tap / g.kw % g.kh, tap % g.kw)
  }

  ghost function RowOf(g: ConvGeo, p: OutPos, t: TapPos): int { p.oh * g.stride - g.pad + t.ki }
  ghost function ColOf(g: ConvGeo, p: OutPos, t: TapPos): int { p.ow * g.stride - g.pad + t.kj }

  ghost predicate Inside(g: ConvGeo, p: OutPos, t: TapPos) {
    0 <= RowOf(g, p, t) < g.hh && 0 <= ColOf(g, p, t) < g.ww
  }

  ghost function XPos(g: ConvGeo, p: OutPos, t: TapPos): int {
    Ix(g.ww, Ix(g.hh, Ix(g.cin, p.i, t.ci), RowOf(g, p, t)), ColOf(g, p, t))
  }

  ghost function KPos(g: ConvGeo, p: OutPos, t: TapPos): int {
    Ix(g.kw, Ix(g.kh, Ix(g.cin, p.j, t.ci), t.ki), t.kj)
  }

  // ── Forward meaning ──

  ghost function DAt(x: Tensor, t: seq<real>, i: int): Dual { Dual(At(x.data, i), At(t, i)) }

  ghost function ConvTap(g: ConvGeo, x: Tensor, k: Tensor, tx: seq<real>, tk: seq<real>, o: int, tap: int): Dual {
    var p, t := DecodeOut(g, o), DecodeTap(g, tap);
    if Inside(g, p, t) then DMul(DAt(x, tx, XPos(g, p, t)), DAt(k, tk, KPos(g, p, t))) else Dual(0.0, 0.0)
  }

  ghost function AxisMean(x: Tensor, t: seq<real>, red: nat, inner: nat, o: int): Dual {
    DScale(Inv(red), DSum(red, r => DAt(x, t, AxisAt(red, inner, o, r))))
  }

  ghost function SquareDev(x: Tensor, t: seq<real>, red: nat, inner: nat, o: int, r: int): Dual {
    var c := DSub(DAt(x, t, AxisAt(red, inner, o, r)), AxisMean(x, t, red, inner, o));
    DMul(c, c)
  }

  // Element o of the result of node n on operands x0, x1, x2 with tangents t0, t1, t2.
  // An absent operand is the empty tensor, which reads as zero.
  ghost function ForwardAt(n: Node, os: Shape, x0: Tensor, x1: Tensor, x2: Tensor,
                           t0: seq<real>, t1: seq<real>, t2: seq<real>, o: int): Dual {
    var s0, s1 := x0.shape, x1.shape;
    match n.op
    case Add => DAdd(DAt(x0, t0, Bc(s0, os, o)), DAt(x1, t1, Bc(s1, os, o)))
    case Sub => DSub(DAt(x0, t0, Bc(s0, os, o)), DAt(x1, t1, Bc(s1, os, o)))
    case Mult => DMul(DAt(x0, t0, Bc(s0, os, o)), DAt(x1, t1, Bc(s1, os, o)))
    case Div => DDiv(DAt(x0, t0, Bc(s0, os, o)), DAt(x1, t1, Bc(s1, os, o)))
    case Scale => DScale(n.scalar, DAt(x0, t0, o))
    case SumAll => DSum(|x0.data|, i => DAt(x0, t0, i))
    case MeanAll => DScale(Inv(|x0.data|), DSum(|x0.data|, i => DAt(x0, t0, i)))
    case MatMul =>
      var k, p := Dim(s0, 1), Dim(s1, 1);
      if p == 0 then Dual(0.0, 0.0)
      else DSum(k, j => DMul(DAt(x0, t0, Ix(k, o / p, j)), DAt(x1, t1, Ix(p, j, o % p))))
    case Relu => DRelu(DAt(x0, t0, o))
    case Transpose =>
      var r, c := Dim(s0, 0), Dim(s0, 1);
      if r == 0 then Dual(0.0, 0.0) else DAt(x0, t0, Ix(c, o % r, o / r))
    case Reshape => DAt(x0, t0, o)
    case SumAxis =>
      var red, inner := Red(s0, AxisOf(n)), Inner(s0, AxisOf(n));
      DSum(red, r => DAt(x0, t0, AxisAt(red, inner, o, r)))
    case MeanAxis =>
      AxisMean(x0, t0, Red(s0, AxisOf(n)), Inner(s0, AxisOf(n)), o)
    case VarAxis =>
      var red, inner := Red(s0, AxisOf(n)), Inner(s0, AxisOf(n));
      DScale(Inv(red), DSum(red, r => SquareDev(x0, t0, red, inner, o, r)))
    case Conv2D =>
      var g := GeoOf(n, os, s0, s1);
      DAdd(DAt(x2, t2, DecodeOut(g, o).j), DSum(Taps(g), tap => ConvTap(g, x0, x1, t0, t1, o, tap)))
    case Bcast => DAt(x0, t0, Bc(s0, os, o))
    case AxisSum => DSum(|x0.data|, i => if Bc(os, s0, i) == o then DAt(x0, t0, i) else Dual(0.0, 0.0))
  }

  ghost function Tangent(n: Node, os: Shape, x0: Tensor, x1: Tensor, x2: Tensor,
                         t0: seq<real>, t1: seq<real>, t2: seq<real>): (t: seq<real>)
    ensures |t| == Size(os)
  {
    seq(Size(os), o => ForwardAt(n, os, x0, x1, x2, t0, t1, t2, o).du)
  }

  // What the forward operation guarantees about shapes when it records a node.
  ghost predicate ShapesOk(n: Node, os: Shape, x0: Tensor, x1: Tensor, x2: Tensor) {
    var s0, s1 := x0.shape, x1.shape;
    match n.op
    case Add => Compatible(s0, os) && (n.in1.Some? ==> Compatible(s1, os))
    case Sub => Compatible(s0, os) && (n.in1.Some? ==> Compatible(s1, os))
    case Mult => n.in1.Some? && Compatible(s0, os) && Compatible(s1, os)
    case Div => n.in1.Some? && Compatible(s0, os) && Compatible(s1, os)
    case Scale => os == s0
    case SumAll => os == [1]
    case MeanAll => os == [1]
    case MatMul => n.in1.Some? && |s0| == 2 && |s1| == 2 && s1[0] == s0[1] && os == [s0[0], s1[1]]
    case Relu => os == s0
    case Transpose => |s0| == 2 && os == [s0[1], s0[0]]
    case Reshape => Size(os) == Size(s0)
    case SumAxis => AxisOk(n, os, s0)
    case MeanAxis => AxisOk(n, os, s0)
    case VarAxis => AxisOk(n, os, s0)
    case Conv2D =>
      && n.in1.Some? && |s0| == 4 && |s1| == 4 && |os| == 4
      && os[0] == s0[0] && os[1] == s1[0] && s1[1] == s0[1]
      && (n.in2.Some? ==> x2.shape == [s1[0]])
    case Bcast => Compatible(s0, os)
    case AxisSum => Compatible(os, s0)
  }

  ghost predicate AxisOk(n: Node, os: Shape, s0: Shape) {
    0 <= AxisOf(n) < |s0| &&
    Size(os) == Outer(s0, AxisOf(n)) * Inner(s0, AxisOf(n))
  }
}
