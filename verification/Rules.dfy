// The backward rule of every recorded operation, and the proof that it is the
// transpose of the tangent of the forward meaning.
module Rules {
  import opened Arith
  import opened Shapes
  import opened Sums
  import opened Tape

  // ── Backward contributions (runtime/c/plant_autograd.c, one branch per op) ──

  function Spread(os: Shape, u: Tensor): (r: seq<real>)
    ensures |r| == Size(os)
  {
    Gather(Size(os), o => Bc(u.shape, os, o), u.data)
  }

  function ReduceTo(ts: Shape, os: Shape, v: seq<real>): (r: seq<real>)
    ensures |r| == Size(ts)
  {
    Reduce(Size(ts), o => Bc(ts, os, o), v)
  }

  function ScaleBy(c: real, v: seq<real>): (r: seq<real>)
    ensures |r| == |v|
  {
    seq(|v|, i => Mul(c, At(v, i)))
  }

  lemma DotScaleLeft(c: real, v: seq<real>, t: seq<real>)
    ensures Dot(ScaleBy(c, v), t) == Mul(c, Dot(v, t))
  {
    var s := ScaleBy(c, v);
    forall i | 0 <= i < |v|
      ensures Prod(s, t, i) == Mul(c, Prod(v, t, i))
    {
      MulAssoc(c, At(v, i), At(t, i));
    }
    SumScale(|v|, c, i => Prod(v, t, i), i => Prod(s, t, i));
  }

  lemma DotScaleRight(d: seq<real>, c: real, v: seq<real>)
    requires |v| == |d|
    ensures Dot(d, ScaleBy(c, v)) == Mul(c, Dot(d, v))
  {
    var s := ScaleBy(c, v);
    forall i | 0 <= i < |d|
      ensures Prod(d, s, i) == Mul(c, Prod(d, v, i))
    {
      MulAssoc(At(d, i), c, At(v, i));
    }
    SumScale(|d|, c, i => Prod(d, v, i), i => Prod(d, s, i));
  }

  // d/da of a quotient, and d/db, as the two division helpers compute them.
  function DivA(d: real, b: real): real { Quot(d, b) }
  function DivB(d: real, a: real, b: real): real { Quot(-Mul(d, a), Mul(b, b)) }

  function DivAData(d: seq<real>, b: seq<real>): (r: seq<real>)
    ensures |r| == |d|
  {
    seq(|d|, o => DivA(At(d, o), At(b, o)))
  }

  function DivBData(d: seq<real>, a: seq<real>, b: seq<real>): (r: seq<real>)
    ensures |r| == |d|
  {
    seq(|d|, o => DivB(At(d, o), At(a, o), At(b, o)))
  }

  // MATMUL: dA[i][j] = sum_l d[i][l] B[j][l] and dB[j][l] = sum_i A[i][j] d[i][l].
  ghost function MatA(d: seq<real>, b: seq<real>, p: nat, i: int, j: int): real {
    Sum(p, l => Mul(At(d, Ix(p, i, l)), At(b, Ix(p, j, l))))
  }

  ghost function MatB(a: seq<real>, d: seq<real>, m: nat, k: nat, p: nat, j: int, l: int): real {
    Sum(m, i => Mul(At(a, Ix(k, i, j)), At(d, Ix(p, i, l))))
  }

  ghost function MatAData(d: seq<real>, b: seq<real>, m: nat, k: nat, p: nat): (r: seq<real>)
    ensures |r| == m * k
  {
    seq(m * k, q => if k == 0 then 0.0 else MatA(d, b, p, q / k, q % k))
  }

  ghost function MatBData(a: seq<real>, d: seq<real>, m: nat, k: nat, p: nat): (r: seq<real>)
    ensures |r| == k * p
  {
    seq(k * p, q => if p == 0 then 0.0 else MatB(a, d, m, k, p, q / p, q % p))
  }

  // Axis reductions: every element of a group receives the group's gradient
  // times the element's weight in the group.
  ghost function GroupOf(red: nat, inner: nat, q: int): int {
    if red == 0 || inner == 0 then 0 else q / inner / red * inner + q % inner
  }

  ghost function MeanOf(x: seq<real>, red: nat, inner: nat, o: int): real {
    Mul(Inv(red), Sum(red, r => At(x, AxisAt(red, inner, o, r))))
  }

  ghost function VarWeight(x: seq<real>, red: nat, inner: nat, q: int): real {
    Mul(Mul(2.0, At(x, q) - MeanOf(x, red, inner, GroupOf(red, inner, q))), Inv(red))
  }

  ghost function AxisWeight(op: Op, x: seq<real>, red: nat, inner: nat, q: int): real {
    match op
    case SumAxis => 1.0
    case MeanAxis => Inv(red)
    case _ => VarWeight(x, red, inner, q)
  }

  ghost function AxisData(op: Op, x: seq<real>, red: nat, inner: nat, d: seq<real>): (r: seq<real>)
    ensures |r| == |x|
  {
    seq(|x|, q => Mul(At(d, GroupOf(red, inner, q)), AxisWeight(op, x, red, inner, q)))
  }

  // CONV2D: the nested loops visit output positions in row-major order and, for
  // each, the kernel taps in row-major order; a bump goes to one element.
  datatype Role = Input | Kernel | Bias

  ghost function ConvStep(g: ConvGeo, role: Role, x: seq<real>, k: seq<real>, c: real, o: int, tap: int,
                          acc: seq<real>): (r: seq<real>)
    ensures |r| == |acc|
  {
    var p, t := DecodeOut(g, o), DecodeTap(g, tap);
    if !Inside(g, p, t) then acc
    else
      match role
      case Input => Bump(acc, XPos(g, p, t), Mul(c, At(k, KPos(g, p, t))))
      case Kernel => Bump(acc, KPos(g, p, t), Mul(c, At(x, XPos(g, p, t))))
      case Bias => acc
  }

  ghost function ConvTaps(g: ConvGeo, role: Role, x: seq<real>, k: seq<real>, c: real, o: int, taps: nat,
                          acc: seq<real>): (r: seq<real>)
    ensures |r| == |acc|
  {
    if taps == 0 then acc
    else ConvStep(g, role, x, k, c, o, taps - 1, ConvTaps(g, role, x, k, c, o, taps - 1, acc))
  }

  ghost function ConvOut(g: ConvGeo, role: Role, x: seq<real>, k: seq<real>, d: seq<real>, o: int,
                         acc: seq<real>): (r: seq<real>)
    ensures |r| == |acc|
  {
    var c := At(d, o);
    if role == Bias then Bump(acc, DecodeOut(g, o).j, c)
    else ConvTaps(g, role, x, k, c, o, Taps(g), acc)
  }

  ghost function ConvData(g: ConvGeo, role: Role, x: seq<real>, k: seq<real>, d: seq<real>, outs: nat,
                          acc: seq<real>): (r: seq<real>)
    ensures |r| == |acc|
  {
    if outs == 0 then acc
    else ConvOut(g, role, x, k, d, outs - 1, ConvData(g, role, x, k, d, outs - 1, acc))
  }
}
