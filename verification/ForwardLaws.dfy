// The forward meaning of every recorded operation, element by multi-index: which
// elements of the operands make up an element of the result, and how.
module ForwardLaws {
  import opened Options
  import opened Arith
  import opened Shapes
  import opened Sums
  import opened Tape

  // ── Dual arithmetic is first-order expansion ──

  // Moving both operands by h moves the result by h times its tangent, and by no more
  // than a multiple of h * h.
  lemma ProductExpands(a: Dual, b: Dual, h: real)
    ensures (a.re + h * a.du) * (b.re + h * b.du) == DMul(a, b).re + h * DMul(a, b).du + (h * h) * (a.du * b.du)
  {
    assert a.re * (h * b.du) == h * (a.re * b.du);
    assert (h * a.du) * b.re == h * (a.du * b.re);
    assert (h * a.du) * (h * b.du) == (h * h) * (a.du * b.du);
  }

  lemma SumExpands(a: Dual, b: Dual, c: real, h: real)
    ensures (a.re + h * a.du) + (b.re + h * b.du) == DAdd(a, b).re + h * DAdd(a, b).du
    ensures (a.re + h * a.du) - (b.re + h * b.du) == DSub(a, b).re + h * DSub(a, b).du
    ensures c * (a.re + h * a.du) == DScale(c, a).re + h * DScale(c, a).du
  {
    assert h * (a.du + b.du) == h * a.du + h * b.du;
    assert h * (a.du - b.du) == h * a.du - h * b.du;
    assert c * (h * a.du) == h * (c * a.du);
  }

  // The quotient is what gives the dividend back, and 0 over a divisor of 0.
  lemma QuotientUndoes(a: Dual, b: Dual)
    ensures b.re != 0.0 ==> DMul(DDiv(a, b), b) == a
    ensures b.re == 0.0 ==> DDiv(a, b).re == 0.0
  {
    if b.re != 0.0 {
      SquareNonzero(b.re);
      Undone(a.re, a.du, b.re, b.du, a.re / b.re, (Mul(a.du, b.re) - Mul(a.re, b.du)) / Mul(b.re, b.re));
    }
  }

  lemma Undone(a: real, ad: real, b: real, bd: real, q: real, u: real)
    requires b != 0.0 && q * b == a && u * Mul(b, b) == Mul(ad, b) - Mul(a, bd)
    ensures Mul(q, b) == a && Mul(q, bd) + Mul(u, b) == ad
  {
    assert (u * b) * b == ad * b - a * bd;
    assert (q * bd) * b == a * bd;
    assert (q * bd + u * b) * b == ad * b;
    Cancelled(q * bd + u * b, ad, b);
  }

  lemma SquareNonzero(b: real)
    requires b != 0.0
    ensures Mul(b, b) != 0.0
  {
    var a := if b > 0.0 then b else -b;
    MulPositive(a, a);
    SquareOfNegative(b);
  }

  lemma SquareOfNegative(b: real)
    ensures Mul(-b, -b) == Mul(b, b)
  {
  }

  lemma Cancelled(x: real, y: real, b: real)
    requires x * b == y * b && b != 0.0
    ensures x == y
  {
    assert (x - y) * b == 0.0;
  }

  // Away from 0 the rectifier and its tangent agree with max(0, x) nearby.
  lemma ReluExpands(a: Dual, h: real)
    requires a.re > 0.0 ==> a.re + h * a.du > 0.0
    requires a.re < 0.0 ==> a.re + h * a.du < 0.0
    requires a.re != 0.0
    ensures (if a.re + h * a.du > 0.0 then a.re + h * a.du else 0.0) == DRelu(a).re + h * DRelu(a).du
    ensures DRelu(Dual(0.0, a.du)) == Dual(0.0, 0.0)
  {
  }

  // ── Elements by multi-index ──

  ghost function Elem(x: Tensor, t: seq<real>, idx: seq<int>): Dual
    requires |idx| == |x.shape|
  {
    Dual(At(x.data, Ravel(x.shape, idx)), At(t, Ravel(x.shape, idx)))
  }

  // A result index seen by an operand: trailing dimensions aligned, extents of 1 repeated.
  ghost predicate Pulled(s: Shape, idx: seq<int>, c: seq<int>) {
    |c| == |s| <= |idx| && forall k :: 0 <= k < |s| ==> c[k] == if s[k] == 1 then 0 else idx[|idx| - |s| + k]
  }

  lemma PulledAt(s: Shape, os: Shape, idx: seq<int>, c: seq<int>)
    requires ValidIndex(os, idx) && Pulled(s, idx, c)
    ensures Bc(s, os, Ravel(os, idx)) == Ravel(s, c)
  {
    UnravelRavel(os, idx);
    assert BcCoords(s, idx) == c;
  }

  // ADD, SUB, MUL and DIV combine the elements the result's index pulls.
  lemma ElementwiseAt(n: Node, os: Shape, x0: Tensor, x1: Tensor, x2: Tensor, t0: seq<real>, t1: seq<real>,
                      t2: seq<real>, idx: seq<int>, c0: seq<int>, c1: seq<int>)
    requires ValidIndex(os, idx) && Pulled(x0.shape, idx, c0) && Pulled(x1.shape, idx, c1)
    ensures var r, a, b := ForwardAt(n, os, x0, x1, x2, t0, t1, t2, Ravel(os, idx)), Elem(x0, t0, c0), Elem(x1, t1, c1);
      && (n.op == Add ==> r == DAdd(a, b)) && (n.op == Sub ==> r == DSub(a, b))
      && (n.op == Mult ==> r == DMul(a, b)) && (n.op == Div ==> r == DDiv(a, b))
  {
    hide Bc, Mul, Quot;
    PulledAt(x0.shape, os, idx, c0);
    PulledAt(x1.shape, os, idx, c1);
  }

  // SCALE, RELU and RESHAPE go position by position; TRANSPOSE swaps the indices.
  lemma UnaryAt(n: Node, os: Shape, x0: Tensor, x1: Tensor, x2: Tensor, t0: seq<real>, t1: seq<real>, t2: seq<real>,
                o: int)
    ensures var r, a := ForwardAt(n, os, x0, x1, x2, t0, t1, t2, o), Dual(At(x0.data, o), At(t0, o));
      && (n.op == Scale ==> r == DScale(n.scalar, a)) && (n.op == Relu ==> r == DRelu(a))
      && (n.op == Reshape ==> r == a)
  {
  }

  lemma TransposeAt(n: Node, os: Shape, x0: Tensor, x1: Tensor, x2: Tensor, t0: seq<real>, t1: seq<real>, t2: seq<real>,
                    i: int, j: int)
    requires n.op == Transpose && ShapesOk(n, os, x0, x1, x2) && ValidIndex(os, [i, j])
    ensures ForwardAt(n, os, x0, x1, x2, t0, t1, t2, Ravel(os, [i, j])) == Elem(x0, t0, [j, i])
  {
    Ravel2(os, i, j);
    Ravel2(x0.shape, j, i);
    FlatBound(os[0], os[1], i, j);
  }

  lemma Ravel2(s: Shape, i: int, j: int)
    requires |s| == 2
    ensures Ravel(s, [i, j]) == Ix(s[1], i, j)
  {
    Ravel1(s[1..], j);
    assert Size(s[1..]) == s[1] * Size([]);
    assert [i, j][1..] == [j];
  }

  lemma Ravel1(s: Shape, i: int)
    requires |s| == 1
    ensures Ravel(s, [i]) == i && Size(s) == s[0]
  {
    assert s[1..] == [];
  }

  // SUM and MEAN run over all elements.
  lemma TotalAt(n: Node, os: Shape, x0: Tensor, x1: Tensor, x2: Tensor, t0: seq<real>, t1: seq<real>, t2: seq<real>,
                o: int)
    ensures var r, s := ForwardAt(n, os, x0, x1, x2, t0, t1, t2, o),
      DSum(|x0.data|, i => Dual(At(x0.data, i), At(t0, i)));
      && (n.op == SumAll ==> r == s) && (n.op == MeanAll && |x0.data| > 0 ==> r == DScale(1.0 / (|x0.data| as real), s))
  {
    hide DSum;
    DSumEq(|x0.data|, i => DAt(x0, t0, i), i => Dual(At(x0.data, i), At(t0, i)));
  }

  lemma {:induction false} DSumEq(n: nat, f: int -> Dual, g: int -> Dual)
    requires forall i :: 0 <= i < n ==> f(i) == g(i)
    ensures DSum(n, f) == DSum(n, g)
  {
    if n > 0 { DSumEq(n - 1, f, g); }
  }

  // MATMUL: row i of one against column j of the other.
  lemma MatMulAt(n: Node, os: Shape, x0: Tensor, x1: Tensor, x2: Tensor, t0: seq<real>, t1: seq<real>, t2: seq<real>,
                 i: int, j: int)
    requires n.op == MatMul && ShapesOk(n, os, x0, x1, x2) && ValidIndex(os, [i, j])
    ensures ForwardAt(n, os, x0, x1, x2, t0, t1, t2, Ravel(os, [i, j]))
      == DSum(x0.shape[1], l => DMul(Entry(x0, t0, i, l), Entry(x1, t1, l, j)))
  {
    hide DSum, Mul;
    var k, p := x0.shape[1], x1.shape[1];
    Ravel2(os, i, j);
    FlatBound(os[0], os[1], i, j);
    forall l | 0 <= l < k
      ensures Entry(x0, t0, i, l) == DAt(x0, t0, Ix(k, i, l)) && Entry(x1, t1, l, j) == DAt(x1, t1, Ix(p, l, j))
    {
      Ravel2(x0.shape, i, l);
      Ravel2(x1.shape, l, j);
    }
    var o := Ravel(os, [i, j]);
    DSumEq(k, l => DMul(DAt(x0, t0, Ix(k, o / p, l)), DAt(x1, t1, Ix(p, l, o % p))),
      l => DMul(Entry(x0, t0, i, l), Entry(x1, t1, l, j)));
  }

  ghost function Entry(x: Tensor, t: seq<real>, i: int, j: int): Dual {
    if |x.shape| == 2 then Elem(x, t, [i, j]) else Dual(0.0, 0.0)
  }

  // ── Axis reductions ──

  lemma {:induction false} SizeConcat(s: Shape, t: Shape)
    ensures Size(s + t) == Size(s) * Size(t)
  {
    if s == [] {
      assert s + t == t;
    } else {
      SizeConcat(s[1..], t);
      assert (s + t)[1..] == s[1..] + t;
      assert s[0] * (Size(s[1..]) * Size(t)) == (s[0] * Size(s[1..])) * Size(t);
    }
  }

  lemma {:induction false} RavelConcat(s: Shape, t: Shape, u: seq<int>, v: seq<int>)
    requires |u| == |s| && |v| == |t|
    ensures Ravel(s + t, u + v) == Ix(Size(t), Ravel(s, u), Ravel(t, v))
  {
    if s == [] {
      assert s + t == t && u + v == v;
    } else {
      RavelConcat(s[1..], t, u[1..], v);
      SizeConcat(s[1..], t);
      assert (s + t)[1..] == s[1..] + t && (u + v)[1..] == u[1..] + v;
      Nested(u[0], Size(s[1..]), Size(t), Ravel(s[1..], u[1..]), Ravel(t, v));
    }
  }

  lemma Nested(u: int, s: int, t: int, r: int, q: int)
    ensures u * (s * t) + Ix(t, r, q) == Ix(t, u * s + r, q)
  {
    assert (u * s + r) * t == (u * s) * t + r * t;
    assert u * (s * t) == (u * s) * t;
  }

  // The element at r along the axis, the other indices being those before and after it.
  ghost function OnAxis(x: Tensor, t: seq<real>, a: nat, u: seq<int>, v: seq<int>, r: int): Dual {
    if a < |x.shape| && |u| == a && |v| == |x.shape| - a - 1 then Elem(x, t, u + [r] + v) else Dual(0.0, 0.0)
  }

  lemma OnAxisAt(x: Tensor, t: seq<real>, a: nat, u: seq<int>, v: seq<int>, r: int)
    requires a < |x.shape| && ValidIndex(x.shape[..a], u) && ValidIndex(x.shape[a + 1..], v)
    ensures var s := x.shape;
      OnAxis(x, t, a, u, v, r) == DAt(x, t, AxisAt(s[a], Size(s[a + 1..]), Ravel(s[..a] + s[a + 1..], u + v), r))
  {
    var s := x.shape;
    var inner := Size(s[a + 1..]);
    RavelConcat(s[..a], s[a + 1..], u, v);
    RavelBound(s[a + 1..], v);
    DivModUnique(Ravel(s[..a] + s[a + 1..], u + v), Ravel(s[..a], u), inner, Ravel(s[a + 1..], v));
    RavelConcat(s[..a] + [s[a]], s[a + 1..], u + [r], v);
    RavelConcat(s[..a], [s[a]], u, [r]);
    Ravel1([s[a]], r);
    assert s[..a] + [s[a]] + s[a + 1..] == s;
  }

  ghost function AxisTotal(x: Tensor, t: seq<real>, a: nat, u: seq<int>, v: seq<int>): Dual {
    DSum(Dim(x.shape, a), r => OnAxis(x, t, a, u, v, r))
  }

  // SUM, MEAN and VARIANCE along an axis: the indices before and after it are kept, and
  // the result runs over the axis itself.
  lemma AxisReduceAt(n: Node, os: Shape, x0: Tensor, x1: Tensor, x2: Tensor, t0: seq<real>, t1: seq<real>,
                     t2: seq<real>, a: nat, u: seq<int>, v: seq<int>)
    requires AxisOf(n) == a < |x0.shape| && ValidIndex(x0.shape[..a], u) && ValidIndex(x0.shape[a + 1..], v)
    ensures var s := x0.shape;
      var r, total := ForwardAt(n, os, x0, x1, x2, t0, t1, t2, Ravel(s[..a] + s[a + 1..], u + v)),
        AxisTotal(x0, t0, a, u, v);
      && (n.op == SumAxis ==> r == total)
      && (n.op == MeanAxis && s[a] > 0 ==> r == DScale(1.0 / (s[a] as real), total))
      && (n.op == VarAxis && s[a] > 0 ==>
            var m := DScale(1.0 / (s[a] as real), total);
            r == DScale(1.0 / (s[a] as real), DSum(s[a], r => DevSquare(OnAxis(x0, t0, a, u, v, r), m))))
  {
    hide DSum, OnAxis, AxisAt, Mul;
    var s := x0.shape;
    var red, inner, o := s[a], Size(s[a + 1..]), Ravel(s[..a] + s[a + 1..], u + v);
    forall r: int
      ensures OnAxis(x0, t0, a, u, v, r) == DAt(x0, t0, AxisAt(red, inner, o, r))
    {
      OnAxisAt(x0, t0, a, u, v, r);
    }
    DSumEq(red, r => DAt(x0, t0, AxisAt(red, inner, o, r)), r => OnAxis(x0, t0, a, u, v, r));
    if red > 0 {
      DSumEq(red, r => SquareDev(x0, t0, red, inner, o, r),
        r => DevSquare(OnAxis(x0, t0, a, u, v, r), DScale(1.0 / (red as real), AxisTotal(x0, t0, a, u, v))));
    }
  }

  ghost function DevSquare(x: Dual, mean: Dual): Dual { DMul(DSub(x, mean), DSub(x, mean)) }

  // ── Convolution ──

  lemma Ravel4(s: Shape, i: int, j: int, k: int, l: int)
    requires |s| == 4
    ensures Ravel(s, [i, j, k, l]) == Ix(s[3], Ix(s[2], Ix(s[1], i, j), k), l)
  {
    RavelConcat(s[..2], s[2..], [i, j], [k, l]);
    assert s[..2] + s[2..] == s && [i, j] + [k, l] == [i, j, k, l];
    Ravel2(s[..2], i, j);
    Ravel2(s[2..], k, l);
    Ravel1([s[3]], l);
    assert s[2..][1..] == [s[3]];
    assert Ix(s[1], i, j) * (s[2] * s[3]) == (Ix(s[1], i, j) * s[2]) * s[3];
    assert (Ix(s[1], i, j) * s[2] + k) * s[3] == (Ix(s[1], i, j) * s[2]) * s[3] + k * s[3];
  }

  // x at [i, c, h, w], and 0 outside its height and width.
  ghost function Padded(x: Tensor, t: seq<real>, i: int, c: int, h: int, w: int): Dual {
    if |x.shape| == 4 && 0 <= h < x.shape[2] && 0 <= w < x.shape[3] then Elem(x, t, [i, c, h, w]) else Dual(0.0, 0.0)
  }

  lemma {:induction false} DSumSplit(m: nat, p: nat, f: int -> Dual, g: int -> Dual)
    requires forall j :: 0 <= j < p ==> g(j) == f(m + j)
    ensures DSum(m + p, f) == DAdd(DSum(m, f), DSum(p, g))
  {
    if p > 0 { DSumSplit(m, p - 1, f, g); }
  }

  lemma LastRow(m: nat, p: nat, f: int -> Dual)
    requires 0 < m
    ensures (m - 1) * p >= 0 && m * p == (m - 1) * p + p
    ensures DSum(m * p, f) == DAdd(DSum((m - 1) * p, f), DSum(p, j => f(Ix(p, m - 1, j))))
  {
    var q := (m - 1) * p;
    MulMono(0, m - 1, p);
    assert m * p == q + p;
    var last := (j: int) => f(Ix(p, m - 1, j));
    forall j | 0 <= j < p
      ensures last(j) == f(q + j)
    {
      assert Ix(p, m - 1, j) == q + j;
    }
    DSumSplit(q, p, f, last);
    DSumEq(p, last, j => f(Ix(p, m - 1, j)));
  }

  lemma {:induction false} DSumFlatten(m: nat, p: nat, f: int -> Dual, rows: int -> Dual)
    requires forall i :: 0 <= i < m ==> rows(i) == DSum(p, j => f(Ix(p, i, j)))
    ensures DSum(m * p, f) == DSum(m, rows)
  {
    hide Ix;
    if m > 0 {
      LastRow(m, p, f);
      DSumFlatten(m - 1, p, f, rows);
    }
  }

  lemma OutDecodes(g: ConvGeo, i: nat, j: nat, oh: nat, ow: nat)
    requires j < g.co && oh < g.ho && ow < g.wo
    ensures DecodeOut(g, Ix(g.wo, Ix(g.ho, Ix(g.co, i, j), oh), ow)) == OutPos(i, j, oh, ow)
  {
    DivModUnique(Ix(g.wo, Ix(g.ho, Ix(g.co, i, j), oh), ow), Ix(g.ho, Ix(g.co, i, j), oh), g.wo, ow);
    DivModUnique(Ix(g.ho, Ix(g.co, i, j), oh), Ix(g.co, i, j), g.ho, oh);
    DivModUnique(Ix(g.co, i, j), i, g.co, j);
  }

  lemma TapDecodes(g: ConvGeo, c: nat, ki: nat, kj: nat)
    requires ki < g.kh && kj < g.kw
    ensures DecodeTap(g, Ix(g.kw, Ix(g.kh, c, ki), kj)) == TapPos(c, ki, kj)
  {
    DivModUnique(Ix(g.kw, Ix(g.kh, c, ki), kj), Ix(g.kh, c, ki), g.kw, kj);
    DivModUnique(Ix(g.kh, c, ki), c, g.kh, ki);
  }

  // One tap, by multi-indices.
  ghost function TapAt(x: Tensor, k: Tensor, tx: seq<real>, tk: seq<real>, stride: int, pad: int,
                       i: int, j: int, oh: int, ow: int, c: int, ki: int, kj: int): Dual {
    if |k.shape| != 4 then Dual(0.0, 0.0)
    else DMul(Padded(x, tx, i, c, oh * stride - pad + ki, ow * stride - pad + kj), Elem(k, tk, [j, c, ki, kj]))
  }

  lemma TapIs(n: Node, os: Shape, x0: Tensor, x1: Tensor, x2: Tensor, t0: seq<real>, t1: seq<real>,
              i: nat, j: nat, oh: nat, ow: nat, c: nat, ki: nat, kj: nat)
    requires n.op == Conv2D && ShapesOk(n, os, x0, x1, x2) && j < os[1] && oh < os[2] && ow < os[3]
    requires ki < x1.shape[2] && kj < x1.shape[3]
    ensures var g := GeoOf(n, os, x0.shape, x1.shape);
      ConvTap(g, x0, x1, t0, t1, Ix(g.wo, Ix(g.ho, Ix(g.co, i, j), oh), ow), Ix(g.kw, Ix(g.kh, c, ki), kj))
      == TapAt(x0, x1, t0, t1, n.p0, n.p1, i, j, oh, ow, c, ki, kj)
  {
    hide DecodeOut, DecodeTap, Ix, Ravel;
    var g := GeoOf(n, os, x0.shape, x1.shape);
    var h, w := oh * n.p0 - n.p1 + ki, ow * n.p0 - n.p1 + kj;
    OutDecodes(g, i, j, oh, ow);
    TapDecodes(g, c, ki, kj);
    Ravel4(x0.shape, i, c, h, w);
    Ravel4(x1.shape, j, c, ki, kj);
    ZeroTap(Elem(x1, t1, [j, c, ki, kj]));
  }

  lemma ZeroTap(a: Dual)
    ensures DMul(Dual(0.0, 0.0), a) == Dual(0.0, 0.0)
  {
  }

  // CONV2D: element (i, j, oh, ow) is the bias of j plus, over channels and kernel
  // positions, the padded input at the strided position times kernel j there.
  lemma ConvAt(n: Node, os: Shape, x0: Tensor, x1: Tensor, x2: Tensor, t0: seq<real>, t1: seq<real>, t2: seq<real>,
               i: int, j: int, oh: int, ow: int)
    requires n.op == Conv2D && ShapesOk(n, os, x0, x1, x2) && ValidIndex(os, [i, j, oh, ow])
    ensures ForwardAt(n, os, x0, x1, x2, t0, t1, t2, Ravel(os, [i, j, oh, ow]))
      == DAdd(Dual(At(x2.data, j), At(t2, j)),
              DSum(x0.shape[1], c => DSum(x1.shape[2], ki => DSum(x1.shape[3], kj =>
                TapAt(x0, x1, t0, t1, n.p0, n.p1, i, j, oh, ow, c, ki, kj)))))
  {
    hide DSum, ConvTap, TapAt, DecodeOut;
    var g := GeoOf(n, os, x0.shape, x1.shape);
    var o := Ravel(os, [i, j, oh, ow]);
    Ravel4(os, i, j, oh, ow);
    OutDecodes(g, i, j, oh, ow);
    var f := (tap: int) => ConvTap(g, x0, x1, t0, t1, o, tap);
    var lines := (q: int) => DSum(g.kw, kj => f(Ix(g.kw, q, kj)));
    var planes := (c: int) => DSum(g.kh,
      ki => DSum(g.kw, kj => TapAt(x0, x1, t0, t1, n.p0, n.p1, i, j, oh, ow, c, ki, kj)));
    DSumFlatten(g.cin * g.kh, g.kw, f, lines);
    forall c | 0 <= c < g.cin
      ensures planes(c) == DSum(g.kh, ki => lines(Ix(g.kh, c, ki)))
    {
      PlaneIs(n, os, x0, x1, x2, t0, t1, i, j, oh, ow, c, f, lines);
    }
    DSumFlatten(g.cin, g.kh, lines, planes);
    DSumEq(Taps(g), f, tap => ConvTap(g, x0, x1, t0, t1, o, tap));
    DSumEq(g.cin, planes, c => DSum(x1.shape[2], ki => DSum(x1.shape[3], kj =>
      TapAt(x0, x1, t0, t1, n.p0, n.p1, i, j, oh, ow, c, ki, kj))));
  }

  lemma PlaneIs(n: Node, os: Shape, x0: Tensor, x1: Tensor, x2: Tensor, t0: seq<real>, t1: seq<real>,
                i: nat, j: nat, oh: nat, ow: nat, c: nat, f: int -> Dual, lines: int -> Dual)
    requires n.op == Conv2D && ShapesOk(n, os, x0, x1, x2) && j < os[1] && oh < os[2] && ow < os[3]
    requires var g := GeoOf(n, os, x0.shape, x1.shape);
      forall tap :: f(tap) == ConvTap(g, x0, x1, t0, t1, Ix(g.wo, Ix(g.ho, Ix(g.co, i, j), oh), ow), tap)
    requires forall q :: lines(q) == DSum(x1.shape[3], kj => f(Ix(x1.shape[3], q, kj)))
    ensures DSum(x1.shape[2], ki => DSum(x1.shape[3], kj => TapAt(x0, x1, t0, t1, n.p0, n.p1, i, j, oh, ow, c, ki, kj)))
      == DSum(x1.shape[2], ki => lines(Ix(x1.shape[2], c, ki)))
  {
    hide DSum, ConvTap, TapAt;
    var kh, kw := x1.shape[2], x1.shape[3];
    var plane := (ki: int) => DSum(kw, kj => TapAt(x0, x1, t0, t1, n.p0, n.p1, i, j, oh, ow, c, ki, kj));
    forall ki | 0 <= ki < kh
      ensures plane(ki) == lines(Ix(kh, c, ki))
    {
      forall kj | 0 <= kj < kw
        ensures f(Ix(kw, Ix(kh, c, ki), kj)) == TapAt(x0, x1, t0, t1, n.p0, n.p1, i, j, oh, ow, c, ki, kj)
      {
        TapIs(n, os, x0, x1, x2, t0, t1, i, j, oh, ow, c, ki, kj);
      }
      DSumEq(kw, kj => TapAt(x0, x1, t0, t1, n.p0, n.p1, i, j, oh, ow, c, ki, kj), kj => f(Ix(kw, Ix(kh, c, ki), kj)));
    }
    DSumEq(kh, plane, ki => lines(Ix(kh, c, ki)));
    DSumEq(kh, plane, ki => DSum(kw, kj => TapAt(x0, x1, t0, t1, n.p0, n.p1, i, j, oh, ow, c, ki, kj)));
  }

  // ── The second engine's own operations ──

  // A broadcast copy reads what the result's index pulls.
  lemma SpreadAt(n: Node, os: Shape, x0: Tensor, x1: Tensor, x2: Tensor, t0: seq<real>, t1: seq<real>, t2: seq<real>,
                 idx: seq<int>, c: seq<int>)
    requires n.op == Bcast && ValidIndex(os, idx) && Pulled(x0.shape, idx, c)
    ensures ForwardAt(n, os, x0, x1, x2, t0, t1, t2, Ravel(os, idx)) == Elem(x0, t0, c)
  {
    hide Bc;
    PulledAt(x0.shape, os, idx, c);
  }

  lemma CoordsValid(s: Shape, os: Shape, idx: seq<int>)
    requires Compatible(os, s) && ValidIndex(s, idx)
    ensures ValidIndex(os, BcCoords(os, idx))
  {
    var c := BcCoords(os, idx);
    forall k | 0 <= k < |os|
      ensures 0 <= c[k] < os[k]
    {
      assert 0 <= idx[|s| - |os| + k] < s[|s| - |os| + k];
    }
  }

  lemma CoordsPulled(os: Shape, idx: seq<int>, u: seq<int>)
    requires |os| <= |idx| && |u| == |os|
    ensures BcCoords(os, idx) == u <==> Pulled(os, idx, u)
  {
  }

  lemma PulledBack(s: Shape, os: Shape, i: int, u: seq<int>)
    requires Compatible(os, s) && 0 <= i < Size(s) && ValidIndex(os, u)
    ensures Bc(os, s, i) == Ravel(os, u) <==> Pulled(os, Unravel(s, i), u)
  {
    hide Ravel, Unravel, Size, Pulled, BcCoords;
    RavelUnravel(s, i);
    var idx := Unravel(s, i);
    CoordsValid(s, os, idx);
    CoordsPulled(os, idx, u);
    UnravelRavel(os, BcCoords(os, idx));
    UnravelRavel(os, u);
  }

  // A sum onto a smaller shape adds up, at each index, all elements whose index pulls it.
  lemma SumOntoAt(n: Node, os: Shape, x0: Tensor, x1: Tensor, x2: Tensor, t0: seq<real>, t1: seq<real>, t2: seq<real>,
                  u: seq<int>)
    requires n.op == AxisSum && Compatible(os, x0.shape) && |x0.data| == Size(x0.shape) && ValidIndex(os, u)
    ensures ForwardAt(n, os, x0, x1, x2, t0, t1, t2, Ravel(os, u))
      == DSum(|x0.data|, i => if Pulled(os, Unravel(x0.shape, i), u) then Dual(At(x0.data, i), At(t0, i))
        else Dual(0.0, 0.0))
  {
    hide DSum, Bc, Pulled;
    forall i | 0 <= i < |x0.data|
      ensures Bc(os, x0.shape, i) == Ravel(os, u) <==> Pulled(os, Unravel(x0.shape, i), u)
    {
      PulledBack(x0.shape, os, i, u);
    }
    DSumEq(|x0.data|, i => if Bc(os, x0.shape, i) == Ravel(os, u) then DAt(x0, t0, i) else Dual(0.0, 0.0),
      i => if Pulled(os, Unravel(x0.shape, i), u) then Dual(At(x0.data, i), At(t0, i)) else Dual(0.0, 0.0));
  }
}
