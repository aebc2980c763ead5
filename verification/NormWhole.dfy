// LAYERNORM, BATCHNORM and SOFTMAX over whole tensors: what their backward loops add
// is the adjoint of the layer on dual numbers.
module NormWhole {
  import opened Arith
  import opened Sums
  import opened Tape
  import opened NodeRule
  import opened NormRule
  import opened NormKernel
  import opened BatchNorm
  import opened SoftmaxKernel
  import opened GroupLoop
  import opened GradBuffers
  import opened Shapes
  import opened ForwardLaws

  // ── The inverse deviation of a group ──

  // What is known of 1 / sqrt(v).
  ghost predicate InvRoot(inv: InvSqrt) {
    forall v :: v > 0.0 ==> Mul(Mul(inv(v), inv(v)), v) == 1.0
  }

  // (x - mean) squared
  ghost function Deviation(n: nat, x: int -> real, i: int): real { Mul(x(i) - Mean(n, x), x(i) - Mean(n, x)) }

  // sq / M - mean * mean is the mean squared deviation, and so never negative.
  lemma VarIsSpread(n: nat, x: int -> real)
    requires 0 < n
    ensures GroupVar(n, x) == Mul(Inv(n), Sum(n, i => Deviation(n, x, i))) && GroupVar(n, x) >= 0.0
  {
    hide Mul, Sum;
    var mu := Mean(n, x);
    forall i | 0 <= i < n
      ensures Deviation(n, x, i) == Mul(1.0, Centred(n, x, x, i)) + Mul(-mu, x(i) - mu)
      ensures Centred(n, x, x, i) == Mul(1.0, Square(x, i)) + Mul(-mu, x(i))
    {
      SquareSplit(x(i), mu);
    }
    SumLinear(n, 1.0, i => Centred(n, x, x, i), -mu, i => x(i) - mu, i => Deviation(n, x, i));
    SumLinear(n, 1.0, i => Square(x, i), -mu, x, i => Centred(n, x, x, i));
    DeviationsCancel(n, x);
    SumEq(n, i => x(i) - mu, r => x(r) - Mean(n, x));
    SpreadAlgebra(Inv(n), Sum(n, i => Square(x, i)), mu, Sum(n, x), Sum(n, i => Deviation(n, x, i)));
    forall i | 0 <= i < n
      ensures Deviation(n, x, i) >= 0.0
    {
      SquarePositive(x(i) - mu);
    }
    SumPositive(n, i => Deviation(n, x, i));
    ScalePositive(n, Sum(n, i => Deviation(n, x, i)));
  }

  lemma SquareSplit(x: real, mu: real)
    ensures Mul(x - mu, x - mu) == Mul(1.0, Mul(x - mu, x)) + Mul(-mu, x - mu)
    ensures Mul(x - mu, x) == Mul(1.0, Mul(x, x)) + Mul(-mu, x)
  {
  }

  lemma SpreadAlgebra(c: real, sq: real, mu: real, sum: real, spread: real)
    requires mu == Mul(c, sum)
    requires spread == Mul(1.0, Mul(1.0, sq) + Mul(-mu, sum)) + Mul(-mu, 0.0)
    ensures Mul(c, sq) - Mul(mu, mu) == Mul(c, spread)
  {
    assert c * (mu * sum) == mu * (c * sum);
    assert c * (sq - mu * sum) == c * sq - c * (mu * sum);
  }

  lemma SquarePositive(x: real)
    ensures Mul(x, x) >= 0.0
  {
  }

  lemma {:induction false} SumPositive(n: nat, f: int -> real)
    requires forall i :: 0 <= i < n ==> f(i) >= 0.0
    ensures Sum(n, f) >= 0.0
  {
    if n > 0 { SumPositive(n - 1, f); }
  }

  lemma ScalePositive(n: nat, s: real)
    requires s >= 0.0
    ensures Mul(Inv(n), s) >= 0.0
  {
    if n > 0 {
      var r := 1.0 / n as real;
      assert r * n as real == 1.0;
      assert r > 0.0;
    }
  }

  // The inverse deviation on dual numbers.
  ghost function InvStd(n: nat, x: int -> real, t: int -> real, eps: real, inv: InvSqrt): Dual {
    var s := inv(GroupVar(n, x) + eps);
    Dual(s, -Mul(Mul(Mul(s, s), s), Mul(Inv(n), Cov(n, x, t))))
  }

  // It is one over the square root: the deviation's equation, differentiated, holds.
  lemma InvStdIs(n: nat, x: int -> real, t: int -> real, eps: real, inv: InvSqrt)
    requires 0 < n && eps > 0.0 && InvRoot(inv)
    ensures IsInvStd(InvStd(n, x, t, eps, inv), DualVar(n, x, t), eps)
  {
    VarIsSpread(n, x);
    VarTangent(n, x, t);
    hide Mul, GroupVar, Cov, DualVar;
    InvStdAlgebra(inv(GroupVar(n, x) + eps), GroupVar(n, x) + eps, Inv(n), Cov(n, x, t));
  }

  lemma InvStdAlgebra(s: real, w: real, c: real, v: real)
    requires Mul(Mul(s, s), w) == 1.0
    ensures var u := -Mul(Mul(Mul(s, s), s), Mul(c, v));
      Mul(Mul(s, s), Mul(Mul(2.0, c), v) + 0.0) + Mul(Mul(s, u) + Mul(u, s), w) == 0.0
  {
    var ss, cv := s * s, c * v;
    var u := -((ss * s) * cv);
    assert (2.0 * c) * v == 2.0 * cv;
    assert s * u == -(ss * (ss * cv));
    assert (s * u) * w == -((ss * w) * (ss * cv));
  }

  // ── Sums over places ──

  // A share against a tensor read at the member's place.
  ghost function Pairing(share: Share, place: Place, n: nat, t: seq<real>): int -> real {
    c => Sum(n, k => Mul(share(c, k), At(t, place(c, k))))
  }

  // What the groups have received, against t.
  lemma SharedPairing(px: seq<real>, place: Place, groups: nat, n: nat, total: nat, share: Share, t: seq<real>)
    requires Layout(place, groups, n, total) && Covers(place, groups, n, total) && |px| == total
    requires Shared(px, Zeros(total), place, groups, n, share, groups, 0)
    ensures Dot(px, t) == Sum(groups, Pairing(share, place, n, t))
  {
    var f := (i: int) => Prod(px, t, i);
    SumByGroup(place, groups, n, total, f);
    SharedAll(px, Zeros(total), place, groups, n, share, total);
    hide Shared, Covers, Sum, Mul;
    forall c | 0 <= c < groups
      ensures GroupTotal(place, n, f)(c) == Pairing(share, place, n, t)(c)
    {
      forall k | 0 <= k < n
        ensures f(place(c, k)) == Mul(share(c, k), At(t, place(c, k)))
      {
        assert px[place(c, k)] == Zeros(total)[place(c, k)] + share(c, k);
      }
      SumEq(n, k => f(place(c, k)), k => Mul(share(c, k), At(t, place(c, k))));
    }
    SumEq(groups, GroupTotal(place, n, f), Pairing(share, place, n, t));
  }

  lemma SharedSize(now: seq<real>, was: seq<real>, place: Place, groups: nat, n: nat, share: Share, c: int, k: int)
    requires Shared(now, was, place, groups, n, share, c, k)
    ensures |now| == |was|
  {
  }

  lemma WholePairing(d: seq<real>, out: seq<real>, place: Place, groups: nat, n: nat, share: Share)
    requires Layout(place, groups, n, |d|) && Covers(place, groups, n, |d|) && |out| == |d|
    requires forall c, k :: 0 <= c < groups && 0 <= k < n ==> At(out, place(c, k)) == share(c, k)
    ensures Dot(d, out) == Sum(groups, c => Sum(n, k => Mul(At(d, place(c, k)), share(c, k))))
  {
    var f := (i: int) => Prod(d, out, i);
    SumByGroup(place, groups, n, |d|, f);
    hide Layout, Covers, Sum, Mul;
    var whole := (c: int) => Sum(n, k => Mul(At(d, place(c, k)), share(c, k)));
    forall c | 0 <= c < groups
      ensures GroupTotal(place, n, f)(c) == whole(c)
    {
      SumEq(n, k => f(place(c, k)), k => Mul(At(d, place(c, k)), share(c, k)));
    }
    SumEq(groups, GroupTotal(place, n, f), whole);
    SumEq(groups, whole, c => Sum(n, k => Mul(At(d, place(c, k)), share(c, k))));
  }

  // ── LAYERNORM ──

  // What one row contributes to a vector shared by the rows, against t.
  lemma RowsPairing(p: seq<real>, share: Share, rows: nat, n: nat, t: seq<real>)
    requires p == AfterRows(Zeros(n), share, rows)
    ensures Dot(p, t) == Sum(rows, r => Sum(n, i => Mul(share(r, i), At(t, i))))
  {
    hide Mul, Sum, AfterRows;
    var f := (r: int, i: int) => Mul(share(r, i), At(t, i));
    var columns := (i: int) => Sum(rows, r => f(r, i));
    forall i | 0 <= i < n
      ensures Prod(p, t, i) == columns(i)
    {
      AfterRowsAt(Zeros(n), share, rows, i);
      MulComm(At(t, i), Sum(rows, r => share(r, i)));
      forall r | 0 <= r < rows
        ensures f(r, i) == Mul(At(t, i), share(r, i))
      {
        MulComm(At(t, i), share(r, i));
      }
      SumScale(rows, At(t, i), r => share(r, i), r => f(r, i));
    }
    SumEq(n, i => Prod(p, t, i), columns);
    var lines := (r: int) => Sum(n, i => Mul(share(r, i), At(t, i)));
    forall r | 0 <= r < rows
      ensures lines(r) == Sum(n, i => f(r, i))
    {
      SumEq(n, i => Mul(share(r, i), At(t, i)), i => f(r, i));
    }
    SumExchange(rows, n, f, lines, columns);
    SumEq(rows, lines, r => Sum(n, i => Mul(share(r, i), At(t, i))));
  }

  // The tangent of the layer's output.
  ghost function LayerTangent(x: seq<real>, t: seq<real>, gamma: seq<real>, tg: seq<real>, beta: seq<real>,
                              tb: seq<real>, n: nat, eps: real, inv: InvSqrt): Share {
    (r, i) => NormTangent(n, Row(x, n, r), Row(t, n, r), InvStd(n, Row(x, n, r), Row(t, n, r), eps, inv),
      Whole(gamma), Whole(tg), Whole(beta), Whole(tb), i)
  }

  // For every incoming gradient and all tangents: d against the tangent of the output
  // is what the loops add for x, gamma and beta against theirs.
  lemma LayerNormAdjoint(q: Parts, x: seq<real>, t: seq<real>, gamma: seq<real>, tg: seq<real>, beta: seq<real>,
                         tb: seq<real>, d: seq<real>, out: seq<real>, rows: nat, n: nat, eps: real, inv: InvSqrt)
    requires 0 < n && eps > 0.0 && InvRoot(inv) && |x| == |d| == |out| == rows * n && |gamma| == n
    requires LayerParts(q, Nothing(rows * n, n), x, gamma, d, rows, n, eps, inv, rows)
    requires forall r, i :: 0 <= r < rows && 0 <= i < n ==>
      At(out, Ix(n, r, i)) == LayerTangent(x, t, gamma, tg, beta, tb, n, eps, inv)(r, i)
    ensures Dot(d, out) == Dot(q.px, t) + Dot(q.pk, tg) + Dot(q.pb, tb)
  {
    hide Mul, Sum, Layout, Covers, Shared, AfterRows, NormTangent, NormDx, ScaleBack, InvStd;
    var place, tan := RowPlace(n), LayerTangent(x, t, gamma, tg, beta, tb, n, eps, inv);
    var dx, dg, db := DxShare(x, gamma, d, n, eps, inv), GammaShares(x, d, n, eps, inv), BetaShares(d, n);
    RowLayout(rows, n);
    WholePairing(d, out, place, rows, n, tan);
    SharedSize(q.px, Zeros(rows * n), place, rows, n, dx, rows, 0);
    SharedPairing(q.px, place, rows, n, rows * n, dx, t);
    RowsPairing(q.pk, dg, rows, n, tg);
    RowsPairing(q.pb, db, rows, n, tb);
    var a := (r: int) => Sum(n, k => Mul(At(d, place(r, k)), tan(r, k)));
    var px := Pairing(dx, place, n, t);
    var pk := (r: int) => Sum(n, i => Mul(dg(r, i), At(tg, i)));
    var pb := (r: int) => Sum(n, i => Mul(db(r, i), At(tb, i)));
    forall r | 0 <= r < rows
      ensures a(r) == px(r) + pk(r) + pb(r)
    {
      RowAdjoint(x, t, gamma, tg, beta, tb, d, n, eps, inv, r);
    }
    ThreeSums(rows, a, px, pk, pb);
    SumEq(rows, a, c => Sum(n, k => Mul(At(d, place(c, k)), tan(c, k))));
    SumEq(rows, pk, r => Sum(n, i => Mul(dg(r, i), At(tg, i))));
    SumEq(rows, pb, r => Sum(n, i => Mul(db(r, i), At(tb, i))));
  }

  lemma ThreeSums(n: nat, a: int -> real, f: int -> real, g: int -> real, h: int -> real)
    requires forall i :: 0 <= i < n ==> a(i) == f(i) + g(i) + h(i)
    ensures Sum(n, a) == Sum(n, f) + Sum(n, g) + Sum(n, h)
  {
    var fg := (i: int) => f(i) + g(i);
    SumAdd(n, f, g, fg);
    SumAdd(n, fg, h, a);
  }

  lemma RowAdjoint(x: seq<real>, t: seq<real>, gamma: seq<real>, tg: seq<real>, beta: seq<real>, tb: seq<real>,
                   d: seq<real>, n: nat, eps: real, inv: InvSqrt, r: int)
    requires 0 < n && eps > 0.0 && InvRoot(inv)
    ensures Sum(n, k => Mul(At(d, RowPlace(n)(r, k)), LayerTangent(x, t, gamma, tg, beta, tb, n, eps, inv)(r, k)))
      == Pairing(DxShare(x, gamma, d, n, eps, inv), RowPlace(n), n, t)(r)
       + Sum(n, i => Mul(GammaShares(x, d, n, eps, inv)(r, i), At(tg, i)))
         + Sum(n, i => Mul(BetaShares(d, n)(r, i), At(tb, i)))
  {
    hide Mul, Sum, NormTangent, NormDx, ScaleBack, InvStd, DualVar, InvRoot;
    var rx, rt, rd := Row(x, n, r), Row(t, n, r), Row(d, n, r);
    var s := InvStd(n, rx, rt, eps, inv);
    InvStdIs(n, rx, rt, eps, inv);
    InvStdRe(n, rx, rt, eps, inv);
    assert s.re == RowInv(x, n, r, eps, inv);
    NormAdjoint(n, rx, rt, rd, Whole(gamma), Whole(tg), Whole(beta), Whole(tb), s, eps);
    RowOut(x, t, gamma, tg, beta, tb, d, n, eps, inv, r);
    RowIn(x, t, gamma, d, n, eps, inv, r);
    RowScale(x, tg, d, n, eps, inv, r);
    RowShift(tb, d, n, r);
  }

  lemma RowScale(x: seq<real>, tg: seq<real>, d: seq<real>, n: nat, eps: real, inv: InvSqrt, r: int)
    ensures Sum(n, i => Mul(GammaShares(x, d, n, eps, inv)(r, i), At(tg, i)))
      == Sum(n, i => Mul(ScaleBack(n, Row(x, n, r), Row(d, n, r), RowInv(x, n, r, eps, inv), i), Whole(tg)(i)))
  {
    hide Mul, Sum, ScaleBack, RowInv;
    var share := GammaShares(x, d, n, eps, inv);
    forall i | 0 <= i < n
      ensures share(r, i) == ScaleBack(n, Row(x, n, r), Row(d, n, r), RowInv(x, n, r, eps, inv), i)
      ensures At(tg, i) == Whole(tg)(i)
    {
      assert share(r, i) == RowDGamma(x, d, n, eps, inv, r, i);
    }
    SumEq(n, i => Mul(GammaShares(x, d, n, eps, inv)(r, i), At(tg, i)),
      i => Mul(ScaleBack(n, Row(x, n, r), Row(d, n, r), RowInv(x, n, r, eps, inv), i), Whole(tg)(i)));
  }

  lemma RowShift(tb: seq<real>, d: seq<real>, n: nat, r: int)
    ensures Sum(n, i => Mul(BetaShares(d, n)(r, i), At(tb, i))) == Sum(n, i => Mul(Row(d, n, r)(i), Whole(tb)(i)))
  {
    hide Mul, Sum, Ix;
    var share := BetaShares(d, n);
    forall i | 0 <= i < n
      ensures share(r, i) == Row(d, n, r)(i) && At(tb, i) == Whole(tb)(i)
    {
    }
    SumEq(n, i => Mul(BetaShares(d, n)(r, i), At(tb, i)), i => Mul(Row(d, n, r)(i), Whole(tb)(i)));
  }

  lemma InvStdRe(n: nat, x: int -> real, t: int -> real, eps: real, inv: InvSqrt)
    ensures InvStd(n, x, t, eps, inv).re == inv(GroupVar(n, x) + eps)
  {
  }

  lemma RowOut(x: seq<real>, t: seq<real>, gamma: seq<real>, tg: seq<real>, beta: seq<real>, tb: seq<real>,
               d: seq<real>, n: nat, eps: real, inv: InvSqrt, r: int)
    ensures var s := InvStd(n, Row(x, n, r), Row(t, n, r), eps, inv);
      Sum(n, k => Mul(At(d, RowPlace(n)(r, k)), LayerTangent(x, t, gamma, tg, beta, tb, n, eps, inv)(r, k)))
      == Sum(n, i => Mul(Row(d, n, r)(i),
           NormTangent(n, Row(x, n, r), Row(t, n, r), s, Whole(gamma), Whole(tg), Whole(beta), Whole(tb), i)))
  {
    hide Mul, Sum, NormTangent, InvStd, Ix;
    var s := InvStd(n, Row(x, n, r), Row(t, n, r), eps, inv);
    var tan := LayerTangent(x, t, gamma, tg, beta, tb, n, eps, inv);
    forall k | 0 <= k < n
      ensures At(d, RowPlace(n)(r, k)) == Row(d, n, r)(k)
      ensures tan(r, k) == NormTangent(n, Row(x, n, r), Row(t, n, r), s, Whole(gamma), Whole(tg), Whole(beta),
        Whole(tb), k)
    {
    }
    SumEq(n, k => Mul(At(d, RowPlace(n)(r, k)), LayerTangent(x, t, gamma, tg, beta, tb, n, eps, inv)(r, k)),
      i => Mul(Row(d, n, r)(i), NormTangent(n, Row(x, n, r), Row(t, n, r), s, Whole(gamma), Whole(tg), Whole(beta),
        Whole(tb), i)));
  }

  lemma RowIn(x: seq<real>, t: seq<real>, gamma: seq<real>, d: seq<real>, n: nat, eps: real, inv: InvSqrt, r: int)
    ensures Pairing(DxShare(x, gamma, d, n, eps, inv), RowPlace(n), n, t)(r)
      == Sum(n, i => Mul(NormDx(n, Row(x, n, r), Row(d, n, r), Whole(gamma), RowInv(x, n, r, eps, inv), i),
        Row(t, n, r)(i)))
  {
    hide Mul, Sum, NormDx, Ix, RowInv;
    var share := DxShare(x, gamma, d, n, eps, inv);
    forall k | 0 <= k < n
      ensures share(r, k) == NormDx(n, Row(x, n, r), Row(d, n, r), Whole(gamma), RowInv(x, n, r, eps, inv), k)
      ensures At(t, RowPlace(n)(r, k)) == Row(t, n, r)(k)
    {
      assert share(r, k) == RowDx(x, gamma, d, n, eps, inv, r, k);
    }
    SumEq(n, k => Mul(DxShare(x, gamma, d, n, eps, inv)(r, k), At(t, RowPlace(n)(r, k))),
      i => Mul(NormDx(n, Row(x, n, r), Row(d, n, r), Whole(gamma), RowInv(x, n, r, eps, inv), i), Row(t, n, r)(i)));
  }

  // ── BATCHNORM ──

  ghost function BatchTangent(g: Dims, x: seq<real>, t: seq<real>, gamma: seq<real>, tg: seq<real>, beta: seq<real>,
                              tb: seq<real>, eps: real, inv: InvSqrt): Share {
    (c, k) => NormTangent(Members(g), Channel(g, x, c), Channel(g, t, c),
      InvStd(Members(g), Channel(g, x, c), Channel(g, t, c), eps, inv),
      Same(At(gamma, c)), Same(At(tg, c)), Same(At(beta, c)), Same(At(tb, c)), k)
  }

  lemma BatchNormAdjoint(q: Parts, g: Dims, x: seq<real>, t: seq<real>, gamma: seq<real>, tg: seq<real>,
                         beta: seq<real>, tb: seq<real>, d: seq<real>, out: seq<real>, eps: real, inv: InvSqrt)
    requires 0 < Members(g) && eps > 0.0 && InvRoot(inv) && |x| == |d| == |out| == Elements(g) && |gamma| == g.c
    requires BatchParts(q, Nothing(Elements(g), g.c), g, x, gamma, d, eps, inv, g.c)
    requires forall c, k :: 0 <= c < g.c && 0 <= k < Members(g) ==>
      At(out, ChannelPlace(g)(c, k)) == BatchTangent(g, x, t, gamma, tg, beta, tb, eps, inv)(c, k)
    ensures Dot(d, out) == Dot(q.px, t) + Dot(q.pk, tg) + Dot(q.pb, tb)
  {
    hide Mul, Sum, Layout, Covers, Shared, Added, NormTangent, NormDx, ScaleBack, InvStd, Members, Elements, ChannelPos;
    var m, place, tan := Members(g), ChannelPlace(g), BatchTangent(g, x, t, gamma, tg, beta, tb, eps, inv);
    var dx := DxOf(g, x, gamma, d, eps, inv);
    ChannelLayout(g);
    WholePairing(d, out, place, g.c, m, tan);
    SharedSize(q.px, Zeros(Elements(g)), place, g.c, m, dx, g.c, 0);
    SharedPairing(q.px, place, g.c, m, Elements(g), dx, t);
    var a := (c: int) => Sum(m, k => Mul(At(d, place(c, k)), tan(c, k)));
    var px := Pairing(dx, place, m, t);
    var pk := (c: int) => Mul(SumsBack(g, x, d, eps, inv)(c), At(tg, c));
    var pb := (c: int) => Mul(SumsOf(g, d)(c), At(tb, c));
    forall c | 0 <= c < g.c
      ensures a(c) == px(c) + pk(c) + pb(c)
    {
      ChannelAdjoint(g, x, t, gamma, tg, beta, tb, d, eps, inv, c);
    }
    ThreeSums(g.c, a, px, pk, pb);
    SumEq(g.c, a, c => Sum(m, k => Mul(At(d, place(c, k)), tan(c, k))));
    AddedPairing(q.pk, SumsBack(g, x, d, eps, inv), g.c, tg);
    AddedPairing(q.pb, SumsOf(g, d), g.c, tb);
    SumEq(g.c, pk, c => Mul(SumsBack(g, x, d, eps, inv)(c), At(tg, c)));
    SumEq(g.c, pb, c => Mul(SumsOf(g, d)(c), At(tb, c)));
  }

  lemma AddedPairing(p: seq<real>, share: int -> real, n: nat, t: seq<real>)
    requires p == Added(Zeros(n), share, n)
    ensures Dot(p, t) == Sum(n, c => Mul(share(c), At(t, c)))
  {
    SumEq(n, i => Prod(p, t, i), c => Mul(share(c), At(t, c)));
  }

  lemma ChannelAdjoint(g: Dims, x: seq<real>, t: seq<real>, gamma: seq<real>, tg: seq<real>, beta: seq<real>,
                       tb: seq<real>, d: seq<real>, eps: real, inv: InvSqrt, c: int)
    requires 0 < Members(g) && eps > 0.0 && InvRoot(inv)
    ensures Sum(Members(g), k => Mul(At(d, ChannelPlace(g)(c, k)),
      BatchTangent(g, x, t, gamma, tg, beta, tb, eps, inv)(c, k)))
      == Pairing(DxOf(g, x, gamma, d, eps, inv), ChannelPlace(g), Members(g), t)(c)
       + Mul(SumsBack(g, x, d, eps, inv)(c), At(tg, c)) + Mul(SumsOf(g, d)(c), At(tb, c))
  {
    hide Members, ChannelPos, Mul, Sum, NormTangent, NormDx, ScaleBack, InvStd, DualVar, InvRoot;
    var m, cx, ct, cd := Members(g), Channel(g, x, c), Channel(g, t, c), Channel(g, d, c);
    var s := InvStd(m, cx, ct, eps, inv);
    InvStdIs(m, cx, ct, eps, inv);
    InvStdRe(m, cx, ct, eps, inv);
    NormAdjoint(m, cx, ct, cd, Same(At(gamma, c)), Same(At(tg, c)), Same(At(beta, c)), Same(At(tb, c)), s, eps);
    ChannelOut(g, x, t, gamma, tg, beta, tb, d, eps, inv, c);
    ChannelIn(g, x, t, gamma, d, eps, inv, c);
    Factored(m, Back(m, cx, cd, s.re), At(tg, c), i => Mul(ScaleBack(m, cx, cd, s.re, i), Same(At(tg, c))(i)));
    Factored(m, cd, At(tb, c), i => Mul(cd(i), Same(At(tb, c))(i)));
  }

  lemma ChannelOut(g: Dims, x: seq<real>, t: seq<real>, gamma: seq<real>, tg: seq<real>, beta: seq<real>,
                   tb: seq<real>, d: seq<real>, eps: real, inv: InvSqrt, c: int)
    ensures var m, cx, ct := Members(g), Channel(g, x, c), Channel(g, t, c);
      Sum(m, k => Mul(At(d, ChannelPlace(g)(c, k)), BatchTangent(g, x, t, gamma, tg, beta, tb, eps, inv)(c, k)))
      == Sum(m, i => Mul(Channel(g, d, c)(i), NormTangent(m, cx, ct, InvStd(m, cx, ct, eps, inv),
           Same(At(gamma, c)), Same(At(tg, c)), Same(At(beta, c)), Same(At(tb, c)), i)))
  {
    hide Members, ChannelPos, Mul, Sum, NormTangent, InvStd;
    var m, cx, ct := Members(g), Channel(g, x, c), Channel(g, t, c);
    var tan := BatchTangent(g, x, t, gamma, tg, beta, tb, eps, inv);
    forall k | 0 <= k < m
      ensures At(d, ChannelPlace(g)(c, k)) == Channel(g, d, c)(k)
      ensures tan(c, k) == NormTangent(m, cx, ct, InvStd(m, cx, ct, eps, inv),
        Same(At(gamma, c)), Same(At(tg, c)), Same(At(beta, c)), Same(At(tb, c)), k)
    {
    }
    SumEq(m, k => Mul(At(d, ChannelPlace(g)(c, k)), BatchTangent(g, x, t, gamma, tg, beta, tb, eps, inv)(c, k)),
      i => Mul(Channel(g, d, c)(i), NormTangent(m, cx, ct, InvStd(m, cx, ct, eps, inv),
        Same(At(gamma, c)), Same(At(tg, c)), Same(At(beta, c)), Same(At(tb, c)), i)));
  }

  lemma ChannelIn(g: Dims, x: seq<real>, t: seq<real>, gamma: seq<real>, d: seq<real>, eps: real, inv: InvSqrt, c: int)
    ensures Pairing(DxOf(g, x, gamma, d, eps, inv), ChannelPlace(g), Members(g), t)(c)
      == Sum(Members(g), i => Mul(NormDx(Members(g), Channel(g, x, c), Channel(g, d, c), Same(At(gamma, c)),
        ChannelInv(g, x, c, eps, inv), i),
           Channel(g, t, c)(i)))
  {
    hide Members, ChannelPos, Mul, Sum, NormDx, ChannelInv;
    var share := DxOf(g, x, gamma, d, eps, inv);
    forall k | 0 <= k < Members(g)
      ensures share(c, k) == NormDx(Members(g), Channel(g, x, c), Channel(g, d, c), Same(At(gamma, c)),
        ChannelInv(g, x, c, eps, inv), k)
      ensures At(t, ChannelPlace(g)(c, k)) == Channel(g, t, c)(k)
    {
      assert share(c, k) == ChannelDx(g, x, gamma, d, eps, inv, c, k);
    }
    SumEq(Members(g), k => Mul(DxOf(g, x, gamma, d, eps, inv)(c, k), At(t, ChannelPlace(g)(c, k))),
      i => Mul(NormDx(Members(g), Channel(g, x, c), Channel(g, d, c), Same(At(gamma, c)),
        ChannelInv(g, x, c, eps, inv), i),
        Channel(g, t, c)(i)));
  }

  lemma Factored(n: nat, f: int -> real, t: real, h: int -> real)
    requires forall i :: 0 <= i < n ==> h(i) == Mul(f(i), t)
    ensures Sum(n, h) == Mul(Sum(n, f), t)
  {
    hide Mul, Sum;
    forall i | 0 <= i < n
      ensures h(i) == Mul(t, f(i))
    {
      MulComm(t, f(i));
    }
    SumScale(n, t, f, h);
    MulComm(t, Sum(n, f));
  }

  // ── SOFTMAX ──

  // The exponentials of slice q's elements.
  ghost function SliceOf(e: Share, q: int): int -> real { k => e(q, k) }

  // The tangent of the outputs.
  ghost function SoftTangents(s: Slices, e: Share, t: seq<real>): Share {
    (q, k) => DualSoftmax(Length(s), SliceOf(e, q), Slice(s, t, q), k).du
  }

  // e(q, k) stands for exp of the element; y are the forward outputs, da what the loops add.
  lemma SoftmaxWholeAdjoint(s: Slices, e: Share, y: seq<real>, t: seq<real>, d: seq<real>, out: seq<real>,
                            da: seq<real>)
    requires |y| == |d| == |out| == |da| == Total(s)
    requires forall q :: 0 <= q < Count(s) ==> Sum(Length(s), SliceOf(e, q)) > 0.0
    requires forall q, k :: 0 <= q < Count(s) && 0 <= k < Length(s) ==>
      At(y, Spots(s)(q, k)) == Soft(Length(s), SliceOf(e, q), k)
    requires forall q, k :: 0 <= q < Count(s) && 0 <= k < Length(s) ==>
      At(out, Spots(s)(q, k)) == SoftTangents(s, e, t)(q, k)
    requires forall q, k :: 0 <= q < Count(s) && 0 <= k < Length(s) && 0 <= Spots(s)(q, k) < |da| ==>
      da[Spots(s)(q, k)] == SliceDx(s, y, d)(q, k)
    ensures Dot(d, out) == Dot(da, t)
  {
    hide Mul, Sum, Layout, Covers, SoftmaxDx, DualSoftmax, Soft;
    var place, tan, dx, n := Spots(s), SoftTangents(s, e, t), SliceDx(s, y, d), Length(s);
    SliceLayout(s);
    WholePairing(d, out, place, Count(s), n, tan);
    var a := (q: int) => Sum(n, k => Mul(At(d, place(q, k)), tan(q, k)));
    forall q | 0 <= q < Count(s)
      ensures a(q) == Pairing(dx, place, n, t)(q)
    {
      SliceAdjoint(s, e, y, t, d, q);
    }
    SumEq(Count(s), a, Pairing(dx, place, n, t));
    SumEq(Count(s), a, c => Sum(n, k => Mul(At(d, place(c, k)), tan(c, k))));
    SharedFrom(da, place, Count(s), n, Total(s), dx);
    SharedPairing(da, place, Count(s), n, Total(s), dx, t);
  }

  lemma SharedFrom(da: seq<real>, place: Place, groups: nat, n: nat, total: nat, share: Share)
    requires |da| == total
    requires forall q, k :: 0 <= q < groups && 0 <= k < n && 0 <= place(q, k) < |da| ==> da[place(q, k)] == share(q, k)
    ensures Shared(da, Zeros(total), place, groups, n, share, groups, 0)
  {
  }

  lemma SliceAdjoint(s: Slices, e: Share, y: seq<real>, t: seq<real>, d: seq<real>, q: int)
    requires Sum(Length(s), SliceOf(e, q)) > 0.0
    requires forall k :: 0 <= k < Length(s) ==> At(y, Spots(s)(q, k)) == Soft(Length(s), SliceOf(e, q), k)
    ensures Sum(Length(s), k => Mul(At(d, Spots(s)(q, k)), SoftTangents(s, e, t)(q, k)))
      == Pairing(SliceDx(s, y, d), Spots(s), Length(s), t)(q)
  {
    var n, eq, st, sd := Length(s), SliceOf(e, q), Slice(s, t, q), Slice(s, d, q);
    hide Mul, Sum, SoftmaxDx, DualSoftmax, Soft, Spot;
    SoftmaxAdjoint(n, eq, st, sd);
    forall k | 0 <= k < n
      ensures SliceDx(s, y, d)(q, k) == SoftmaxDx(n, k => Soft(n, eq, k), sd, k)
    {
      assert Slice(s, y, q)(k) == Soft(n, eq, k);
      SoftmaxDxEq(n, Slice(s, y, q), k => Soft(n, eq, k), sd, k);
    }
    SumEq(n, k => Mul(At(d, Spots(s)(q, k)), SoftTangents(s, e, t)(q, k)),
      i => Mul(sd(i), DualSoftmax(n, eq, st, i).du));
    SumEq(n, k => Mul(SliceDx(s, y, d)(q, k), At(t, Spots(s)(q, k))),
      i => Mul(SoftmaxDx(n, k => Soft(n, eq, k), sd, i), st(i)));
  }

  lemma SoftmaxDxEq(n: nat, y: int -> real, y': int -> real, d: int -> real, k: int)
    requires 0 <= k < n && forall i :: 0 <= i < n ==> y(i) == y'(i)
    ensures SoftmaxDx(n, y, d, k) == SoftmaxDx(n, y', d, k)
  {
    hide Mul, Sum;
    SumEq(n, j => Weighed(y, d, j), j => Weighed(y', d, j));
  }

  // ── Rows, channels and slices by multi-index ──

  // Row r's element i is at [r, i]; a column slice has its number second.
  lemma RowsAt(rows: nat, n: nat, r: int, i: int)
    ensures RowPlace(n)(r, i) == Ravel([rows, n], [r, i])
    ensures Spots(Slices.Rows(rows, n))(r, i) == Ravel([rows, n], [r, i])
    ensures Spots(Columns(n, rows))(r, i) == Ravel([n, rows], [i, r])
  {
    Ravel2([rows, n], r, i);
    Ravel2([n, rows], i, r);
  }

  // Channel c's member at batch item b, row y and column x is at [b, c, y, x].
  lemma ChannelsAt(g: Dims, c: nat, b: nat, y: nat, x: nat)
    requires b < g.n && c < g.c && y < g.h && x < g.w
    ensures ChannelPlace(g)(c, Ravel([g.n, g.h, g.w], [b, y, x])) == Ravel([g.n, g.c, g.h, g.w], [b, c, y, x])
  {
    hide ChannelPos, Ix, Ravel;
    Ravel3([g.n, g.h, g.w], b, y, x);
    Ravel4([g.n, g.c, g.h, g.w], b, c, y, x);
    StepDecodes(g, c, b, y, x);
  }

  lemma Ravel3(s: Shape, i: int, j: int, k: int)
    requires |s| == 3
    ensures Ravel(s, [i, j, k]) == Ix(s[2], Ix(s[1], i, j), k)
  {
    RavelConcat(s[..2], s[2..], [i, j], [k]);
    assert s[..2] + s[2..] == s && [i, j] + [k] == [i, j, k];
    Ravel2(s[..2], i, j);
    Ravel1(s[2..], k);
  }
}
