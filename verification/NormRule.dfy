// LAYERNORM, BATCHNORM and SOFTMAX: within one row, channel or slice, the
// backward formulas are the exact adjoints of the forward ones on dual numbers.
// Square root and exponential enter through their defining equations only.
module NormRule {
  import opened Sums
  import opened Tape
  import opened NodeRule

  // ── Sums of combinations ──

  lemma SumLinear(n: nat, a: real, f: int -> real, b: real, g: int -> real, h: int -> real)
    requires forall i :: 0 <= i < n ==> h(i) == Mul(a, f(i)) + Mul(b, g(i))
    ensures Sum(n, h) == Mul(a, Sum(n, f)) + Mul(b, Sum(n, g))
  {
    var af, bg := (i: int) => Mul(a, f(i)), (i: int) => Mul(b, g(i));
    SumScale(n, a, f, af);
    SumScale(n, b, g, bg);
    SumAdd(n, af, bg, h);
  }

  // ── Normalisation of one group of n elements ──

  function Square(x: int -> real, i: int): real { Mul(x(i), x(i)) }

  // sq / M - mean * mean
  function GroupVar(n: nat, x: int -> real): real {
    Mul(Inv(n), Sum(n, i => Square(x, i))) - Mul(Mean(n, x), Mean(n, x))
  }

  function Hat(n: nat, x: int -> real, inv: real, i: int): real { Mul(x(i) - Mean(n, x), inv) }

  function DHat(d: int -> real, gamma: int -> real, i: int): real { Mul(d(i), gamma(i)) }

  function DHatHat(n: nat, x: int -> real, d: int -> real, gamma: int -> real, inv: real, i: int): real {
    Mul(DHat(d, gamma, i), Hat(n, x, inv, i))
  }

  function SumDHat(n: nat, d: int -> real, gamma: int -> real): real { Sum(n, i => DHat(d, gamma, i)) }

  function SumDHatHat(n: nat, x: int -> real, d: int -> real, gamma: int -> real, inv: real): real {
    Sum(n, i => DHatHat(n, x, d, gamma, inv, i))
  }

  // inv / M * (M * dhat - sum(dhat) - xhat * sum(dhat * xhat))
  function NormDx(n: nat, x: int -> real, d: int -> real, gamma: int -> real, inv: real, i: int): real {
    Mul(Mul(inv, Inv(n)),
        Mul(n as real, DHat(d, gamma, i)) - SumDHat(n, d, gamma)
        - Mul(Hat(n, x, inv, i), SumDHatHat(n, x, d, gamma, inv)))
  }

  // ── Forward on dual numbers ──

  ghost function DualOf(x: int -> real, t: int -> real, i: int): Dual { Dual(x(i), t(i)) }

  ghost function DualMean(n: nat, x: int -> real, t: int -> real): Dual {
    DScale(Inv(n), DSum(n, i => DualOf(x, t, i)))
  }

  ghost function DualSquare(x: int -> real, t: int -> real, i: int): Dual { DMul(DualOf(x, t, i), DualOf(x, t, i)) }

  ghost function DualVar(n: nat, x: int -> real, t: int -> real): Dual {
    DSub(DScale(Inv(n), DSum(n, i => DualSquare(x, t, i))), DMul(DualMean(n, x, t), DualMean(n, x, t)))
  }

  // s = 1 / sqrt(v + eps) on dual numbers: s * s * (v + eps) = 1.
  ghost predicate IsInvStd(s: Dual, v: Dual, eps: real) {
    DMul(DMul(s, s), DAdd(v, Dual(eps, 0.0))) == Dual(1.0, 0.0)
  }

  // gamma * (x - mean) * s + beta
  ghost function DualNorm(n: nat, x: int -> real, t: int -> real, s: Dual, gamma: Dual, beta: Dual, i: int): Dual {
    DAdd(DMul(gamma, DMul(DSub(DualOf(x, t, i), DualMean(n, x, t)), s)), beta)
  }

  // ── The adjoint ──

  lemma MeanTangent(n: nat, x: int -> real, t: int -> real)
    ensures DualMean(n, x, t) == Dual(Mean(n, x), Mean(n, t))
  {
    DSumRe(n, i => DualOf(x, t, i), x);
    DSumDu(n, i => DualOf(x, t, i), t);
  }

  ghost function Centred(n: nat, x: int -> real, t: int -> real, i: int): real { Mul(x(i) - Mean(n, x), t(i)) }

  ghost function Cov(n: nat, x: int -> real, t: int -> real): real { Sum(n, i => Centred(n, x, t, i)) }

  ghost function Paired(x: int -> real, t: int -> real, i: int): real { Mul(x(i), t(i)) }

  // The variance's tangent is 2/M times the covariance with the tangent.
  lemma VarTangent(n: nat, x: int -> real, t: int -> real)
    requires n > 0
    ensures DualVar(n, x, t) == Dual(GroupVar(n, x), Mul(Mul(2.0, Inv(n)), Cov(n, x, t)))
  {
    hide Mul;
    MeanTangent(n, x, t);
    DSumRe(n, i => DualSquare(x, t, i), i => Square(x, i));
    forall i | 0 <= i < n
      ensures DualSquare(x, t, i).du == Mul(2.0, Paired(x, t, i))
    {
      Doubled(x(i), t(i));
    }
    DSumDu(n, i => DualSquare(x, t, i), i => Mul(2.0, Paired(x, t, i)));
    SumScale(n, 2.0, i => Paired(x, t, i), i => Mul(2.0, Paired(x, t, i)));
    var mu := Mean(n, x);
    forall i | 0 <= i < n
      ensures Centred(n, x, t, i) == Mul(1.0, Paired(x, t, i)) + Mul(-mu, t(i))
    {
      Shifted(x(i), mu, t(i));
    }
    SumLinear(n, 1.0, i => Paired(x, t, i), -mu, t, i => Centred(n, x, t, i));
    VarAlgebra(Inv(n), Sum(n, i => Paired(x, t, i)), mu, Sum(n, t), Cov(n, x, t));
  }

  lemma Doubled(x: real, t: real)
    ensures Mul(x, t) + Mul(t, x) == Mul(2.0, Mul(x, t))
  {
  }

  lemma Shifted(x: real, mu: real, t: real)
    ensures Mul(x - mu, t) == Mul(1.0, Mul(x, t)) + Mul(-mu, t)
  {
  }

  lemma VarAlgebra(c: real, s: real, mu: real, st: real, cov: real)
    requires cov == Mul(1.0, s) + Mul(-mu, st)
    ensures Mul(c, Mul(2.0, s)) - (Mul(mu, Mul(c, st)) + Mul(Mul(c, st), mu)) == Mul(Mul(2.0, c), cov)
  {
    assert mu * (c * st) == c * (mu * st);
    assert (2.0 * c) * (s - mu * st) == c * (2.0 * s) - 2.0 * (c * (mu * st));
  }

  // Differentiating s * s * (v + eps) = 1 gives the tangent of the inverse deviation.
  lemma InvStdTangent(s: Dual, v: Dual, eps: real)
    requires IsInvStd(s, v, eps)
    ensures Mul(2.0, s.du) == -Mul(Mul(Mul(s.re, s.re), s.re), v.du)
  {
    var r, w := s.re, v.re + eps;
    assert (r * r) * w == 1.0;
    assert (r * r) * v.du + (r * s.du + s.du * r) * w == 0.0;
    assert r * ((r * r) * v.du + (r * s.du + s.du * r) * w) == ((r * r) * r) * v.du + 2.0 * s.du * ((r * r) * w);
  }

  ghost function TermA(d: int -> real, gamma: int -> real, t: int -> real, i: int): real {
    Mul(DHat(d, gamma, i), t(i))
  }

  // <dhat, tangent of xhat> = <dx, t>
  lemma HatAdjoint(n: nat, x: int -> real, t: int -> real, d: int -> real, gamma: int -> real, s: Dual, eps: real)
    requires n > 0 && IsInvStd(s, DualVar(n, x, t), eps)
    ensures Sum(n, i => HatPairing(n, x, t, d, gamma, s, i)) == Sum(n, i => Mul(NormDx(n, x, d, gamma, s.re, i), t(i)))
  {
    hide Mul;
    var inv, mu, mt := s.re, Mean(n, x), Mean(n, t);
    VarTangent(n, x, t);
    InvStdTangent(s, DualVar(n, x, t), eps);
    MeanTangent(n, x, t);
    var A := Sum(n, i => TermA(d, gamma, t, i));
    var D, V := SumDHat(n, d, gamma), Cov(n, x, t);
    var Q := Sum(n, i => Spreads(n, x, d, gamma, i));
    HatSide(n, x, t, d, gamma, s, A, D, Q);
    DxSide(n, x, t, d, gamma, inv, A, D, Q, V);
    Balance(inv, Inv(n), n as real, s.du, A, D, Sum(n, t), Q, V);
  }

  // dhat * (x - mean)
  ghost function Spreads(n: nat, x: int -> real, d: int -> real, gamma: int -> real, i: int): real {
    Mul(DHat(d, gamma, i), x(i) - Mean(n, x))
  }

  ghost function HatPairing(n: nat, x: int -> real, t: int -> real, d: int -> real, gamma: int -> real, s: Dual,
                            i: int): real {
    Mul(DHat(d, gamma, i), DMul(DSub(DualOf(x, t, i), DualMean(n, x, t)), s).du)
  }

  lemma HatSide(n: nat, x: int -> real, t: int -> real, d: int -> real, gamma: int -> real, s: Dual, A: real, D: real,
                Q: real)
    requires A == Sum(n, i => TermA(d, gamma, t, i)) && D == SumDHat(n, d, gamma)
    requires Q == Sum(n, i => Spreads(n, x, d, gamma, i))
    ensures Sum(n, i => HatPairing(n, x, t, d, gamma, s, i)) == Mul(s.re, A) + Mul(-Mul(s.re, Mean(n, t)), D)
      + Mul(s.du, Q)
  {
    hide Mul;
    var c := -Mul(s.re, Mean(n, t));
    var f := (i: int) => Mul(s.re, TermA(d, gamma, t, i)) + Mul(c, DHat(d, gamma, i));
    MeanTangent(n, x, t);
    SumLinear(n, s.re, i => TermA(d, gamma, t, i), c, i => DHat(d, gamma, i), f);
    forall i | 0 <= i < n
      ensures HatPairing(n, x, t, d, gamma, s, i) == Mul(1.0, f(i)) + Mul(s.du, Spreads(n, x, d, gamma, i))
    {
      PairingSplit(DHat(d, gamma, i), x(i) - Mean(n, x), t(i), Mean(n, t), s.re, s.du);
    }
    SumLinear(n, 1.0, f, s.du, i => Spreads(n, x, d, gamma, i), i => HatPairing(n, x, t, d, gamma, s, i));
    MulOne(Sum(n, f));
  }

  lemma PairingSplit(h: real, y: real, t: real, mt: real, r: real, u: real)
    ensures Mul(h, Mul(y, u) + Mul(t - mt, r)) == Mul(1.0, Mul(r, Mul(h, t)) + Mul(-Mul(r, mt), h)) + Mul(u, Mul(h, y))
  {
    assert h * ((t - mt) * r) == r * (h * t) - (r * mt) * h;
    assert h * (y * u) == u * (h * y);
  }

  lemma DxSide(n: nat, x: int -> real, t: int -> real, d: int -> real, gamma: int -> real, inv: real, A: real, D: real,
               Q: real, V: real)
    requires A == Sum(n, i => TermA(d, gamma, t, i)) && D == SumDHat(n, d, gamma) && V == Cov(n, x, t)
    requires Q == Sum(n, i => Spreads(n, x, d, gamma, i))
    ensures Sum(n, i => Mul(NormDx(n, x, d, gamma, inv, i), t(i)))
      == Mul(Mul(inv, Inv(n)), Mul(n as real, A) - Mul(D, Sum(n, t)) - Mul(Mul(inv, V), Mul(inv, Q)))
  {
    hide Mul, SumDHat, SumDHatHat, DHat, Hat, Cov, TermA, Centred, Spreads, Mean;
    var c, P, T := Mul(inv, Inv(n)), SumDHatHat(n, x, d, gamma, inv), Sum(n, t);
    HatHatSum(n, x, d, gamma, inv);
    var f := (i: int) => Mul(n as real, TermA(d, gamma, t, i)) + Mul(-D, t(i));
    SumLinear(n, n as real, i => TermA(d, gamma, t, i), -D, t, f);
    var k := -Mul(inv, P);
    var g := (i: int) => Mul(1.0, f(i)) + Mul(k, Centred(n, x, t, i));
    SumLinear(n, 1.0, f, k, i => Centred(n, x, t, i), g);
    CovIs(n, x, t);
    forall i | 0 <= i < n
      ensures Mul(NormDx(n, x, d, gamma, inv, i), t(i)) == Mul(c, g(i))
    {
      DxPoint(n, x, t, d, gamma, inv, i);
    }
    SumScale(n, c, g, i => Mul(NormDx(n, x, d, gamma, inv, i), t(i)));
    DxTotal(n as real, A, D, T, inv, V, Q, P, Sum(n, f), Sum(n, g));
  }

  lemma CovIs(n: nat, x: int -> real, t: int -> real)
    ensures Cov(n, x, t) == Sum(n, i => Centred(n, x, t, i))
  {
    SumEq(n, i => Centred(n, x, t, i), i => Centred(n, x, t, i));
  }

  lemma HatHatSum(n: nat, x: int -> real, d: int -> real, gamma: int -> real, inv: real)
    ensures SumDHatHat(n, x, d, gamma, inv) == Mul(inv, Sum(n, i => Spreads(n, x, d, gamma, i)))
  {
    hide Mul, Mean, DHat;
    forall i | 0 <= i < n
      ensures DHatHat(n, x, d, gamma, inv, i) == Mul(inv, Spreads(n, x, d, gamma, i))
    {
      MulAssoc(DHat(d, gamma, i), x(i) - Mean(n, x), inv);
    }
    SumScale(n, inv, i => Spreads(n, x, d, gamma, i), i => DHatHat(n, x, d, gamma, inv, i));
  }

  lemma DxPoint(n: nat, x: int -> real, t: int -> real, d: int -> real, gamma: int -> real, inv: real, i: int)
    ensures Mul(NormDx(n, x, d, gamma, inv, i), t(i)) == Mul(Mul(inv, Inv(n)),
      Mul(1.0, Mul(n as real, TermA(d, gamma, t, i)) + Mul(-SumDHat(n, d, gamma), t(i)))
      + Mul(-Mul(inv, SumDHatHat(n, x, d, gamma, inv)), Centred(n, x, t, i)))
  {
    hide Mul, SumDHat, SumDHatHat, DHat, Mean;
    DxSplit(Mul(inv, Inv(n)), n as real, DHat(d, gamma, i), SumDHat(n, d, gamma), x(i) - Mean(n, x), inv,
      SumDHatHat(n, x, d, gamma, inv), t(i));
  }

  lemma DxSplit(c: real, m: real, h: real, D: real, y: real, inv: real, P: real, t: real)
    ensures Mul(Mul(c, Mul(m, h) - D - Mul(Mul(y, inv), P)), t)
      == Mul(c, Mul(1.0, Mul(m, Mul(h, t)) + Mul(-D, t)) + Mul(-Mul(inv, P), Mul(y, t)))
  {
    assert (m * h - D - (y * inv) * P) * t == m * (h * t) - D * t - (inv * P) * (y * t);
  }

  lemma DxTotal(m: real, A: real, D: real, T: real, inv: real, V: real, Q: real, P: real, F: real, G: real)
    requires F == Mul(m, A) + Mul(-D, T) && G == Mul(1.0, F) + Mul(-Mul(inv, P), V) && P == Mul(inv, Q)
    ensures G == Mul(m, A) - Mul(D, T) - Mul(Mul(inv, V), Mul(inv, Q))
  {
    assert (inv * P) * V == (inv * V) * P;
  }

  // Both sides in closed form; V is the covariance, Q the spread of dhat.
  lemma Balance(inv: real, c: real, m: real, u: real, A: real, D: real, T: real, Q: real, V: real)
    requires c * m == 1.0
    requires Mul(2.0, u) == -Mul(Mul(Mul(inv, inv), inv), Mul(Mul(2.0, c), V))
    ensures Mul(inv, A) + Mul(-Mul(inv, Mul(c, T)), D) + Mul(u, Q)
      == Mul(Mul(inv, c), Mul(m, A) - Mul(D, T) - Mul(Mul(inv, V), Mul(inv, Q)))
  {
    Leading(inv, c, m, A);
    Middle(inv, c, D, T);
    Trailing(inv, c, u, Q, V);
    var k := Mul(inv, c);
    MulDistributes(k, Mul(m, A) - Mul(D, T), -Mul(Mul(inv, V), Mul(inv, Q)));
    MulDistributes(k, Mul(m, A), -Mul(D, T));
  }

  lemma Leading(inv: real, c: real, m: real, A: real)
    requires c * m == 1.0
    ensures Mul(Mul(inv, c), Mul(m, A)) == Mul(inv, A)
  {
    assert (inv * c) * (m * A) == inv * ((c * m) * A);
  }

  lemma Middle(inv: real, c: real, D: real, T: real)
    ensures Mul(Mul(inv, c), -Mul(D, T)) == Mul(-Mul(inv, Mul(c, T)), D)
  {
    assert (inv * c) * (D * T) == (inv * (c * T)) * D;
  }

  lemma Trailing(inv: real, c: real, u: real, Q: real, V: real)
    requires Mul(2.0, u) == -Mul(Mul(Mul(inv, inv), inv), Mul(Mul(2.0, c), V))
    ensures Mul(Mul(inv, c), -Mul(Mul(inv, V), Mul(inv, Q))) == Mul(u, Q)
  {
    var cube, cv := (inv * inv) * inv, c * V;
    assert (2.0 * c) * V == 2.0 * cv;
    assert cube * (2.0 * cv) == 2.0 * (cube * cv);
    assert u == -(cube * cv);
    assert (inv * V) * (inv * Q) == (inv * inv) * (V * Q);
    assert (inv * c) * ((inv * inv) * (V * Q)) == (cube * cv) * Q;
  }

  // ── The layer ──

  ghost function NormTangent(n: nat, x: int -> real, t: int -> real, s: Dual, gamma: int -> real, tg: int -> real,
                             beta: int -> real, tb: int -> real, i: int): real {
    DualNorm(n, x, t, s, DualOf(gamma, tg, i), DualOf(beta, tb, i), i).du
  }

  // What one row or channel contributes to gamma and beta, element by element.
  function ScaleBack(n: nat, x: int -> real, d: int -> real, inv: real, i: int): real { Mul(d(i), Hat(n, x, inv, i)) }

  // For every incoming gradient d and every tangent of x, gamma and beta: d against
  // the normalised tangent equals dx, dgamma and dbeta against theirs.
  lemma NormAdjoint(n: nat, x: int -> real, t: int -> real, d: int -> real, gamma: int -> real, tg: int -> real,
                    beta: int -> real, tb: int -> real, s: Dual, eps: real)
    requires n > 0 && IsInvStd(s, DualVar(n, x, t), eps)
    ensures Sum(n, i => Mul(d(i), NormTangent(n, x, t, s, gamma, tg, beta, tb, i)))
      == Sum(n, i => Mul(NormDx(n, x, d, gamma, s.re, i), t(i)))
       + Sum(n, i => Mul(ScaleBack(n, x, d, s.re, i), tg(i))) + Sum(n, i => Mul(d(i), tb(i)))
  {
    hide Mul, NormDx;
    HatAdjoint(n, x, t, d, gamma, s, eps);
    MeanTangent(n, x, t);
    var f := (i: int) => HatPairing(n, x, t, d, gamma, s, i);
    var g := (i: int) => Mul(ScaleBack(n, x, d, s.re, i), tg(i));
    var h := (i: int) => Mul(d(i), tb(i));
    var fg := (i: int) => f(i) + g(i);
    SumAdd(n, f, g, fg);
    forall i | 0 <= i < n
      ensures Mul(d(i), NormTangent(n, x, t, s, gamma, tg, beta, tb, i)) == fg(i) + h(i)
    {
      var y := DMul(DSub(DualOf(x, t, i), DualMean(n, x, t)), s);
      LayerSplit(d(i), gamma(i), tg(i), y.re, y.du, tb(i));
    }
    SumAdd(n, fg, h, i => Mul(d(i), NormTangent(n, x, t, s, gamma, tg, beta, tb, i)));
    SumEq(n, f, i => HatPairing(n, x, t, d, gamma, s, i));
    SumEq(n, g, i => Mul(ScaleBack(n, x, d, s.re, i), tg(i)));
    SumEq(n, h, i => Mul(d(i), tb(i)));
  }

  lemma LayerSplit(d: real, gamma: real, tg: real, yr: real, yd: real, tb: real)
    ensures Mul(d, Mul(gamma, yd) + Mul(tg, yr) + tb) == Mul(Mul(d, gamma), yd) + Mul(Mul(d, yr), tg) + Mul(d, tb)
  {
    assert d * (tg * yr) == (d * yr) * tg;
  }

  // Shifting the whole group changes nothing, so its gradient adds up to zero.
  lemma NormDxSumsToZero(n: nat, x: int -> real, d: int -> real, gamma: int -> real, inv: real)
    requires n > 0
    ensures Sum(n, i => NormDx(n, x, d, gamma, inv, i)) == 0.0
  {
    hide Mul;
    var one := (i: int) => 1.0;
    var A, D, V := Sum(n, i => TermA(d, gamma, one, i)), SumDHat(n, d, gamma), Cov(n, x, one);
    var Q := Sum(n, i => Spreads(n, x, d, gamma, i));
    DxSide(n, x, one, d, gamma, inv, A, D, Q, V);
    forall i | 0 <= i < n
      ensures TermA(d, gamma, one, i) == DHat(d, gamma, i)
      ensures Centred(n, x, one, i) == x(i) - Mean(n, x)
      ensures Mul(NormDx(n, x, d, gamma, inv, i), one(i)) == NormDx(n, x, d, gamma, inv, i)
    {
      MulOne(DHat(d, gamma, i));
      MulOne(x(i) - Mean(n, x));
      MulOne(NormDx(n, x, d, gamma, inv, i));
    }
    SumEq(n, i => TermA(d, gamma, one, i), i => DHat(d, gamma, i));
    DeviationsCancel(n, x);
    SumEq(n, i => Centred(n, x, one, i), r => x(r) - Mean(n, x));
    SumEq(n, i => Mul(NormDx(n, x, d, gamma, inv, i), one(i)), i => NormDx(n, x, d, gamma, inv, i));
    SumConst(n, 1.0);
    SumEq(n, one, _ => 1.0);
    Vanishes(Mul(inv, Inv(n)), n as real, D, inv, Q);
  }

  lemma Vanishes(c: real, m: real, D: real, inv: real, Q: real)
    ensures Mul(c, Mul(m, D) - Mul(D, Mul(m, 1.0)) - Mul(Mul(inv, 0.0), Mul(inv, Q))) == 0.0
  {
    assert inv * 0.0 == 0.0;
  }

  // ── SOFTMAX of one slice ──

  // e(i) stands for exp of element i; the exponential's tangent is itself times the element's.
  ghost function DualExp(e: int -> real, t: int -> real, i: int): Dual { Dual(e(i), Mul(e(i), t(i))) }

  ghost function DualSoftmax(n: nat, e: int -> real, t: int -> real, i: int): Dual {
    DDiv(DualExp(e, t, i), DSum(n, j => DualExp(e, t, j)))
  }

  // out_i
  function Soft(n: nat, e: int -> real, i: int): real { Quot(e(i), Sum(n, e)) }

  function Weighed(y: int -> real, d: int -> real, i: int): real { Mul(y(i), d(i)) }

  // out_i * (d_i - sum_j out_j * d_j)
  function SoftmaxDx(n: nat, y: int -> real, d: int -> real, i: int): real {
    Mul(y(i), d(i) - Sum(n, j => Weighed(y, d, j)))
  }

  lemma SoftTangent(n: nat, e: int -> real, t: int -> real, i: int)
    requires Sum(n, e) > 0.0
    ensures DualSoftmax(n, e, t, i).du == SoftmaxDx(n, k => Soft(n, e, k), t, i)
  {
    hide Mul, Quot;
    var S := Sum(n, e);
    DSumRe(n, j => DualExp(e, t, j), e);
    DSumDu(n, j => DualExp(e, t, j), j => Weighed(e, t, j));
    var y := (k: int) => Soft(n, e, k);
    forall j | 0 <= j < n
      ensures Weighed(y, t, j) == Mul(1.0 / S, Weighed(e, t, j))
    {
      QuotScaled(e(j), S, t(j));
    }
    SumScale(n, 1.0 / S, j => Weighed(e, t, j), j => Weighed(y, t, j));
    SoftQuotient(e(i), t(i), S, Sum(n, j => Weighed(e, t, j)));
  }

  lemma QuotScaled(e: real, S: real, t: real)
    requires S > 0.0
    ensures Mul(Quot(e, S), t) == Mul(1.0 / S, Mul(e, t))
  {
    var r := 1.0 / S;
    assert S * r == 1.0;
    QuotByInverse(e, S, r);
    assert (e * r) * t == r * (e * t);
  }

  lemma SoftQuotient(e: real, t: real, S: real, W: real)
    requires S > 0.0
    ensures Quot(Mul(Mul(e, t), S) - Mul(e, W), Mul(S, S)) == Mul(Quot(e, S), t - Mul(1.0 / S, W))
  {
    var r, ss := 1.0 / S, S * S;
    assert S * r == 1.0;
    assert ss * (r * r) == (S * r) * (S * r) == 1.0;
    QuotByInverse(e, S, r);
    QuotByInverse((e * t) * S - e * W, ss, r * r);
    assert ((e * t) * S) * (r * r) == ((e * r) * t) * (S * r);
    assert (e * W) * (r * r) == (e * r) * (r * W);
  }

  // The softmax rule is its own transpose: d against the tangent of the outputs is dx against t.
  lemma SoftmaxAdjoint(n: nat, e: int -> real, t: int -> real, d: int -> real)
    requires Sum(n, e) > 0.0
    ensures Sum(n, i => Mul(d(i), DualSoftmax(n, e, t, i).du))
      == Sum(n, i => Mul(SoftmaxDx(n, k => Soft(n, e, k), d, i), t(i)))
  {
    hide Mul, DualSoftmax;
    var y := (k: int) => Soft(n, e, k);
    forall i | 0 <= i < n
      ensures Mul(d(i), DualSoftmax(n, e, t, i).du) == Mul(d(i), SoftmaxDx(n, y, t, i))
    {
      SoftTangent(n, e, t, i);
    }
    SumEq(n, i => Mul(d(i), DualSoftmax(n, e, t, i).du), i => Mul(d(i), SoftmaxDx(n, y, t, i)));
    SoftSide(n, y, t, d);
    SoftSide(n, y, d, t);
    forall i | 0 <= i < n
      ensures Mul(SoftmaxDx(n, y, d, i), t(i)) == Mul(t(i), SoftmaxDx(n, y, d, i))
      ensures Triple(y, t, d, i) == Triple(y, d, t, i)
    {
      MulComm(SoftmaxDx(n, y, d, i), t(i));
      TripleComm(y(i), t(i), d(i));
    }
    SumEq(n, i => Triple(y, t, d, i), i => Triple(y, d, t, i));
    SumEq(n, i => Mul(SoftmaxDx(n, y, d, i), t(i)), i => Mul(t(i), SoftmaxDx(n, y, d, i)));
    MulComm(Sum(n, j => Weighed(y, t, j)), Sum(n, j => Weighed(y, d, j)));
  }

  ghost function Triple(y: int -> real, t: int -> real, d: int -> real, i: int): real { Mul(d(i), Mul(y(i), t(i))) }

  lemma TripleComm(y: real, t: real, d: real)
    ensures Mul(d, Mul(y, t)) == Mul(t, Mul(y, d))
  {
  }

  lemma SoftSide(n: nat, y: int -> real, t: int -> real, d: int -> real)
    ensures Sum(n, i => Mul(d(i), SoftmaxDx(n, y, t, i)))
      == Sum(n, i => Triple(y, t, d, i)) - Mul(Sum(n, j => Weighed(y, t, j)), Sum(n, j => Weighed(y, d, j)))
  {
    hide Mul;
    var W := Sum(n, j => Weighed(y, t, j));
    forall i | 0 <= i < n
      ensures Mul(d(i), SoftmaxDx(n, y, t, i)) == Mul(1.0, Triple(y, t, d, i)) + Mul(-W, Weighed(y, d, i))
    {
      SoftSplit(d(i), y(i), t(i), W);
    }
    SumLinear(n, 1.0, i => Triple(y, t, d, i), -W, j => Weighed(y, d, j), i => Mul(d(i), SoftmaxDx(n, y, t, i)));
    MulOne(Sum(n, i => Triple(y, t, d, i)));
    NegatedProduct(W, Sum(n, j => Weighed(y, d, j)));
  }

  lemma NegatedProduct(a: real, b: real)
    ensures Mul(-a, b) == -Mul(a, b)
  {
  }

  lemma SoftSplit(d: real, y: real, t: real, W: real)
    ensures Mul(d, Mul(y, t - W)) == Mul(1.0, Mul(d, Mul(y, t))) + Mul(-W, Mul(y, d))
  {
    assert d * (y * (t - W)) == d * (y * t) - W * (y * d);
  }

  // Where the outputs sum to one, the slice's gradient sums to zero.
  lemma SoftmaxDxSumsToZero(n: nat, y: int -> real, d: int -> real)
    requires Sum(n, y) == 1.0
    ensures Sum(n, i => SoftmaxDx(n, y, d, i)) == 0.0
  {
    hide Mul;
    var W := Sum(n, j => Weighed(y, d, j));
    forall i | 0 <= i < n
      ensures SoftmaxDx(n, y, d, i) == Mul(1.0, Weighed(y, d, i)) + Mul(-W, y(i))
    {
      SoftPoint(y(i), d(i), W);
    }
    SumLinear(n, 1.0, j => Weighed(y, d, j), -W, y, i => SoftmaxDx(n, y, d, i));
    MulOne(W);
    NegatedProduct(W, 1.0);
    MulOne(W);
  }

  lemma SoftPoint(y: real, d: real, W: real)
    ensures Mul(y, d - W) == Mul(1.0, Mul(y, d)) + Mul(-W, y)
  {
  }

  // The outputs of a forward softmax do sum to one.
  lemma SoftSumsToOne(n: nat, e: int -> real)
    requires Sum(n, e) > 0.0
    ensures Sum(n, i => Soft(n, e, i)) == 1.0
  {
    var S := Sum(n, e);
    var r := 1.0 / S;
    assert S * r == 1.0;
    forall i | 0 <= i < n
      ensures Soft(n, e, i) == Mul(r, e(i))
    {
      QuotByInverse(e(i), S, r);
    }
    SumScale(n, r, e, i => Soft(n, e, i));
  }
}
