module Sums {
  import opened Arith

  // Products are named so that the solver multiplies only where a proof says so.
  function Mul(x: real, y: real): real {
    x * y
  }

  lemma MulAssoc(x: real, y: real, z: real)
    ensures Mul(x, Mul(y, z)) == Mul(y, Mul(x, z)) == Mul(Mul(x, y), z) == Mul(z, Mul(x, y))
  {
  }

  lemma MulComm(x: real, y: real)
    ensures Mul(x, y) == Mul(y, x)
  {
  }

  lemma MulPositive(x: real, y: real)
    ensures x > 0.0 && y > 0.0 ==> Mul(x, y) > 0.0
  {
  }

  lemma MulDistributes(x: real, y: real, z: real)
    ensures Mul(x, y + z) == Mul(x, y) + Mul(x, z)
    ensures Mul(y + z, x) == Mul(y, x) + Mul(z, x)
    ensures Mul(x, 0.0) == 0.0 == Mul(0.0, x)
  {
  }

  lemma MulOne(x: real)
    ensures Mul(1.0, x) == x == Mul(x, 1.0)
  {
  }

  // Finite sums of reals, the common currency of every adjoint identity.
  function Sum(n: nat, f: int -> real): real {
    if n == 0 then 0.0 else Sum(n - 1, f) + f(n - 1)
  }

  lemma {:induction false} SumEq(n: nat, f: int -> real, g: int -> real)
    requires forall i :: 0 <= i < n ==> f(i) == g(i)
    ensures Sum(n, f) == Sum(n, g)
  {
    if n > 0 { SumEq(n - 1, f, g); }
  }

  lemma {:induction false} SumZero(n: nat, f: int -> real)
    requires forall i :: 0 <= i < n ==> f(i) == 0.0
    ensures Sum(n, f) == 0.0
  {
    if n > 0 { SumZero(n - 1, f); }
  }

  lemma {:induction false} SumAdd(n: nat, f: int -> real, g: int -> real, h: int -> real)
    requires forall i :: 0 <= i < n ==> h(i) == f(i) + g(i)
    ensures Sum(n, h) == Sum(n, f) + Sum(n, g)
  {
    if n > 0 { SumAdd(n - 1, f, g, h); }
  }

  lemma {:induction false} SumScale(n: nat, c: real, f: int -> real, h: int -> real)
    requires forall i :: 0 <= i < n ==> h(i) == Mul(c, f(i))
    ensures Sum(n, h) == Mul(c, Sum(n, f))
  {
    if n > 0 {
      SumScale(n - 1, c, f, h);
      MulDistributes(c, Sum(n - 1, f), f(n - 1));
    }
  }

  lemma {:induction false} SumDelta(n: nat, k: int, f: int -> real)
    requires 0 <= k < n
    requires forall i :: 0 <= i < n && i != k ==> f(i) == 0.0
    ensures Sum(n, f) == f(k)
  {
    if k == n - 1 { SumZero(n - 1, f); } else { SumDelta(n - 1, k, f); }
  }

  lemma {:induction false} SumSplit(m: nat, n: nat, f: int -> real, g: int -> real)
    requires forall i :: 0 <= i < n ==> g(i) == f(m + i)
    ensures Sum(m + n, f) == Sum(m, f) + Sum(n, g)
  {
    if n > 0 { SumSplit(m, n - 1, f, g); }
  }

  lemma {:induction false} SumSwap(m: nat, n: nat, f: (int, int) -> real)
    ensures Sum(m, i => Sum(n, j => f(i, j))) == Sum(n, j => Sum(m, i => f(i, j)))
  {
    if m == 0 {
      SumZero(n, j => Sum(m, i => f(i, j)));
    } else {
      SumSwap(m - 1, n, f);
      SumAdd(n, j => Sum(m - 1, i => f(i, j)), j => f(m - 1, j), j => Sum(m, i => f(i, j)));
    }
  }

  // Row-major flattening of a double sum.
  lemma {:induction false} SumFlatten(m: nat, p: nat, f: int -> real, rows: int -> real)
    requires forall i :: 0 <= i < m ==> rows(i) == Sum(p, j => f(Ix(p, i, j)))
    ensures Sum(m * p, f) == Sum(m, rows)
  {
    if m > 0 {
      SumFlatten(m - 1, p, f, rows);
      assert (m - 1) * p + p == m * p;
      var last := (j: int) => f(Ix(p, m - 1, j));
      forall j | 0 <= j < p
        ensures last(j) == f((m - 1) * p + j)
      {
        assert Ix(p, m - 1, j) == (m - 1) * p + j;
      }
      SumSplit((m - 1) * p, p, f, last);
      SumEq(p, last, j => f(Ix(p, m - 1, j)));
    }
  }

  // Exchange of two finite sums, for a table given as a function value.
  lemma SumExchange(m: nat, n: nat, f: (int, int) -> real, rows: int -> real, columns: int -> real)
    requires forall i :: 0 <= i < m ==> rows(i) == Sum(n, j => f(i, j))
    requires forall j :: 0 <= j < n ==> columns(j) == Sum(m, i => f(i, j))
    ensures Sum(m, rows) == Sum(n, columns)
  {
    SumSwap(m, n, f);
    SumEq(m, rows, i => Sum(n, j => f(i, j)));
    SumEq(n, columns, j => Sum(m, i => f(i, j)));
  }

  // Total lookup: an absent element reads as zero.
  function At(s: seq<real>, i: int): real {
    if 0 <= i < |s| then s[i] else 0.0
  }

  function Prod(a: seq<real>, b: seq<real>, i: int): real {
    Mul(At(a, i), At(b, i))
  }

  ghost function Dot(a: seq<real>, b: seq<real>): real {
    Sum(|a|, i => Prod(a, b, i))
  }

  function Zeros(n: nat): (z: seq<real>)
    ensures |z| == n
  {
    seq(n, _ => 0.0)
  }

  function Plus(a: seq<real>, b: seq<real>): (c: seq<real>)
    ensures |c| == |a|
  {
    seq(|a|, i => At(a, i) + At(b, i))
  }

  function Times(a: seq<real>, b: seq<real>): (c: seq<real>)
    ensures |c| == |a|
  {
    seq(|a|, i => Prod(a, b, i))
  }

  lemma DotEq(a: seq<real>, b: seq<real>, c: seq<real>, d: seq<real>)
    requires |a| == |c|
    requires forall i :: 0 <= i < |a| ==> Prod(a, b, i) == Prod(c, d, i)
    ensures Dot(a, b) == Dot(c, d)
  {
    SumEq(|a|, i => Prod(a, b, i), i => Prod(c, d, i));
  }

  lemma DotZeroLeft(n: nat, t: seq<real>)
    ensures Dot(Zeros(n), t) == 0.0
  {
    SumZero(n, i => Prod(Zeros(n), t, i));
  }

  lemma DotZeroRight(a: seq<real>, t: seq<real>)
    requires forall i :: 0 <= i < |t| ==> t[i] == 0.0
    ensures Dot(a, t) == 0.0
  {
    SumZero(|a|, i => Prod(a, t, i));
  }

  lemma DotPlus(a: seq<real>, b: seq<real>, t: seq<real>)
    requires |b| == |a|
    ensures Dot(Plus(a, b), t) == Dot(a, t) + Dot(b, t)
  {
    var p := Plus(a, b);
    forall i | 0 <= i < |a|
      ensures Prod(p, t, i) == Prod(a, t, i) + Prod(b, t, i)
    {
    }
    SumAdd(|a|, i => Prod(a, t, i), i => Prod(b, t, i), i => Prod(p, t, i));
  }

  lemma DotPlusRight(d: seq<real>, a: seq<real>, b: seq<real>)
    requires |a| == |d|
    ensures Dot(d, Plus(a, b)) == Dot(d, a) + Dot(d, b)
  {
    var p := Plus(a, b);
    forall i | 0 <= i < |d|
      ensures Prod(d, p, i) == Prod(d, a, i) + Prod(d, b, i)
    {
    }
    SumAdd(|d|, i => Prod(d, a, i), i => Prod(d, b, i), i => Prod(d, p, i));
  }

  // Elementwise multiplication is self-adjoint.
  lemma TimesAdjoint(d: seq<real>, u: seq<real>, t: seq<real>)
    requires |u| == |d|
    ensures Dot(Times(d, u), t) == Dot(d, Times(u, t))
  {
    forall i | 0 <= i < |d|
      ensures Prod(Times(d, u), t, i) == Prod(d, Times(u, t), i)
    {
    }
    DotEq(Times(d, u), t, d, Times(u, t));
  }

  // ── Index maps ──

  function Gather(n: nat, sigma: int -> int, v: seq<real>): (r: seq<real>)
    ensures |r| == n
  {
    seq(n, i => At(v, sigma(i)))
  }

  function Bump(s: seq<real>, i: int, c: real): (r: seq<real>)
    ensures |r| == |s|
  {
    if 0 <= i < |s| then s[i := s[i] + c] else s
  }

  // r[sigma(o)] += v[o] for the first k positions o, starting from r = zeros.
  function Scatter(n: nat, sigma: int -> int, v: seq<real>, k: nat): (r: seq<real>)
    ensures |r| == n
  {
    if k == 0 then Zeros(n) else Bump(Scatter(n, sigma, v, k - 1), sigma(k - 1), At(v, k - 1))
  }

  function Reduce(n: nat, sigma: int -> int, v: seq<real>): (r: seq<real>)
    ensures |r| == n
  {
    Scatter(n, sigma, v, |v|)
  }

  lemma DotBump(s: seq<real>, i: int, c: real, t: seq<real>)
    requires 0 <= i < |s|
    ensures Dot(Bump(s, i, c), t) == Dot(s, t) + Mul(c, At(t, i))
  {
    var b := Bump(s, i, c);
    var delta := (j: int) => if j == i then Mul(c, At(t, i)) else 0.0;
    forall j | 0 <= j < |s|
      ensures Prod(b, t, j) == Prod(s, t, j) + delta(j)
    {
      assert (s[i] + c) * At(t, i) == s[i] * At(t, i) + c * At(t, i);
    }
    SumDelta(|s|, i, delta);
    SumAdd(|s|, j => Prod(s, t, j), delta, j => Prod(b, t, j));
  }

  lemma {:induction false} ScatterAdjoint(n: nat, sigma: int -> int, d: seq<real>, t: seq<real>, g: seq<real>, k: nat)
    requires k <= |d| && g == Gather(|d|, sigma, t)
    requires forall o :: 0 <= o < |d| ==> 0 <= sigma(o) < n
    ensures Dot(Scatter(n, sigma, d, k), t) == Sum(k, o => Prod(d, g, o))
  {
    if k == 0 {
      DotZeroLeft(n, t);
    } else {
      ScatterAdjoint(n, sigma, d, t, g, k - 1);
      var before, i, c := Scatter(n, sigma, d, k - 1), sigma(k - 1), At(d, k - 1);
      DotBump(before, i, c, t);
      assert Scatter(n, sigma, d, k) == Bump(before, i, c);
      assert At(g, k - 1) == At(t, i);
    }
  }

  // <Reduce_sigma(d), t> = <d, t o sigma>
  lemma ReduceAdjoint(n: nat, sigma: int -> int, d: seq<real>, t: seq<real>)
    requires forall o :: 0 <= o < |d| ==> 0 <= sigma(o) < n
    ensures Dot(Reduce(n, sigma, d), t) == Dot(d, Gather(|d|, sigma, t))
  {
    ScatterAdjoint(n, sigma, d, t, Gather(|d|, sigma, t), |d|);
  }

  // Along an injective map the scatter moves each element to its place.
  lemma {:induction false} ScatterAt(n: nat, sigma: int -> int, v: seq<real>, k: nat, o: nat)
    requires o < |v| && k <= |v|
    requires forall x :: 0 <= x < |v| ==> 0 <= sigma(x) < n
    requires forall x :: 0 <= x < |v| && sigma(x) == sigma(o) ==> x == o
    ensures Scatter(n, sigma, v, k)[sigma(o)] == if o < k then v[o] else 0.0
  {
    if k > 0 { ScatterAt(n, sigma, v, k - 1, o); }
  }

  // For mutually inverse maps the scatter is itself a gather.
  lemma ReduceOfBijection(n: nat, sigma: int -> int, pi: int -> int, d: seq<real>)
    requires forall i :: 0 <= i < n ==> 0 <= pi(i) < |d| && sigma(pi(i)) == i
    requires forall o :: 0 <= o < |d| ==> 0 <= sigma(o) < n && pi(sigma(o)) == o
    ensures Reduce(n, sigma, d) == Gather(n, pi, d)
  {
    forall i | 0 <= i < n
      ensures Reduce(n, sigma, d)[i] == Gather(n, pi, d)[i]
    {
      ScatterAt(n, sigma, d, |d|, pi(i));
    }
  }
}
