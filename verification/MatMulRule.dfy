// MATMUL: both gradients are transposes of the product.
module MatMulRule {
  import opened Arith
  import opened Sums
  import opened Rules

  ghost function Entry(a: seq<real>, b: seq<real>, k: nat, p: nat, i: int, l: int): real {
    Sum(k, j => Mul(At(a, Ix(k, i, j)), At(b, Ix(p, j, l))))
  }

  // The m x p product of a (m x k) and b (k x p).
  ghost function Product(a: seq<real>, b: seq<real>, m: nat, k: nat, p: nat): (r: seq<real>)
    ensures |r| == m * p
  {
    seq(m * p, o => if p == 0 then 0.0 else Entry(a, b, k, p, o / p, o % p))
  }

  ghost function Term(d: seq<real>, a: seq<real>, b: seq<real>, k: nat, p: nat, i: int, j: int, l: int): real {
    Mul(At(d, Ix(p, i, l)), Mul(At(a, Ix(k, i, j)), At(b, Ix(p, j, l))))
  }

  ghost function GradATimes(d: seq<real>, b: seq<real>, t: seq<real>, k: nat, p: nat, i: int, j: int): real {
    Mul(MatA(d, b, p, i, j), At(t, Ix(k, i, j)))
  }

  ghost function GradBTimes(a: seq<real>, d: seq<real>, t: seq<real>, m: nat, k: nat, p: nat, j: int, l: int): real {
    Mul(MatB(a, d, m, k, p, j, l), At(t, Ix(p, j, l)))
  }

  ghost function SeedTimes(d: seq<real>, a: seq<real>, b: seq<real>, k: nat, p: nat, i: int, l: int): real {
    Mul(At(d, Ix(p, i, l)), Entry(a, b, k, p, i, l))
  }

  ghost function RowA(d: seq<real>, b: seq<real>, t: seq<real>, k: nat, p: nat, i: int): real {
    Sum(k, j => GradATimes(d, b, t, k, p, i, j))
  }

  ghost function RowB(a: seq<real>, d: seq<real>, t: seq<real>, m: nat, k: nat, p: nat, j: int): real {
    Sum(p, l => GradBTimes(a, d, t, m, k, p, j, l))
  }

  ghost function RowSeed(d: seq<real>, a: seq<real>, b: seq<real>, k: nat, p: nat, i: int): real {
    Sum(p, l => SeedTimes(d, a, b, k, p, i, l))
  }

  lemma GradATimesSum(d: seq<real>, b: seq<real>, t: seq<real>, k: nat, p: nat, i: int, j: int)
    ensures GradATimes(d, b, t, k, p, i, j) == Sum(p, l => Term(d, t, b, k, p, i, j, l))
  {
    hide Mul, At, Ix;
    var c := At(t, Ix(k, i, j));
    forall l
      ensures Term(d, t, b, k, p, i, j, l) == Mul(c, Mul(At(d, Ix(p, i, l)), At(b, Ix(p, j, l))))
    {
      MulAssoc(At(d, Ix(p, i, l)), c, At(b, Ix(p, j, l)));
    }
    MulComm(c, MatA(d, b, p, i, j));
    SumScale(p, c, l => Mul(At(d, Ix(p, i, l)), At(b, Ix(p, j, l))), l => Term(d, t, b, k, p, i, j, l));
  }

  lemma GradBTimesSum(a: seq<real>, d: seq<real>, t: seq<real>, m: nat, k: nat, p: nat, j: int, l: int)
    ensures GradBTimes(a, d, t, m, k, p, j, l) == Sum(m, i => Term(d, a, t, k, p, i, j, l))
  {
    hide Mul, At, Ix;
    var c := At(t, Ix(p, j, l));
    forall i
      ensures Term(d, a, t, k, p, i, j, l) == Mul(c, Mul(At(a, Ix(k, i, j)), At(d, Ix(p, i, l))))
    {
      MulAssoc(At(d, Ix(p, i, l)), At(a, Ix(k, i, j)), c);
      MulComm(At(d, Ix(p, i, l)), At(a, Ix(k, i, j)));
    }
    MulComm(c, MatB(a, d, m, k, p, j, l));
    SumScale(m, c, i => Mul(At(a, Ix(k, i, j)), At(d, Ix(p, i, l))), i => Term(d, a, t, k, p, i, j, l));
  }

  lemma SeedTimesSum(d: seq<real>, a: seq<real>, b: seq<real>, k: nat, p: nat, i: int, l: int)
    ensures SeedTimes(d, a, b, k, p, i, l) == Sum(k, j => Term(d, a, b, k, p, i, j, l))
  {
    hide Mul, At, Ix;
    SumScale(k, At(d, Ix(p, i, l)), j => Mul(At(a, Ix(k, i, j)), At(b, Ix(p, j, l))),
      j => Term(d, a, b, k, p, i, j, l));
  }

  lemma ProductAt(a: seq<real>, b: seq<real>, m: nat, k: nat, p: nat, i: int, l: int)
    requires 0 <= i < m && 0 <= l < p
    ensures At(Product(a, b, m, k, p), Ix(p, i, l)) == Entry(a, b, k, p, i, l)
  {
    hide Entry;
    FlatBound(m, p, i, l);
  }

  lemma SeedFlat(d: seq<real>, a: seq<real>, b: seq<real>, m: nat, k: nat, p: nat)
    requires |d| == m * p
    ensures Dot(d, Product(a, b, m, k, p)) == Sum(m, i => RowSeed(d, a, b, k, p, i))
  {
    hide Mul, At, Ix, Entry, Product;
    var y := Product(a, b, m, k, p);
    var f := (o: int) => Prod(d, y, o);
    forall i | 0 <= i < m
      ensures RowSeed(d, a, b, k, p, i) == Sum(p, l => f(Ix(p, i, l)))
    {
      forall l | 0 <= l < p
        ensures SeedTimes(d, a, b, k, p, i, l) == f(Ix(p, i, l))
      {
        ProductAt(a, b, m, k, p, i, l);
      }
      SumEq(p, l => SeedTimes(d, a, b, k, p, i, l), l => f(Ix(p, i, l)));
    }
    SumFlatten(m, p, f, i => RowSeed(d, a, b, k, p, i));
    SumEq(m * p, f, o => Prod(d, y, o));
  }

  lemma MatAAt(d: seq<real>, b: seq<real>, m: nat, k: nat, p: nat, i: int, j: int)
    requires 0 <= i < m && 0 <= j < k
    ensures At(MatAData(d, b, m, k, p), Ix(k, i, j)) == MatA(d, b, p, i, j)
  {
    hide MatA;
    FlatBound(m, k, i, j);
  }

  lemma MatBAt(a: seq<real>, d: seq<real>, m: nat, k: nat, p: nat, j: int, l: int)
    requires 0 <= j < k && 0 <= l < p
    ensures At(MatBData(a, d, m, k, p), Ix(p, j, l)) == MatB(a, d, m, k, p, j, l)
  {
    hide MatB;
    FlatBound(k, p, j, l);
  }

  lemma GradAFlat(d: seq<real>, b: seq<real>, t: seq<real>, m: nat, k: nat, p: nat)
    ensures Dot(MatAData(d, b, m, k, p), t) == Sum(m, i => RowA(d, b, t, k, p, i))
  {
    hide Mul, At, Ix, MatA, MatAData;
    var g := MatAData(d, b, m, k, p);
    var f := (q: int) => Prod(g, t, q);
    forall i | 0 <= i < m
      ensures RowA(d, b, t, k, p, i) == Sum(k, j => f(Ix(k, i, j)))
    {
      forall j | 0 <= j < k
        ensures GradATimes(d, b, t, k, p, i, j) == f(Ix(k, i, j))
      {
        MatAAt(d, b, m, k, p, i, j);
      }
      SumEq(k, j => GradATimes(d, b, t, k, p, i, j), j => f(Ix(k, i, j)));
    }
    SumFlatten(m, k, f, i => RowA(d, b, t, k, p, i));
    SumEq(m * k, f, q => Prod(g, t, q));
  }

  lemma GradBFlat(a: seq<real>, d: seq<real>, t: seq<real>, m: nat, k: nat, p: nat)
    ensures Dot(MatBData(a, d, m, k, p), t) == Sum(k, j => RowB(a, d, t, m, k, p, j))
  {
    hide Mul, At, Ix, MatB, MatBData;
    var g := MatBData(a, d, m, k, p);
    var f := (q: int) => Prod(g, t, q);
    forall j | 0 <= j < k
      ensures RowB(a, d, t, m, k, p, j) == Sum(p, l => f(Ix(p, j, l)))
    {
      forall l | 0 <= l < p
        ensures GradBTimes(a, d, t, m, k, p, j, l) == f(Ix(p, j, l))
      {
        MatBAt(a, d, m, k, p, j, l);
      }
      SumEq(p, l => GradBTimes(a, d, t, m, k, p, j, l), l => f(Ix(p, j, l)));
    }
    SumFlatten(k, p, f, j => RowB(a, d, t, m, k, p, j));
    SumEq(k * p, f, q => Prod(g, t, q));
  }

  // One row of the result: exchange the sum over l with the sum over j.
  lemma RowExchange(d: seq<real>, b: seq<real>, t: seq<real>, k: nat, p: nat, i: int)
    ensures RowA(d, b, t, k, p, i) == RowSeed(d, t, b, k, p, i)
  {
    hide Mul, At, Ix, Term, GradATimes, SeedTimes;
    var f := (j: int, l: int) => Term(d, t, b, k, p, i, j, l);
    forall j
      ensures GradATimes(d, b, t, k, p, i, j) == Sum(p, l => f(j, l))
    {
      GradATimesSum(d, b, t, k, p, i, j);
      SumEq(p, l => f(j, l), l => Term(d, t, b, k, p, i, j, l));
    }
    forall l
      ensures SeedTimes(d, t, b, k, p, i, l) == Sum(k, j => f(j, l))
    {
      SeedTimesSum(d, t, b, k, p, i, l);
      SumEq(k, j => f(j, l), j => Term(d, t, b, k, p, i, j, l));
    }
    SumExchange(k, p, f, j => GradATimes(d, b, t, k, p, i, j), l => SeedTimes(d, t, b, k, p, i, l));
  }

  // One row of B's gradient, summed over the rows i of the result.
  ghost function Slab(d: seq<real>, a: seq<real>, t: seq<real>, k: nat, p: nat, i: int, j: int): real {
    Sum(p, l => Term(d, a, t, k, p, i, j, l))
  }

  lemma GradBRow(a: seq<real>, d: seq<real>, t: seq<real>, m: nat, k: nat, p: nat, j: int)
    ensures RowB(a, d, t, m, k, p, j) == Sum(m, i => Slab(d, a, t, k, p, i, j))
  {
    hide Mul, At, Ix, Term, GradBTimes;
    var f := (l: int, i: int) => Term(d, a, t, k, p, i, j, l);
    forall l
      ensures GradBTimes(a, d, t, m, k, p, j, l) == Sum(m, i => f(l, i))
    {
      GradBTimesSum(a, d, t, m, k, p, j, l);
      SumEq(m, i => f(l, i), i => Term(d, a, t, k, p, i, j, l));
    }
    forall i
      ensures Slab(d, a, t, k, p, i, j) == Sum(p, l => f(l, i))
    {
      SumEq(p, l => f(l, i), l => Term(d, a, t, k, p, i, j, l));
    }
    SumExchange(p, m, f, l => GradBTimes(a, d, t, m, k, p, j, l), i => Slab(d, a, t, k, p, i, j));
  }

  lemma SeedRow(d: seq<real>, a: seq<real>, t: seq<real>, k: nat, p: nat, i: int)
    ensures RowSeed(d, a, t, k, p, i) == Sum(k, j => Slab(d, a, t, k, p, i, j))
  {
    hide Mul, At, Ix, Term, SeedTimes;
    var f := (l: int, j: int) => Term(d, a, t, k, p, i, j, l);
    forall l
      ensures SeedTimes(d, a, t, k, p, i, l) == Sum(k, j => f(l, j))
    {
      SeedTimesSum(d, a, t, k, p, i, l);
      SumEq(k, j => f(l, j), j => Term(d, a, t, k, p, i, j, l));
    }
    forall j
      ensures Slab(d, a, t, k, p, i, j) == Sum(p, l => f(l, j))
    {
      SumEq(p, l => f(l, j), l => Term(d, a, t, k, p, i, j, l));
    }
    SumExchange(p, k, f, l => SeedTimes(d, a, t, k, p, i, l), j => Slab(d, a, t, k, p, i, j));
  }

  // <dA, A'> = <d, A'B>
  lemma GradAAdjoint(d: seq<real>, b: seq<real>, t: seq<real>, m: nat, k: nat, p: nat)
    requires |d| == m * p
    ensures Dot(MatAData(d, b, m, k, p), t) == Dot(d, Product(t, b, m, k, p))
  {
    hide *;
    GradAFlat(d, b, t, m, k, p);
    SeedFlat(d, t, b, m, k, p);
    forall i
      ensures RowA(d, b, t, k, p, i) == RowSeed(d, t, b, k, p, i)
    {
      RowExchange(d, b, t, k, p, i);
    }
    SumEq(m, i => RowA(d, b, t, k, p, i), i => RowSeed(d, t, b, k, p, i));
  }

  // <dB, B'> = <d, AB'>
  lemma GradBAdjoint(a: seq<real>, d: seq<real>, t: seq<real>, m: nat, k: nat, p: nat)
    requires |d| == m * p
    ensures Dot(MatBData(a, d, m, k, p), t) == Dot(d, Product(a, t, m, k, p))
  {
    hide *;
    GradBFlat(a, d, t, m, k, p);
    SeedFlat(d, a, t, m, k, p);
    var f := (j: int, i: int) => Slab(d, a, t, k, p, i, j);
    forall j
      ensures RowB(a, d, t, m, k, p, j) == Sum(m, i => f(j, i))
    {
      GradBRow(a, d, t, m, k, p, j);
      SumEq(m, i => f(j, i), i => Slab(d, a, t, k, p, i, j));
    }
    forall i
      ensures RowSeed(d, a, t, k, p, i) == Sum(k, j => f(j, i))
    {
      SeedRow(d, a, t, k, p, i);
      SumEq(k, j => f(j, i), j => Slab(d, a, t, k, p, i, j));
    }
    SumExchange(k, m, f, j => RowB(a, d, t, m, k, p, j),
                i => RowSeed(d, a, t, k, p, i));
  }
}
