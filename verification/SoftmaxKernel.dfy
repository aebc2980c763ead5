// The backward loops of SOFTMAX, in place on the input's gradient buffer.
module SoftmaxKernel {
  import opened Arith
  import opened Sums
  import opened NormRule
  import opened GroupLoop

  // The slices of a softmax output: the whole vector, the rows (axis 1) or the columns.
  datatype Slices = Vector(n: nat) | Rows(m: nat, p: nat) | Columns(m: nat, p: nat)

  function Count(s: Slices): nat { match s case Vector(_) => 1 case Rows(m, _) => m case Columns(_, p) => p }
  function Length(s: Slices): nat { match s case Vector(n) => n case Rows(_, p) => p case Columns(m, _) => m }
  function Total(s: Slices): nat { match s case Vector(n) => n case Rows(m, p) => m * p case Columns(m, p) => m * p }

  // Where element k of slice q stands.
  function Spot(s: Slices, q: int, k: int): int {
    match s
    case Vector(_) => k
    case Rows(_, p) => Ix(p, q, k)
    case Columns(_, p) => Ix(p, k, q)
  }

  function Spots(s: Slices): Place { (q, k) => Spot(s, q, k) }

  function Slice(s: Slices, v: seq<real>, q: int): int -> real { k => At(v, Spot(s, q, k)) }

  ghost function SliceDx(s: Slices, y: seq<real>, d: seq<real>): Share {
    (q, k) => SoftmaxDx(Length(s), Slice(s, y, q), Slice(s, d, q), k)
  }

  lemma SpotBound(s: Slices, q: nat, k: nat)
    requires q < Count(s) && k < Length(s)
    ensures 0 <= Spot(s, q, k) < Total(s)
  {
    match s
    case Vector(_) =>
    case Rows(m, p) => FlatBound(m, p, q, k);
    case Columns(m, p) => FlatBound(m, p, k, q);
  }

  lemma SpotsApart(s: Slices, q: nat, k: nat, q': nat, k': nat)
    requires q < Count(s) && k < Length(s) && q' < Count(s) && k' < Length(s) && Spot(s, q, k) == Spot(s, q', k')
    ensures q == q' && k == k'
  {
    match s
    case Vector(_) =>
    case Rows(m, p) => FlatBound(m, p, q, k); FlatBound(m, p, q', k');
    case Columns(m, p) => FlatBound(m, p, k, q); FlatBound(m, p, k', q');
  }

  // Every position belongs to a slice.
  lemma SpotOf(s: Slices, i: nat)
    requires i < Total(s)
    ensures Placed(Spots(s), Count(s), Length(s), i)
  {
    match s
    case Vector(_) => assert Spots(s)(0, i) == i;
    case Rows(m, p) =>
      MulZero(m, p);
      DivBound(i, m, p);
      assert Spots(s)(i / p, i % p) == i;
    case Columns(m, p) =>
      MulZero(m, p);
      DivBound(i, m, p);
      assert Spots(s)(i % p, i / p) == i;
  }

  lemma SliceLayout(s: Slices)
    ensures Layout(Spots(s), Count(s), Length(s), Total(s)) && Covers(Spots(s), Count(s), Length(s), Total(s))
  {
    hide Spot, Placed;
    forall i | 0 <= i < Total(s)
      ensures Placed(Spots(s), Count(s), Length(s), i)
    {
      SpotOf(s, i);
    }
    forall q, k | 0 <= q < Count(s) && 0 <= k < Length(s)
      ensures 0 <= Spots(s)(q, k) < Total(s)
    {
      SpotBound(s, q, k);
    }
    forall q, k, q', k' | 0 <= q < Count(s) && 0 <= k < Length(s) && 0 <= q' < Count(s) && 0 <= k' < Length(s)
      && Spots(s)(q, k) == Spots(s)(q', k')
      ensures q == q' && k == k'
    {
      SpotsApart(s, q, k, q', k');
    }
  }

  ghost function Weights(y: int -> real, d: int -> real): int -> real { k => Weighed(y, d, k) }

  lemma WeightsAre(n: nat, y: int -> real, d: int -> real)
    ensures Sum(n, Weights(y, d)) == Sum(n, k => Weighed(y, d, k))
  {
    SumEq(n, Weights(y, d), k => Weighed(y, d, k));
  }

  // The weighted sum over one slice.
  method WeightedSum(s: Slices, y: seq<real>, d: seq<real>, q: nat) returns (sum: real)
    requires q < Count(s) && |y| == |d| == Total(s)
    ensures sum == Sum(Length(s), k => Weighed(Slice(s, y, q), Slice(s, d, q), k))
  {
    hide Mul, Spot;
    ghost var terms := Weights(Slice(s, y, q), Slice(s, d, q));
    sum := 0.0;
    var j := 0;
    while j < Length(s)
      invariant 0 <= j <= Length(s) && sum == Sum(j, terms)
    {
      SpotBound(s, q, j);
      var at := Spot(s, q, j);
      assert terms(j) == Mul(y[at], d[at]);
      sum := sum + Mul(y[at], d[at]);
      j := j + 1;
    }
    WeightsAre(Length(s), Slice(s, y, q), Slice(s, d, q));
  }

  // Every element of every slice receives out * (d - sum).
  method SoftmaxBackward(s: Slices, y: seq<real>, d: seq<real>, da: array<real>)
    requires |y| == |d| == da.Length == Total(s)
    modifies da
    ensures forall q, k :: 0 <= q < Count(s) && 0 <= k < Length(s) && 0 <= Spots(s)(q, k) < da.Length ==>
      da[Spots(s)(q, k)] == old(da[..])[Spots(s)(q, k)] + SliceDx(s, y, d)(q, k)
  {
    hide Mul, Spot, Shared, Layout, SoftmaxDx;
    ghost var was, share := da[..], SliceDx(s, y, d);
    SliceLayout(s);
    SharedNone(was, Spots(s), Count(s), Length(s), share);
    var q := 0;
    while q < Count(s)
      invariant 0 <= q <= Count(s) && Shared(da[..], was, Spots(s), Count(s), Length(s), share, q, 0)
    {
      var sum := WeightedSum(s, y, d, q);
      var j := 0;
      while j < Length(s)
        invariant 0 <= j <= Length(s) && Shared(da[..], was, Spots(s), Count(s), Length(s), share, q, j)
      {
        SharedStep(da[..], was, Spots(s), Count(s), Length(s), share, q, j);
        ghost var before := da[..];
        SpotBound(s, q, j);
        var at := Spot(s, q, j);
        da[at] := da[at] + Mul(y[at], d[at] - sum);
        ShareIs(s, y, d, q, j, sum);
        assert da[..] == before[at := before[at] + share(q, j)];
        j := j + 1;
      }
      SharedCarry(da[..], was, Spots(s), Count(s), Length(s), share, q);
      q := q + 1;
    }
    SharedAll(da[..], was, Spots(s), Count(s), Length(s), share, Total(s));
  }

  lemma ShareIs(s: Slices, y: seq<real>, d: seq<real>, q: int, k: int, sum: real)
    requires sum == Sum(Length(s), k => Weighed(Slice(s, y, q), Slice(s, d, q), k))
    ensures SliceDx(s, y, d)(q, k) == Mul(At(y, Spot(s, q, k)), At(d, Spot(s, q, k)) - sum)
  {
  }

  // A slice whose outputs sum to one has an input gradient that sums to zero.
  lemma SoftmaxSliceSumsToZero(s: Slices, y: seq<real>, d: seq<real>, q: int)
    requires Sum(Length(s), Slice(s, y, q)) == 1.0
    ensures var share := SliceDx(s, y, d); Sum(Length(s), k => share(q, k)) == 0.0
  {
    SoftmaxDxSumsToZero(Length(s), Slice(s, y, q), Slice(s, d, q));
    hide SoftmaxDx, Sum;
    var share := SliceDx(s, y, d);
    forall k | 0 <= k < Length(s)
      ensures share(q, k) == SoftmaxDx(Length(s), Slice(s, y, q), Slice(s, d, q), k)
    {
    }
    SumEq(Length(s), k => share(q, k), i => SoftmaxDx(Length(s), Slice(s, y, q), Slice(s, d, q), i));
  }
}
