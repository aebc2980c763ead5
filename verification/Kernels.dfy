// The backward loops as the source runs them: in place on gradient buffers.
module Kernels {
  import opened Arith
  import opened Shapes
  import opened Sums
  import opened Tape
  import opened Rules
  import opened NodeRule

  const MAX_DIMS := 16

  // The positions broadcasting reads while the odometer walks the result.
  ghost function Walk(ts: Shape, os: Shape): int -> int {
    o => Bc(ts, os, o)
  }

  method ZeroIndex(nd: nat) returns (oidx: array<int>)
    requires nd <= MAX_DIMS
    ensures fresh(oidx) && oidx.Length == MAX_DIMS
    ensures forall k :: 0 <= k < nd ==> oidx[k] == 0
  {
    oidx := new int[MAX_DIMS];
    for dd := 0 to nd
      invariant forall k :: 0 <= k < dd ==> oidx[k] == 0
    {
      oidx[dd] := 0;
    }
  }

  lemma StartPosition(shape: Shape, idx: seq<int>)
    requires |idx| == |shape| && forall k :: 0 <= k < |idx| ==> idx[k] == 0
    ensures AtPosition(shape, idx, 0)
  {
    if 0 < Size(shape) {
      RavelUnravel(shape, 0);
      RavelZeros(shape, idx);
      assert forall k :: 0 <= k < |shape| ==> 0 <= Unravel(shape, 0)[k] < shape[k];
    }
  }

  // Where the odometer stands, the broadcast position is the model's.
  lemma OdometerReads(ts: Shape, os: Shape, idx: seq<int>, i: int)
    requires Compatible(ts, os) && AtPosition(os, idx, i) && 0 <= i < Size(os)
    ensures BcIndex(ts, idx) == Bc(ts, os, i) && 0 <= BcIndex(ts, idx) < Size(ts)
  {
    AtPositionUnravel(os, idx, i);
    BcBound(ts, os, i);
  }

  // d summed down onto the shape ts it was broadcast from.
  method BcastReduce(d: seq<real>, ds: Shape, ts: Shape) returns (r: array<real>)
    requires Compatible(ts, ds) && |d| == Size(ds) && |ds| <= MAX_DIMS
    ensures fresh(r) && r[..] == ReduceTo(ts, ds, d)
  {
    hide Compatible, Bc, AtPosition;
    r := new real[Size(ts)](_ => 0.0);
    var oidx := ZeroIndex(|ds|);
    StartPosition(ds, oidx[..|ds|]);
    assert r[..] == Zeros(Size(ts));
    var i := 0;
    while i < |d|
      invariant 0 <= i <= |d| && fresh(r) && fresh(oidx) && r.Length == Size(ts)
      invariant AtPosition(ds, oidx[..|ds|], i)
      invariant r[..] == Scatter(Size(ts), o => Bc(ts, ds, o), d, i)
    {
      OdometerReads(ts, ds, oidx[..|ds|], i);
      var ri := BcIndex(ts, oidx[..|ds|]);
      r[ri] := r[ri] + d[i];
      Advance(oidx, ds, i);
      i := i + 1;
    }
  }

  method AddScaled(target: array<real>, r: array<real>, sign: real)
    requires target != r && target.Length == r.Length
    modifies target
    ensures target[..] == Plus(old(target[..]), ScaleBy(sign, r[..]))
  {
    ghost var was := target[..];
    var i := 0;
    while i < r.Length
      invariant 0 <= i <= r.Length
      invariant forall k :: 0 <= k < i ==> target[k] == was[k] + Mul(sign, r[k])
      invariant forall k :: i <= k < r.Length ==> target[k] == was[k]
    {
      target[i] := target[i] + Mul(sign, r[i]);
      i := i + 1;
    }
  }

  // target += sign * reduce(d, target-shape); an incompatible shape is an error tensor.
  method AccReduced(target: array<real>, ts: Shape, d: seq<real>, ds: Shape, sign: real)
    requires target.Length == Size(ts) && |d| == Size(ds) && |ds| <= MAX_DIMS
    modifies target
    ensures target[..] == if Compatible(ts, ds) then Plus(old(target[..]), ScaleBy(sign, ReduceTo(ts, ds, d)))
                          else old(target[..])
  {
    hide ReduceTo;
    if !Compatible(ts, ds) { return; }
    var r := BcastReduce(d, ds, ts);
    AddScaled(target, r, sign);
  }

  lemma ScaleByOne(v: seq<real>)
    ensures ScaleBy(1.0, v) == v
  {
  }

  lemma SpreadAt(os: Shape, u: Tensor, i: int)
    requires Compatible(u.shape, os) && |u.data| == Size(u.shape) && 0 <= i < Size(os)
    ensures 0 <= Bc(u.shape, os, i) < |u.data|
    ensures At(Spread(os, u), i) == u.data[Bc(u.shape, os, i)]
  {
    BcBound(u.shape, os, i);
    var s := Spread(os, u);
    assert s[i] == At(u.data, Bc(u.shape, os, i));
  }

  // The element of u that the odometer's position reads.
  method ReadSpread(oidx: array<int>, ds: Shape, u: Tensor, ghost i: int) returns (x: real)
    requires |ds| <= oidx.Length && AtPosition(ds, oidx[..|ds|], i) && 0 <= i < Size(ds)
    requires Compatible(u.shape, ds) && |u.data| == Size(u.shape)
    ensures x == At(Spread(ds, u), i)
  {
    hide Compatible, Spread;
    OdometerReads(u.shape, ds, oidx[..|ds|], i);
    SpreadAt(ds, u, i);
    x := u.data[BcIndex(u.shape, oidx[..|ds|])];
  }

  method MulSpread(d: seq<real>, ds: Shape, u: Tensor) returns (full: array<real>)
    requires |d| == Size(ds) && |ds| <= MAX_DIMS
    requires Compatible(u.shape, ds) && |u.data| == Size(u.shape)
    ensures fresh(full) && full[..] == Times(d, Spread(ds, u))
  {
    hide Compatible, Spread, AtPosition, Mul;
    full := new real[|d|];
    var oidx := ZeroIndex(|ds|);
    StartPosition(ds, oidx[..|ds|]);
    var i := 0;
    while i < |d|
      invariant 0 <= i <= |d| && fresh(full) && fresh(oidx) && full.Length == |d|
      invariant oidx.Length == MAX_DIMS && AtPosition(ds, oidx[..|ds|], i)
      invariant forall k :: 0 <= k < i ==> full[k] == Mul(d[k], At(Spread(ds, u), k))
    {
      var x := ReadSpread(oidx, ds, u, i);
      full[i] := Mul(d[i], x);
      Advance(oidx, ds, i);
      i := i + 1;
    }
  }

  method DivSpread(d: seq<real>, ds: Shape, u: Tensor) returns (full: array<real>)
    requires |d| == Size(ds) && |ds| <= MAX_DIMS
    requires Compatible(u.shape, ds) && |u.data| == Size(u.shape)
    ensures fresh(full) && full[..] == DivAData(d, Spread(ds, u))
  {
    hide Compatible, Spread, AtPosition, DivA;
    full := new real[|d|];
    var oidx := ZeroIndex(|ds|);
    StartPosition(ds, oidx[..|ds|]);
    var i := 0;
    while i < |d|
      invariant 0 <= i <= |d| && fresh(full) && fresh(oidx) && full.Length == |d|
      invariant oidx.Length == MAX_DIMS && AtPosition(ds, oidx[..|ds|], i)
      invariant forall k :: 0 <= k < i ==> full[k] == DivA(d[k], At(Spread(ds, u), k))
    {
      var bb := ReadSpread(oidx, ds, u, i);
      full[i] := Quotient(d[i], bb);
      Advance(oidx, ds, i);
      i := i + 1;
    }
  }

  method NegDivSpread(d: seq<real>, ds: Shape, a: Tensor, b: Tensor) returns (full: array<real>)
    requires |d| == Size(ds) && |ds| <= MAX_DIMS
    requires Compatible(a.shape, ds) && |a.data| == Size(a.shape)
    requires Compatible(b.shape, ds) && |b.data| == Size(b.shape)
    ensures fresh(full) && full[..] == DivBData(d, Spread(ds, a), Spread(ds, b))
  {
    hide Compatible, Spread, AtPosition, DivB;
    full := new real[|d|];
    var oidx := ZeroIndex(|ds|);
    StartPosition(ds, oidx[..|ds|]);
    var i := 0;
    while i < |d|
      invariant 0 <= i <= |d| && fresh(full) && fresh(oidx) && full.Length == |d|
      invariant oidx.Length == MAX_DIMS && AtPosition(ds, oidx[..|ds|], i)
      invariant forall k :: 0 <= k < i ==> full[k] == DivB(d[k], At(Spread(ds, a), k), At(Spread(ds, b), k))
    {
      var aa := ReadSpread(oidx, ds, a, i);
      var bb := ReadSpread(oidx, ds, b, i);
      full[i] := NegQuotient(d[i], aa, bb);
      Advance(oidx, ds, i);
      i := i + 1;
    }
  }

  // The guarded divisions of the source.
  function Quotient(d: real, b: real): (q: real)
    ensures q == DivA(d, b)
  {
    if b != 0.0 then d / b else 0.0
  }

  lemma SquareNonzero(b: real)
    requires b != 0.0
    ensures Mul(b, b) != 0.0
  {
    MulPositive(b, b);
    MulPositive(-b, -b);
    assert Mul(-b, -b) == Mul(b, b);
  }

  function NegQuotient(d: real, a: real, b: real): (q: real)
    ensures q == DivB(d, a, b)
  {
    if b != 0.0 then
      var bb := Mul(b, b);
      SquareNonzero(b);
      Quotient(-Mul(d, a), bb)
    else 0.0
  }

  // The target grows by the reduction of d times the broadcast other operand.
  method AccReducedMul(target: array<real>, ts: Shape, d: seq<real>, ds: Shape, u: Tensor)
    requires target.Length == Size(ts) && |d| == Size(ds) && |ds| <= MAX_DIMS
    requires Compatible(ts, ds) && Compatible(u.shape, ds) && |u.data| == Size(u.shape)
    modifies target
    ensures target[..] == Plus(old(target[..]), ReduceTo(ts, ds, Times(d, Spread(ds, u))))
  {
    hide ReduceTo, Compatible, Times, Spread;
    var full := MulSpread(d, ds, u);
    AccReduced(target, ts, full[..], ds, 1.0);
    ScaleByOne(ReduceTo(ts, ds, full[..]));
  }

  // The target grows by the reduction of d over the broadcast divisor.
  method AccReducedDivA(target: array<real>, ts: Shape, d: seq<real>, ds: Shape, u: Tensor)
    requires target.Length == Size(ts) && |d| == Size(ds) && |ds| <= MAX_DIMS
    requires Compatible(ts, ds) && Compatible(u.shape, ds) && |u.data| == Size(u.shape)
    modifies target
    ensures target[..] == Plus(old(target[..]), ReduceTo(ts, ds, DivAData(d, Spread(ds, u))))
  {
    hide ReduceTo, Compatible, DivAData, Spread;
    var full := DivSpread(d, ds, u);
    AccReduced(target, ts, full[..], ds, 1.0);
    ScaleByOne(ReduceTo(ts, ds, full[..]));
  }

  // The target grows by the reduction of the quotient's derivative in the divisor.
  method AccReducedDivB(target: array<real>, ts: Shape, d: seq<real>, ds: Shape, a: Tensor, b: Tensor)
    requires target.Length == Size(ts) && |d| == Size(ds) && |ds| <= MAX_DIMS
    requires Compatible(ts, ds) && Compatible(a.shape, ds) && |a.data| == Size(a.shape)
    requires Compatible(b.shape, ds) && |b.data| == Size(b.shape)
    modifies target
    ensures target[..] == Plus(old(target[..]), ReduceTo(ts, ds, DivBData(d, Spread(ds, a), Spread(ds, b))))
  {
    hide ReduceTo, Compatible, DivBData, Spread;
    var full := NegDivSpread(d, ds, a, b);
    AccReduced(target, ts, full[..], ds, 1.0);
    ScaleByOne(ReduceTo(ts, ds, full[..]));
  }

  // da[i] += d[i] * c[i] for the elementwise rules (SCALE, RELU, RESHAPE).
  method AccElementwise(da: array<real>, op: Op, d: seq<real>, s: real, x: seq<real>)
    requires op == Scale || op == Relu || op == Reshape
    requires da.Length == |d| && (op == Relu ==> |x| == |d|)
    modifies da
    ensures da[..] == Plus(old(da[..]), if op == Scale then ScaleBy(s, d) else if op == Relu then Times(d, ReluMask(x))
      else d)
  {
    ghost var was := da[..];
    ghost var goal := if op == Scale then ScaleBy(s, d) else if op == Relu then Times(d, ReluMask(x)) else d;
    var i := 0;
    while i < |d|
      invariant 0 <= i <= |d|
      invariant forall k :: 0 <= k < i ==> da[k] == was[k] + goal[k]
      invariant forall k :: i <= k < |d| ==> da[k] == was[k]
    {
      if op == Scale {
        da[i] := da[i] + Mul(d[i], s);
      } else if op == Relu {
        da[i] := da[i] + Mul(d[i], if x[i] > 0.0 then 1.0 else 0.0);
      } else {
        da[i] := da[i] + d[i];
      }
      i := i + 1;
    }
  }

  // SUM and MEAN: every element receives the scalar gradient, over the size for MEAN.
  method AccTotal(da: array<real>, op: Op, d: seq<real>)
    requires (op == SumAll || op == MeanAll) && |d| == 1
    modifies da
    ensures da[..] == Plus(old(da[..]),
                           seq(da.Length, _ => if op == SumAll then At(d, 0) else Mul(At(d, 0), Inv(da.Length))))
  {
    ghost var was := da[..];
    var inv := if da.Length == 0 then 0.0 else 1.0 / (da.Length as real);
    var share := if op == SumAll then d[0] else Mul(d[0], inv);
    var i := 0;
    while i < da.Length
      invariant 0 <= i <= da.Length
      invariant forall k :: 0 <= k < i ==> da[k] == was[k] + share
      invariant forall k :: i <= k < da.Length ==> da[k] == was[k]
    {
      da[i] := da[i] + share;
      i := i + 1;
    }
  }

  // TRANSPOSE: the transposed gradient is added.
  method AccTranspose(da: array<real>, m: nat, nn: nat, d: seq<real>)
    requires da.Length == |d| == m * nn
    modifies da
    ensures da[..] == Plus(old(da[..]), Gather(da.Length, q => Swap(nn, m, q), d))
  {
    hide Swap, Ix;
    ghost var was := da[..];
    ghost var goal := Gather(da.Length, q => Swap(nn, m, q), d);
    RowStart(m, nn, 0);
    var i := 0;
    while i < m
      invariant 0 <= i <= m
      invariant Updated(da, was, goal, Ix(nn, i, 0))
    {
      TransposeRow(da, m, nn, d, i, was, goal);
      RowStart(m, nn, i);
      i := i + 1;
    }
    RowStart(m, nn, m);
  }

  method TransposeRow(da: array<real>, m: nat, nn: nat, d: seq<real>, i: nat, ghost was: seq<real>,
                      ghost goal: seq<real>)
    requires i < m && |was| == |goal| == |d| == m * nn == da.Length
    requires forall q :: 0 <= q < |goal| ==> goal[q] == At(d, Swap(nn, m, q))
    requires Updated(da, was, goal, Ix(nn, i, 0))
    modifies da
    ensures Updated(da, was, goal, Ix(nn, i, nn))
  {
    hide Swap, Ix;
    var j := 0;
    while j < nn
      invariant 0 <= j <= nn
      invariant Updated(da, was, goal, Ix(nn, i, j))
    {
      RowStep(m, nn, i, j);
      RowStep(nn, m, j, i);
      SwapAt(nn, m, i, j);
      MulCommInt(m, nn);
      var q := Ix(nn, i, j);
      da[q] := da[q] + d[Ix(m, j, i)];
      j := j + 1;
    }
  }

  lemma MulCommInt(m: int, n: int)
    ensures m * n == n * m
  {
  }

  // The elements before position q have had their contribution added; the rest are untouched.
  ghost predicate Updated(da: array<real>, was: seq<real>, goal: seq<real>, q: int)
    reads da
  {
    && da.Length == |was| == |goal|
    && (forall k :: 0 <= k < da.Length && k < q ==> da[k] == was[k] + goal[k])
    && (forall k :: 0 <= k < da.Length && q <= k ==> da[k] == was[k])
  }

  lemma RowStep(m: nat, n: nat, i: int, j: int)
    requires 0 <= i < m && 0 <= j < n
    ensures 0 <= Ix(n, i, j) == i * n + j < m * n && Ix(n, i, j + 1) == Ix(n, i, j) + 1
    ensures Ix(n, i, j) / n == i && Ix(n, i, j) % n == j
  {
    FlatBound(m, n, i, j);
  }

  lemma RowStart(m: nat, n: nat, i: nat)
    ensures Ix(n, i, n) == Ix(n, i + 1, 0) && Ix(n, 0, 0) == 0 && Ix(n, m, 0) == m * n
  {
  }

  lemma SwapAt(cols: nat, rows: nat, i: int, j: int)
    requires 0 <= i < rows && 0 <= j < cols
    ensures Swap(cols, rows, Ix(cols, i, j)) == Ix(rows, j, i)
  {
    FlatBound(rows, cols, i, j);
  }

  // MATMUL, first operand: da[i][j] += sum over l of d[i][l] * b[j][l]
  method AccMatA(da: array<real>, d: seq<real>, b: seq<real>, m: nat, k: nat, p: nat)
    requires |d| == m * p && |b| == k * p && da.Length == m * k
    modifies da
    ensures da[..] == Plus(old(da[..]), MatAData(d, b, m, k, p))
  {
    hide Ix, MatA, Mul;
    ghost var was := da[..];
    ghost var goal := MatAData(d, b, m, k, p);
    RowStart(m, k, 0);
    var i := 0;
    while i < m
      invariant 0 <= i <= m
      invariant Updated(da, was, goal, Ix(k, i, 0))
    {
      var j := 0;
      while j < k
        invariant 0 <= j <= k
        invariant Updated(da, was, goal, Ix(k, i, j))
      {
        var sum := MatASum(d, b, m, k, p, i, j);
        RowStep(m, k, i, j);
        da[i * k + j] := da[i * k + j] + sum;
        j := j + 1;
      }
      RowStart(m, k, i);
      i := i + 1;
    }
    RowStart(m, k, m);
  }

  method MatASum(d: seq<real>, b: seq<real>, m: nat, k: nat, p: nat, i: nat, j: nat) returns (sum: real)
    requires |d| == m * p && |b| == k * p && i < m && j < k
    ensures sum == MatA(d, b, p, i, j)
  {
    hide Ix, Mul;
    sum := 0.0;
    var l := 0;
    while l < p
      invariant 0 <= l <= p
      invariant sum == Sum(l, y => Mul(At(d, Ix(p, i, y)), At(b, Ix(p, j, y))))
    {
      RowStep(m, p, i, l);
      RowStep(k, p, j, l);
      sum := sum + Mul(d[i * p + l], b[j * p + l]);
      l := l + 1;
    }
  }

  // MATMUL, second operand: db[j][l] += sum over i of a[i][j] * d[i][l]
  method AccMatB(db: array<real>, a: seq<real>, d: seq<real>, m: nat, k: nat, p: nat)
    requires |d| == m * p && |a| == m * k && db.Length == k * p
    modifies db
    ensures db[..] == Plus(old(db[..]), MatBData(a, d, m, k, p))
  {
    hide Ix, MatB, Mul;
    ghost var was := db[..];
    ghost var goal := MatBData(a, d, m, k, p);
    RowStart(k, p, 0);
    var j := 0;
    while j < k
      invariant 0 <= j <= k
      invariant Updated(db, was, goal, Ix(p, j, 0))
    {
      var l := 0;
      while l < p
        invariant 0 <= l <= p
        invariant Updated(db, was, goal, Ix(p, j, l))
      {
        var sum := MatBSum(a, d, m, k, p, j, l);
        RowStep(k, p, j, l);
        db[j * p + l] := db[j * p + l] + sum;
        l := l + 1;
      }
      RowStart(k, p, j);
      j := j + 1;
    }
    RowStart(k, p, k);
  }

  method MatBSum(a: seq<real>, d: seq<real>, m: nat, k: nat, p: nat, j: nat, l: nat) returns (sum: real)
    requires |d| == m * p && |a| == m * k && j < k && l < p
    ensures sum == MatB(a, d, m, k, p, j, l)
  {
    hide Ix, Mul;
    sum := 0.0;
    var i := 0;
    while i < m
      invariant 0 <= i <= m
      invariant sum == MatB(a, d, i, k, p, j, l)
    {
      RowStep(m, k, i, j);
      RowStep(m, p, i, l);
      sum := sum + Mul(a[i * k + j], d[i * p + l]);
      i := i + 1;
    }
  }
}
