// The backward loops of LAYERNORM, in place on gradient buffers.
module NormKernel {
  import opened Arith
  import opened Sums
  import opened Tape
  import opened NodeRule
  import opened NormRule
  import opened GroupLoop
  import opened GradBuffers

  // 1 / sqrt(v), which the loops take from the C library.
  type InvSqrt = real -> real

  // Row r of a row-major matrix with rows of length n.
  function Row(x: seq<real>, n: nat, r: int): int -> real { i => At(x, Ix(n, r, i)) }

  function Whole(x: seq<real>): int -> real { i => At(x, i) }

  function RowInv(x: seq<real>, n: nat, r: int, eps: real, inv: InvSqrt): real { inv(GroupVar(n, Row(x, n, r)) + eps) }

  function RowDx(x: seq<real>, gamma: seq<real>, d: seq<real>, n: nat, eps: real, inv: InvSqrt, r: int, i: int): real {
    NormDx(n, Row(x, n, r), Row(d, n, r), Whole(gamma), RowInv(x, n, r, eps, inv), i)
  }

  function RowDGamma(x: seq<real>, d: seq<real>, n: nat, eps: real, inv: InvSqrt, r: int, i: int): real {
    ScaleBack(n, Row(x, n, r), Row(d, n, r), RowInv(x, n, r, eps, inv), i)
  }

  ghost function Squares(x: int -> real): int -> real { i => Square(x, i) }

  lemma SquaresAre(n: nat, x: int -> real)
    ensures Sum(n, Squares(x)) == Sum(n, i => Square(x, i))
  {
    SumEq(n, Squares(x), i => Square(x, i));
  }

  // sum and sum of squares of one row.
  method RowStats(x: seq<real>, n: nat, r: nat) returns (mean: real, variance: real)
    requires 0 < n && Ix(n, r, n) <= |x|
    ensures mean == Mean(n, Row(x, n, r)) && variance == GroupVar(n, Row(x, n, r))
  {
    hide Mul;
    ghost var row, sqs := Row(x, n, r), Squares(Row(x, n, r));
    var sum, sq := 0.0, 0.0;
    var f := 0;
    while f < n
      invariant 0 <= f <= n && sum == Sum(f, row) && sq == Sum(f, sqs)
    {
      var v := x[r * n + f];
      assert row(f) == v;
      sum := sum + v;
      sq := sq + Mul(v, v);
      f := f + 1;
    }
    SquaresAre(n, row);
    MeanQuotient(sum, n);
    MeanQuotient(sq, n);
    mean := sum / (n as real);
    variance := sq / (n as real) - Mul(mean, mean);
  }

  // The first k elements of a buffer have received their share.
  ghost function Added(was: seq<real>, share: int -> real, k: nat): (r: seq<real>)
    ensures |r| == |was|
  {
    seq(|was|, i requires 0 <= i < |was| => if i < k then was[i] + share(i) else was[i])
  }

  lemma AddedStep(was: seq<real>, share: int -> real, k: nat)
    requires k < |was|
    ensures Added(was, share, k)[k := Added(was, share, k)[k] + share(k)] == Added(was, share, k + 1)
    ensures Added(was, share, 0) == was
  {
  }

  lemma AddedBump(was: seq<real>, share: int -> real, k: nat)
    requires k < |was|
    ensures Bump(Added(was, share, k), k, share(k)) == Added(was, share, k + 1)
  {
    AddedStep(was, share, k);
  }

  // The lengths of the three buffers, and of what is added to them.
  ghost predicate Fits(b: Buffers, p: Parts, total: nat, n: nat) {
    && |p.px| == total && |p.pk| == n && |p.pb| == n
    && (b.gx != null ==> b.gx.Length == total) && (b.gk != null ==> b.gk.Length == n)
    && (b.gb != null ==> b.gb.Length == n)
  }

  // Element f of a row: its terms of the two sums, and its shares of gamma and beta.
  method RowTerm(b: Buffers, x: seq<real>, gamma: seq<real>, d: seq<real>, n: nat, r: nat, f: nat, mean: real, s: real,
                 ghost was: Parts, ghost p: Parts)
    returns (dhat: real, prod: real)
    requires f < n && Ix(n, r, n) <= |x| == |d| && |gamma| == n && mean == Mean(n, Row(x, n, r))
    requires Fits(b, p, |p.px|, n) && Holds(b, was, p)
    modifies b.gk, b.gb
    ensures dhat == DHat(Row(d, n, r), Whole(gamma), f)
    ensures prod == DHatHat(n, Row(x, n, r), Row(d, n, r), Whole(gamma), s, f)
    ensures Holds(b, was, Parts(p.px, Bump(p.pk, f, ScaleBack(n, Row(x, n, r), Row(d, n, r), s, f)),
      Bump(p.pb, f, Row(d, n, r)(f))))
  {
    hide Mul, Mean, Holds, Bump;
    var idx := r * n + f;
    assert Row(x, n, r)(f) == x[idx] && Row(d, n, r)(f) == d[idx] && Whole(gamma)(f) == gamma[f];
    var xhat := Mul(x[idx] - mean, s);
    dhat := Mul(d[idx], gamma[f]);
    prod := Mul(dhat, xhat);
    BumpWeight(b, f, Mul(d[idx], xhat), was, p);
    BumpBias(b, f, d[idx], was, p.(pk := Bump(p.pk, f, Mul(d[idx], xhat))));
  }

  ghost function DHats(d: int -> real, gamma: int -> real): int -> real { i => DHat(d, gamma, i) }

  ghost function DHatHats(n: nat, x: int -> real, d: int -> real, gamma: int -> real, s: real): int -> real {
    i => DHatHat(n, x, d, gamma, s, i)
  }

  ghost function GammaShare(x: seq<real>, d: seq<real>, n: nat, eps: real, inv: InvSqrt, r: int): int -> real {
    i => RowDGamma(x, d, n, eps, inv, r, i)
  }

  lemma SumsAre(n: nat, x: int -> real, d: int -> real, gamma: int -> real, s: real)
    ensures Sum(n, DHats(d, gamma)) == SumDHat(n, d, gamma)
    ensures Sum(n, DHatHats(n, x, d, gamma, s)) == SumDHatHat(n, x, d, gamma, s)
  {
    SumEq(n, DHats(d, gamma), i => DHat(d, gamma, i));
    SumEq(n, DHatHats(n, x, d, gamma, s), i => DHatHat(n, x, d, gamma, s, i));
  }

  lemma SumNext(k: nat, f: int -> real)
    ensures Sum(0, f) == 0.0 && Sum(k + 1, f) == Sum(k, f) + f(k)
  {
  }

  lemma TermsAt(x: seq<real>, d: seq<real>, n: nat, r: nat, rg: int -> real, s: real, eps: real, inv: InvSqrt, f: int)
    requires s == RowInv(x, n, r, eps, inv)
    ensures DHats(Row(d, n, r), rg)(f) == DHat(Row(d, n, r), rg, f)
    ensures DHatHats(n, Row(x, n, r), Row(d, n, r), rg, s)(f) == DHatHat(n, Row(x, n, r), Row(d, n, r), rg, s, f)
    ensures GammaShare(x, d, n, eps, inv, r)(f) == ScaleBack(n, Row(x, n, r), Row(d, n, r), s, f)
  {
  }

  // The shares of gamma and beta, for the first f elements of the row.
  ghost function RowParts(p: Parts, share: int -> real, d: int -> real, f: nat): Parts {
    Parts(p.px, Added(p.pk, share, f), Added(p.pb, d, f))
  }

  lemma RowPartsStep(p: Parts, share: int -> real, d: int -> real, f: nat)
    requires f < |p.pk| && f < |p.pb|
    ensures var q := RowParts(p, share, d, f);
      RowParts(p, share, d, f + 1) == Parts(q.px, Bump(q.pk, f, share(f)), Bump(q.pb, f, d(f)))
    ensures RowParts(p, share, d, 0) == p
  {
    AddedBump(p.pk, share, f);
    AddedBump(p.pb, d, f);
    AddedStep(p.pk, share, 0);
    AddedStep(p.pb, d, 0);
  }

  // The second loop: the two sums, and what goes to gamma and beta.
  method RowSums(b: Buffers, x: seq<real>, gamma: seq<real>, d: seq<real>, n: nat, r: nat, mean: real, s: real,
                 ghost eps: real, ghost inv: InvSqrt, ghost was: Parts, ghost p: Parts)
    returns (sdh: real, sdx: real)
    requires 0 < n && Ix(n, r, n) <= |x| == |d| && |gamma| == n && mean == Mean(n, Row(x, n, r))
    requires s == RowInv(x, n, r, eps, inv)
    requires Fits(b, p, |p.px|, n) && Holds(b, was, p)
    modifies b.gk, b.gb
    ensures sdh == SumDHat(n, Row(d, n, r), Whole(gamma))
    ensures sdx == SumDHatHat(n, Row(x, n, r), Row(d, n, r), Whole(gamma), s)
    ensures Holds(b, was, RowParts(p, GammaShare(x, d, n, eps, inv, r), Row(d, n, r), n))
  {
    hide Mean, ScaleBack, Mul, DHat, DHatHat, SumDHat, SumDHatHat, Row, Whole, Ix, Holds, Sum, DHats, DHatHats,
         GammaShare, RowInv, RowDGamma, Bump;
    ghost var rx, rd, rg := Row(x, n, r), Row(d, n, r), Whole(gamma);
    ghost var share, hats, both := GammaShare(x, d, n, eps, inv, r), DHats(rd, rg), DHatHats(n, rx, rd, rg, s);
    sdh, sdx := 0.0, 0.0;
    RowPartsStep(p, share, rd, 0);
    SumNext(0, hats);
    SumNext(0, both);
    var f := 0;
    while f < n
      invariant 0 <= f <= n && sdh == Sum(f, hats) && sdx == Sum(f, both)
      invariant Holds(b, was, RowParts(p, share, rd, f))
    {
      ghost var q := RowParts(p, share, rd, f);
      var dhat, prod := RowTerm(b, x, gamma, d, n, r, f, mean, s, was, q);
      TermsAt(x, d, n, r, rg, s, eps, inv, f);
      RowPartsStep(p, share, rd, f);
      SumNext(f, hats);
      SumNext(f, both);
      sdh := sdh + dhat;
      sdx := sdx + prod;
      f := f + 1;
    }
    SumsAre(n, rx, rd, rg, s);
  }

  function RowPlace(n: nat): Place { (r, i) => Ix(n, r, i) }

  ghost function DxShare(x: seq<real>, gamma: seq<real>, d: seq<real>, n: nat, eps: real, inv: InvSqrt): Share {
    (r, i) => RowDx(x, gamma, d, n, eps, inv, r, i)
  }

  lemma RowLayout(rows: nat, n: nat)
    ensures Layout(RowPlace(n), rows, n, rows * n) && Covers(RowPlace(n), rows, n, rows * n)
  {
    forall q | 0 <= q < rows * n
      ensures Placed(RowPlace(n), rows, n, q)
    {
      MulZero(rows, n);
      DivBound(q, rows, n);
      assert RowPlace(n)(q / n, q % n) == q;
    }
    forall c, k | 0 <= c < rows && 0 <= k < n
      ensures 0 <= RowPlace(n)(c, k) < rows * n && RowPlace(n)(c, k) / n == c && RowPlace(n)(c, k) % n == k
    {
      FlatBound(rows, n, c, k);
    }
  }

  // The third loop: the row's own gradient.
  method RowUpdate(b: Buffers, x: seq<real>, gamma: seq<real>, d: seq<real>, rows: nat, n: nat, r: nat, mean: real,
                   s: real, sdh: real, sdx: real, ghost eps: real, ghost inv: InvSqrt, ghost was: Parts,
                   ghost p: Parts, ghost zero: seq<real>)
    returns (ghost px: seq<real>)
    requires r < rows && |x| == |d| == |zero| == rows * n && |gamma| == n && Fits(b, p, rows * n, n) && Holds(b, was, p)
    requires mean == Mean(n, Row(x, n, r)) && s == RowInv(x, n, r, eps, inv)
    requires sdh == SumDHat(n, Row(d, n, r), Whole(gamma))
    requires sdx == SumDHatHat(n, Row(x, n, r), Row(d, n, r), Whole(gamma), s)
    requires Shared(p.px, zero, RowPlace(n), rows, n, DxShare(x, gamma, d, n, eps, inv), r, 0)
    modifies b.gx
    ensures Shared(px, zero, RowPlace(n), rows, n, DxShare(x, gamma, d, n, eps, inv), r + 1, 0) && |px| == |p.px|
    ensures Holds(b, was, p.(px := px))
  {
    hide Mean, SumDHat, SumDHatHat, RowInv, Shared, Layout, Covers, Mul, Holds;
    ghost var rx, rd, rg, share := Row(x, n, r), Row(d, n, r), Whole(gamma), DxShare(x, gamma, d, n, eps, inv);
    RowLayout(rows, n);
    px := p.px;
    assert p.(px := px) == p;
    var f := 0;
    while f < n
      invariant 0 <= f <= n && Shared(px, zero, RowPlace(n), rows, n, share, r, f) && |px| == |p.px|
      invariant Holds(b, was, p.(px := px))
    {
      SharedStep(px, zero, RowPlace(n), rows, n, share, r, f);
      FlatBound(rows, n, r, f);
      var idx := r * n + f;
      assert rx(f) == x[idx] && rd(f) == d[idx] && rg(f) == gamma[f];
      var xhat := Mul(x[idx] - mean, s);
      var dhat := Mul(d[idx], gamma[f]);
      var dx := Mul(Mul(s, Inv(n)), Mul(n as real, dhat) - sdh - Mul(xhat, sdx));
      BumpInput(b, idx, dx, was, p.(px := px));
      px := Bump(px, idx, dx);
      f := f + 1;
    }
    SharedCarry(px, zero, RowPlace(n), rows, n, share, r);
  }

  // A buffer after the rows before the given one have added their shares.
  ghost function AfterRows(was: seq<real>, share: Share, rows: nat): (b: seq<real>)
    ensures |b| == |was|
  {
    if rows == 0 then was else Added(AfterRows(was, share, rows - 1), i => share(rows - 1, i), |was|)
  }

  lemma {:induction false} AfterRowsAt(was: seq<real>, share: Share, rows: nat, i: nat)
    requires i < |was|
    ensures AfterRows(was, share, rows)[i] == was[i] + Sum(rows, r => share(r, i))
  {
    if rows > 0 { AfterRowsAt(was, share, rows - 1, i); }
  }

  ghost function GammaShares(x: seq<real>, d: seq<real>, n: nat, eps: real, inv: InvSqrt): Share {
    (r, i) => RowDGamma(x, d, n, eps, inv, r, i)
  }

  ghost function BetaShares(d: seq<real>, n: nat): Share { (r, i) => At(d, Ix(n, r, i)) }

  lemma RowInside(n: nat, r: nat, rows: nat)
    requires r < rows
    ensures Ix(n, r, n) <= rows * n
  {
    MulMono(r + 1, rows, n);
    assert (r + 1) * n == r * n + n;
  }

  lemma AddedSame(was: seq<real>, f: int -> real, g: int -> real, k: nat)
    requires forall i :: 0 <= i < |was| ==> f(i) == g(i)
    ensures Added(was, f, k) == Added(was, g, k)
  {
  }

  lemma NextRow(was: seq<real>, share: Share, r: nat, f: int -> real)
    requires forall i :: 0 <= i < |was| ==> f(i) == share(r, i)
    ensures Added(AfterRows(was, share, r), f, |was|) == AfterRows(was, share, r + 1)
  {
    AddedSame(AfterRows(was, share, r), f, i => share(r, i), |was|);
  }

  // What LAYERNORM has added to the three roles after the given number of rows.
  ghost predicate LayerParts(q: Parts, p: Parts, x: seq<real>, gamma: seq<real>, d: seq<real>, rows: nat, n: nat,
                             eps: real, inv: InvSqrt, done: nat) {
    && Shared(q.px, p.px, RowPlace(n), rows, n, DxShare(x, gamma, d, n, eps, inv), done, 0)
    && q.pk == AfterRows(p.pk, GammaShares(x, d, n, eps, inv), done) && q.pb == AfterRows(p.pb, BetaShares(d, n), done)
  }

  // LAYERNORM: every element receives its row's gradient; gamma and beta receive
  // the shares of all rows. Any of x, gamma and beta may be one tensor.
  method LayerNormBackward(b: Buffers, x: seq<real>, gamma: seq<real>, d: seq<real>, rows: nat, n: nat, eps: real,
                           inv: InvSqrt)
    returns (ghost q: Parts)
    requires 0 < n && |x| == |d| == rows * n && |gamma| == n && Fits(b, Nothing(rows * n, n), rows * n, n)
    modifies b.gx, b.gk, b.gb
    ensures Holds(b, old(Contents(b)), q)
    ensures LayerParts(q, Nothing(rows * n, n), x, gamma, d, rows, n, eps, inv, rows)
  {
    hide Mean, GroupVar, SumDHat, SumDHatHat, Holds, LayerParts, Ix, Mul;
    ghost var was, p := Contents(b), Nothing(rows * n, n);
    q := p;
    HoldsNothing(b, was, p);
    StartRows(p, x, gamma, d, rows, n, eps, inv);
    var r := 0;
    while r < rows
      invariant 0 <= r <= rows && Fits(b, q, rows * n, n) && Holds(b, was, q)
      invariant LayerParts(q, p, x, gamma, d, rows, n, eps, inv, r)
    {
      RowInside(n, r, rows);
      var mean, variance := RowStats(x, n, r);
      var s := inv(variance + eps);
      var sdh, sdx := RowSums(b, x, gamma, d, n, r, mean, s, eps, inv, was, q);
      ghost var q1 := RowParts(q, GammaShare(x, d, n, eps, inv, r), Row(d, n, r), n);
      RowPartsInput(q, p, x, gamma, d, rows, n, eps, inv, r);
      ghost var px := RowUpdate(b, x, gamma, d, rows, n, r, mean, s, sdh, sdx, eps, inv, was, q1, p.px);
      RowDone(q, px, p, x, gamma, d, rows, n, eps, inv, r);
      q := q1.(px := px);
      r := r + 1;
    }
  }

  // No part yet.
  ghost function Nothing(total: nat, n: nat): (p: Parts)
    ensures |p.px| == total && |p.pk| == |p.pb| == n
  {
    Parts(Zeros(total), Zeros(n), Zeros(n))
  }

  lemma StartRows(p: Parts, x: seq<real>, gamma: seq<real>, d: seq<real>, rows: nat, n: nat, eps: real, inv: InvSqrt)
    ensures LayerParts(p, p, x, gamma, d, rows, n, eps, inv, 0)
  {
  }

  lemma RowPartsInput(q: Parts, p: Parts, x: seq<real>, gamma: seq<real>, d: seq<real>, rows: nat, n: nat, eps: real,
                      inv: InvSqrt, r: nat)
    requires LayerParts(q, p, x, gamma, d, rows, n, eps, inv, r)
    ensures Shared(RowParts(q, GammaShare(x, d, n, eps, inv, r), Row(d, n, r), n).px, p.px, RowPlace(n), rows, n,
      DxShare(x, gamma, d, n, eps, inv), r, 0)
  {
  }

  lemma RowDone(q: Parts, px: seq<real>, p: Parts, x: seq<real>, gamma: seq<real>, d: seq<real>, rows: nat, n: nat,
                eps: real, inv: InvSqrt, r: nat)
    requires LayerParts(q, p, x, gamma, d, rows, n, eps, inv, r) && |p.pk| == |p.pb| == n
    requires Shared(px, p.px, RowPlace(n), rows, n, DxShare(x, gamma, d, n, eps, inv), r + 1, 0)
    ensures LayerParts(RowParts(q, GammaShare(x, d, n, eps, inv, r), Row(d, n, r), n).(px := px), p, x, gamma, d, rows,
      n, eps, inv, r + 1)
  {
    hide Shared, Added, AfterRows, RowDGamma;
    NextRow(p.pk, GammaShares(x, d, n, eps, inv), r, GammaShare(x, d, n, eps, inv, r));
    NextRow(p.pb, BetaShares(d, n), r, Row(d, n, r));
  }

  // Each row's input gradient sums to zero.
  lemma LayerNormRowSumsToZero(x: seq<real>, gamma: seq<real>, d: seq<real>, n: nat, eps: real, inv: InvSqrt, r: int)
    requires 0 < n
    ensures var share := DxShare(x, gamma, d, n, eps, inv); Sum(n, i => share(r, i)) == 0.0
  {
    var rx, rd, rg, s := Row(x, n, r), Row(d, n, r), Whole(gamma), RowInv(x, n, r, eps, inv);
    NormDxSumsToZero(n, rx, rd, rg, s);
    hide NormDx, Sum;
    var share := DxShare(x, gamma, d, n, eps, inv);
    forall i | 0 <= i < n
      ensures share(r, i) == NormDx(n, rx, rd, rg, s, i)
    {
      assert share(r, i) == RowDx(x, gamma, d, n, eps, inv, r, i);
    }
    SumEq(n, i => share(r, i), i => NormDx(n, rx, rd, rg, s, i));
  }
}
