// The axis-reduction backward loops: outer, inner, then the group itself.
module AxisKernel {
  import opened Arith
  import opened Shapes
  import opened Sums
  import opened Tape
  import opened Rules
  import opened NodeRule
  import opened Kernels
  import AxisRule

  // Product of the extents shape[lo..hi], as the source computes outer and inner.
  method Extent(shape: Shape, lo: nat, hi: nat) returns (p: nat)
    requires lo <= hi <= |shape|
    ensures p == Size(shape[lo..hi])
  {
    p := 1;
    var ax := lo;
    assert shape[lo..lo] == [];
    while ax < hi
      invariant lo <= ax <= hi
      invariant p == Size(shape[lo..ax])
    {
      SizeSnoc(shape[lo..ax], shape[ax]);
      assert shape[lo..ax + 1] == shape[lo..ax] + [shape[ax]];
      p := p * shape[ax];
      ax := ax + 1;
    }
  }

  lemma {:induction false} SizeSnoc(s: Shape, n: nat)
    ensures Size(s + [n]) == Size(s) * n
  {
    if s == [] {
      assert Size(([] + [n])[1..]) == 1;
    } else {
      SizeSnoc(s[1..], n);
      assert (s + [n])[1..] == s[1..] + [n];
    }
  }

  // The row of its group that position q occupies.
  ghost function RowIn(red: nat, inner: nat, q: int): int {
    if red == 0 || inner == 0 then 0 else q / inner % red
  }

  // Groups before g are done, and the first r rows of group g.
  ghost predicate Reached(red: nat, inner: nat, g: int, r: int, q: int) {
    GroupOf(red, inner, q) < g || (GroupOf(red, inner, q) == g && RowIn(red, inner, q) < r)
  }

  ghost predicate Shared(gx: array<real>, was: seq<real>, goal: seq<real>, red: nat, inner: nat, g: int, r: int)
    reads gx
  {
    && gx.Length == |was| == |goal|
    && (forall q :: 0 <= q < gx.Length && Reached(red, inner, g, r, q) ==> gx[q] == was[q] + goal[q])
    && (forall q :: 0 <= q < gx.Length && !Reached(red, inner, g, r, q) ==> gx[q] == was[q])
  }

  // Every position is element (u, r, i) for its own group (u, i) and row r.
  lemma PositionOf(outer: nat, red: nat, inner: nat, q: int)
    requires 0 <= q < outer * red * inner
    ensures 0 <= GroupOf(red, inner, q) < outer * inner && 0 <= RowIn(red, inner, q) < red
    ensures AxisAt(red, inner, GroupOf(red, inner, q), RowIn(red, inner, q)) == q
  {
    MulZero(outer * red, inner);
    DivBound(q, outer * red, inner);
    MulZero(outer, red);
    DivBound(q / inner, outer, red);
    FlatBound(outer, inner, q / inner / red, q % inner);
  }

  lemma RowOfAt(outer: nat, red: nat, inner: nat, g: int, r: int)
    requires 0 <= g < outer * inner && 0 <= r < red
    ensures 0 <= AxisAt(red, inner, g, r) < outer * red * inner
    ensures GroupOf(red, inner, AxisAt(red, inner, g, r)) == g && RowIn(red, inner, AxisAt(red, inner, g, r)) == r
  {
    MulZero(outer, inner);
    DivBound(g, outer, inner);
    AxisRule.Geometry(outer, red, inner, g / inner, r, g % inner);
    FlatBound(outer, red, g / inner, r);
    FlatBound(outer * red, inner, Ix(red, g / inner, r), g % inner);
  }

  // Only position (g, r) becomes reached when the row counter steps.
  lemma ReachStep(outer: nat, red: nat, inner: nat, g: int, r: int, q: int)
    requires 0 <= g < outer * inner && 0 <= r < red && 0 <= q < outer * red * inner
    ensures Reached(red, inner, g, r + 1, q) <==> Reached(red, inner, g, r, q) || q == AxisAt(red, inner, g, r)
    ensures !Reached(red, inner, g, r, AxisAt(red, inner, g, r))
  {
    PositionOf(outer, red, inner, q);
    RowOfAt(outer, red, inner, g, r);
  }

  lemma ReachNext(outer: nat, red: nat, inner: nat, g: int, q: int)
    requires 0 <= q < outer * red * inner
    ensures Reached(red, inner, g, red, q) <==> Reached(red, inner, g + 1, 0, q)
  {
    PositionOf(outer, red, inner, q);
  }

  // The mean of one group, as the VARAXIS branch recomputes it.
  method GroupMean(x: seq<real>, outer: nat, red: nat, inner: nat, o: nat, i: nat) returns (mu: real)
    requires o < outer && i < inner && 0 < red && |x| == outer * red * inner
    ensures mu == MeanOf(x, red, inner, Ix(inner, o, i))
  {
    hide Mul, Ix, AxisAt, GroupOf;
    var s := 0.0;
    ghost var g := Ix(inner, o, i);
    var r := 0;
    while r < red
      invariant 0 <= r <= red
      invariant s == Sum(r, y => At(x, AxisAt(red, inner, g, y)))
    {
      AxisRule.Geometry(outer, red, inner, o, r, i);
      PositionText(red, inner, o, r, i);
      s := s + x[(o * red + r) * inner + i];
      r := r + 1;
    }
    MeanQuotient(s, red);
    mu := s / (red as real);
  }

  lemma PositionText(red: nat, inner: nat, o: int, r: int, i: int)
    ensures Ix(inner, Ix(red, o, r), i) == (o * red + r) * inner + i
    ensures Ix(inner, o, i) == o * inner + i
  {
  }

  // The share of one element, as the three branches write it.
  method ShareOf(op: Op, x: seq<real>, red: nat, inner: nat, g: real, mu: real, q: nat) returns (share: real)
    requires op == SumAxis || op == MeanAxis || op == VarAxis
    requires 0 < red && q < |x|
    requires op == VarAxis ==> mu == MeanOf(x, red, inner, GroupOf(red, inner, q))
    ensures share == Mul(g, AxisWeight(op, x, red, inner, q))
  {
    hide MeanOf, GroupOf;
    match op
    case SumAxis =>
      share := g;
    case MeanAxis =>
      MeanQuotient(g, red);
      share := g / (red as real);
    case VarAxis =>
      var dev := x[q] - mu;
      VarShare(g, dev, red);
      share := g * 2.0 * dev / (red as real);
  }

  lemma VarShare(g: real, dev: real, red: nat)
    requires 0 < red
    ensures g * 2.0 * dev / (red as real) == Mul(g, Mul(Mul(2.0, dev), Inv(red)))
  {
    MeanQuotient(g * 2.0 * dev, red);
    var c := Inv(red);
    assert g * 2.0 * dev * c == g * ((2.0 * dev) * c);
  }

  // One group: its gradient goes to each of its elements, by weight.
  method AccGroup(gx: array<real>, op: Op, x: seq<real>, outer: nat, red: nat, inner: nat, d: seq<real>,
                  o: nat, i: nat, ghost was: seq<real>, ghost goal: seq<real>)
    requires op == SumAxis || op == MeanAxis || op == VarAxis
    requires o < outer && i < inner
    requires |x| == gx.Length == outer * red * inner && |d| == outer * inner
    requires goal == AxisData(op, x, red, inner, d)
    requires Shared(gx, was, goal, red, inner, Ix(inner, o, i), 0)
    modifies gx
    ensures Shared(gx, was, goal, red, inner, Ix(inner, o, i), red)
  {
    hide Ix, AxisAt, GroupOf, RowIn, Mul, AxisWeight, Reached, MeanOf;
    ghost var cell := Ix(inner, o, i);
    RowStep(outer, inner, o, i);
    var g := d[o * inner + i];
    var mu := 0.0;
    if op == VarAxis && 0 < red {
      mu := GroupMean(x, outer, red, inner, o, i);
    }
    var r := 0;
    while r < red
      invariant 0 <= r <= red
      invariant Shared(gx, was, goal, red, inner, cell, r)
    {
      AxisRule.Geometry(outer, red, inner, o, r, i);
      PositionText(red, inner, o, r, i);
      var q := (o * red + r) * inner + i;
      var share := ShareOf(op, x, red, inner, g, mu, q);
      assert goal[q] == share;
      forall y | 0 <= y < gx.Length
        ensures Reached(red, inner, cell, r + 1, y) <==> Reached(red, inner, cell, r, y) || y == q
        ensures !Reached(red, inner, cell, r, q)
      {
        ReachStep(outer, red, inner, cell, r, y);
      }
      gx[q] := gx[q] + share;
      r := r + 1;
    }
  }

  method AccAxis(gx: array<real>, op: Op, x: seq<real>, outer: nat, red: nat, inner: nat, d: seq<real>)
    requires op == SumAxis || op == MeanAxis || op == VarAxis
    requires |x| == gx.Length == outer * red * inner && |d| == outer * inner
    modifies gx
    ensures gx[..] == Plus(old(gx[..]), AxisData(op, x, red, inner, d))
  {
    hide Ix, AxisAt, GroupOf, RowIn, Mul, AxisWeight, Reached;
    ghost var was := gx[..];
    ghost var goal := AxisData(op, x, red, inner, d);
    RowStart(outer, inner, 0);
    NothingReached(outer, red, inner, gx.Length);
    var o := 0;
    while o < outer
      invariant 0 <= o <= outer
      invariant Shared(gx, was, goal, red, inner, Ix(inner, o, 0), 0)
    {
      var i := 0;
      while i < inner
        invariant 0 <= i <= inner
        invariant Shared(gx, was, goal, red, inner, Ix(inner, o, i), 0)
      {
        AccGroup(gx, op, x, outer, red, inner, d, o, i, was, goal);
        RowStep(outer, inner, o, i);
        ReachAll(outer, red, inner, Ix(inner, o, i), gx.Length);
        i := i + 1;
      }
      RowStart(outer, inner, o);
      o := o + 1;
    }
    RowStart(outer, inner, outer);
    AllReached(outer, red, inner, gx.Length);
  }

  lemma NothingReached(outer: nat, red: nat, inner: nat, n: nat)
    requires n == outer * red * inner
    ensures forall q :: 0 <= q < n ==> !Reached(red, inner, 0, 0, q)
  {
    forall q | 0 <= q < n
      ensures !Reached(red, inner, 0, 0, q)
    {
      PositionOf(outer, red, inner, q);
    }
  }

  lemma ReachAll(outer: nat, red: nat, inner: nat, g: int, n: nat)
    requires n == outer * red * inner
    ensures forall q :: 0 <= q < n ==> (Reached(red, inner, g, red, q) <==> Reached(red, inner, g + 1, 0, q))
  {
    forall q | 0 <= q < n
      ensures Reached(red, inner, g, red, q) <==> Reached(red, inner, g + 1, 0, q)
    {
      ReachNext(outer, red, inner, g, q);
    }
  }

  lemma AllReached(outer: nat, red: nat, inner: nat, n: nat)
    requires n == outer * red * inner
    ensures forall q :: 0 <= q < n ==> Reached(red, inner, outer * inner, 0, q)
  {
    forall q | 0 <= q < n
      ensures Reached(red, inner, outer * inner, 0, q)
    {
      PositionOf(outer, red, inner, q);
    }
  }
}
