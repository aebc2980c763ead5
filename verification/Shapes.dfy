module Shapes {
  import opened Arith

  type Shape = seq<nat>

  // Number of elements of a tensor of the given shape.
  function Size(shape: Shape): nat {
    if shape == [] then 1 else shape[0] * Size(shape[1..])
  }

  ghost function Stride(shape: Shape, k: nat): nat
    requires k < |shape|
  {
    Size(shape[k + 1..])
  }

  ghost predicate ValidIndex(shape: Shape, idx: seq<int>) {
    |idx| == |shape| && forall k :: 0 <= k < |idx| ==> 0 <= idx[k] < shape[k]
  }

  // Row-major position of a multi-index.
  function Ravel(shape: Shape, idx: seq<int>): int
    requires |idx| == |shape|
  {
    if shape == [] then 0 else idx[0] * Size(shape[1..]) + Ravel(shape[1..], idx[1..])
  }

  // Row-major multi-index of a position.
  function Unravel(shape: Shape, i: int): (idx: seq<int>)
    ensures |idx| == |shape|
  {
    if shape == [] then []
    else
      var inner := Size(shape[1..]);
      if inner == 0 then seq(|shape|, _ => 0) else [i / inner] + Unravel(shape[1..], i % inner)
  }

  lemma {:induction false} RavelBound(shape: Shape, idx: seq<int>)
    requires ValidIndex(shape, idx)
    ensures 0 <= Ravel(shape, idx) < Size(shape)
  {
    if shape != [] {
      RavelBound(shape[1..], idx[1..]);
      FlatBound(shape[0], Size(shape[1..]), idx[0], Ravel(shape[1..], idx[1..]));
    }
  }

  lemma {:induction false} UnravelRavel(shape: Shape, idx: seq<int>)
    requires ValidIndex(shape, idx)
    ensures Unravel(shape, Ravel(shape, idx)) == idx
  {
    if shape != [] {
      RavelBound(shape[1..], idx[1..]);
      UnravelRavel(shape[1..], idx[1..]);
      FlatBound(shape[0], Size(shape[1..]), idx[0], Ravel(shape[1..], idx[1..]));
    }
  }

  lemma {:induction false} RavelUnravel(shape: Shape, i: int)
    requires 0 <= i < Size(shape)
    ensures ValidIndex(shape, Unravel(shape, i)) && Ravel(shape, Unravel(shape, i)) == i
  {
    if shape != [] {
      var inner := Size(shape[1..]);
      MulZero(shape[0], inner);
      DivBound(i, shape[0], inner);
      RavelUnravel(shape[1..], i % inner);
      var u := Unravel(shape, i);
      assert u[1..] == Unravel(shape[1..], i % inner);
    }
  }

  lemma {:induction false} RavelUpdate(shape: Shape, idx: seq<int>, k: nat, v: int)
    requires |idx| == |shape| && k < |shape|
    ensures Ravel(shape, idx[k := v]) == Ravel(shape, idx) + (v - idx[k]) * Stride(shape, k)
  {
    var idx' := idx[k := v];
    if k == 0 {
      assert idx'[1..] == idx[1..];
      var s := Size(shape[1..]);
      assert (v - idx[0]) * s == v * s - idx[0] * s;
    } else {
      RavelUpdate(shape[1..], idx[1..], k - 1, v);
      assert idx'[1..] == idx[1..][k - 1 := v];
      assert shape[1..][k..] == shape[k + 1..];
    }
  }

  lemma StrideStep(shape: Shape, k: nat)
    requires 0 < k < |shape|
    ensures Stride(shape, k - 1) == shape[k] * Stride(shape, k)
  {
    assert shape[k..][1..] == shape[k + 1..];
  }

  lemma {:induction false} RavelZeros(shape: Shape, idx: seq<int>)
    requires |idx| == |shape| && forall k :: 0 <= k < |idx| ==> idx[k] == 0
    ensures Ravel(shape, idx) == 0
  {
    if shape != [] { RavelZeros(shape[1..], idx[1..]); }
  }

  lemma {:induction false} SizePositive(shape: Shape)
    requires forall k :: 0 <= k < |shape| ==> 0 < shape[k]
    ensures 0 < Size(shape)
  {
    if shape != [] { SizePositive(shape[1..]); }
  }

  // The multi-index held after the odometer has stepped i times from all zeros.
  ghost predicate AtPosition(shape: Shape, idx: seq<int>, i: int) {
    |idx| == |shape| && if i < Size(shape) then ValidIndex(shape, idx) && Ravel(shape, idx) == i else true
  }

  lemma AtPositionUnravel(shape: Shape, idx: seq<int>, i: int)
    requires AtPosition(shape, idx, i) && 0 <= i < Size(shape)
    ensures idx == Unravel(shape, i)
  {
    UnravelRavel(shape, idx);
  }

  lemma OdometerIncrement(shape: Shape, idx: seq<int>, dd: nat)
    requires |idx| == |shape| && dd < |shape|
    ensures Ravel(shape, idx[dd := idx[dd] + 1]) == Ravel(shape, idx) + Stride(shape, dd)
  {
    RavelUpdate(shape, idx, dd, idx[dd] + 1);
  }

  lemma OdometerCarry(shape: Shape, idx: seq<int>, dd: nat)
    requires |idx| == |shape| && dd < |shape| && idx[dd] + 1 == shape[dd]
    ensures dd > 0 ==>
      Ravel(shape, idx[dd := 0]) + Stride(shape, dd - 1) == Ravel(shape, idx) + Stride(shape, dd)
    ensures dd == 0 && (forall k :: 0 < k < |idx| ==> idx[k] == 0) ==>
      Size(shape) == Ravel(shape, idx) + Stride(shape, dd)
  {
    RavelUpdate(shape, idx, dd, 0);
    var s: int := Stride(shape, dd);
    var n: int := shape[dd];
    assert (0 - idx[dd]) * s == s - n * s;
    if dd > 0 {
      StrideStep(shape, dd);
    } else if forall k :: 0 < k < |idx| ==> idx[k] == 0 {
      RavelZeros(shape, idx[0 := 0]);
    }
  }

  // The carry loop that follows every element of a broadcasting loop.
  method Advance(oidx: array<int>, shape: Shape, ghost i: int)
    requires |shape| <= oidx.Length
    requires 0 <= i < Size(shape) && AtPosition(shape, oidx[..|shape|], i)
    modifies oidx
    ensures AtPosition(shape, oidx[..|shape|], i + 1)
  {
    var dd := |shape| - 1;
    assert shape != [] ==> shape[dd + 1..] == [];
    while dd >= 0
      invariant -1 <= dd < |shape|
      invariant ValidIndex(shape, oidx[..|shape|])
      invariant forall k :: dd < k < |shape| ==> oidx[k] == 0
      invariant dd >= 0 ==> Ravel(shape, oidx[..|shape|]) + Stride(shape, dd) == i + 1
      invariant dd < 0 ==> Size(shape) == i + 1
    {
      ghost var before := oidx[..|shape|];
      OdometerIncrement(shape, before, dd);
      oidx[dd] := oidx[dd] + 1;
      assert oidx[..|shape|] == before[dd := before[dd] + 1];
      if oidx[dd] < shape[dd] {
        return;
      }
      OdometerCarry(shape, before, dd);
      oidx[dd] := 0;
      assert oidx[..|shape|] == before[dd := 0];
      dd := dd - 1;
    }
  }
}
