// SUMAXIS, MEANAXIS and VARAXIS: a group's gradient is shared out by weight.
module AxisRule {
  import opened Arith
  import opened Sums
  import opened Tape
  import opened Rules

  // The weighted sum of one group of the operand.
  ghost function GroupSum(w: seq<real>, t: seq<real>, red: nat, inner: nat, o: int): real {
    Sum(red, r => Prod(w, t, AxisAt(red, inner, o, r)))
  }

  ghost function GroupSums(w: seq<real>, t: seq<real>, outs: nat, red: nat, inner: nat): (r: seq<real>)
    ensures |r| == outs
  {
    seq(outs, o => GroupSum(w, t, red, inner, o))
  }

  // Each element's share of its group's gradient.
  ghost function Shares(d: seq<real>, w: seq<real>, red: nat, inner: nat): (r: seq<real>)
    ensures |r| == |w|
  {
    seq(|w|, q => Mul(At(d, GroupOf(red, inner, q)), At(w, q)))
  }

  ghost function Share(d: seq<real>, w: seq<real>, t: seq<real>, red: nat, inner: nat, u: int, r: int, i: int): real {
    Mul(At(d, Ix(inner, u, i)), Prod(w, t, Ix(inner, Ix(red, u, r), i)))
  }

  // Element (u, r, i) of an outer x red x inner operand belongs to group (u, i).
  lemma Geometry(outer: nat, red: nat, inner: nat, u: int, r: int, i: int)
    requires 0 <= u < outer && 0 <= r < red && 0 <= i < inner
    ensures 0 <= Ix(inner, Ix(red, u, r), i) < outer * red * inner
    ensures 0 <= Ix(inner, u, i) < outer * inner
    ensures GroupOf(red, inner, Ix(inner, Ix(red, u, r), i)) == Ix(inner, u, i)
    ensures AxisAt(red, inner, Ix(inner, u, i), r) == Ix(inner, Ix(red, u, r), i)
  {
    FlatBound(outer, red, u, r);
    FlatBound(outer * red, inner, Ix(red, u, r), i);
    FlatBound(outer, inner, u, i);
  }

  ghost function RowShares(d: seq<real>, w: seq<real>, t: seq<real>, red: nat, inner: nat, u: int, r: int): real {
    Sum(inner, i => Share(d, w, t, red, inner, u, r, i))
  }

  ghost function BlockShares(d: seq<real>, w: seq<real>, t: seq<real>, red: nat, inner: nat, u: int): real {
    Sum(red, r => RowShares(d, w, t, red, inner, u, r))
  }

  ghost function BlockGroups(d: seq<real>, w: seq<real>, t: seq<real>, red: nat, inner: nat, u: int): real {
    Sum(inner, i => Mul(At(d, Ix(inner, u, i)), GroupSum(w, t, red, inner, Ix(inner, u, i))))
  }

  lemma ShareAt(d: seq<real>, w: seq<real>, t: seq<real>, outer: nat, red: nat, inner: nat, u: int, r: int, i: int)
    requires |w| == outer * red * inner
    requires 0 <= u < outer && 0 <= r < red && 0 <= i < inner
    ensures Prod(Shares(d, w, red, inner), t, Ix(inner, Ix(red, u, r), i)) == Share(d, w, t, red, inner, u, r, i)
  {
    hide Mul, Ix, GroupOf;
    Geometry(outer, red, inner, u, r, i);
    var q := Ix(inner, Ix(red, u, r), i);
    MulAssoc(At(d, Ix(inner, u, i)), At(w, q), At(t, q));
  }

  lemma SharesFlat(d: seq<real>, w: seq<real>, t: seq<real>, outer: nat, red: nat, inner: nat)
    requires |w| == outer * red * inner
    ensures Dot(Shares(d, w, red, inner), t) == Sum(outer, u => BlockShares(d, w, t, red, inner, u))
  {
    hide Mul, Ix, Share, Prod, Shares;
    var s := Shares(d, w, red, inner);
    var f := (q: int) => Prod(s, t, q);
    var rows := (y: int) => Sum(inner, i => f(Ix(inner, y, i)));
    forall u | 0 <= u < outer
      ensures BlockShares(d, w, t, red, inner, u) == Sum(red, r => rows(Ix(red, u, r)))
    {
      forall r | 0 <= r < red
        ensures RowShares(d, w, t, red, inner, u, r) == rows(Ix(red, u, r))
      {
        forall i | 0 <= i < inner
          ensures Share(d, w, t, red, inner, u, r, i) == f(Ix(inner, Ix(red, u, r), i))
        {
          ShareAt(d, w, t, outer, red, inner, u, r, i);
        }
        SumEq(inner, i => Share(d, w, t, red, inner, u, r, i), i => f(Ix(inner, Ix(red, u, r), i)));
      }
      SumEq(red, r => RowShares(d, w, t, red, inner, u, r), r => rows(Ix(red, u, r)));
    }
    SumFlatten(outer * red, inner, f, rows);
    SumFlatten(outer, red, rows, u => BlockShares(d, w, t, red, inner, u));
    SumEq(|s|, f, q => Prod(s, t, q));
  }

  lemma BlockExchange(d: seq<real>, w: seq<real>, t: seq<real>, outer: nat, red: nat, inner: nat, u: int)
    requires 0 <= u < outer
    ensures BlockShares(d, w, t, red, inner, u) == BlockGroups(d, w, t, red, inner, u)
  {
    hide Mul, Ix, AxisAt, Prod;
    var f := (r: int, i: int) => Share(d, w, t, red, inner, u, r, i);
    forall r
      ensures RowShares(d, w, t, red, inner, u, r) == Sum(inner, i => f(r, i))
    {
      SumEq(inner, i => f(r, i), i => Share(d, w, t, red, inner, u, r, i));
    }
    var groups := (i: int) => Mul(At(d, Ix(inner, u, i)), GroupSum(w, t, red, inner, Ix(inner, u, i)));
    forall i | 0 <= i < inner
      ensures groups(i) == Sum(red, r => f(r, i))
    {
      forall r | 0 <= r < red
        ensures f(r, i) == Mul(At(d, Ix(inner, u, i)), Prod(w, t, AxisAt(red, inner, Ix(inner, u, i), r)))
      {
        Geometry(outer, red, inner, u, r, i);
      }
      SumScale(red, At(d, Ix(inner, u, i)), r => Prod(w, t, AxisAt(red, inner, Ix(inner, u, i), r)), r => f(r, i));
    }
    SumExchange(red, inner, f, r => RowShares(d, w, t, red, inner, u, r), groups);
    SumEq(inner, groups, i => Mul(At(d, Ix(inner, u, i)), GroupSum(w, t, red, inner, Ix(inner, u, i))));
  }

  lemma GroupsFlat(d: seq<real>, w: seq<real>, t: seq<real>, outer: nat, red: nat, inner: nat)
    requires |d| == outer * inner
    ensures Dot(d, GroupSums(w, t, outer * inner, red, inner)) == Sum(outer, u => BlockGroups(d, w, t, red, inner, u))
  {
    hide Mul, Ix, GroupSum;
    var g := GroupSums(w, t, outer * inner, red, inner);
    var f := (o: int) => Prod(d, g, o);
    forall u | 0 <= u < outer
      ensures BlockGroups(d, w, t, red, inner, u) == Sum(inner, i => f(Ix(inner, u, i)))
    {
      forall i | 0 <= i < inner
        ensures Mul(At(d, Ix(inner, u, i)), GroupSum(w, t, red, inner, Ix(inner, u, i))) == f(Ix(inner, u, i))
      {
        FlatBound(outer, inner, u, i);
      }
      SumEq(inner, i => Mul(At(d, Ix(inner, u, i)), GroupSum(w, t, red, inner, Ix(inner, u, i))),
        i => f(Ix(inner, u, i)));
    }
    SumFlatten(outer, inner, f, u => BlockGroups(d, w, t, red, inner, u));
    SumEq(|d|, f, o => Prod(d, g, o));
  }

  // <shares(d), t> = <d, weighted group sums of t>
  lemma AxisAdjoint(d: seq<real>, w: seq<real>, t: seq<real>, outer: nat, red: nat, inner: nat)
    requires |w| == outer * red * inner && |d| == outer * inner
    ensures Dot(Shares(d, w, red, inner), t) == Dot(d, GroupSums(w, t, |d|, red, inner))
  {
    hide *;
    SharesFlat(d, w, t, outer, red, inner);
    GroupsFlat(d, w, t, outer, red, inner);
    forall u | 0 <= u < outer
      ensures BlockShares(d, w, t, red, inner, u) == BlockGroups(d, w, t, red, inner, u)
    {
      BlockExchange(d, w, t, outer, red, inner, u);
    }
    SumEq(outer, u => BlockShares(d, w, t, red, inner, u), u => BlockGroups(d, w, t, red, inner, u));
  }
}
