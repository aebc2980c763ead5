// Forward differentiation proper: run the tape on dual numbers from the leaves.
// When the recorded values are those of the run, its tangents are the ones the
// reverse sweep is adjoint to.
module DualRun {
  import opened Arith
  import opened Shapes
  import opened Sums
  import opened Tape
  import opened NodeRule
  import opened Adjoint
  import opened Sweep

  datatype State = State(vals: Memory, tans: Tangents)

  ghost function NodeValue(mem: Memory, n: Node, T: Tangents): (r: seq<real>) {
    seq(Size(OutShape(mem, n)), o =>
      ForwardAt(n, OutShape(mem, n), OperandAt(mem, n, 0), OperandAt(mem, n, 1), OperandAt(mem, n, 2),
                TangentAt(T, n, 0), TangentAt(T, n, 1), TangentAt(T, n, 2), o).re)
  }

  // One operation on dual tensors: both parts of the result are computed from
  // the dual operands; nothing recorded is consulted.
  ghost function StepDual(n: Node, s: State): State {
    if n.out < |s.vals| && n.out < |s.tans| then
      State(s.vals[n.out := s.vals[n.out].(data := NodeValue(s.vals, n, s.tans))],
            s.tans[n.out := NodeTangent(s.vals, n, s.tans)])
    else s
  }

  ghost function Run(tape: seq<Node>, s: State): State {
    if tape == [] then s else StepDual(tape[|tape| - 1], Run(tape[..|tape| - 1], s))
  }

  ghost predicate ScalarRoot(n: Node) { n.op == SumAll || n.op == MeanAll }

  // What recording leaves in memory. The one-element result of a scalar
  // reduction is a placeholder, and no operation can read it.
  ghost predicate Recorded(mem: Memory, tape: seq<Node>) {
    forall i :: 0 <= i < |tape| ==>
      if ScalarRoot(tape[i]) then forall j :: 0 <= j < |tape| ==> !Reads(tape[j], tape[i].out)
      else OutData(mem, tape[i]) == NodeValue(mem, tape[i], [])
  }

  ghost function OutData(mem: Memory, n: Node): seq<real> {
    if n.out < |mem| then mem[n.out].data else []
  }

  lemma {:induction false} DSumReEq(n: nat, f: int -> Dual, g: int -> Dual)
    requires forall i :: 0 <= i < n ==> f(i).re == g(i).re
    ensures DSum(n, f).re == DSum(n, g).re
  {
    if n > 0 { DSumReEq(n - 1, f, g); }
  }

  lemma AxisMeanRe(x: Tensor, t: seq<real>, t': seq<real>, red: nat, inner: nat, o: int)
    ensures AxisMean(x, t, red, inner, o).re == AxisMean(x, t', red, inner, o).re
  {
    hide AxisAt, Mul;
    DSumReEq(red, r => DAt(x, t, AxisAt(red, inner, o, r)), r => DAt(x, t', AxisAt(red, inner, o, r)));
  }

  // Values do not depend on tangents.
  lemma ForwardRe(n: Node, os: Shape, x0: Tensor, x1: Tensor, x2: Tensor, t0: seq<real>, t1: seq<real>, t2: seq<real>,
                  u0: seq<real>, u1: seq<real>, u2: seq<real>, o: int)
    ensures ForwardAt(n, os, x0, x1, x2, t0, t1, t2, o).re == ForwardAt(n, os, x0, x1, x2, u0, u1, u2, o).re
  {
    hide Mul, Bc, AxisAt, Ix, Quot, Inv, Taps, Dim, DecodeOut, DecodeTap, Inside, XPos, KPos;
    var s0, s1 := x0.shape, x1.shape;
    match n.op
    case SumAll =>
      DSumReEq(|x0.data|, i => DAt(x0, t0, i), i => DAt(x0, u0, i));
    case MeanAll =>
      DSumReEq(|x0.data|, i => DAt(x0, t0, i), i => DAt(x0, u0, i));
    case MatMul =>
      var k, p := Dim(s0, 1), Dim(s1, 1);
      if p != 0 {
        DSumReEq(k, j => DMul(DAt(x0, t0, Ix(k, o / p, j)), DAt(x1, t1, Ix(p, j, o % p))),
                 j => DMul(DAt(x0, u0, Ix(k, o / p, j)), DAt(x1, u1, Ix(p, j, o % p))));
      }
    case SumAxis =>
      var red, inner := Red(s0, AxisOf(n)), Inner(s0, AxisOf(n));
      DSumReEq(red, r => DAt(x0, t0, AxisAt(red, inner, o, r)), r => DAt(x0, u0, AxisAt(red, inner, o, r)));
    case MeanAxis =>
      AxisMeanRe(x0, t0, u0, Red(s0, AxisOf(n)), Inner(s0, AxisOf(n)), o);
    case VarAxis =>
      var red, inner := Red(s0, AxisOf(n)), Inner(s0, AxisOf(n));
      AxisMeanRe(x0, t0, u0, red, inner, o);
      DSumReEq(red, r => SquareDev(x0, t0, red, inner, o, r), r => SquareDev(x0, u0, red, inner, o, r));
    case Conv2D =>
      var g := GeoOf(n, os, s0, s1);
      DSumReEq(Taps(g), tap => ConvTap(g, x0, x1, t0, t1, o, tap), tap => ConvTap(g, x0, x1, u0, u1, o, tap));
    case AxisSum =>
      DSumReEq(|x0.data|, i => if Bc(os, s0, i) == o then DAt(x0, t0, i) else Dual(0.0, 0.0),
               i => if Bc(os, s0, i) == o then DAt(x0, u0, i) else Dual(0.0, 0.0));
    case _ =>
  }

  lemma NodeValueOf(mem: Memory, n: Node, T: Tangents)
    ensures NodeValue(mem, n, T) == NodeValue(mem, n, [])
  {
    hide ForwardAt;
    var os, x0, x1, x2 := OutShape(mem, n), OperandAt(mem, n, 0), OperandAt(mem, n, 1), OperandAt(mem, n, 2);
    forall o | 0 <= o < Size(os)
      ensures NodeValue(mem, n, T)[o] == NodeValue(mem, n, [])[o]
    {
      ForwardRe(n, os, x0, x1, x2, TangentAt(T, n, 0), TangentAt(T, n, 1), TangentAt(T, n, 2),
                TangentAt([], n, 0), TangentAt([], n, 1), TangentAt([], n, 2), o);
    }
  }

  // The run may start from any data in the tensors the tape produces.
  ghost predicate SameLeaves(mem: Memory, tape: seq<Node>, vals: Memory) {
    && |vals| == |mem|
    && (forall x :: 0 <= x < |mem| ==> vals[x].(data := mem[x].data) == mem[x])
    && (forall x :: 0 <= x < |mem| && x !in Outputs(tape) ==> vals[x] == mem[x])
  }

  ghost predicate Placeholder(tape: seq<Node>, x: Id) {
    exists i :: 0 <= i < |tape| && ScalarRoot(tape[i]) && tape[i].out == x
  }

  // After the first k nodes have run, everything a later node can read is as recorded.
  ghost predicate Caught(mem: Memory, tape: seq<Node>, k: nat, vals: Memory)
    requires k <= |tape|
  {
    && |vals| == |mem|
    && (forall x :: 0 <= x < |mem| ==> vals[x].(data := mem[x].data) == mem[x])
    && (forall x :: 0 <= x < |mem| && x !in Outputs(tape[k..]) && !Placeholder(tape, x) ==> vals[x] == mem[x])
  }

  lemma ReadsAgree(mem: Memory, vals: Memory, n: Node, T: Tangents)
    requires |vals| == |mem| && n.out < |mem| && vals[n.out].shape == mem[n.out].shape
    requires forall x :: 0 <= x < |mem| && Reads(n, x) ==> vals[x] == mem[x]
    ensures NodeValue(vals, n, T) == NodeValue(mem, n, T) && NodeTangent(vals, n, T) == NodeTangent(mem, n, T)
  {
    hide ForwardAt;
    forall slot: nat
      ensures OperandAt(vals, n, slot) == OperandAt(mem, n, slot)
    {
      if Uses(n, slot) && InId(n, slot) < |mem| { assert Reads(n, InId(n, slot)); }
    }
  }

  // A tensor read by node k is neither a placeholder nor produced from k on.
  lemma ReadsCaught(mem: Memory, tape: seq<Node>, k: nat, vals: Memory, x: Id)
    requires WellFormed(mem, tape) && Recorded(mem, tape) && k < |tape| && Caught(mem, tape, k, vals)
    requires Reads(tape[k], x) && x < |mem|
    ensures vals[x] == mem[x]
  {
    hide Reads, NodeInMemory, NodeValue, Uses;
    forall i | k <= i < |tape|
      ensures tape[i].out != x
    {
      assert Fresh(tape[..i], tape[i]);
      if k < i { assert tape[..i][k] == tape[k]; }
    }
    forall i | 0 <= i < |tape| && ScalarRoot(tape[i])
      ensures tape[i].out != x
    {
    }
    forall y | y in Outputs(tape[k..])
      ensures y != x
    {
      var i :| 0 <= i < |tape[k..]| && tape[k..][i].out == y;
      assert tape[k + i].out == y;
    }
  }

  lemma CaughtStep(mem: Memory, tape: seq<Node>, k: nat, s: State)
    requires WellFormed(mem, tape) && Recorded(mem, tape) && k < |tape| && Caught(mem, tape, k, s.vals)
    requires |s.tans| == |mem|
    ensures Caught(mem, tape, k + 1, StepDual(tape[k], s).vals)
    ensures StepDual(tape[k], s).tans == s.tans[tape[k].out := NodeTangent(mem, tape[k], s.tans)]
  {
    hide Reads, NodeValue, NodeTangent, Uses, NodeInMemory, Fresh;
    var n := tape[k];
    OutOnTape(mem, tape, k);
    forall x | 0 <= x < |mem| && Reads(n, x)
      ensures s.vals[x] == mem[x]
    {
      ReadsCaught(mem, tape, k, s.vals, x);
    }
    ReadsAgree(mem, s.vals, n, s.tans);
    NodeValueOf(mem, n, s.tans);
    var vals := StepDual(n, s).vals;
    forall x | 0 <= x < |mem| && x !in Outputs(tape[k + 1..]) && !Placeholder(tape, x)
      ensures vals[x] == mem[x]
    {
      if x == n.out {
        assert !ScalarRoot(n);
      } else {
        forall y | y in Outputs(tape[k..])
          ensures y == n.out || y in Outputs(tape[k + 1..])
        {
          var i :| 0 <= i < |tape[k..]| && tape[k..][i].out == y;
          if i > 0 { assert tape[k + 1..][i - 1].out == y; }
        }
      }
    }
  }

  lemma {:induction false} RunTangents(mem: Memory, tape: seq<Node>, k: nat, vals: Memory, T: Tangents)
    requires WellFormed(mem, tape) && Recorded(mem, tape) && SameLeaves(mem, tape, vals) && |T| == |mem| && k <= |tape|
    ensures Run(tape[..k], State(vals, T)).tans == Forward(mem, tape[..k], T)
    ensures Caught(mem, tape, k, Run(tape[..k], State(vals, T)).vals)
  {
    hide WellFormed, Recorded, NodeTangent, NodeValue, Placeholder, NodeInMemory;
    if k == 0 {
      assert tape[0..] == tape;
    } else {
      RunTangents(mem, tape, k - 1, vals, T);
      assert tape[..k][..k - 1] == tape[..k - 1];
      CaughtStep(mem, tape, k - 1, Run(tape[..k - 1], State(vals, T)));
      OutOnTape(mem, tape, k - 1);
    }
  }

  lemma OutOnTape(mem: Memory, tape: seq<Node>, i: nat)
    requires WellFormed(mem, tape) && i < |tape|
    ensures tape[i].out < |mem|
  {
    assert NodeInMemory(mem, tape[i]);
  }

  // The headline: GRAD is the adjoint of running the recorded program on dual numbers.
  lemma GradIsAdjointOfDualRun(mem: Memory, tape: seq<Node>, root: Id, vals: Memory, T: Tangents)
    requires WellFormed(mem, tape) && Recorded(mem, tape) && SameLeaves(mem, tape, vals) && root < |mem|
    requires Sized(mem, T) && UntrackedAtRest(mem, T)
    ensures |Run(tape, State(vals, T)).tans| == |mem|
    ensures Dot(Ones(|mem[root].data|), Run(tape, State(vals, T)).tans[root])
         == Total(Backward(mem, tape, Seed(mem, root)), T, Outputs(tape))
  {
    hide *;
    assert |T| == |mem| by { SizedLength(mem, T); }
    RunTangents(mem, tape, |tape|, vals, T);
    assert tape[..|tape|] == tape;
    ReverseIsAdjoint(mem, tape, root, T);
  }

  lemma SizedLength(mem: Memory, T: Tangents)
    requires Sized(mem, T)
    ensures |T| == |mem|
  {
  }
}
