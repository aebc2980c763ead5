// The reverse sweep over a whole tape, and the theorem that it is the exact
// adjoint of forward differentiation.
module Sweep {
  import opened Shapes
  import opened Sums
  import opened Tape
  import opened NodeRule
  import opened Adjoint

  type Memory = seq<Tensor>
  type Gradients = map<Id, seq<real>>
  type Tangents = seq<seq<real>>

  const Nothing := Tensor([], [], false)

  // The operand in a slot the operation uses.
  function InId(n: Node, slot: nat): Id
    requires Uses(n, slot)
  {
    if slot == 0 then n.in0 else if slot == 1 then n.in1.value else n.in2.value
  }

  function OperandAt(mem: Memory, n: Node, slot: nat): Tensor {
    if Uses(n, slot) && InId(n, slot) < |mem| then mem[InId(n, slot)] else Nothing
  }

  ghost function TangentAt(T: Tangents, n: Node, slot: nat): seq<real> {
    if Uses(n, slot) && InId(n, slot) < |T| then T[InId(n, slot)] else []
  }

  function OutShape(mem: Memory, n: Node): Shape {
    if n.out < |mem| then mem[n.out].shape else []
  }

  // ── Well-formed tapes ──

  ghost predicate NodeInMemory(mem: Memory, n: Node) {
    && n.out < |mem| && |mem[n.out].data| == Size(mem[n.out].shape)
    && (forall slot: nat :: Uses(n, slot) ==> InId(n, slot) < |mem|)
    && NodeOk(n, mem[n.out].shape, OperandAt(mem, n, 0), OperandAt(mem, n, 1), OperandAt(mem, n, 2))
    && (forall slot: nat :: Uses(n, slot) && mem[InId(n, slot)].tracked ==> mem[n.out].tracked)
  }

  ghost predicate Reads(n: Node, x: Id) {
    exists slot: nat :: Uses(n, slot) && InId(n, slot) == x
  }

  // Node n is recorded after every node of the tape: its result is a new tensor.
  ghost predicate Fresh(tape: seq<Node>, n: Node) {
    && !Reads(n, n.out)
    && forall j :: 0 <= j < |tape| ==> !Reads(tape[j], n.out) && tape[j].out != n.out
  }

  ghost predicate WellFormed(mem: Memory, tape: seq<Node>) {
    forall i :: 0 <= i < |tape| ==> NodeInMemory(mem, tape[i]) && Fresh(tape[..i], tape[i])
  }

  ghost predicate IsOutput(tape: seq<Node>, x: Id) {
    exists i :: 0 <= i < |tape| && tape[i].out == x
  }

  // ── Forward: tangents ──

  ghost function NodeTangent(mem: Memory, n: Node, T: Tangents): seq<real> {
    Tangent(n, OutShape(mem, n), OperandAt(mem, n, 0), OperandAt(mem, n, 1), OperandAt(mem, n, 2),
            TangentAt(T, n, 0), TangentAt(T, n, 1), TangentAt(T, n, 2))
  }

  ghost function Forward(mem: Memory, tape: seq<Node>, T: Tangents): (r: Tangents)
    ensures |r| == |T|
  {
    if tape == [] then T
    else
      var n, before := tape[|tape| - 1], Forward(mem, tape[..|tape| - 1], T);
      if n.out < |before| then before[n.out := NodeTangent(mem, n, before)] else before
  }

  // ── Backward: gradients ──

  // Rules that skip operands without requires_grad.
  predicate Gated(op: Op) {
    op == MatMul || op == SumAxis || op == MeanAxis || op == VarAxis || op == Conv2D
  }

  ghost function Accumulate(G: Gradients, x: Id, v: seq<real>): Gradients {
    G[x := Plus(if x in G then G[x] else Zeros(|v|), v)]
  }

  ghost function NodeContribution(mem: Memory, n: Node, d: seq<real>, slot: nat): seq<real> {
    Contribution(n, OutShape(mem, n), OperandAt(mem, n, 0), OperandAt(mem, n, 1), OperandAt(mem, n, 2), d, slot)
  }

  predicate Receives(mem: Memory, n: Node, slot: nat): (r: bool)
    ensures r ==> Uses(n, slot)
  {
    Uses(n, slot) && (Gated(n.op) ==> OperandAt(mem, n, slot).tracked)
  }

  ghost function AccumulateSlot(mem: Memory, n: Node, d: seq<real>, slot: nat, G: Gradients): Gradients {
    if Receives(mem, n, slot) then Accumulate(G, InId(n, slot), NodeContribution(mem, n, d, slot)) else G
  }

  ghost function SweepNode(mem: Memory, n: Node, G: Gradients): Gradients {
    if n.out !in G then G
    else
      var d := G[n.out];
      AccumulateSlot(mem, n, d, 2, AccumulateSlot(mem, n, d, 1, AccumulateSlot(mem, n, d, 0, G)))
  }

  ghost function Backward(mem: Memory, tape: seq<Node>, G: Gradients): Gradients {
    if tape == [] then G
    else Backward(mem, tape[..|tape| - 1], SweepNode(mem, tape[|tape| - 1], G))
  }

  function Ones(n: nat): (r: seq<real>)
    ensures |r| == n
  {
    seq(n, _ => 1.0)
  }

  ghost function Seed(mem: Memory, root: Id): Gradients {
    map[root := Ones(if root < |mem| then |mem[root].data| else 0)]
  }

  // ── The conserved quantity ──

  ghost predicate Sized(mem: Memory, T: Tangents) {
    |T| == |mem| && forall x :: 0 <= x < |mem| ==> |T[x]| == |mem[x].data|
  }

  ghost predicate GradientsSized(mem: Memory, G: Gradients) {
    forall x :: x in G ==> x < |mem| && |G[x]| == |mem[x].data|
  }

  ghost function PairTerm(G: Gradients, T: Tangents, dead: set<Id>, x: int): real {
    if 0 <= x < |T| && x !in dead && x in G then Dot(G[x], T[x]) else 0.0
  }

  // Sum of <gradient, tangent> over the tensors not yet accounted for.
  ghost function Total(G: Gradients, T: Tangents, dead: set<Id>): real {
    Sum(|T|, x => PairTerm(G, T, dead, x))
  }

  lemma AccumulateTotal(mem: Memory, G: Gradients, T: Tangents, dead: set<Id>, x: Id, v: seq<real>)
    requires Sized(mem, T) && GradientsSized(mem, G)
    requires x < |mem| && x !in dead && |v| == |mem[x].data|
    ensures Total(Accumulate(G, x, v), T, dead) == Total(G, T, dead) + Dot(v, T[x])
    ensures GradientsSized(mem, Accumulate(G, x, v))
  {
    hide Dot;
    var prev, H := if x in G then G[x] else Zeros(|v|), Accumulate(G, x, v);
    var delta := (y: int) => if y == x then Dot(v, T[x]) else 0.0;
    DotPlus(prev, v, T[x]);
    DotZeroLeft(|v|, T[x]);
    forall y | 0 <= y < |T|
      ensures PairTerm(H, T, dead, y) == PairTerm(G, T, dead, y) + delta(y)
    {
    }
    SumAdd(|T|, y => PairTerm(G, T, dead, y), delta, y => PairTerm(H, T, dead, y));
    SumDelta(|T|, x, delta);
  }

  lemma RetireTotal(G: Gradients, T: Tangents, dead: set<Id>, x: Id)
    requires x < |T| && x !in dead
    ensures Total(G, T, dead + {x}) == Total(G, T, dead) - (if x in G then Dot(G[x], T[x]) else 0.0)
  {
    hide Dot;
    var delta := (y: int) => if y == x then -PairTerm(G, T, dead, x) else 0.0;
    forall y | 0 <= y < |T|
      ensures PairTerm(G, T, dead + {x}, y) == PairTerm(G, T, dead, y) + delta(y)
    {
    }
    SumAdd(|T|, y => PairTerm(G, T, dead, y), delta, y => PairTerm(G, T, dead + {x}, y));
    SumDelta(|T|, x, delta);
  }

  // Contributions have the shape of the operand they go to.
  lemma ContributionSize(mem: Memory, n: Node, d: seq<real>, slot: nat)
    requires NodeInMemory(mem, n) && |d| == |mem[n.out].data| && Uses(n, slot)
    ensures |NodeContribution(mem, n, d, slot)| == |mem[InId(n, slot)].data|
  {
    var x0, x1 := OperandAt(mem, n, 0), OperandAt(mem, n, 1);
    if n.op == MatMul {
      Size2(x0.shape);
      Size2(x1.shape);
    }
  }

  // Zero tangents at untracked tensors, which gated rules may skip.
  ghost predicate UntrackedAtRest(mem: Memory, T: Tangents) {
    forall x :: 0 <= x < |mem| && x < |T| && !mem[x].tracked ==> forall i :: 0 <= i < |T[x]| ==> T[x][i] == 0.0
  }

  ghost function SlotPairing(mem: Memory, n: Node, d: seq<real>, slot: nat, T: Tangents): real {
    if Uses(n, slot) then Dot(NodeContribution(mem, n, d, slot), TangentAt(T, n, slot)) else 0.0
  }

  lemma SlotTotal(mem: Memory, n: Node, d: seq<real>, slot: nat, G: Gradients, T: Tangents, dead: set<Id>)
    requires Sized(mem, T) && GradientsSized(mem, G) && NodeInMemory(mem, n) && UntrackedAtRest(mem, T)
    requires |d| == |mem[n.out].data|
    requires Uses(n, slot) ==> InId(n, slot) !in dead
    ensures Total(AccumulateSlot(mem, n, d, slot, G), T, dead) == Total(G, T, dead) + SlotPairing(mem, n, d, slot, T)
    ensures GradientsSized(mem, AccumulateSlot(mem, n, d, slot, G))
  {
    hide Dot, Total, Accumulate, NodeContribution, NodeOk;
    if Uses(n, slot) {
      var x := InId(n, slot);
      ContributionSize(mem, n, d, slot);
      if Receives(mem, n, slot) {
        AccumulateTotal(mem, G, T, dead, x, NodeContribution(mem, n, d, slot));
      } else {
        DotZeroRight(NodeContribution(mem, n, d, slot), T[x]);
      }
    }
  }

  lemma NodePairing(mem: Memory, n: Node, d: seq<real>, T: Tangents)
    requires Sized(mem, T) && NodeInMemory(mem, n) && |d| == |mem[n.out].data|
    ensures Dot(d, NodeTangent(mem, n, T))
         == SlotPairing(mem, n, d, 0, T) + SlotPairing(mem, n, d, 1, T) + SlotPairing(mem, n, d, 2, T)
  {
    hide Dot, Contribution, Tangent, ShapesOk;
    assert Uses(n, 0);
    NodeAdjoint(n, OutShape(mem, n), OperandAt(mem, n, 0), OperandAt(mem, n, 1), OperandAt(mem, n, 2), d,
                TangentAt(T, n, 0), TangentAt(T, n, 1), TangentAt(T, n, 2));
  }

  // One node: what its result's gradient pairs with is handed to its operands.
  lemma SweepNodeTotal(mem: Memory, n: Node, G: Gradients, T: Tangents, dead: set<Id>)
    requires Sized(mem, T) && GradientsSized(mem, G) && NodeInMemory(mem, n) && UntrackedAtRest(mem, T)
    requires T[n.out] == NodeTangent(mem, n, T)
    requires n.out !in dead && !Reads(n, n.out)
    requires forall x :: x in dead ==> !Reads(n, x)
    ensures Total(SweepNode(mem, n, G), T, dead + {n.out}) == Total(G, T, dead)
    ensures GradientsSized(mem, SweepNode(mem, n, G))
  {
    hide Dot, Total, AccumulateSlot, NodeOk;
    RetireTotal(G, T, dead, n.out);
    if n.out in G {
      var d, gone := G[n.out], dead + {n.out};
      assert |d| == |mem[n.out].data|;
      SlotTotal(mem, n, d, 0, G, T, gone);
      var G1 := AccumulateSlot(mem, n, d, 0, G);
      SlotTotal(mem, n, d, 1, G1, T, gone);
      var G2 := AccumulateSlot(mem, n, d, 1, G1);
      SlotTotal(mem, n, d, 2, G2, T, gone);
      NodePairing(mem, n, d, T);
    }
  }

  // ── Whole tapes ──

  ghost function Outputs(tape: seq<Node>): set<Id> {
    set i | 0 <= i < |tape| :: tape[i].out
  }

  ghost predicate Consistent(mem: Memory, tape: seq<Node>, T: Tangents) {
    forall i :: 0 <= i < |tape| && tape[i].out < |T| ==> T[tape[i].out] == NodeTangent(mem, tape[i], T)
  }

  lemma WellFormedPrefix(mem: Memory, tape: seq<Node>, k: nat)
    requires WellFormed(mem, tape) && k <= |tape|
    ensures WellFormed(mem, tape[..k])
  {
    forall i | 0 <= i < k
      ensures NodeInMemory(mem, tape[..k][i]) && Fresh(tape[..k][..i], tape[..k][i])
    {
      assert tape[..k][..i] == tape[..i];
    }
  }

  lemma {:induction false} BackwardTotal(mem: Memory, tape: seq<Node>, G: Gradients, T: Tangents, dead: set<Id>)
    requires WellFormed(mem, tape) && Sized(mem, T) && GradientsSized(mem, G)
    requires UntrackedAtRest(mem, T) && Consistent(mem, tape, T)
    requires dead !! Outputs(tape)
    requires forall i, x :: 0 <= i < |tape| && x in dead ==> !Reads(tape[i], x)
    ensures Total(Backward(mem, tape, G), T, dead + Outputs(tape)) == Total(G, T, dead)
    ensures GradientsSized(mem, Backward(mem, tape, G))
  {
    hide Total, SweepNode, NodeTangent, NodeInMemory, Sized, GradientsSized, UntrackedAtRest, Reads;
    if tape == [] {
      assert dead + Outputs(tape) == dead;
    } else {
      var last := |tape| - 1;
      var n, rest := tape[last], tape[..last];
      WellFormedPrefix(mem, tape, last);
      OutInMemory(mem, n, T);
      assert n.out in Outputs(tape);
      assert Fresh(tape[..last], tape[last]);
      SweepNodeTotal(mem, n, G, T, dead);
      forall i | 0 <= i < last
        ensures !Reads(rest[i], n.out) && rest[i].out in Outputs(tape) && rest[i].out != n.out
      {
        assert rest[i] == tape[i];
      }
      assert dead + {n.out} !! Outputs(rest);
      BackwardTotal(mem, rest, SweepNode(mem, n, G), T, dead + {n.out});
      assert dead + {n.out} + Outputs(rest) == dead + Outputs(tape) by {
        forall x | x in Outputs(tape)
          ensures x == n.out || x in Outputs(rest)
        {
          var i :| 0 <= i < |tape| && tape[i].out == x;
          if i < last { assert rest[i].out == x; }
        }
      }
    }
  }

  lemma OutInMemory(mem: Memory, n: Node, T: Tangents)
    requires NodeInMemory(mem, n) && Sized(mem, T)
    ensures n.out < |mem| == |T|
  {
  }

  // Changing a tangent the node does not read leaves the node's tangent alone.
  lemma TangentFrame(mem: Memory, n: Node, T: Tangents, x: Id, t: seq<real>)
    requires x < |T| && !Reads(n, x)
    ensures NodeTangent(mem, n, T[x := t]) == NodeTangent(mem, n, T)
  {
    hide Tangent;
    forall slot: nat
      ensures TangentAt(T[x := t], n, slot) == TangentAt(T, n, slot)
    {
    }
  }

  ghost function Unit(n: nat, o: int): (r: seq<real>)
    ensures |r| == n
  {
    seq(n, i => if i == o then 1.0 else 0.0)
  }

  lemma DotUnit(n: nat, o: nat, y: seq<real>)
    requires o < n
    ensures Dot(Unit(n, o), y) == At(y, o)
  {
    SumDelta(n, o, i => Prod(Unit(n, o), y, i));
    MulOne(At(y, o));
  }

  // A tangent has no constant part: where every operand rests, the result does.
  lemma TangentOfRest(mem: Memory, n: Node, T: Tangents)
    requires Sized(mem, T) && NodeInMemory(mem, n)
    requires forall slot: nat, i :: Uses(n, slot) && 0 <= i < |T[InId(n, slot)]| ==> T[InId(n, slot)][i] == 0.0
    ensures forall o :: 0 <= o < |NodeTangent(mem, n, T)| ==> NodeTangent(mem, n, T)[o] == 0.0
  {
    hide NodeTangent, NodeContribution, Dot, NodeOk;
    var m := |mem[n.out].data|;
    var y := NodeTangent(mem, n, T);
    NodeTangentSize(mem, n, T);
    forall o | 0 <= o < |y|
      ensures y[o] == 0.0
    {
      var d := Unit(m, o);
      NodePairing(mem, n, d, T);
      DotUnit(m, o, y);
      forall slot: nat
        ensures SlotPairing(mem, n, d, slot, T) == 0.0
      {
        if Uses(n, slot) { DotZeroRight(NodeContribution(mem, n, d, slot), TangentAt(T, n, slot)); }
      }
    }
  }

  // Untracked results rest, because all their operands do.
  lemma RestPropagates(mem: Memory, n: Node, T: Tangents)
    requires Sized(mem, T) && NodeInMemory(mem, n) && UntrackedAtRest(mem, T) && !mem[n.out].tracked
    ensures forall o :: 0 <= o < |NodeTangent(mem, n, T)| ==> NodeTangent(mem, n, T)[o] == 0.0
  {
    hide NodeTangent, NodeOk;
    TangentOfRest(mem, n, T);
  }

  lemma NodeTangentSize(mem: Memory, n: Node, T: Tangents)
    requires NodeInMemory(mem, n)
    ensures |NodeTangent(mem, n, T)| == |mem[n.out].data|
  {
  }

  lemma {:induction false} ForwardConsistent(mem: Memory, tape: seq<Node>, T: Tangents)
    requires WellFormed(mem, tape) && Sized(mem, T) && UntrackedAtRest(mem, T)
    ensures Sized(mem, Forward(mem, tape, T)) && UntrackedAtRest(mem, Forward(mem, tape, T))
    ensures Consistent(mem, tape, Forward(mem, tape, T))
    ensures forall x :: 0 <= x < |T| && x !in Outputs(tape) ==> Forward(mem, tape, T)[x] == T[x]
  {
    hide NodeTangent, NodeInMemory, Reads;
    if tape != [] {
      var last := |tape| - 1;
      var n, rest := tape[last], tape[..last];
      WellFormedPrefix(mem, tape, last);
      ForwardConsistent(mem, rest, T);
      var before, after := Forward(mem, rest, T), Forward(mem, tape, T);
      OutInMemory(mem, n, before);
      NodeTangentSize(mem, n, before);
      if !mem[n.out].tracked { RestPropagates(mem, n, before); }
      assert Fresh(tape[..last], tape[last]);
      TangentFrame(mem, n, before, n.out, NodeTangent(mem, n, before));
      forall i | 0 <= i < |tape|
        ensures tape[i].out < |after| ==> after[tape[i].out] == NodeTangent(mem, tape[i], after)
      {
        if i < last {
          assert rest[i] == tape[i];
          assert !Reads(rest[i], n.out) && rest[i].out != n.out;
          TangentFrame(mem, tape[i], before, n.out, NodeTangent(mem, n, before));
          assert Fresh(tape[..i], tape[i]);
          assert NodeInMemory(mem, tape[i]);
          OutInMemory(mem, tape[i], before);
        }
      }
      forall x | 0 <= x < |T| && x !in Outputs(tape)
        ensures after[x] == T[x]
      {
        assert n.out in Outputs(tape);
        forall y | y in Outputs(rest)
          ensures y in Outputs(tape)
        {
          var i :| 0 <= i < |rest| && rest[i].out == y;
          assert tape[i].out == y;
        }
      }
    }
  }

  lemma SeedTotal(mem: Memory, root: Id, T: Tangents)
    requires Sized(mem, T) && root < |mem|
    ensures GradientsSized(mem, Seed(mem, root))
    ensures Total(Seed(mem, root), T, {}) == Dot(Ones(|mem[root].data|), T[root])
  {
    SumDelta(|T|, root, x => PairTerm(Seed(mem, root), T, {}, x));
  }

  // For every well-formed tape, every root and every tangent of the leaves: the
  // tangent that forward differentiation gives the root, summed with the seed,
  // equals the sum over the leaves of <returned gradient, leaf tangent>.
  lemma ReverseIsAdjoint(mem: Memory, tape: seq<Node>, root: Id, T: Tangents)
    requires WellFormed(mem, tape) && root < |mem|
    requires Sized(mem, T) && UntrackedAtRest(mem, T)
    ensures Dot(Ones(|mem[root].data|), Forward(mem, tape, T)[root])
         == Total(Backward(mem, tape, Seed(mem, root)), T, Outputs(tape))
  {
    hide Total, Backward, Forward, Seed, UntrackedAtRest, Consistent, Dot, WellFormed;
    var R, G := Forward(mem, tape, T), Backward(mem, tape, Seed(mem, root));
    ForwardConsistent(mem, tape, T);
    SeedTotal(mem, root, R);
    BackwardTotal(mem, tape, Seed(mem, root), R, {});
    assert {} + Outputs(tape) == Outputs(tape);
    TotalOverLeaves(G, R, T, Outputs(tape));
  }

  lemma TotalOverLeaves(G: Gradients, R: Tangents, T: Tangents, dead: set<Id>)
    requires |R| == |T|
    requires forall x :: 0 <= x < |T| && x !in dead ==> R[x] == T[x]
    ensures Total(G, R, dead) == Total(G, T, dead)
  {
    SumEq(|T|, x => PairTerm(G, R, dead, x), x => PairTerm(G, T, dead, x));
  }

  // Read at one leaf element: the returned gradient element is the derivative of
  // the seeded root in the direction of that element.
  lemma GradientIsDerivative(mem: Memory, tape: seq<Node>, root: Id, w: Id, i: nat)
    requires WellFormed(mem, tape) && root < |mem|
    requires w < |mem| && mem[w].tracked && w !in Outputs(tape) && i < |mem[w].data|
    ensures var T := seq(|mem|, x requires 0 <= x < |mem| =>
              if x == w then Unit(|mem[w].data|, i) else Zeros(|mem[x].data|));
            var G := Backward(mem, tape, Seed(mem, root));
            Dot(Ones(|mem[root].data|), Forward(mem, tape, T)[root]) == if w in G then At(G[w], i) else 0.0
  {
    hide Backward, Forward, WellFormed, Dot;
    var T := seq(|mem|, x requires 0 <= x < |mem| =>
      if x == w then Unit(|mem[w].data|, i) else Zeros(|mem[x].data|));
    var G := Backward(mem, tape, Seed(mem, root));
    ReverseIsAdjoint(mem, tape, root, T);
    var dead := Outputs(tape);
    forall x | 0 <= x < |T| && x != w
      ensures PairTerm(G, T, dead, x) == 0.0
    {
      if x in G { DotZeroRight(G[x], T[x]); }
    }
    SumDelta(|T|, w, x => PairTerm(G, T, dead, x));
    if w in G {
      DotUnitRight(G[w], |mem[w].data|, i);
    }
  }

  lemma DotUnitRight(a: seq<real>, n: nat, i: nat)
    requires i < n
    ensures Dot(a, Unit(n, i)) == At(a, i)
  {
    var u := Unit(n, i);
    forall k | 0 <= k < |a| && k != i
      ensures Prod(a, u, k) == 0.0
    {
    }
    if i < |a| {
      SumDelta(|a|, i, k => Prod(a, u, k));
      MulOne(At(a, i));
    } else {
      SumZero(|a|, k => Prod(a, u, k));
    }
  }
}
