// The second engine: frames of nodes, one gradient map for the whole walk, and
// GRAD_HO.
module Ad2 {
  import opened Options
  import opened Arith
  import opened Shapes
  import opened Sums
  import opened Tape
  import opened Rules
  import NodeRule
  import opened Adjoint
  import opened Sweep
  import opened Kernels
  import opened Ad2Rule

  // nodes[0] is the frame's head, its latest node.
  datatype Frame = Frame(nodes: seq<Node>, frozen: bool, level: nat)

  type GradMap = map<Id, Value>

  // The walk consults no flag: it goes as the first engine's would with every tensor tracked.
  function Ungated(mem: Memory): (M: Memory)
    ensures |M| == |mem|
  {
    seq(|mem|, x requires 0 <= x < |mem| => mem[x].(tracked := true))
  }

  // ── The walk as a function ──

  function ZerosLike(x: Tensor): Value { Value(x.shape, Zeros(Size(x.shape))) }

  // a2_acc. An error tensor is dropped; a failing addition leaves what was there, or zeros.
  function Acc(mem: Memory, x: Id, c: Value, H: GradMap): GradMap
    requires x < |mem|
  {
    if c.Bad? then H
    else
      var before := if x in H then H[x] else ZerosLike(mem[x]);
      var sum := TAdd(before, c);
      H[x := if sum.Bad? then before else sum]
  }

  datatype Walked = Done(H: GradMap) | Failed(message: string)

  predicate InMemory(mem: Memory, n: Node) {
    n.in0 < |mem| && (n.in1.Some? ==> n.in1.value < |mem|)
  }

  function WalkNode(mem: Memory, n: Node, H: GradMap): Walked
    requires InMemory(mem, n)
  {
    if n.out !in H || H[n.out].Bad? then Done(H)
    else
      match RuleOf(n, OperandAt(mem, n, 0), OperandAt(mem, n, 1), H[n.out])
      case Refused(m) => Failed(m)
      case One(c0) => Done(Acc(mem, n.in0, c0, H))
      case Two(c0, c1) => if n.in1.None? then Done(H) else Done(Acc(mem, n.in1.value, c1, Acc(mem, n.in0, c0, H)))
  }

  // From a frame's head to its first node.
  function WalkNodes(mem: Memory, nodes: seq<Node>, H: GradMap): Walked
    requires forall i :: 0 <= i < |nodes| ==> InMemory(mem, nodes[i])
  {
    if nodes == [] then Done(H)
    else
      var r := WalkNode(mem, nodes[0], H);
      if r.Failed? then r else WalkNodes(mem, nodes[1..], r.H)
  }

  predicate FramesInMemory(mem: Memory, frames: seq<Frame>) {
    forall f, i :: 0 <= f < |frames| && 0 <= i < |frames[f].nodes| ==> InMemory(mem, frames[f].nodes[i])
  }

  // From the top frame to the oldest.
  function WalkFrames(mem: Memory, frames: seq<Frame>, H: GradMap): Walked
    requires FramesInMemory(mem, frames)
  {
    if frames == [] then Done(H)
    else
      var r := WalkNodes(mem, frames[0].nodes, H);
      if r.Failed? then r else WalkFrames(mem, frames[1..], r.H)
  }

  // ── One sweep over the concatenated frames ──

  function Reversed(nodes: seq<Node>): (r: seq<Node>)
    ensures |r| == |nodes| && forall i :: 0 <= i < |r| ==> r[i] == nodes[|nodes| - 1 - i]
  {
    if nodes == [] then [] else Reversed(nodes[1..]) + [nodes[0]]
  }

  // The frames in recording order: the oldest frame first, each from its first node.
  function Concatenated(frames: seq<Frame>): seq<Node> {
    if frames == [] then [] else Concatenated(frames[1..]) + Reversed(frames[0].nodes)
  }

  // The map holds the sweep's gradients, in the tensors' own shapes.
  ghost predicate Holds(mem: Memory, H: GradMap, G: Gradients) {
    && H.Keys == G.Keys
    && forall x :: x in G ==>
      x < |mem| && |G[x]| == |mem[x].data| == Size(mem[x].shape)
      && H[x] == Value(mem[x].shape, G[x])
  }

  // The first engine skips untracked operands of a product of matrices.
  ghost predicate Handled(mem: Memory, n: Node) {
    NodeInMemory(mem, n) && Regular(mem, n)
      && (n.op == MatMul ==> forall slot: nat :: Uses(n, slot) ==> OperandAt(mem, n, slot).tracked)
  }

  lemma AccHolds(mem: Memory, x: Id, v: seq<real>, H: GradMap, G: Gradients)
    requires Holds(mem, H, G) && x < |mem| && |v| == |mem[x].data| == Size(mem[x].shape)
    ensures Holds(mem, Acc(mem, x, Value(mem[x].shape, v), H), Accumulate(G, x, v))
  {
    hide TAdd;
    AddSame(mem[x].shape, if x in G then G[x] else Zeros(|v|), v);
  }

  lemma OperandSized(mem: Memory, n: Node, slot: nat)
    requires NodeInMemory(mem, n) && Uses(n, slot)
    ensures InId(n, slot) < |mem| && OperandAt(mem, n, slot) == mem[InId(n, slot)]
    ensures |mem[InId(n, slot)].data| == Size(mem[InId(n, slot)].shape)
  {
  }

  lemma NodeHolds(mem: Memory, n: Node, H: GradMap, G: Gradients)
    requires Holds(mem, H, G) && Handled(mem, n) && InMemory(mem, n)
    ensures var r := WalkNode(mem, n, H); r.Done? && Holds(mem, r.H, SweepNode(mem, n, G))
  {
    hide RuleOf, Regular, NodeInMemory, Acc, Accumulate, NodeContribution, Holds;
    HoldsAt(mem, H, G, n.out);
    OutSized(mem, n);
    if n.out in G {
      var d := G[n.out];
      RuleMatches(mem, n, d);
      assert Uses(n, 0);
      OperandSized(mem, n, 0);
      ContributionSize(mem, n, d, 0);
      AccHolds(mem, n.in0, NodeContribution(mem, n, d, 0), H, G);
      if Uses(n, 1) {
        OperandSized(mem, n, 1);
        ContributionSize(mem, n, d, 1);
        AccHolds(mem, n.in1.value, NodeContribution(mem, n, d, 1),
          Acc(mem, n.in0, Due(mem, n, d, 0), H), Accumulate(G, n.in0, NodeContribution(mem, n, d, 0)));
      }
      SlotsTaken(mem, n, d, G);
    }
  }

  lemma HoldsAt(mem: Memory, H: GradMap, G: Gradients, x: Id)
    requires Holds(mem, H, G)
    ensures x in H <==> x in G
    ensures x in G ==> x < |mem| && |G[x]| == |mem[x].data| && H[x] == Value(mem[x].shape, G[x])
  {
  }

  lemma OutSized(mem: Memory, n: Node)
    requires NodeInMemory(mem, n)
    ensures n.out < |mem| && OutShape(mem, n) == mem[n.out].shape && |mem[n.out].data| == Size(mem[n.out].shape)
  {
  }

  // Every operand takes part, and there are two at most.
  lemma SlotsTaken(mem: Memory, n: Node, d: seq<real>, G: Gradients)
    requires Handled(mem, n)
    ensures AccumulateSlot(mem, n, d, 0, G) == Accumulate(G, n.in0, NodeContribution(mem, n, d, 0))
    ensures Uses(n, 1) ==>
      forall K: Gradients :: AccumulateSlot(mem, n, d, 1, K)
        == Accumulate(K, n.in1.value, NodeContribution(mem, n, d, 1))
    ensures !Uses(n, 1) ==> forall K: Gradients :: AccumulateSlot(mem, n, d, 1, K) == K
    ensures forall K: Gradients :: AccumulateSlot(mem, n, d, 2, K) == K
  {
    hide Accumulate, NodeContribution, NodeInMemory;
    assert Receives(mem, n, 0);
    assert Receives(mem, n, 1) <==> Uses(n, 1);
  }

  lemma {:induction false} BackwardConcat(mem: Memory, a: seq<Node>, b: seq<Node>, G: Gradients)
    ensures Backward(mem, a + b, G) == Backward(mem, a, Backward(mem, b, G))
    decreases |b|
  {
    hide SweepNode;
    if b == [] {
      assert a + b == a;
    } else {
      var last := |b| - 1;
      assert (a + b)[..|a + b| - 1] == a + b[..last];
      BackwardConcat(mem, a, b[..last], SweepNode(mem, b[last], G));
    }
  }

  lemma {:induction false} NodesHold(mem: Memory, nodes: seq<Node>, H: GradMap, G: Gradients)
    requires Holds(mem, H, G) && forall i :: 0 <= i < |nodes| ==> Handled(mem, nodes[i]) && InMemory(mem, nodes[i])
    ensures var r := WalkNodes(mem, nodes, H); r.Done? && Holds(mem, r.H, Backward(mem, Reversed(nodes), G))
  {
    hide Holds, Handled, InMemory, WalkNode, SweepNode;
    if nodes != [] {
      var n, rest := nodes[0], nodes[1..];
      NodeHolds(mem, n, H, G);
      NodesHold(mem, rest, WalkNode(mem, n, H).H, SweepNode(mem, n, G));
      var r := Reversed(nodes);
      assert r[|r| - 1] == n && r[..|r| - 1] == Reversed(rest);
    }
  }

  // The walk over the frames with one shared map returns what a single reverse
  // sweep over the concatenated frames returns.
  lemma {:induction false} FramesAreOneSweep(mem: Memory, frames: seq<Frame>, H: GradMap, G: Gradients)
    requires FramesInMemory(mem, frames) && Holds(mem, H, G)
    requires forall f, i :: 0 <= f < |frames| && 0 <= i < |frames[f].nodes| ==> Handled(mem, frames[f].nodes[i])
    ensures var r := WalkFrames(mem, frames, H); r.Done? && Holds(mem, r.H, Backward(mem, Concatenated(frames), G))
  {
    hide Holds, Handled, InMemory, Backward;
    if frames == [] {
      BackwardNone(mem, G);
    } else {
      var top, rest := frames[0], frames[1..];
      NodesHold(mem, top.nodes, H, G);
      forall f, i | 0 <= f < |rest| && 0 <= i < |rest[f].nodes|
        ensures Handled(mem, rest[f].nodes[i])
      {
        assert rest[f] == frames[f + 1];
      }
      var H1 := WalkNodes(mem, top.nodes, H).H;
      FramesAreOneSweep(mem, rest, H1, Backward(mem, Reversed(top.nodes), G));
      BackwardConcat(mem, Concatenated(rest), Reversed(top.nodes), G);
    }
  }

  // ── Flags ──

  lemma RuleIgnoresFlags(n: Node, x0: Tensor, x1: Tensor, y0: Tensor, y1: Tensor, d: Value)
    requires x0.shape == y0.shape && x0.data == y0.data && x1.shape == y1.shape && x1.data == y1.data
    ensures RuleOf(n, x0, x1, d) == RuleOf(n, y0, y1, d)
  {
    hide TAxisSum, TBcast, TScale, TMul, TDiv, TMatMul, TTranspose, TReshape;
  }

  // The taped rule on tensors of any flags gives what the first engine's rule gives when no
  // operand is skipped; in particular on a broadcast copy or an axis sum, whose result is
  // never tracked.
  lemma TapedRule(mem: Memory, n: Node, d: seq<real>)
    requires NodeInMemory(Ungated(mem), n) && Regular(Ungated(mem), n) && |d| == |mem[n.out].data|
    ensures var r := RuleOf(n, OperandAt(mem, n, 0), OperandAt(mem, n, 1), Value(OutShape(mem, n), d));
      !r.Refused? && r.c0 == Due(Ungated(mem), n, d, 0) && (r.Two? <==> Uses(n, 1)) &&
      (r.Two? ==> r.c1 == Due(Ungated(mem), n, d, 1))
  {
    hide RuleOf, Due;
    var M := Ungated(mem);
    RuleMatches(M, n, d);
    RuleIgnoresFlags(n, OperandAt(mem, n, 0), OperandAt(mem, n, 1), OperandAt(M, n, 0), OperandAt(M, n, 1),
      Value(OutShape(mem, n), d));
  }

  lemma NodeIgnoresFlags(mem: Memory, n: Node, H: GradMap)
    requires InMemory(mem, n)
    ensures WalkNode(Ungated(mem), n, H) == WalkNode(mem, n, H)
  {
    hide RuleOf, TAdd;
    if n.out in H {
      var M := Ungated(mem);
      RuleIgnoresFlags(n, OperandAt(mem, n, 0), OperandAt(mem, n, 1), OperandAt(M, n, 0), OperandAt(M, n, 1), H[n.out]);
    }
  }

  lemma {:induction false} NodesIgnoreFlags(mem: Memory, nodes: seq<Node>, H: GradMap)
    requires forall i :: 0 <= i < |nodes| ==> InMemory(mem, nodes[i])
    ensures forall i :: 0 <= i < |nodes| ==> InMemory(Ungated(mem), nodes[i])
    ensures WalkNodes(Ungated(mem), nodes, H) == WalkNodes(mem, nodes, H)
  {
    hide WalkNode, Ungated;
    if nodes != [] {
      NodeIgnoresFlags(mem, nodes[0], H);
      var r := WalkNode(mem, nodes[0], H);
      if r.Done? { NodesIgnoreFlags(mem, nodes[1..], r.H); }
    }
  }

  // Nothing the walk does depends on which tensors are tracked.
  lemma {:induction false} WalkIgnoresFlags(mem: Memory, frames: seq<Frame>, H: GradMap)
    requires FramesInMemory(mem, frames)
    ensures FramesInMemory(Ungated(mem), frames) && WalkFrames(Ungated(mem), frames, H) == WalkFrames(mem, frames, H)
  {
    hide WalkNodes, Ungated, InMemory;
    FramesInMemoryUngated(mem, frames);
    if frames != [] {
      NodesIgnoreFlags(mem, frames[0].nodes, H);
      var r := WalkNodes(mem, frames[0].nodes, H);
      if r.Done? { WalkIgnoresFlags(mem, frames[1..], r.H); }
    }
  }

  lemma HoldsUngated(mem: Memory, H: GradMap, G: Gradients)
    ensures Holds(Ungated(mem), H, G) <==> Holds(mem, H, G)
  {
  }

  // So over tensors of any flags the walk is one sweep that skips no operand.
  lemma WalkIsOneSweep(mem: Memory, frames: seq<Frame>, H: GradMap, G: Gradients)
    requires FramesInMemory(mem, frames) && Holds(mem, H, G) && AllHandled(Ungated(mem), frames)
    ensures var r := WalkFrames(mem, frames, H);
      r.Done? && Holds(mem, r.H, Backward(Ungated(mem), Concatenated(frames), G))
  {
    hide Holds, Handled, Backward, WalkFrames, Ungated, InMemory;
    WalkIgnoresFlags(mem, frames, H);
    HoldsUngated(mem, H, G);
    FramesAreOneSweep(Ungated(mem), frames, H, G);
    HoldsUngated(mem, WalkFrames(mem, frames, H).H, Backward(Ungated(mem), Concatenated(frames), G));
  }

  lemma BackwardNone(mem: Memory, G: Gradients)
    ensures Backward(mem, [], G) == G
  {
  }

  // ── GRAD_HO ──

  datatype Result = Grad(value: Value) | Error(message: string)

  ghost predicate AllHandled(mem: Memory, frames: seq<Frame>) {
    forall f, i :: 0 <= f < |frames| && 0 <= i < |frames[f].nodes| ==> Handled(mem, frames[f].nodes[i])
  }

  function SeedMap(mem: Memory, root: Id): GradMap
    requires root < |mem|
  {
    map[root := Value(mem[root].shape, Ones(Size(mem[root].shape)))]
  }

  // The guards of GRAD_HO.
  predicate Starts(mem: Memory, frames: seq<Frame>, w: Id)
    requires w < |mem|
  {
    mem[w].tracked && frames != [] && frames[0].level < 2 && frames[0].nodes != []
  }

  function GradOf(mem: Memory, frames: seq<Frame>, w: Id): Result
    requires w < |mem|
    requires Starts(mem, frames, w) ==> FramesInMemory(mem, frames) && frames[0].nodes[0].out < |mem|
  {
    if !mem[w].tracked then Error("ad2: w requires_grad=0")
    else if frames == [] then Error("ad2: not initialized")
    else if frames[0].level >= 2 then Error("ad2: 3rd+ derivatives unsupported (single-DAG pending 0c)")
    else if frames[0].nodes == [] then Error("ad2: empty tape")
    else
      var r := WalkFrames(Ungated(mem), frames, SeedMap(mem, frames[0].nodes[0].out));
      if r.Failed? then Error(r.message)
      else Grad(if w in r.H then r.H[w] else ZerosLike(mem[w]))
  }

  // What the walk itself can refuse.
  predicate Refusal(m: string) {
    m in {"ad2: add null operand", "ad2: sub null operand", "ad2: mul null operand", "ad2: div null operand",
          "ad2: division by zero in backward", "ad2: CONV2D unsupported (use GRAD)",
            "ad2: SUM_AXIS unsupported (use GRAD)",
          "ad2: MEAN_AXIS unsupported (use GRAD)", "ad2: VAR_AXIS unsupported (use GRAD)"}
  }

  lemma RuleRefusals(n: Node, x0: Tensor, x1: Tensor, d: Value)
    ensures RuleOf(n, x0, x1, d).Refused? ==> Refusal(RuleOf(n, x0, x1, d).message)
  {
    hide TAxisSum, TBcast, TScale, TMul, TDiv, TMatMul, TTranspose, TReshape, HasZero;
  }

  lemma {:induction false} NodesRefuse(mem: Memory, nodes: seq<Node>, H: GradMap)
    requires forall i :: 0 <= i < |nodes| ==> InMemory(mem, nodes[i])
    ensures WalkNodes(mem, nodes, H).Failed? ==> Refusal(WalkNodes(mem, nodes, H).message)
  {
    hide RuleOf, Refusal, Acc;
    if nodes != [] {
      var n := nodes[0];
      if n.out in H { RuleRefusals(n, OperandAt(mem, n, 0), OperandAt(mem, n, 1), H[n.out]); }
      var r := WalkNode(mem, n, H);
      if r.Done? { NodesRefuse(mem, nodes[1..], r.H); }
    }
  }

  lemma {:induction false} WalkRefuses(mem: Memory, frames: seq<Frame>, H: GradMap)
    requires FramesInMemory(mem, frames)
    ensures WalkFrames(mem, frames, H).Failed? ==> Refusal(WalkFrames(mem, frames, H).message)
  {
    hide WalkNodes, Refusal;
    if frames != [] {
      NodesRefuse(mem, frames[0].nodes, H);
      var r := WalkNodes(mem, frames[0].nodes, H);
      if r.Done? { WalkRefuses(mem, frames[1..], r.H); }
    }
  }

  // Each error exactly when: no gradient wanted for w, no frame, two derivatives taken
  // already, nothing recorded; any other refusal is the walk's own.
  lemma GradHoErrors(mem: Memory, frames: seq<Frame>, w: Id)
    requires w < |mem|
    requires Starts(mem, frames, w) ==> FramesInMemory(mem, frames) && frames[0].nodes[0].out < |mem|
    ensures var r := GradOf(mem, frames, w);
      && (r == Error("ad2: w requires_grad=0") <==> !mem[w].tracked)
      && (r == Error("ad2: not initialized") <==> mem[w].tracked && frames == [])
      && (r == Error("ad2: 3rd+ derivatives unsupported (single-DAG pending 0c)") <==>
            mem[w].tracked && frames != [] && 2 <= frames[0].level)
      && (r == Error("ad2: empty tape") <==>
        mem[w].tracked && frames != [] && frames[0].level < 2 && frames[0].nodes == [])
      && (mem[w].tracked && frames != [] && frames[0].level < 2 && frames[0].nodes != [] ==>
            r.Grad? || Refusal(r.message))
  {
    hide WalkFrames, Refusal;
    RefusalsDiffer();
    if mem[w].tracked && frames != [] && frames[0].level < 2 && frames[0].nodes != [] {
      FramesInMemoryUngated(mem, frames);
      WalkRefuses(Ungated(mem), frames, SeedMap(mem, frames[0].nodes[0].out));
    }
  }

  lemma RefusalsDiffer()
    ensures !Refusal("ad2: w requires_grad=0") && !Refusal("ad2: not initialized") && !Refusal("ad2: empty tape")
    ensures !Refusal("ad2: 3rd+ derivatives unsupported (single-DAG pending 0c)")
    ensures "ad2: w requires_grad=0" !in {"ad2: not initialized", "ad2: empty tape"}
    ensures "ad2: not initialized" != "ad2: empty tape"
    ensures "ad2: 3rd+ derivatives unsupported (single-DAG pending 0c)" !in
      {"ad2: w requires_grad=0", "ad2: not initialized", "ad2: empty tape"}
  {
  }

  lemma FramesInMemoryUngated(mem: Memory, frames: seq<Frame>)
    requires FramesInMemory(mem, frames)
    ensures FramesInMemory(Ungated(mem), frames)
  {
  }

  // For frames of nodes both engines handle alike, GRAD_HO returns what the first
  // engine's sweep over the concatenated frames leaves for w, with no operand skipped.
  lemma GradHoIsFirstOrder(mem: Memory, frames: seq<Frame>, w: Id)
    requires FramesInMemory(mem, frames) && w < |mem| && mem[w].tracked && |mem[w].data| == Size(mem[w].shape)
    requires frames != [] && frames[0].level < 2 && frames[0].nodes != [] && frames[0].nodes[0].out < |mem|
    requires AllHandled(Ungated(mem), frames)
    ensures var G := Backward(Ungated(mem), Concatenated(frames), Seed(Ungated(mem), frames[0].nodes[0].out));
      GradOf(mem, frames, w) == Grad(Value(mem[w].shape, if w in G then G[w] else Zeros(|mem[w].data|)))
  {
    hide Holds, Handled, InMemory, Backward, WalkFrames, Ungated;
    var M := Ungated(mem);
    var root := frames[0].nodes[0].out;
    UngatedAt(mem, w);
    UngatedAt(mem, root);
    FramesInMemoryUngated(mem, frames);
    assert Handled(M, frames[0].nodes[0]);
    SeedHolds(M, frames[0].nodes[0]);
    FramesAreOneSweep(M, frames, SeedMap(M, root), Seed(M, root));
    var G := Backward(M, Concatenated(frames), Seed(M, root));
    HoldsAt(M, WalkFrames(M, frames, SeedMap(M, root)).H, G, w);
  }

  lemma UngatedAt(mem: Memory, x: Id)
    requires x < |mem|
    ensures Ungated(mem)[x] == mem[x].(tracked := true)
  {
  }

  // So its element at a leaf is the derivative of the seeded root, through every
  // frame, in that element's direction.
  lemma HigherOrderGradIsDerivative(mem: Memory, frames: seq<Frame>, w: Id, i: nat)
    requires FramesInMemory(mem, frames) && w < |mem| && mem[w].tracked && |mem[w].data| == Size(mem[w].shape)
    requires i < |mem[w].data|
    requires frames != [] && frames[0].level < 2 && frames[0].nodes != [] && frames[0].nodes[0].out < |mem|
    requires AllHandled(Ungated(mem), frames) && WellFormed(Ungated(mem), Concatenated(frames))
    requires w !in Outputs(Concatenated(frames))
    ensures var M, root := Ungated(mem), frames[0].nodes[0].out;
      var T := seq(|M|, x requires 0 <= x < |M| => if x == w then Unit(|M[w].data|, i) else Zeros(|M[x].data|));
      var r := GradOf(mem, frames, w);
      r.Grad? && r.value.Value? && r.value.shape == mem[w].shape && |r.value.data| == |mem[w].data| &&
      Dot(Ones(|mem[root].data|), Forward(M, Concatenated(frames), T)[root]) == r.value.data[i]
  {
    hide GradOf, Handled, InMemory, Backward, Forward, WellFormed, Dot;
    GradHoIsFirstOrder(mem, frames, w);
    FramesInMemoryUngated(mem, frames);
    GradientIsDerivative(Ungated(mem), Concatenated(frames), frames[0].nodes[0].out, w, i);
    GradientFits(Ungated(mem), frames, w);
  }

  // The gradient found for w has w's size.
  lemma GradientFits(mem: Memory, frames: seq<Frame>, w: Id)
    requires FramesInMemory(mem, frames) && w < |mem| && |mem[w].data| == Size(mem[w].shape)
    requires frames != [] && frames[0].nodes != [] && frames[0].nodes[0].out < |mem| && AllHandled(mem, frames)
    ensures var G := Backward(mem, Concatenated(frames), Seed(mem, frames[0].nodes[0].out));
      w in G ==> |G[w]| == |mem[w].data|
  {
    hide Holds, Handled, InMemory, Backward, WalkFrames;
    var root := frames[0].nodes[0].out;
    assert Handled(mem, frames[0].nodes[0]);
    SeedHolds(mem, frames[0].nodes[0]);
    FramesAreOneSweep(mem, frames, SeedMap(mem, root), Seed(mem, root));
    HoldsAt(mem, WalkFrames(mem, frames, SeedMap(mem, root)).H, Backward(mem, Concatenated(frames), Seed(mem, root)),
      w);
  }

  lemma SeedHolds(mem: Memory, n: Node)
    requires Handled(mem, n)
    ensures n.out < |mem| && Holds(mem, SeedMap(mem, n.out), Seed(mem, n.out))
  {
    OutSized(mem, n);
  }

  lemma FramesOfOne(M: Memory, f: Frame, V: GradMap)
    requires forall i :: 0 <= i < |f.nodes| ==> InMemory(M, f.nodes[i])
    ensures WalkFrames(M, [f], V) == WalkNodes(M, f.nodes, V)
  {
    hide InMemory, WalkNodes;
    assert [f][1..] == [];
  }

  // ── A product of equal sizes and different shapes ──

  const TOTAL := Node(SumAll, 2, None, None, 0.0, 3, 0, 0)
  const PRODUCT := Node(Mult, 0, Some(1), None, 0.0, 2, 0, 0)

  function Grid(column: seq<real>, row: seq<real>, product: seq<real>): Memory {
    [Tensor([2, 1], column, true), Tensor([1, 2], row, true), Tensor([2, 2], product, true), Tensor([1], [0.0], false)]
  }

  lemma JointOf(s: Shape, t: Shape, r: Shape)
    requires |s| == |t| == |r| == 2 && (forall k :: 0 <= k < 2 ==> r[k] == if s[k] == 1 then t[k] else s[k])
    requires forall k :: 0 <= k < 2 ==> t[k] == 1 || t[k] == r[k]
    ensures Joint(s, t) == r && Compatible(s, r) && Compatible(t, r)
  {
    assert Joint(s, t)[0] == r[0] && Joint(s, t)[1] == r[1];
  }

  lemma ElementwiseShape(a: Value, b: Value, f: (real, real) -> real, r: Shape)
    requires a.Value? && b.Value? && |a.shape| == |b.shape| == |r| == 2
    requires forall k :: 0 <= k < 2 ==> r[k] == if a.shape[k] == 1 then b.shape[k] else a.shape[k]
    requires forall k :: 0 <= k < 2 ==> b.shape[k] == 1 || b.shape[k] == r[k]
    ensures Elementwise(a, b, f).Value? && Elementwise(a, b, f).shape == r
  {
    JointOf(a.shape, b.shape, r);
  }

  // An entry takes the shape of what is added to it.
  lemma AccShape(mem: Memory, x: Id, c: Value, H: GradMap, r: Shape)
    requires x < |mem| && x !in H && c.Value? && |mem[x].shape| == |c.shape| == |r| == 2
    requires forall k :: 0 <= k < 2 ==> r[k] == if mem[x].shape[k] == 1 then c.shape[k] else mem[x].shape[k]
    requires forall k :: 0 <= k < 2 ==> c.shape[k] == 1 || c.shape[k] == r[k]
    ensures var q := Acc(mem, x, c, H);
      q.Keys == H.Keys + {x} && q[x].Value? && q[x].shape == r && forall y :: y in H ==> q[y] == H[y]
  {
    hide Elementwise;
    ElementwiseShape(ZerosLike(mem[x]), c, AddOf, r);
  }

  // GRAD_HO gives a column of two, multiplied by a row of two, a gradient of shape 2 x 2.
  lemma ColumnGradient(column: seq<real>, row: seq<real>, product: seq<real>)
    requires |column| == 2 == |row| && |product| == 4
    ensures var mem, frames := Grid(column, row, product), [Frame([TOTAL, PRODUCT], false, 0)];
      FramesInMemory(mem, frames) &&
      var r := GradOf(mem, frames, 0); r.Grad? && r.value.Value? && r.value.shape == [2, 2] != mem[0].shape
  {
    hide Acc, Elementwise, WalkNode;
    var mem, frames := Grid(column, row, product), [Frame([TOTAL, PRODUCT], false, 0)];
    var M, H0 := Ungated(mem), SeedMap(mem, 3);
    TotalEntry(M, H0);
    var H1 := WalkNode(M, TOTAL, H0).H;
    ProductEntries(M, H1);
    assert [TOTAL, PRODUCT][1..] == [PRODUCT] && [PRODUCT][1..] == [];
    assert WalkNodes(M, [PRODUCT], H1) == WalkNode(M, PRODUCT, H1);
    assert WalkNodes(M, [TOTAL, PRODUCT], H0) == WalkNode(M, PRODUCT, H1);
    FramesOfOne(M, frames[0], H0);
    assert mem[0].tracked && mem[0].shape[1] != [2, 2][1];
  }

  lemma TotalEntry(M: Memory, H: GradMap)
    requires |M| == 4 && M[2].shape == [2, 2] && H.Keys == {3} && H[3].Value?
    ensures var w := WalkNode(M, TOTAL, H); w.Done? && w.H.Keys == {3, 2} && w.H[2].Value? && w.H[2].shape == [2, 2]
  {
    hide Acc, Elementwise, Spread;
    AccShape(M, 2, TBcast(H[3], [2, 2]), H, [2, 2]);
  }

  lemma ProductEntries(M: Memory, H: GradMap)
    requires |M| == 4 && M[0].shape == [2, 1] && M[1].shape == [1, 2] && |M[0].data| == 2 == |M[1].data|
    requires H.Keys == {3, 2} && H[2].Value? && H[2].shape == [2, 2]
    ensures var w := WalkNode(M, PRODUCT, H); w.Done? && 0 in w.H && w.H[0].Value? && w.H[0].shape == [2, 2]
  {
    hide Acc, Elementwise;
    var c0, c1 := TMul(H[2], Of(M[1])), TMul(H[2], Of(M[0]));
    ElementwiseShape(H[2], Of(M[1]), Mul, [2, 2]);
    ElementwiseShape(H[2], Of(M[0]), Mul, [2, 2]);
    AccShape(M, 0, c0, H, [2, 2]);
    AccShape(M, 1, c1, Acc(M, 0, c0, H), [2, 2]);
  }

  // ── The engine's own tensor loops ──

  // a2_axis_sum is Kernels.BcastReduce; a2_bcast reads where that one writes.
  method BcastLoop(d: seq<real>, ds: Shape, like: Shape) returns (o: array<real>)
    requires Compatible(ds, like) && |d| == Size(ds) && |like| <= MAX_DIMS
    ensures fresh(o) && o[..] == Spread(like, Tensor(ds, d, true))
  {
    hide Compatible, Bc, AtPosition, Spread;
    var u := Tensor(ds, d, true);
    o := new real[Size(like)](_ => 0.0);
    var oidx := ZeroIndex(|like|);
    StartPosition(like, oidx[..|like|]);
    var i := 0;
    while i < o.Length
      invariant 0 <= i <= o.Length && fresh(o) && fresh(oidx) && o.Length == Size(like)
      invariant AtPosition(like, oidx[..|like|], i)
      invariant forall k :: 0 <= k < i ==> o[k] == At(Spread(like, u), k)
    {
      o[i] := ReadSpread(oidx, like, u, i);
      Advance(oidx, like, i);
      i := i + 1;
    }
  }

  // <bcast(x), d> = <x, axis_sum(d)> for every pair of broadcast-compatible shapes.
  lemma BcastAxisSumAdjoint(xs: Shape, os: Shape, x: seq<real>, d: seq<real>)
    requires Compatible(xs, os) && |x| == Size(xs) && |d| == Size(os)
    ensures TBcast(Value(xs, x), os).Value? && TAxisSum(Value(os, d), xs).Value?
    ensures Dot(d, TBcast(Value(xs, x), os).data) == Dot(TAxisSum(Value(os, d), xs).data, x)
  {
    NodeRule.BroadcastAdjoint(os, Tensor(xs, [], true), d, x);
  }
}
