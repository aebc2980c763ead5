// What the second engine performs is a well-formed program: every node reads
// tensors older than its result, shapes fit, and the recorded data are the values
// of the operations.
module Ad2Sound {
  import opened Options
  import opened Arith
  import opened Shapes
  import opened Sums
  import opened Tape
  import opened Rules
  import opened NodeRule
  import opened Adjoint
  import opened Sweep
  import opened DualRun
  import opened Ad2Rule
  import opened Ad2
  import opened Ad2Tape
  import opened Ad2Pass

  // ── One operation ──

  // The operands' data and the broadcasting the engine asks for fit.
  ghost predicate Fits(op: Op, a: Tensor, b: Tensor, like: Shape) {
    && |a.data| == Size(a.shape)
    && |b.data| == (if Binary(op) then Size(b.shape) else 0)
    && (op == Bcast ==> Compatible(a.shape, like))
    && (op == AxisSum ==> Compatible(like, a.shape))
  }

  ghost predicate Meant(n: Node, a: Tensor, b: Tensor, v: Value) {
    v.Value? && |v.data| == Size(v.shape) && ShapesOk(n, v.shape, a, b, Nothing) &&
    forall o :: 0 <= o < Size(v.shape) ==> v.data[o] == ForwardAt(n, v.shape, a, b, Nothing, [], [], [], o).re
  }

  lemma ElementwiseMeant(n: Node, a: Tensor, b: Tensor)
    requires (n.op == Add || n.op == Sub || n.op == Mult || n.op == Div) && n.in1.Some? && Fits(n.op, a, b, [])
    requires Apply(n.op, Of(a), Of(b), 0.0, []).Value?
    ensures Meant(n, a, b, Apply(n.op, Of(a), Of(b), 0.0, []))
  {
    hide Bc, Compatible, Joint, Mul, Quot;
    var v := Apply(n.op, Of(a), Of(b), 0.0, []);
    var sh := Joint(a.shape, b.shape);
    assert v.shape == sh && |v.data| == Size(sh);
    forall o | 0 <= o < Size(sh)
      ensures v.data[o] == ForwardAt(n, sh, a, b, Nothing, [], [], [], o).re
    {
      var x, y := At(a.data, Bc(a.shape, sh, o)), At(b.data, Bc(b.shape, sh, o));
      assert v.data[o] == match n.op case Add => AddOf(x, y) case Sub => SubOf(x, y) case Mult => Mul(x, y)
        case _ => Quot(x, y);
    }
  }

  lemma PlainMeant(n: Node, a: Tensor, c: real, like: Shape)
    requires n.op == Scale || n.op == Relu || n.op == Reshape || n.op == Bcast
    requires Fits(n.op, a, Nothing, like) && (n.op == Scale ==> n.scalar == c)
    requires Apply(n.op, Of(a), Bad, c, like).Value?
    ensures Meant(n, a, Nothing, Apply(n.op, Of(a), Bad, c, like))
  {
    hide Bc, Compatible, Mul;
    var v := Apply(n.op, Of(a), Bad, c, like);
    if n.op == Bcast {
      forall o | 0 <= o < Size(like)
        ensures v.data[o] == At(a.data, Bc(a.shape, like, o))
      {
      }
    }
  }

  lemma AxisSumMeant(n: Node, a: Tensor, like: Shape)
    requires n.op == AxisSum && Fits(AxisSum, a, Nothing, like)
    ensures Meant(n, a, Nothing, Apply(AxisSum, Of(a), Bad, 0.0, like))
  {
    hide Bc, Compatible;
    var v := Apply(AxisSum, Of(a), Bad, 0.0, like);
    var sigma := (i: int) => Bc(like, a.shape, i);
    forall o | 0 <= o < Size(like)
      ensures v.data[o] == ForwardAt(n, like, a, Nothing, Nothing, [], [], [], o).re
    {
      var h := (i: int) => if sigma(i) == o then At(a.data, i) else 0.0;
      ScatterSum(Size(like), sigma, a.data, |a.data|, o);
      DSumRe(|a.data|, i => if Bc(like, a.shape, i) == o then DAt(a, [], i) else Dual(0.0, 0.0), h);
      SumEq(|a.data|, h, i => if sigma(i) == o then At(a.data, i) else 0.0);
      ReduceIsScatter(like, a.shape, a.data, sigma);
    }
  }

  lemma {:induction false} ScatterEq(n: nat, f: int -> int, g: int -> int, v: seq<real>, k: nat)
    requires forall i :: 0 <= i < k ==> f(i) == g(i)
    ensures Scatter(n, f, v, k) == Scatter(n, g, v, k)
  {
    if k > 0 { ScatterEq(n, f, g, v, k - 1); }
  }

  lemma ReduceIsScatter(ts: Shape, os: Shape, v: seq<real>, sigma: int -> int)
    requires forall i :: 0 <= i < |v| ==> sigma(i) == Bc(ts, os, i)
    ensures ReduceTo(ts, os, v) == Scatter(Size(ts), sigma, v, |v|)
  {
    ScatterEq(Size(ts), o => Bc(ts, os, o), sigma, v, |v|);
  }

  lemma TransposeMeant(n: Node, a: Tensor)
    requires n.op == Transpose && Fits(Transpose, a, Nothing, []) && TTranspose(Of(a)).Value?
    ensures Meant(n, a, Nothing, TTranspose(Of(a)))
  {
    hide Ix;
    var v := TTranspose(Of(a));
    Size2(v.shape);
    var r, c := a.shape[0], a.shape[1];
    MulZero(c, r);
    forall o | 0 <= o < Size(v.shape)
      ensures v.data[o] == ForwardAt(n, v.shape, a, Nothing, Nothing, [], [], [], o).re
    {
      assert v.data[o] == At(a.data, Swap(r, c, o));
    }
  }

  lemma MatMulMeant(n: Node, a: Tensor, b: Tensor)
    requires n.op == MatMul && n.in1.Some? && Fits(MatMul, a, b, []) && TMatMul(Of(a), Of(b)).Value?
    ensures Meant(n, a, b, TMatMul(Of(a), Of(b)))
  {
    hide Ix, Mul;
    var v := TMatMul(Of(a), Of(b));
    var k, p := a.shape[1], b.shape[1];
    Size2(v.shape);
    forall o | 0 <= o < Size(v.shape)
      ensures v.data[o] == ForwardAt(n, v.shape, a, b, Nothing, [], [], [], o).re
    {
      if p != 0 {
        DSumRe(k, j => DMul(DAt(a, [], Ix(k, o / p, j)), DAt(b, [], Ix(p, j, o % p))),
               j => Mul(At(a.data, Ix(k, o / p, j)), At(b.data, Ix(p, j, o % p))));
      }
    }
  }

  lemma ApplyMeant(n: Node, a: Tensor, b: Tensor, c: real, like: Shape)
    requires Fits(n.op, a, b, like) && (Binary(n.op) ==> n.in1.Some?) && (n.op == Scale ==> n.scalar == c)
    requires Apply(n.op, Of(a), if Binary(n.op) then Of(b) else Bad, c, like).Value?
    ensures Meant(n, a, if Binary(n.op) then b
      else Nothing, Apply(n.op, Of(a), if Binary(n.op) then Of(b) else Bad, c, like))
  {
    hide Meant, TAdd, TSub, TMul, TDiv, TMatMul, TScale, TRelu, TTranspose, TReshape, TBcast, TAxisSum, Compatible,
         Size;
    if n.op == MatMul { MatMulMeant(n, a, b); }
    else if Binary(n.op) { ElementwiseMeant(n, a, b); }
    else if n.op == Transpose { TransposeMeant(n, a); }
    else if n.op == AxisSum { AxisSumMeant(n, a, like); }
    else { PlainMeant(n, a, c, like); }
  }

  // ── A sound log ──

  ghost predicate NodeSound(M: Memory, n: Node) {
    && NodeInMemory(M, n) && InMemory(M, n)
    && (ScalarRoot(n) || M[n.out].data == NodeValue(M, n, []))
    && (forall x: Id :: Reads(n, x) ==> x < n.out)
  }

  ghost predicate Sound(M: Memory, nodes: seq<Node>) {
    && (forall x :: 0 <= x < |M| ==> |M[x].data| == Size(M[x].shape))
    && (forall i :: 0 <= i < |nodes| ==> NodeSound(M, nodes[i]))
    && (forall i, j :: 0 <= i < j < |nodes| ==> nodes[i].out < nodes[j].out)
    && (forall i, j :: 0 <= i < |nodes| && 0 <= j < |nodes| && ScalarRoot(nodes[i]) ==> !Reads(nodes[j], nodes[i].out))
  }

  ghost function AllNodes(steps: seq<Step>): (r: seq<Node>)
    ensures |r| == |steps|
  {
    seq(|steps|, i requires 0 <= i < |steps| => steps[i].node)
  }

  ghost predicate SoundPass(p: Pass) { Sound(Ungated(p.mem), AllNodes(p.steps)) }

  // Not the placeholder of a scalar reduction, which no operation can name.
  ghost predicate Usable(p: Pass, x: Id) {
    x < |p.mem| && forall i :: 0 <= i < |p.steps| && ScalarRoot(p.steps[i].node) ==> p.steps[i].node.out != x
  }

  lemma OperandKept(M: Memory, M': Memory, n: Node, slot: nat)
    requires M <= M' && (Uses(n, slot) ==> InId(n, slot) < |M|)
    ensures OperandAt(M', n, slot) == OperandAt(M, n, slot)
  {
  }

  lemma NodeKept(M: Memory, M': Memory, n: Node)
    requires M <= M' && NodeInMemory(M, n)
    ensures NodeInMemory(M', n) && (Regular(M', n) <==> Regular(M, n))
    ensures NodeValue(M', n, []) == NodeValue(M, n, []) && M'[n.out] == M[n.out]
  {
    hide NodeOk, ForwardAt, Regular;
    forall slot: nat
      ensures OperandAt(M', n, slot) == OperandAt(M, n, slot)
    {
      OperandKept(M, M', n, slot);
    }
    assert OutShape(M', n) == OutShape(M, n);
    RegularSame(M, M', n);
  }

  lemma RegularSame(M: Memory, M': Memory, n: Node)
    requires OperandAt(M', n, 0) == OperandAt(M, n, 0) && OperandAt(M', n, 1) == OperandAt(M, n, 1)
    requires OutShape(M', n) == OutShape(M, n)
    ensures Regular(M', n) <==> Regular(M, n)
  {
  }

  lemma SoundGrow(M: Memory, M': Memory, nodes: seq<Node>)
    requires Sound(M, nodes) && M <= M' && forall x :: |M| <= x < |M'| ==> |M'[x].data| == Size(M'[x].shape)
    ensures Sound(M', nodes)
  {
    hide NodeInMemory, NodeValue, Reads;
    forall i | 0 <= i < |nodes|
      ensures NodeSound(M', nodes[i])
    {
      assert NodeSound(M, nodes[i]);
      NodeKept(M, M', nodes[i]);
    }
  }

  lemma SoundStep(M: Memory, nodes: seq<Node>, n: Node)
    requires Sound(M, nodes) && NodeSound(M, n)
    requires forall i :: 0 <= i < |nodes| ==> nodes[i].out < n.out
    requires forall i :: 0 <= i < |nodes| && ScalarRoot(nodes[i]) ==> !Reads(n, nodes[i].out)
    requires ScalarRoot(n) ==> forall i :: 0 <= i < |nodes| ==> !Reads(nodes[i], n.out)
    ensures Sound(M, nodes + [n])
  {
    hide NodeSound, Reads;
    assert NodeSound(M, n);
    assert ScalarRoot(n) ==> !Reads(n, n.out) by { ReadsOlder(M, n); }
  }

  lemma ReadsOlder(M: Memory, n: Node)
    requires NodeSound(M, n)
    ensures !Reads(n, n.out) && n.out < |M|
  {
  }

  lemma NewNodeSound(M: Memory, op: Op, a: Ref, b: Ref, c: real, like: Shape)
    requires a.Some? && a.value < |M| && (Binary(op) ==> b.Some? && b.value < |M|)
    requires Fits(op, M[a.value], if Binary(op) then M[b.value] else Nothing, like)
    requires Apply(op, ValueAt(M, a), if Binary(op) then ValueAt(M, b) else Bad, c, like).Value?
    ensures var v := Apply(op, ValueAt(M, a), if Binary(op) then ValueAt(M, b) else Bad, c, like);
      var M' := M + [Tensor(v.shape, v.data, true)];
      |v.data| == Size(v.shape) && NodeSound(M', NewNode(op, a, b, c, |M|))
  {
    hide Apply, ForwardAt, ShapesOk, Fits, Size;
    var n := NewNode(op, a, b, c, |M|);
    var x0, x1 := M[a.value], if Binary(op) then M[b.value] else Nothing;
    var v := Apply(op, Of(x0), if Binary(op) then Of(x1) else Bad, c, like);
    var M' := M + [Tensor(v.shape, v.data, true)];
    if op == Scale { ApplyMeant(n, x0, x1, c, like); } else {
      ScalarUnused(op, Of(x0), if Binary(op) then Of(x1) else Bad, c, like); ApplyMeant(n, x0, x1, n.scalar, like);
    }
    assert OperandAt(M', n, 0) == x0 && OperandAt(M', n, 1) == x1 && OperandAt(M', n, 2) == Nothing;
    assert OutShape(M', n) == v.shape;
    FitsFilled(op, x0, x1, like);
    forall o | 0 <= o < Size(v.shape)
      ensures v.data[o] == NodeValue(M', n, [])[o]
    {
    }
    assert M'[n.out].data == NodeValue(M', n, []);
    assert NodeInMemory(M', n);
  }

  lemma FitsFilled(op: Op, a: Tensor, b: Tensor, like: Shape)
    requires Fits(op, a, b, like)
    ensures |a.data| == Size(a.shape) && |b.data| == if Binary(op) then Size(b.shape) else 0
  {
  }

  lemma ScalarUnused(op: Op, a: Value, b: Value, c: real, like: Shape)
    requires op != Scale
    ensures Apply(op, a, b, c, like) == Apply(op, a, b, 0.0, like)
  {
    hide TAdd, TSub, TMul, TDiv, TMatMul, TRelu, TTranspose, TReshape, TBcast, TAxisSum;
  }

  // ── The pass keeps the log sound ──

  // The log is sound, and from step k on every node is one both engines treat alike.
  ghost predicate Sure(p: Pass, k: nat) {
    SoundPass(p) && forall i :: k <= i < |p.steps| ==> Regular(Ungated(p.mem), p.steps[i].node)
  }

  ghost predicate Good(p: Pass, r: Ref) { r.Some? && Usable(p, r.value) }

  ghost predicate ZeroAt(p: Pass, r: Ref) { r.Some? && r.value < |p.mem| && HasZero(p.mem[r.value]) }

  // What can be used can still be used, with the same value; results are new tensors,
  // and flags stay up.
  ghost predicate Onward(p: Pass, q: Pass) {
    && Kept(p.mem, q.mem) && p.steps <= q.steps && (forall x :: Usable(p, x) ==> Usable(q, x))
    && (forall i :: |p.steps| <= i < |q.steps| ==> q.steps[i].node.out >= |p.mem|)
    && (forall x :: 0 <= x < |p.mem| && p.mem[x].tracked ==> q.mem[x].tracked)
  }

  lemma OnwardTwice(a: Pass, b: Pass, c: Pass)
    requires Onward(a, b) && Onward(b, c)
    ensures Onward(a, c)
  {
  }

  lemma Carried(p: Pass, q: Pass, r: Ref)
    requires Onward(p, q) && Good(p, r)
    ensures Good(q, r) && ShapeAt(q.mem, r) == ShapeAt(p.mem, r) && ValueAt(q.mem, r) == ValueAt(p.mem, r)
    ensures ZeroAt(q, r) == ZeroAt(p, r)
  {
  }

  // A product or quotient of equally many elements.
  ghost predicate Square(p: Pass, op: Op, a: Ref, b: Ref) {
    (op == Mult || op == Div) && |OfRef(p, a).data| == |OfRef(p, b).data|
  }

  ghost function OfRef(p: Pass, r: Ref): Tensor { if r.Some? && r.value < |p.mem| then p.mem[r.value] else Nothing }

  // Operands of an operation both engines treat alike.
  ghost predicate Allowed(p: Pass, op: Op, a: Ref, b: Ref, like: Shape) {
    && Good(p, a) && (Binary(op) ==> Good(p, b))
    && (Square(p, op, a, b) ==> ShapeAt(p.mem, a) == ShapeAt(p.mem, b))
    && (op == Div ==> !HasZero(p.mem[b.value]))
    && (op == Bcast ==> Compatible(ShapeAt(p.mem, a), like))
    && (op == AxisSum ==> Compatible(like, ShapeAt(p.mem, a)))
  }

  lemma UngatedGrow(mem: Memory, t: Tensor)
    ensures Ungated(mem + [t]) == Ungated(mem) + [t.(tracked := true)]
  {
  }

  lemma RegularNew(M: Memory, n: Node, a: Tensor, b: Tensor)
    requires n.op != Conv2D && n.op != SumAxis && n.op != MeanAxis && n.op != VarAxis && (Binary(n.op) ==> n.in1.Some?)
    requires OperandAt(M, n, 0) == a && OperandAt(M, n, 1) == b
    requires (n.op == Mult || n.op == Div) && |a.data| == |b.data| ==> a.shape == b.shape == OutShape(M, n)
    requires n.op == Div ==> !HasZero(b)
    ensures Regular(M, n)
  {
  }

  lemma {:induction false} NodesGrow(steps: seq<Step>, t: Step)
    ensures AllNodes(steps + [t]) == AllNodes(steps) + [t.node]
  {
  }

  lemma SecondUnused(op: Op, a: Value, b: Value, c: real, like: Shape)
    requires !Binary(op)
    ensures Apply(op, a, b, c, like) == Apply(op, a, Bad, c, like)
  {
    hide TScale, TRelu, TTranspose, TReshape, TBcast, TAxisSum;
  }

  lemma NewNodeReads(M: Memory, op: Op, a: Ref, b: Ref, c: real, out: Id)
    requires a.Some? && (Binary(op) ==> b.Some?) && a.value < |M| && (Binary(op) ==> b.value < |M|) && op != Conv2D
    ensures var n := NewNode(op, a, b, c, out);
      (forall x :: Reads(n, x) <==> x == a.value || (Binary(op) && x == b.value)) &&
      OperandAt(M, n, 0) == M[a.value] && OperandAt(M, n, 1) == if Binary(op) then M[b.value] else Nothing
  {
    var n := NewNode(op, a, b, c, out);
    assert InId(n, 0) == a.value;
    if Binary(op) { assert InId(n, 1) == b.value; }
  }

  // A node joins a sound log with its result.
  lemma SoundExtend(M: Memory, M': Memory, nodes: seq<Node>, n: Node)
    requires Sound(M, nodes) && M <= M' && |M'| == |M| + 1 && n.out == |M| && NodeSound(M', n)
    requires forall i :: 0 <= i < |nodes| && ScalarRoot(nodes[i]) ==> !Reads(n, nodes[i].out)
    ensures Sound(M', nodes + [n])
  {
    hide Reads;
    assert |M'[n.out].data| == Size(M'[n.out].shape);
    SoundGrow(M, M', nodes);
    forall i | 0 <= i < |nodes|
      ensures nodes[i].out < |M| && !Reads(nodes[i], n.out)
    {
      assert NodeSound(M, nodes[i]);
      ReadsOlder(M, nodes[i]);
      OlderReads(M, nodes[i], n.out);
    }
    SoundStep(M', nodes, n);
  }

  lemma OlderReads(M: Memory, n: Node, x: Id)
    requires NodeSound(M, n) && x >= |M|
    ensures !Reads(n, x)
  {
  }

  lemma PerformGood(p: Pass, op: Op, a: Ref, b: Ref, c: real, like: Shape)
    requires SoundPass(p) && a.Some? && Apply(op, ValueAt(p.mem, a), ValueAt(p.mem, b), c, like).Value?
    ensures var o := Perform(p, op, a, b, c, like); Onward(p, o.p) && Good(o.p, o.r)
  {
    hide Apply, Sound;
    ApplyPlain(op, ValueAt(p.mem, a), ValueAt(p.mem, b), c, like);
    NewNodeParts(op, a, b, c, |p.mem|);
    var o := Perform(p, op, a, b, c, like);
    forall i | 0 <= i < |p.steps|
      ensures p.steps[i].node.out < |p.mem| && o.p.steps[i] == p.steps[i]
    {
      SoundAt(Ungated(p.mem), AllNodes(p.steps), i);
    }
  }

  // Every such operation extends the log soundly.
  lemma PerformSure(p: Pass, k: nat, op: Op, a: Ref, b: Ref, c: real, like: Shape)
    requires Sure(p, k) && k <= |p.steps| && Allowed(p, op, a, b, like)
    requires Apply(op, ValueAt(p.mem, a), ValueAt(p.mem, b), c, like).Value?
    requires Square(p, op, a, b) ==> Apply(op, ValueAt(p.mem, a), ValueAt(p.mem, b), c, like).shape == ShapeAt(p.mem, a)
    ensures var o := Perform(p, op, a, b, c, like); Sure(o.p, k) && Onward(p, o.p) && Good(o.p, o.r)
  {
    hide Apply, NodeSound, Reads, Regular, NodeInMemory, Sound, Compatible, NewNode, Onward, Good, Usable;
    AllowedGood(p, op, a, b, like);
    var o := Perform(p, op, a, b, c, like);
    var M := Ungated(p.mem);
    var v := Apply(op, ValueAt(p.mem, a), ValueAt(p.mem, b), c, like);
    var n := NewNode(op, a, b, c, |p.mem|);
    UngatedGrow(p.mem, o.p.mem[|p.mem|]);
    var M' := M + [Tensor(v.shape, v.data, true)];
    assert Ungated(o.p.mem) == M';
    if !Binary(op) { SecondUnused(op, ValueAt(p.mem, a), ValueAt(p.mem, b), c, like); }
    FitsOf(M, p, op, a, b, like);
    NewNodeSound(M, op, a, b, c, like);
    ApplyPlain(op, ValueAt(p.mem, a), ValueAt(p.mem, b), c, like);
    NewNodeReads(M, op, a, b, c, |p.mem|);
    NewNodeReads(M', op, a, b, c, |p.mem|);
    NodesGrow(p.steps, o.p.steps[|p.steps|]);
    NewNodeParts(op, a, b, c, |p.mem|);
    SoundExtend(M, M', AllNodes(p.steps), n);
    RegularNew(M', n, M[a.value], if Binary(op) then M[b.value] else Nothing);
    PerformGood(p, op, a, b, c, like);
    forall i | k <= i < |o.p.steps|
      ensures Regular(M', o.p.steps[i].node)
    {
      if i < |p.steps| { SoundAt(M, AllNodes(p.steps), i); NodeKept(M, M', p.steps[i].node); }
    }
  }

  lemma SoundAt(M: Memory, nodes: seq<Node>, i: nat)
    requires Sound(M, nodes) && i < |nodes|
    ensures NodeInMemory(M, nodes[i]) && nodes[i].out < |M|
  {
    assert NodeSound(M, nodes[i]);
  }

  lemma ApplyPlain(op: Op, a: Value, b: Value, c: real, like: Shape)
    requires Apply(op, a, b, c, like).Value?
    ensures op != Conv2D && op != SumAxis && op != MeanAxis && op != VarAxis && op != SumAll && op != MeanAll
  {
  }

  lemma NewNodeParts(op: Op, a: Ref, b: Ref, c: real, out: Id)
    requires a.Some?
    ensures var n := NewNode(op, a, b, c, out); n.op == op && n.out == out && (Binary(op) ==> n.in1 == b)
  {
  }

  lemma AllowedGood(p: Pass, op: Op, a: Ref, b: Ref, like: Shape)
    requires Allowed(p, op, a, b, like)
    ensures a.Some? && (Binary(op) ==> b.Some?)
    ensures forall i :: 0 <= i < |p.steps| && ScalarRoot(p.steps[i].node) ==>
      p.steps[i].node.out != a.value && (Binary(op) ==> p.steps[i].node.out != b.value)
  {
  }

  lemma FitsOf(M: Memory, p: Pass, op: Op, a: Ref, b: Ref, like: Shape)
    requires SoundPass(p) && M == Ungated(p.mem) && Allowed(p, op, a, b, like)
    ensures a.value < |M| && (Binary(op) ==> b.value < |M|)
    ensures Fits(op, M[a.value], if Binary(op) then M[b.value] else Nothing, like)
    ensures ValueAt(M, a) == ValueAt(p.mem, a) && (Binary(op) ==> ValueAt(M, b) == ValueAt(p.mem, b))
    ensures (op == Mult || op == Div) && |M[a.value].data| == |M[b.value].data| ==>
      Square(p, op, a, b) && M[a.value].shape == M[b.value].shape == ShapeAt(p.mem, a)
    ensures op == Div ==> !HasZero(M[b.value])
  {
    hide NodeSound, Reads;
  }

  // ── Operation by operation ──

  lemma GoodSized(p: Pass, r: Ref)
    requires SoundPass(p) && Good(p, r)
    ensures var t := p.mem[r.value];
      |t.data| == Size(t.shape) && ValueAt(p.mem, r) == Value(t.shape, t.data) && ShapeAt(p.mem, r) == t.shape
  {
    hide NodeSound, Reads;
    assert Ungated(p.mem)[r.value].data == p.mem[r.value].data;
  }

  lemma TimesNonzero(a: seq<real>, b: seq<real>)
    requires |a| == |b| && (forall i :: 0 <= i < |a| ==> a[i] != 0.0) && (forall i :: 0 <= i < |b| ==> b[i] != 0.0)
    ensures forall i :: 0 <= i < |a| ==> Times(a, b)[i] != 0.0
  {
  }

  lemma SameSure(p: Pass, k: nat, op: Op, a: Ref, b: Ref)
    requires Sure(p, k) && k <= |p.steps| && Good(p, a) && Good(p, b) && ShapeAt(p.mem, a) == ShapeAt(p.mem, b)
    requires op == Add || op == Mult || (op == Div && !HasZero(p.mem[b.value]))
    ensures var o := Perform(p, op, a, b, 0.0, []);
      Sure(o.p, k) && Onward(p, o.p) && Good(o.p, o.r) && ShapeAt(o.p.mem, o.r) == ShapeAt(p.mem, a) &&
      (op == Mult && !HasZero(p.mem[a.value]) && !HasZero(p.mem[b.value]) ==> !HasZero(o.p.mem[o.r.value]))
  {
    hide Sound, Regular, Elementwise, Onward;
    GoodSized(p, a);
    GoodSized(p, b);
    var s, x, y := ShapeAt(p.mem, a), p.mem[a.value].data, p.mem[b.value].data;
    AddSame(s, x, y);
    MulSame(s, x, y);
    DivSame(s, x, y);
    PerformSure(p, k, op, a, b, 0.0, []);
    PerformValue(p, op, a, b, 0.0, []);
    if op == Mult && !HasZero(p.mem[a.value]) && !HasZero(p.mem[b.value]) { TimesNonzero(x, y); }
  }

  lemma SpreadNonzero(s: Shape, x: Tensor)
    requires Compatible(x.shape, s) && |x.data| == Size(x.shape) && !HasZero(x)
    ensures forall o :: 0 <= o < Size(s) ==> Spread(s, x)[o] != 0.0
  {
    forall o | 0 <= o < Size(s)
      ensures Spread(s, x)[o] != 0.0
    {
      BcBound(x.shape, s, o);
      assert Spread(s, x)[o] == At(x.data, Bc(x.shape, s, o));
    }
  }

  lemma BcastSure(p: Pass, k: nat, a: Ref, like: Shape)
    requires Sure(p, k) && k <= |p.steps| && Good(p, a) && Compatible(ShapeAt(p.mem, a), like)
    ensures var o := Perform(p, Bcast, a, None, 0.0, like);
      Sure(o.p, k) && Onward(p, o.p) && Good(o.p, o.r) && ShapeAt(o.p.mem, o.r) == like &&
      (!HasZero(p.mem[a.value]) ==> !HasZero(o.p.mem[o.r.value]))
  {
    hide Sound, Regular, Onward, Spread, Compatible;
    GoodSized(p, a);
    PerformSure(p, k, Bcast, a, None, 0.0, like);
    PerformValue(p, Bcast, a, None, 0.0, like);
    var x := p.mem[a.value].(tracked := true);
    if !HasZero(p.mem[a.value]) { SpreadNonzero(like, x); }
  }

  lemma UnarySure(p: Pass, k: nat, op: Op, a: Ref, c: real, like: Shape)
    requires Sure(p, k) && k <= |p.steps| && Good(p, a)
    requires match op
      case Scale => true
      case AxisSum => Compatible(like, ShapeAt(p.mem, a))
      case Reshape => Size(like) == Size(ShapeAt(p.mem, a))
      case Transpose => |ShapeAt(p.mem, a)| == 2
      case _ => false
    ensures var o := Perform(p, op, a, None, c, like);
      Sure(o.p, k) && Onward(p, o.p) && Good(o.p, o.r) &&
      ShapeAt(o.p.mem, o.r) ==
        match op case Scale => ShapeAt(p.mem, a) case Transpose => [ShapeAt(p.mem, a)[1], ShapeAt(p.mem, a)[0]]
          case _ => like
  {
    hide Sound, Regular, Onward, Compatible, ReduceTo, ScaleBy;
    GoodSized(p, a);
    PerformSure(p, k, op, a, None, c, like);
    PerformValue(p, op, a, None, c, like);
  }

  lemma MatMulSure(p: Pass, k: nat, a: Ref, b: Ref)
    requires Sure(p, k) && k <= |p.steps| && Good(p, a) && Good(p, b)
    requires |ShapeAt(p.mem, a)| == 2 == |ShapeAt(p.mem, b)| && ShapeAt(p.mem, a)[1] == ShapeAt(p.mem, b)[0]
    ensures var o := Perform(p, MatMul, a, b, 0.0, []);
      Sure(o.p, k) && Onward(p, o.p) && Good(o.p, o.r)
        && ShapeAt(o.p.mem, o.r) == [ShapeAt(p.mem, a)[0], ShapeAt(p.mem, b)[1]]
  {
    hide Sound, Regular, Onward;
    GoodSized(p, a);
    GoodSized(p, b);
    PerformSure(p, k, MatMul, a, b, 0.0, []);
    PerformValue(p, MatMul, a, b, 0.0, []);
  }

  lemma CreateSure(p: Pass, k: nat, shape: Shape, data: seq<real>)
    requires Sure(p, k) && k <= |p.steps| && |data| == Size(shape)
    ensures var o := Create(p, shape, data);
      Sure(o.p, k) && Onward(p, o.p) && Good(o.p, o.r) && ShapeAt(o.p.mem, o.r) == shape
  {
    hide Sound, Regular;
    var o := Create(p, shape, data);
    var M, M' := Ungated(p.mem), Ungated(o.p.mem);
    UngatedGrow(p.mem, o.p.mem[|p.mem|]);
    SoundGrow(M, M', AllNodes(p.steps));
    forall i | 0 <= i < |p.steps|
      ensures p.steps[i].node.out < |p.mem| && (i >= k ==> Regular(M', p.steps[i].node))
    {
      SoundAt(M, AllNodes(p.steps), i);
      NodeKept(M, M', p.steps[i].node);
    }
  }

  // ── Accumulation ──

  ghost predicate GradsOk(p: Pass) {
    forall x :: x in p.grads ==> x < |p.mem| && Good(p, Some(p.grads[x])) && p.mem[p.grads[x]].shape == p.mem[x].shape
  }

  ghost predicate Ready(p: Pass, k: nat) { Sure(p, k) && k <= |p.steps| && GradsOk(p) }

  lemma UngatedTrack(mem: Memory, x: Id)
    ensures Ungated(Track(mem, x)) == Ungated(mem)
  {
  }

  lemma GradsKept(p: Pass, q: Pass)
    requires GradsOk(p) && Onward(p, q) && q.grads == p.grads
    ensures GradsOk(q)
  {
  }

  lemma EnteredReady(p: Pass, k: nat, x: Id)
    requires Ready(p, k) && x < |p.mem|
    ensures var t := Entered(p, x); Ready(t, k) && Onward(p, t) && t.grads.Keys == p.grads.Keys + {x}
  {
    hide Sure, Create, Usable;
    var s := ShapeAt(p.mem, Some(x));
    CreateSure(p, k, s, Zeros(Size(s)));
    var z := Create(p, s, Zeros(Size(s)));
    CreateKeeps(p, s, Zeros(Size(s)));
    var q := if x in p.grads then p else z.p;
    var t := Entered(p, x);
    UngatedTrack(q.mem, t.grads[x]);
    SureTracked(q, t, k);
    UsableTracked(q, t);
    TrackKept(q.mem, t.grads[x]);
    KeptTwice(p.mem, q.mem, t.mem);
    forall y | y in t.grads
      ensures y < |t.mem| && Good(t, Some(t.grads[y])) && t.mem[t.grads[y]].shape == t.mem[y].shape
    {
      if y in p.grads {
        Carried(p, q, Some(p.grads[y]));
      }
    }
  }

  lemma CreateKeeps(p: Pass, s: Shape, data: seq<real>)
    ensures var z := Create(p, s, data);
      z.p.steps == p.steps && z.p.grads == p.grads && z.r == Some(|p.mem|) && |z.p.mem| == |p.mem| + 1
  {
  }

  lemma TrackKept(mem: Memory, x: Id)
    ensures Kept(mem, Track(mem, x)) && |Track(mem, x)| == |mem|
    ensures forall y :: 0 <= y < |mem| && mem[y].tracked ==> Track(mem, x)[y].tracked
  {
  }

  lemma UsableTracked(q: Pass, t: Pass)
    requires |t.mem| == |q.mem| && t.steps == q.steps
    ensures forall x: Id :: (Usable(q, x) <==> Usable(t, x)) && (Usable(q, x) ==> x < |q.mem|)
  {
  }

  lemma SureTracked(q: Pass, t: Pass, k: nat)
    requires Sure(q, k) && Ungated(t.mem) == Ungated(q.mem) && t.steps == q.steps
    ensures Sure(t, k)
  {
  }

  lemma AddToReady(p: Pass, k: nat, x: Id, c: Ref)
    requires Ready(p, k) && x < |p.mem| && Good(p, c) && ShapeAt(p.mem, c) == p.mem[x].shape
    ensures var q := AddTo(p, Some(x), c); Ready(q, k) && Onward(p, q) && q.grads.Keys == p.grads.Keys + {x}
  {
    hide Sure, AddTo, Entered, Perform, Usable, ValueAt, Apply;
    EnteredReady(p, k, x);
    AddToEntered(p, x, c.value);
    var t := Entered(p, x);
    Carried(p, t, c);
    var was := Some(t.grads[x]);
    assert ShapeAt(t.mem, was) == p.mem[x].shape by { assert x in t.grads; GradShape(t, x); KeptShape(p, t, x); }
    SameSure(t, k, Add, was, c);
    PerformValue(t, Add, was, c, 0.0, []);
    var o := Perform(t, Add, was, c, 0.0, []);
    GradsKept(t, o.p);
    OnwardTwice(p, t, o.p);
    KeptShape(t, o.p, x);
    GradEntered(o.p, x, o.r.value);
    SureGrads(o.p, k, t.grads[x := o.r.value]);
    KeysAgain(t.grads, p.grads.Keys, x, o.r.value);
  }

  lemma KeysAgain(m: map<Id, Id>, a: set<Id>, x: Id, y: Id)
    requires m.Keys == a + {x}
    ensures m[x := y].Keys == a + {x}
  {
  }

  lemma GradShape(p: Pass, x: Id)
    requires GradsOk(p) && x in p.grads
    ensures x < |p.mem| && Good(p, Some(p.grads[x])) && p.grads[x] < |p.mem|
    ensures ShapeAt(p.mem, Some(p.grads[x])) == p.mem[x].shape
  {
  }

  lemma KeptShape(p: Pass, q: Pass, x: Id)
    requires Onward(p, q) && x < |p.mem|
    ensures x < |q.mem| && q.mem[x].shape == p.mem[x].shape && q.mem[x].data == p.mem[x].data
  {
  }

  lemma GradEntered(p: Pass, x: Id, y: Id)
    requires GradsOk(p) && x < |p.mem| && Good(p, Some(y)) && ShapeAt(p.mem, Some(y)) == p.mem[x].shape
    ensures GradsOk(p.(grads := p.grads[x := y]))
  {
  }

  lemma SureGrads(p: Pass, k: nat, grads: map<Id, Id>)
    requires Sure(p, k)
    ensures var q := p.(grads := grads); Sure(q, k) && forall x :: Usable(p, x) <==> Usable(q, x)
  {
    SureTracked(p, p.(grads := grads), k);
  }

  // ── The rules ──

  // Where an operation's result is delivered.
  lemma SentReady(p: Pass, k: nat, o: Out, x: Id)
    requires Ready(p, k) && Sure(o.p, k) && Onward(p, o.p) && Good(o.p, o.r) && o.p.grads == p.grads
    requires x < |p.mem| && ShapeAt(o.p.mem, o.r) == p.mem[x].shape
    ensures var q := Sent(o, Some(x)); Ready(q, k) && Onward(p, q) && q.grads.Keys == p.grads.Keys + {x}
  {
    hide Sure, AddTo, Usable;
    GradsKept(p, o.p);
    KeptShape(p, o.p, x);
    AddToReady(o.p, k, x, o.r);
    OnwardTwice(p, o.p, Sent(o, Some(x)));
  }

  lemma AxisSumSent(p: Pass, k: nat, a: Ref, x: Id)
    requires Ready(p, k) && Good(p, a) && x < |p.mem| && Compatible(p.mem[x].shape, ShapeAt(p.mem, a))
    ensures var q := Sent(Perform(p, AxisSum, a, None, 0.0, p.mem[x].shape), Some(x));
      Ready(q, k) && Onward(p, q) && q.grads.Keys == p.grads.Keys + {x}
  {
    hide Sure, AddTo, Usable, Perform, Sent, Compatible;
    UnarySure(p, k, AxisSum, a, 0.0, p.mem[x].shape);
    PerformValue(p, AxisSum, a, None, 0.0, p.mem[x].shape);
    SentReady(p, k, Perform(p, AxisSum, a, None, 0.0, p.mem[x].shape), x);
  }

  lemma AddReady(p: Pass, k: nat, d: Ref, x0: Id, x1: Id)
    requires Ready(p, k) && Good(p, d) && x0 < |p.mem| && x1 < |p.mem|
    requires Compatible(p.mem[x0].shape, ShapeAt(p.mem, d)) && Compatible(p.mem[x1].shape, ShapeAt(p.mem, d))
    ensures var q := RunAdd(p, d, Some(x0), Some(x1));
      Ready(q, k) && Onward(p, q) && q.grads.Keys == p.grads.Keys + {x0, x1}
  {
    hide Ready, Good, Onward, Perform, Sent, Compatible;
    AxisSumSent(p, k, d, x0);
    var q := Sent(Perform(p, AxisSum, d, None, 0.0, p.mem[x0].shape), Some(x0));
    Carried(p, q, d);
    KeptShape(p, q, x1);
    AxisSumSent(q, k, d, x1);
    OnwardTwice(p, q, RunAdd(p, d, Some(x0), Some(x1)));
  }

  lemma StillReady(p: Pass, k: nat, op: Op, a: Ref, b: Ref, c: real, like: Shape)
    requires Ready(p, k)
    requires var o := Perform(p, op, a, b, c, like); Sure(o.p, k) && Onward(p, o.p)
    ensures var o := Perform(p, op, a, b, c, like); Ready(o.p, k) && o.p.grads == p.grads
  {
    hide Sure, Usable, Perform;
    PerformValue(p, op, a, b, c, like);
    GradsKept(p, Perform(p, op, a, b, c, like).p);
  }

  lemma ReadyParts(p: Pass, k: nat)
    requires Ready(p, k)
    ensures Sure(p, k) && k <= |p.steps| && SoundPass(p)
  {
  }

  lemma SameReady(p: Pass, k: nat, op: Op, a: Ref, b: Ref)
    requires Ready(p, k) && Good(p, a) && Good(p, b) && ShapeAt(p.mem, a) == ShapeAt(p.mem, b)
    requires op == Mult || (op == Div && !ZeroAt(p, b))
    ensures var o := Perform(p, op, a, b, 0.0, []);
      Ready(o.p, k) && Onward(p, o.p) && Good(o.p, o.r) && ShapeAt(o.p.mem, o.r) == ShapeAt(p.mem, a)
        && o.p.grads == p.grads &&
      (op == Mult && !ZeroAt(p, a) && !ZeroAt(p, b) ==> !ZeroAt(o.p, o.r))
  {
    hide Ready, Onward, Perform, Sure, HasZero;
    ReadyParts(p, k);
    SameSure(p, k, op, a, b);
    StillReady(p, k, op, a, b, 0.0, []);
  }

  lemma BcastReady(p: Pass, k: nat, a: Ref, like: Shape)
    requires Ready(p, k) && Good(p, a) && Compatible(ShapeAt(p.mem, a), like)
    ensures var o := Perform(p, Bcast, a, None, 0.0, like);
      Ready(o.p, k) && Onward(p, o.p) && Good(o.p, o.r) && ShapeAt(o.p.mem, o.r) == like && o.p.grads == p.grads &&
      (!ZeroAt(p, a) ==> !ZeroAt(o.p, o.r))
  {
    hide Ready, Onward, Perform, Sure, HasZero, Compatible;
    ReadyParts(p, k);
    BcastSure(p, k, a, like);
    StillReady(p, k, Bcast, a, None, 0.0, like);
  }

  lemma UnaryReady(p: Pass, k: nat, op: Op, a: Ref, c: real, like: Shape)
    requires Ready(p, k) && Good(p, a)
    requires match op
      case Scale => true
      case AxisSum => Compatible(like, ShapeAt(p.mem, a))
      case Reshape => Size(like) == Size(ShapeAt(p.mem, a))
      case Transpose => |ShapeAt(p.mem, a)| == 2
      case _ => false
    ensures var o := Perform(p, op, a, None, c, like);
      Ready(o.p, k) && Onward(p, o.p) && Good(o.p, o.r) && o.p.grads == p.grads &&
      ShapeAt(o.p.mem, o.r) ==
        match op case Scale => ShapeAt(p.mem, a) case Transpose => [ShapeAt(p.mem, a)[1], ShapeAt(p.mem, a)[0]]
          case _ => like
  {
    hide Ready, Onward, Usable, Perform, Sure, Compatible;
    ReadyParts(p, k);
    UnarySure(p, k, op, a, c, like);
    StillReady(p, k, op, a, None, c, like);
  }

  lemma MatMulReady(p: Pass, k: nat, a: Ref, b: Ref)
    requires Ready(p, k) && Good(p, a) && Good(p, b)
    requires |ShapeAt(p.mem, a)| == 2 == |ShapeAt(p.mem, b)| && ShapeAt(p.mem, a)[1] == ShapeAt(p.mem, b)[0]
    ensures var o := Perform(p, MatMul, a, b, 0.0, []);
      Ready(o.p, k) && Onward(p, o.p) && Good(o.p, o.r) && o.p.grads == p.grads &&
      ShapeAt(o.p.mem, o.r) == [ShapeAt(p.mem, a)[0], ShapeAt(p.mem, b)[1]]
  {
    hide Ready, Onward, Usable, Perform, Sure;
    ReadyParts(p, k);
    MatMulSure(p, k, a, b);
    StillReady(p, k, MatMul, a, b, 0.0, []);
  }

  lemma DeliveredReady(p: Pass, k: nat, o: Out, x: Id)
    requires Ready(o.p, k) && Good(o.p, o.r) && Onward(p, o.p) && o.p.grads == p.grads
    requires x < |p.mem| && ShapeAt(o.p.mem, o.r) == p.mem[x].shape
    ensures var q := Sent(o, Some(x));
      Ready(q, k) && Onward(p, q) && Onward(o.p, q) && q.grads.Keys == p.grads.Keys + {x}
  {
    hide Ready, Onward, AddTo, Usable;
    KeptShape(p, o.p, x);
    AddToReady(o.p, k, x, o.r);
    OnwardTwice(p, o.p, Sent(o, Some(x)));
  }

  lemma SubReady(p: Pass, k: nat, d: Ref, x0: Id, x1: Id)
    requires Ready(p, k) && Good(p, d) && x0 < |p.mem| && x1 < |p.mem|
    requires Compatible(p.mem[x0].shape, ShapeAt(p.mem, d)) && Compatible(p.mem[x1].shape, ShapeAt(p.mem, d))
    ensures var q := RunSub(p, d, Some(x0), Some(x1));
      Ready(q, k) && Onward(p, q) && q.grads.Keys == p.grads.Keys + {x0, x1}
  {
    OperandShape(p, x0);
    OperandShape(p, x1);
    hide Ready, Good, Onward, Perform, Sent, Compatible, ZeroAt, ShapeAt, ValueAt;
    UnaryReady(p, k, Scale, d, -1.0, []);
    var neg := Perform(p, Scale, d, None, -1.0, []);
    Carried(p, neg.p, d);
    TwoSent(neg.p, k, d, neg.r, x0, x1, p);
    OnwardTwice(p, neg.p, RunSub(p, d, Some(x0), Some(x1)));
  }

  lemma OperandShape(p: Pass, x: Id)
    requires x < |p.mem|
    ensures ShapeAt(p.mem, Some(x)) == p.mem[x].shape
  {
  }

  // Two results summed down onto the two operands.
  lemma TwoSent(p: Pass, k: nat, a: Ref, b: Ref, x0: Id, x1: Id, was: Pass)
    requires Ready(p, k) && Good(p, a) && Good(p, b) && Onward(was, p) && x0 < |was.mem| && x1 < |was.mem|
    requires p.grads == was.grads
    requires Compatible(was.mem[x0].shape, ShapeAt(p.mem, a)) && Compatible(was.mem[x1].shape, ShapeAt(p.mem, b))
    ensures var q := Sent(Perform(p, AxisSum, a, None, 0.0, was.mem[x0].shape), Some(x0));
      Ready(q, k) && Onward(p, q) && Good(q, b) && ShapeAt(q.mem, b) == ShapeAt(p.mem, b)
        && q.grads.Keys == was.grads.Keys + {x0} &&
      var r := Sent(Perform(q, AxisSum, b, None, 0.0, was.mem[x1].shape), Some(x1));
      Ready(r, k) && Onward(p, r) && r.grads.Keys == was.grads.Keys + {x0, x1}
  {
    hide Ready, Good, Onward, Perform, Sent, Compatible, ZeroAt, ShapeAt, ValueAt;
    KeptShape(was, p, x0);
    KeptShape(was, p, x1);
    AxisSumSent(p, k, a, x0);
    var q := Sent(Perform(p, AxisSum, a, None, 0.0, p.mem[x0].shape), Some(x0));
    Carried(p, q, b);
    KeptShape(p, q, x1);
    AxisSumSent(q, k, b, x1);
    OnwardTwice(p, q, Sent(Perform(q, AxisSum, b, None, 0.0, q.mem[x1].shape), Some(x1)));
  }

  lemma KeysTwo(a: set<Id>, x: Id, y: Id)
    ensures a + {x} + {y} == a + {x, y}
  {
  }

  // A product or quotient of equal shapes, delivered.
  lemma SameSent(p: Pass, k: nat, op: Op, a: Ref, b: Ref, x: Id)
    requires Ready(p, k) && Good(p, a) && Good(p, b) && ShapeAt(p.mem, a) == ShapeAt(p.mem, b)
    requires op == Mult || (op == Div && !ZeroAt(p, b))
    requires x < |p.mem| && ShapeAt(p.mem, a) == p.mem[x].shape
    ensures var q := Sent(Perform(p, op, a, b, 0.0, []), Some(x));
      Ready(q, k) && Onward(p, q) && q.grads.Keys == p.grads.Keys + {x}
  {
    hide Ready, Good, Onward, Perform, Sent, Compatible, ZeroAt, ShapeAt, ValueAt;
    SameReady(p, k, op, a, b);
    DeliveredReady(p, k, Perform(p, op, a, b, 0.0, []), x);
  }

  lemma MulReady(p: Pass, k: nat, d: Ref, x0: Id, x1: Id)
    requires Ready(p, k) && Good(p, d) && Good(p, Some(x0)) && Good(p, Some(x1)) && x0 < |p.mem| && x1 < |p.mem|
    requires p.mem[x0].shape == p.mem[x1].shape == ShapeAt(p.mem, d)
    ensures var q := RunMul(p, d, Some(x0), Some(x1));
      Ready(q, k) && Onward(p, q) && q.grads.Keys == p.grads.Keys + {x0, x1}
  {
    OperandShape(p, x0);
    OperandShape(p, x1);
    hide Ready, Good, Onward, Perform, Sent, Compatible, ZeroAt, ShapeAt, ValueAt;
    SameSent(p, k, Mult, d, Some(x1), x0);
    var q := Sent(Perform(p, Mult, d, Some(x1), 0.0, []), Some(x0));
    Carried(p, q, d);
    Carried(p, q, Some(x0));
    KeptShape(p, q, x1);
    SameSent(q, k, Mult, d, Some(x0), x1);
    KeysTwo(p.grads.Keys, x0, x1);
    OnwardTwice(p, q, RunMul(p, d, Some(x0), Some(x1)));
  }

  lemma SpreadReady(p: Pass, k: nat, d: Ref, x0: Id, x1: Id)
    requires Ready(p, k) && Good(p, d) && Good(p, Some(x0)) && Good(p, Some(x1)) && x0 < |p.mem| && x1 < |p.mem|
    requires Compatible(p.mem[x0].shape, ShapeAt(p.mem, d)) && Compatible(p.mem[x1].shape, ShapeAt(p.mem, d))
    ensures var os := ShapeAt(p.mem, d);
      var bb := Perform(p, Bcast, Some(x1), None, 0.0, os);
      var ba := Perform(bb.p, Bcast, Some(x0), None, 0.0, os);
      Ready(ba.p, k) && Onward(p, ba.p) && Good(ba.p, bb.r) && Good(ba.p, ba.r) && Good(ba.p, d)
        && ba.p.grads == p.grads &&
      ShapeAt(ba.p.mem, bb.r) == ShapeAt(ba.p.mem, ba.r) == ShapeAt(ba.p.mem, d) == os &&
      (!ZeroAt(p, Some(x1)) ==> !ZeroAt(ba.p, bb.r))
  {
    OperandShape(p, x0);
    OperandShape(p, x1);
    hide Ready, Good, Onward, Perform, Sent, Compatible, ZeroAt, ShapeAt, ValueAt;
    var os := ShapeAt(p.mem, d);
    BcastReady(p, k, Some(x1), os);
    var bb := Perform(p, Bcast, Some(x1), None, 0.0, os);
    Carried(p, bb.p, Some(x0));
    BcastReady(bb.p, k, Some(x0), os);
    var ba := Perform(bb.p, Bcast, Some(x0), None, 0.0, os);
    OnwardTwice(p, bb.p, ba.p);
    Carried(p, ba.p, d);
    Carried(bb.p, ba.p, bb.r);
  }

  lemma MulSpreadReady(p: Pass, k: nat, d: Ref, x0: Id, x1: Id)
    requires Ready(p, k) && Good(p, d) && Good(p, Some(x0)) && Good(p, Some(x1)) && x0 < |p.mem| && x1 < |p.mem|
    requires Compatible(p.mem[x0].shape, ShapeAt(p.mem, d)) && Compatible(p.mem[x1].shape, ShapeAt(p.mem, d))
    ensures var q := RunMulSpread(p, d, Some(x0), Some(x1));
      Ready(q, k) && Onward(p, q) && q.grads.Keys == p.grads.Keys + {x0, x1}
  {
    OperandShape(p, x0);
    OperandShape(p, x1);
    hide Ready, Good, Onward, Perform, Sent, Compatible, ZeroAt, ShapeAt, ValueAt;
    SpreadReady(p, k, d, x0, x1);
    var os := ShapeAt(p.mem, d);
    var bb := Perform(p, Bcast, Some(x1), None, 0.0, os);
    var ba := Perform(bb.p, Bcast, Some(x0), None, 0.0, os);
    SameReady(ba.p, k, Mult, d, bb.r);
    var da := Perform(ba.p, Mult, d, bb.r, 0.0, []);
    Carried(ba.p, da.p, d);
    Carried(ba.p, da.p, ba.r);
    SameReady(da.p, k, Mult, d, ba.r);
    var db := Perform(da.p, Mult, d, ba.r, 0.0, []);
    Carried(da.p, db.p, da.r);
    OnwardTwice(p, ba.p, da.p);
    OnwardTwice(p, da.p, db.p);
    TwoSent(db.p, k, da.r, db.r, x0, x1, p);
    OnwardTwice(p, db.p, RunMulSpread(p, d, Some(x0), Some(x1)));
  }

  // -(d a) / (b b), delivered to b.
  lemma DivSecondReady(p: Pass, k: nat, d: Ref, x0: Ref, x1: Id)
    requires Ready(p, k) && Good(p, d) && Good(p, x0) && Good(p, Some(x1)) && x1 < |p.mem|
    requires ShapeAt(p.mem, x0) == p.mem[x1].shape == ShapeAt(p.mem, d) && !ZeroAt(p, Some(x1))
    ensures var t1 := Perform(p, Mult, d, x0, 0.0, []);
      var t2 := Perform(t1.p, Mult, Some(x1), Some(x1), 0.0, []);
      var t3 := Perform(t2.p, Div, t1.r, t2.r, 0.0, []);
      var q := Sent(Perform(t3.p, Scale, t3.r, None, -1.0, []), Some(x1));
      Ready(q, k) && Onward(p, q) && q.grads.Keys == p.grads.Keys + {x1}
  {
    OperandShape(p, x1);
    hide Ready, Good, Onward, Perform, Sent, Compatible, ZeroAt, ShapeAt, ValueAt;
    SameReady(p, k, Mult, d, x0);
    var t1 := Perform(p, Mult, d, x0, 0.0, []);
    Carried(p, t1.p, Some(x1));
    SameReady(t1.p, k, Mult, Some(x1), Some(x1));
    var t2 := Perform(t1.p, Mult, Some(x1), Some(x1), 0.0, []);
    Carried(t1.p, t2.p, t1.r);
    SameReady(t2.p, k, Div, t1.r, t2.r);
    var t3 := Perform(t2.p, Div, t1.r, t2.r, 0.0, []);
    UnaryReady(t3.p, k, Scale, t3.r, -1.0, []);
    var neg := Perform(t3.p, Scale, t3.r, None, -1.0, []);
    OnwardTwice(p, t1.p, t2.p);
    OnwardTwice(p, t2.p, t3.p);
    OnwardTwice(p, t3.p, neg.p);
    DeliveredReady(p, k, neg, x1);
  }

  lemma DivReady(p: Pass, k: nat, d: Ref, x0: Id, x1: Id)
    requires Ready(p, k) && Good(p, d) && Good(p, Some(x0)) && Good(p, Some(x1)) && x0 < |p.mem| && x1 < |p.mem|
    requires p.mem[x0].shape == p.mem[x1].shape == ShapeAt(p.mem, d) && !ZeroAt(p, Some(x1))
    ensures var q := RunDiv(p, d, Some(x0), Some(x1));
      Ready(q, k) && Onward(p, q) && q.grads.Keys == p.grads.Keys + {x0, x1}
  {
    OperandShape(p, x0);
    OperandShape(p, x1);
    hide Ready, Good, Onward, Perform, Sent, Compatible, ZeroAt, ShapeAt, ValueAt;
    SameSent(p, k, Div, d, Some(x1), x0);
    var q := Sent(Perform(p, Div, d, Some(x1), 0.0, []), Some(x0));
    Carried(p, q, d);
    Carried(p, q, Some(x0));
    Carried(p, q, Some(x1));
    KeptShape(p, q, x1);
    DivSecondReady(q, k, d, Some(x0), x1);
    KeysTwo(p.grads.Keys, x0, x1);
    OnwardTwice(p, q, RunDiv(p, d, Some(x0), Some(x1)));
  }

  lemma DivSpreadReady(p: Pass, k: nat, d: Ref, x0: Id, x1: Id)
    requires Ready(p, k) && Good(p, d) && Good(p, Some(x0)) && Good(p, Some(x1)) && x0 < |p.mem| && x1 < |p.mem|
    requires Compatible(p.mem[x0].shape, ShapeAt(p.mem, d)) && Compatible(p.mem[x1].shape, ShapeAt(p.mem, d))
    requires !ZeroAt(p, Some(x1))
    ensures var q := RunDivSpread(p, d, Some(x0), Some(x1));
      Ready(q, k) && Onward(p, q) && q.grads.Keys == p.grads.Keys + {x0, x1}
  {
    OperandShape(p, x0);
    OperandShape(p, x1);
    hide Ready, Good, Onward, Perform, Sent, Compatible, ZeroAt, ShapeAt, ValueAt;
    SpreadReady(p, k, d, x0, x1);
    var os := ShapeAt(p.mem, d);
    var bb := Perform(p, Bcast, Some(x1), None, 0.0, os);
    var ba := Perform(bb.p, Bcast, Some(x0), None, 0.0, os);
    SameReady(ba.p, k, Div, d, bb.r);
    var da := Perform(ba.p, Div, d, bb.r, 0.0, []);
    Carried(ba.p, da.p, d);
    Carried(ba.p, da.p, ba.r);
    Carried(ba.p, da.p, bb.r);
    SameReady(da.p, k, Mult, d, ba.r);
    var num := Perform(da.p, Mult, d, ba.r, 0.0, []);
    Carried(da.p, num.p, bb.r);
    SameReady(num.p, k, Mult, bb.r, bb.r);
    var bb2 := Perform(num.p, Mult, bb.r, bb.r, 0.0, []);
    Carried(num.p, bb2.p, num.r);
    SameReady(bb2.p, k, Div, num.r, bb2.r);
    var db := Perform(bb2.p, Div, num.r, bb2.r, 0.0, []);
    OnwardTwice(da.p, num.p, bb2.p);
    OnwardTwice(da.p, bb2.p, db.p);
    Carried(da.p, db.p, da.r);
    OnwardTwice(p, ba.p, da.p);
    OnwardTwice(p, da.p, db.p);
    TwoSentNegated(db.p, k, da.r, db.r, x0, x1, p);
    OnwardTwice(p, db.p, RunDivSpread(p, d, Some(x0), Some(x1)));
  }

  lemma TwoSentNegated(p: Pass, k: nat, a: Ref, b: Ref, x0: Id, x1: Id, was: Pass)
    requires Ready(p, k) && Good(p, a) && Good(p, b) && Onward(was, p) && x0 < |was.mem| && x1 < |was.mem|
    requires p.grads == was.grads
    requires Compatible(was.mem[x0].shape, ShapeAt(p.mem, a)) && Compatible(was.mem[x1].shape, ShapeAt(p.mem, b))
    ensures var q := Sent(Perform(p, AxisSum, a, None, 0.0, was.mem[x0].shape), Some(x0));
      var neg := Perform(q, Scale, b, None, -1.0, []);
      var r := Sent(Perform(neg.p, AxisSum, neg.r, None, 0.0, was.mem[x1].shape), Some(x1));
      Ready(r, k) && Onward(p, r) && r.grads.Keys == was.grads.Keys + {x0, x1}
  {
    hide Ready, Good, Onward, Perform, Sent, Compatible, ZeroAt, ShapeAt, ValueAt;
    TwoSent(p, k, a, b, x0, x1, was);
    var q := Sent(Perform(p, AxisSum, a, None, 0.0, was.mem[x0].shape), Some(x0));
    UnaryReady(q, k, Scale, b, -1.0, []);
    var neg := Perform(q, Scale, b, None, -1.0, []);
    OnwardTwice(p, q, neg.p);
    KeptShape(was, p, x1);
    KeptShape(p, neg.p, x1);
    AxisSumSent(neg.p, k, neg.r, x1);
    OnwardTwice(p, neg.p, Sent(Perform(neg.p, AxisSum, neg.r, None, 0.0, was.mem[x1].shape), Some(x1)));
  }

  // Both products of a product of matrices.
  lemma ProductsReady(p: Pass, k: nat, d: Ref, x0: Ref, x1: Ref)
    requires Ready(p, k) && Good(p, d) && Good(p, x0) && Good(p, x1)
    requires |ShapeAt(p.mem, x0)| == 2 == |ShapeAt(p.mem, x1)| && ShapeAt(p.mem, x1)[0] == ShapeAt(p.mem, x0)[1]
    requires ShapeAt(p.mem, d) == [ShapeAt(p.mem, x0)[0], ShapeAt(p.mem, x1)[1]]
    ensures var tb := Perform(p, Transpose, x1, None, 0.0, []);
      var ta := Perform(tb.p, Transpose, x0, None, 0.0, []);
      var da := Perform(ta.p, MatMul, d, tb.r, 0.0, []);
      var db := Perform(da.p, MatMul, ta.r, d, 0.0, []);
      Ready(db.p, k) && Onward(p, db.p) && Good(db.p, da.r) && Good(db.p, db.r) && db.p.grads == p.grads &&
      ShapeAt(db.p.mem, da.r) == ShapeAt(p.mem, x0) && ShapeAt(db.p.mem, db.r) == ShapeAt(p.mem, x1)
  {
    hide Ready, Good, Onward, Perform, Sent, Compatible, ZeroAt, ShapeAt, ValueAt;
    UnaryReady(p, k, Transpose, x1, 0.0, []);
    var tb := Perform(p, Transpose, x1, None, 0.0, []);
    Carried(p, tb.p, x0);
    UnaryReady(tb.p, k, Transpose, x0, 0.0, []);
    var ta := Perform(tb.p, Transpose, x0, None, 0.0, []);
    OnwardTwice(p, tb.p, ta.p);
    Carried(p, ta.p, d);
    Carried(tb.p, ta.p, tb.r);
    MatMulReady(ta.p, k, d, tb.r);
    var da := Perform(ta.p, MatMul, d, tb.r, 0.0, []);
    Carried(ta.p, da.p, d);
    Carried(ta.p, da.p, ta.r);
    MatMulReady(da.p, k, ta.r, d);
    var db := Perform(da.p, MatMul, ta.r, d, 0.0, []);
    Carried(da.p, db.p, da.r);
    OnwardTwice(p, ta.p, da.p);
    OnwardTwice(p, da.p, db.p);
  }

  lemma MatMulRunReady(p: Pass, k: nat, d: Ref, x0: Id, x1: Id)
    requires Ready(p, k) && Good(p, d) && Good(p, Some(x0)) && Good(p, Some(x1)) && x0 < |p.mem| && x1 < |p.mem|
    requires |p.mem[x0].shape| == 2 == |p.mem[x1].shape| && p.mem[x1].shape[0] == p.mem[x0].shape[1]
    requires ShapeAt(p.mem, d) == [p.mem[x0].shape[0], p.mem[x1].shape[1]]
    ensures var q := RunMatMul(p, d, Some(x0), Some(x1));
      Ready(q, k) && Onward(p, q) && q.grads.Keys == p.grads.Keys + {x0, x1}
  {
    OperandShape(p, x0);
    OperandShape(p, x1);
    hide AddTo;
    hide Ready, Good, Onward, Perform, Sent, Compatible, ZeroAt, ShapeAt, ValueAt;
    ProductsReady(p, k, d, Some(x0), Some(x1));
    var tb := Perform(p, Transpose, Some(x1), None, 0.0, []);
    var ta := Perform(tb.p, Transpose, Some(x0), None, 0.0, []);
    var da := Perform(ta.p, MatMul, d, tb.r, 0.0, []);
    var db := Perform(da.p, MatMul, ta.r, d, 0.0, []);
    TwoAdded(p, k, db.p, da.r, db.r, x0, x1);
  }

  lemma TwoAdded(p: Pass, k: nat, o: Pass, a: Ref, b: Ref, x0: Id, x1: Id)
    requires Ready(o, k) && Onward(p, o) && Good(o, a) && Good(o, b) && o.grads == p.grads && x0 < |p.mem|
    requires x1 < |p.mem|
    requires ShapeAt(o.mem, a) == p.mem[x0].shape && ShapeAt(o.mem, b) == p.mem[x1].shape
    ensures var q := AddTo(AddTo(o, Some(x0), a), Some(x1), b);
      Ready(q, k) && Onward(p, q) && q.grads.Keys == p.grads.Keys + {x0, x1}
  {
    hide AddTo;
    hide Ready, Good, Onward, Perform, Sent, Compatible, ZeroAt, ShapeAt, ValueAt;
    KeptShape(p, o, x0);
    AddToReady(o, k, x0, a);
    var q := AddTo(o, Some(x0), a);
    Carried(o, q, b);
    OnwardTwice(p, o, q);
    KeptShape(p, q, x1);
    AddToReady(q, k, x1, b);
    OnwardTwice(p, q, AddTo(q, Some(x1), b));
  }

  lemma MeanReady(p: Pass, k: nat, d: Ref, x0: Id, size: nat)
    requires Ready(p, k) && Good(p, d) && x0 < |p.mem| && Compatible(ShapeAt(p.mem, d), p.mem[x0].shape)
    ensures var q := RunMean(p, d, Some(x0), size); Ready(q, k) && Onward(p, q) && q.grads.Keys == p.grads.Keys + {x0}
  {
    OperandShape(p, x0);
    hide Ready, Good, Onward, Perform, Sent, Compatible, ZeroAt, ShapeAt, ValueAt;
    BcastReady(p, k, d, p.mem[x0].shape);
    var b := Perform(p, Bcast, d, None, 0.0, p.mem[x0].shape);
    UnaryReady(b.p, k, Scale, b.r, Inv(size), []);
    var s := Perform(b.p, Scale, b.r, None, Inv(size), []);
    OnwardTwice(p, b.p, s.p);
    DeliveredReady(p, k, s, x0);
  }

  lemma ReluReady(p: Pass, k: nat, d: Ref, x0: Id, data: seq<real>)
    requires Ready(p, k) && Good(p, d) && x0 < |p.mem| && ShapeAt(p.mem, d) == p.mem[x0].shape
    requires |data| == Size(p.mem[x0].shape)
    ensures var q := RunRelu(p, d, Some(x0), data); Ready(q, k) && Onward(p, q) && q.grads.Keys == p.grads.Keys + {x0}
  {
    OperandShape(p, x0);
    hide Create;
    MaskReady(p, k, p.mem[x0].shape, ReluMask(data));
    hide Ready, Good, Onward, Perform, Sent, Compatible, ZeroAt, ShapeAt, ValueAt;
    var m := Create(p, p.mem[x0].shape, ReluMask(data));
    Carried(p, m.p, d);
    SameReady(m.p, k, Mult, d, m.r);
    var o := Perform(m.p, Mult, d, m.r, 0.0, []);
    OnwardTwice(p, m.p, o.p);
    DeliveredReady(p, k, o, x0);
  }

  lemma MaskReady(p: Pass, k: nat, shape: Shape, data: seq<real>)
    requires Ready(p, k) && |data| == Size(shape)
    ensures var o := Create(p, shape, data);
      Ready(o.p, k) && Onward(p, o.p) && Good(o.p, o.r) && ShapeAt(o.p.mem, o.r) == shape && o.p.grads == p.grads
  {
    hide Sure, Create, Usable;
    CreateSure(p, k, shape, data);
    CreateKeeps(p, shape, data);
    GradsKept(p, Create(p, shape, data).p);
  }

  // ── One node, and a frame ──

  // A node the walk carries through: its shapes fit, and every tensor has a dimension.
  ghost predicate Walkable(M: Memory, n: Node) {
    NodeInMemory(M, n) && Regular(M, n) && (ScalarRoot(n) ==> OperandAt(M, n, 0).shape != [])
  }

  ghost predicate Operands(p: Pass, n: Node) {
    Good(p, Some(n.in0)) && (Uses(n, 1) ==> Good(p, n.in1))
  }

  ghost function ReadIds(n: Node): set<Id> {
    {n.in0} + (if Uses(n, 1) then {n.in1.value} else {})
  }

  // The operands and the gradient, as the rules read them.
  lemma NodeShapes(p: Pass, n: Node)
    requires Walkable(Ungated(p.mem), n) && Operands(p, n) && GradsOk(p) && n.out in p.grads
    ensures n.in0 < |p.mem| && OperandAt(p.mem, n, 0) == p.mem[n.in0]
    ensures OperandAt(Ungated(p.mem), n, 0) == p.mem[n.in0].(tracked := true)
    ensures Uses(n, 1) ==> n.in1.value < |p.mem| && OperandAt(p.mem, n, 1) == p.mem[n.in1.value]
    ensures Uses(n, 1) ==> OperandAt(Ungated(p.mem), n, 1) == p.mem[n.in1.value].(tracked := true)
    ensures Good(p, Some(p.grads[n.out])) && ShapeAt(p.mem, Some(p.grads[n.out])) == OutShape(Ungated(p.mem), n)
    ensures |p.mem[n.in0].data| == Size(p.mem[n.in0].shape)
    ensures Uses(n, 1) ==> |p.mem[n.in1.value].data| == Size(p.mem[n.in1.value].shape)
    ensures ShapesOk(n, OutShape(Ungated(p.mem), n), OperandAt(Ungated(p.mem), n, 0), OperandAt(Ungated(p.mem), n, 1),
      OperandAt(Ungated(p.mem), n, 2))
  {
    hide ShapesOk, Regular;
    GradShape(p, n.out);
  }

  ghost predicate RanReady(p: Pass, k: nat, r: Ran, keys: set<Id>) {
    r.Ran? && Ready(r.p, k) && Onward(p, r.p) && r.p.grads.Keys == p.grads.Keys + keys
  }

  lemma BinaryRuns(p: Pass, k: nat, n: Node)
    requires Ready(p, k) && Walkable(Ungated(p.mem), n) && Operands(p, n) && n.out in p.grads && Binary(n.op)
    ensures RanReady(p, k, RunRule(p, n, Some(p.grads[n.out])), ReadIds(n))
  {
    hide RunAdd, RunSub, RunMul, RunMulSpread, RunDiv, RunDivSpread, RunMatMul, Sure, Good, Onward, GradsOk,
         NodeInMemory, ShapeAt, Compatible;
    NodeShapes(p, n);
    var d, x0, x1 := Some(p.grads[n.out]), n.in0, n.in1.value;
    var t0, t1 := p.mem[x0], p.mem[x1];
    match n.op
    case Add => AddReady(p, k, d, x0, x1);
    case Sub => SubReady(p, k, d, x0, x1);
    case Mult => if |t0.data| == |t1.data| { MulReady(p, k, d, x0, x1); } else { MulSpreadReady(p, k, d, x0, x1); }
    case Div => if |t0.data| == |t1.data| { DivReady(p, k, d, x0, x1); } else { DivSpreadReady(p, k, d, x0, x1); }
    case MatMul => MatMulRunReady(p, k, d, x0, x1);
  }

  lemma UnaryRuns(p: Pass, k: nat, n: Node)
    requires Ready(p, k) && Walkable(Ungated(p.mem), n) && Operands(p, n) && n.out in p.grads && !Binary(n.op)
    ensures RanReady(p, k, RunRule(p, n, Some(p.grads[n.out])), ReadIds(n))
  {
    hide RunMean, RunRelu, Sent, Sure, Good, Onward, GradsOk, NodeInMemory, ShapeAt, Perform, ReluMask;
    NodeShapes(p, n);
    OperandShape(p, n.in0);
    var d, x0 := Some(p.grads[n.out]), n.in0;
    var s0 := p.mem[x0].shape;
    match n.op
    case MeanAll => MeanReady(p, k, d, x0, |p.mem[x0].data|);
    case Relu => ReluReady(p, k, d, x0, p.mem[x0].data);
    case Bcast => AxisSumSent(p, k, d, x0);
    case SumAll => BcastSent(p, k, d, x0);
    case AxisSum => BcastSent(p, k, d, x0);
    case Scale => UnarySent(p, k, Scale, d, n.scalar, [], x0);
    case Transpose => UnarySent(p, k, Transpose, d, 0.0, [], x0);
    case Reshape => UnarySent(p, k, Reshape, d, 0.0, s0, x0);
  }

  lemma BcastSent(p: Pass, k: nat, d: Ref, x: Id)
    requires Ready(p, k) && Good(p, d) && x < |p.mem| && Compatible(ShapeAt(p.mem, d), p.mem[x].shape)
    ensures var q := Sent(Perform(p, Bcast, d, None, 0.0, p.mem[x].shape), Some(x));
      Ready(q, k) && Onward(p, q) && q.grads.Keys == p.grads.Keys + {x}
  {
    hide Ready, Good, Onward, Perform, Sent, Compatible, ZeroAt, ShapeAt, ValueAt;
    BcastReady(p, k, d, p.mem[x].shape);
    DeliveredReady(p, k, Perform(p, Bcast, d, None, 0.0, p.mem[x].shape), x);
  }

  lemma UnarySent(p: Pass, k: nat, op: Op, d: Ref, c: real, like: Shape, x: Id)
    requires Ready(p, k) && Good(p, d) && x < |p.mem|
    requires match op
      case Scale => ShapeAt(p.mem, d) == p.mem[x].shape
      case Reshape => Size(like) == Size(ShapeAt(p.mem, d)) && like == p.mem[x].shape
      case Transpose => |p.mem[x].shape| == 2 && ShapeAt(p.mem, d) == [p.mem[x].shape[1], p.mem[x].shape[0]]
      case _ => false
    ensures var q := Sent(Perform(p, op, d, None, c, like), Some(x));
      Ready(q, k) && Onward(p, q) && q.grads.Keys == p.grads.Keys + {x}
  {
    hide Ready, Good, Onward, Perform, Sent, Compatible, ZeroAt, ShapeAt, ValueAt;
    UnaryReady(p, k, op, d, c, like);
    DeliveredReady(p, k, Perform(p, op, d, None, c, like), x);
  }

  lemma NodeRuns(p: Pass, k: nat, n: Node)
    requires Ready(p, k) && Walkable(Ungated(p.mem), n) && Operands(p, n)
    ensures RanReady(p, k, RunNode(p, n), if n.out in p.grads then ReadIds(n) else {})
  {
    hide RunRule, Sure, GradsOk, Regular, NodeInMemory;
    if n.out in p.grads {
      if Binary(n.op) { BinaryRuns(p, k, n); } else { UnaryRuns(p, k, n); }
    }
  }

  // The tensors that have an entry after the walk, seen from those that had one before.
  ghost function Live(nodes: seq<Node>, L: set<Id>): set<Id> {
    if nodes == [] then L
    else Live(nodes[1..], if nodes[0].out in L then L + ReadIds(nodes[0]) else L)
  }

  lemma WalkableKept(p: Pass, q: Pass, n: Node)
    requires Walkable(Ungated(p.mem), n) && Operands(p, n) && Onward(p, q)
    ensures Walkable(Ungated(q.mem), n) && Operands(q, n)
  {
    hide NodeInMemory, Regular, Usable;
    UngatedKept(p.mem, q.mem);
    NodeKept(Ungated(p.mem), Ungated(q.mem), n);
    OperandOld(Ungated(p.mem), n);
    OperandKept(Ungated(p.mem), Ungated(q.mem), n, 0);
  }

  lemma OperandOld(M: Memory, n: Node)
    requires NodeInMemory(M, n)
    ensures Uses(n, 0) && InId(n, 0) < |M|
  {
  }

  lemma UngatedKept(m: Memory, m': Memory)
    requires Kept(m, m')
    ensures Ungated(m) <= Ungated(m')
  {
    forall x | 0 <= x < |m|
      ensures Ungated(m')[x] == Ungated(m)[x]
    {
      assert Of(m'[x]) == Of(m[x]);
    }
  }

  // On walkable nodes the pass never stops, its log stays sound, and the tensors
  // with an entry are those the root leads to.
  lemma {:induction false} NodesRun(p: Pass, k: nat, nodes: seq<Node>)
    requires Ready(p, k) && forall i :: 0 <= i < |nodes| ==> Walkable(Ungated(p.mem), nodes[i]) && Operands(p, nodes[i])
    ensures var r := RunNodes(p, nodes);
      r.Ran? && Ready(r.p, k) && Onward(p, r.p) && r.p.grads.Keys == Live(nodes, p.grads.Keys)
    decreases |nodes|
  {
    hide Ready, Walkable, Operands, Onward, RunNode;
    if nodes == [] {
      OnwardSelf(p);
    } else {
      NodeRuns(p, k, nodes[0]);
      var q := RunNode(p, nodes[0]).p;
      forall i | 0 <= i < |nodes[1..]|
        ensures Walkable(Ungated(q.mem), nodes[1..][i]) && Operands(q, nodes[1..][i])
      {
        WalkableKept(p, q, nodes[i + 1]);
      }
      NodesRun(q, k, nodes[1..]);
      assert q.grads.Keys == if nodes[0].out in p.grads.Keys then p.grads.Keys + ReadIds(nodes[0]) else p.grads.Keys;
      OnwardTwice(p, q, RunNodes(q, nodes[1..]).p);
    }
  }

  lemma OnwardSelf(p: Pass)
    ensures Onward(p, p)
  {
  }
}
