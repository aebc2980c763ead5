// What the second engine's backward pass computes and records. Every tensor
// operation makes a new tensor; it leaves a node in the recording frame if an
// operand is tracked, and only then is its result tracked.
module Ad2Tape {
  import opened Options
  import opened Arith
  import opened Shapes
  import opened Sums
  import opened Tape
  import opened Rules
  import opened NodeRule
  import opened Adjoint
  import opened Sweep
  import opened Ad2Rule
  import opened Ad2

  // A performed operation, and whether it left a node.
  datatype Step = Step(node: Node, recorded: bool)

  // Tensor memory, the operations performed so far, and the gradient map.
  datatype Pass = Pass(mem: Memory, steps: seq<Step>, grads: map<Id, Id>)

  // None is an error tensor or a missing operand.
  type Ref = Option<Id>

  datatype Out = Out(p: Pass, r: Ref)

  datatype Ran = Ran(p: Pass) | Halted(p: Pass, message: string)

  // ── One tensor operation ──

  function ValueAt(mem: Memory, r: Ref): Value {
    if r.Some? && r.value < |mem| then Of(mem[r.value]) else Bad
  }

  predicate TrackedAt(mem: Memory, r: Ref) {
    r.Some? && r.value < |mem| && mem[r.value].tracked
  }

  function ShapeAt(mem: Memory, r: Ref): Shape {
    if r.Some? && r.value < |mem| then mem[r.value].shape else []
  }

  predicate Binary(op: Op) { op == Add || op == Sub || op == Mult || op == Div || op == MatMul }

  // The engine's own pair leaves a node whatever its operand, and an untracked result.
  predicate Own(op: Op) { op == Bcast || op == AxisSum }

  function Apply(op: Op, a: Value, b: Value, c: real, like: Shape): Value {
    match op
    case Add => TAdd(a, b)
    case Sub => TSub(a, b)
    case Mult => TMul(a, b)
    case Div => TDiv(a, b)
    case MatMul => TMatMul(a, b)
    case Scale => TScale(a, c)
    case Relu => TRelu(a)
    case Transpose => TTranspose(a)
    case Reshape => TReshape(a, like)
    case Bcast => TBcast(a, like)
    case AxisSum => TAxisSum(a, like)
    case _ => Bad
  }

  function NewNode(op: Op, a: Ref, b: Ref, c: real, out: Id): Node
    requires a.Some?
  {
    Node(op, a.value, if Binary(op) then b else None, None, if op == Scale then c else 0.0, out, 0, 0)
  }

  predicate Records(mem: Memory, op: Op, a: Ref, b: Ref) {
    Own(op) || TrackedAt(mem, a) || (Binary(op) && TrackedAt(mem, b))
  }

  function Perform(p: Pass, op: Op, a: Ref, b: Ref, c: real, like: Shape): Out {
    var v := Apply(op, ValueAt(p.mem, a), ValueAt(p.mem, b), c, like);
    if v.Bad? || a.None? then Out(p, None)
    else
      var rec := Records(p.mem, op, a, b);
      Out(Pass(p.mem + [Tensor(v.shape, v.data, rec && !Own(op))],
               p.steps + [Step(NewNode(op, a, b, c, |p.mem|), rec)], p.grads), Some(|p.mem|))
  }

  // A tensor that no operation produces: a seed, zeros or a mask.
  function Create(p: Pass, shape: Shape, data: seq<real>): Out {
    Out(p.(mem := p.mem + [Tensor(shape, data, false)]), Some(|p.mem|))
  }

  // ── Accumulation ──

  function Track(mem: Memory, x: Id): Memory {
    if x < |mem| then mem[x := mem[x].(tracked := true)] else mem
  }

  // An error is dropped; a failing addition leaves the entry, zeros if it is new.
  // The entry is tracked first, so the sum is recorded.
  function AddTo(p: Pass, target: Ref, c: Ref): Pass {
    if target.None? || c.None? then p
    else
      var x := target.value;
      var s := ShapeAt(p.mem, target);
      var z := Create(p, s, Zeros(Size(s)));
      var q := if x in p.grads then p else z.p.(grads := p.grads[x := |p.mem|]);
      var was := q.grads[x];
      var o := Perform(q.(mem := Track(q.mem, was)), Add, Some(was), c, 0.0, []);
      if o.r.None? then o.p else o.p.(grads := q.grads[x := o.r.value])
  }

  // ── One node ──

  function Sent(o: Out, target: Ref): Pass { AddTo(o.p, target, o.r) }

  function RunAdd(p: Pass, d: Ref, x0: Ref, x1: Ref): Pass {
    var q := Sent(Perform(p, AxisSum, d, None, 0.0, ShapeAt(p.mem, x0)), x0);
    Sent(Perform(q, AxisSum, d, None, 0.0, ShapeAt(p.mem, x1)), x1)
  }

  function RunSub(p: Pass, d: Ref, x0: Ref, x1: Ref): Pass {
    var neg := Perform(p, Scale, d, None, -1.0, []);
    var q := Sent(Perform(neg.p, AxisSum, d, None, 0.0, ShapeAt(p.mem, x0)), x0);
    Sent(Perform(q, AxisSum, neg.r, None, 0.0, ShapeAt(p.mem, x1)), x1)
  }

  function RunMul(p: Pass, d: Ref, x0: Ref, x1: Ref): Pass {
    var q := Sent(Perform(p, Mult, d, x1, 0.0, []), x0);
    Sent(Perform(q, Mult, d, x0, 0.0, []), x1)
  }

  function RunMulSpread(p: Pass, d: Ref, x0: Ref, x1: Ref): Pass {
    var bb := Perform(p, Bcast, x1, None, 0.0, ShapeAt(p.mem, d));
    var ba := Perform(bb.p, Bcast, x0, None, 0.0, ShapeAt(p.mem, d));
    var da := Perform(ba.p, Mult, d, bb.r, 0.0, []);
    var db := Perform(da.p, Mult, d, ba.r, 0.0, []);
    var q := Sent(Perform(db.p, AxisSum, da.r, None, 0.0, ShapeAt(p.mem, x0)), x0);
    Sent(Perform(q, AxisSum, db.r, None, 0.0, ShapeAt(p.mem, x1)), x1)
  }

  function RunDiv(p: Pass, d: Ref, x0: Ref, x1: Ref): Pass {
    var q := Sent(Perform(p, Div, d, x1, 0.0, []), x0);
    var t1 := Perform(q, Mult, d, x0, 0.0, []);
    var t2 := Perform(t1.p, Mult, x1, x1, 0.0, []);
    var t3 := Perform(t2.p, Div, t1.r, t2.r, 0.0, []);
    Sent(Perform(t3.p, Scale, t3.r, None, -1.0, []), x1)
  }

  function RunDivSpread(p: Pass, d: Ref, x0: Ref, x1: Ref): Pass {
    var bb := Perform(p, Bcast, x1, None, 0.0, ShapeAt(p.mem, d));
    var ba := Perform(bb.p, Bcast, x0, None, 0.0, ShapeAt(p.mem, d));
    var da := Perform(ba.p, Div, d, bb.r, 0.0, []);
    var num := Perform(da.p, Mult, d, ba.r, 0.0, []);
    var bb2 := Perform(num.p, Mult, bb.r, bb.r, 0.0, []);
    var db := Perform(bb2.p, Div, num.r, bb2.r, 0.0, []);
    var q := Sent(Perform(db.p, AxisSum, da.r, None, 0.0, ShapeAt(p.mem, x0)), x0);
    var neg := Perform(q, Scale, db.r, None, -1.0, []);
    Sent(Perform(neg.p, AxisSum, neg.r, None, 0.0, ShapeAt(p.mem, x1)), x1)
  }

  function RunMatMul(p: Pass, d: Ref, x0: Ref, x1: Ref): Pass {
    var tb := Perform(p, Transpose, x1, None, 0.0, []);
    var ta := Perform(tb.p, Transpose, x0, None, 0.0, []);
    var da := Perform(ta.p, MatMul, d, tb.r, 0.0, []);
    var db := Perform(da.p, MatMul, ta.r, d, 0.0, []);
    AddTo(AddTo(db.p, x0, da.r), x1, db.r)
  }

  function RunMean(p: Pass, d: Ref, x0: Ref, size: nat): Pass {
    var b := Perform(p, Bcast, d, None, 0.0, ShapeAt(p.mem, x0));
    Sent(Perform(b.p, Scale, b.r, None, Inv(size), []), x0)
  }

  function RunRelu(p: Pass, d: Ref, x0: Ref, data: seq<real>): Pass {
    var m := Create(p, ShapeAt(p.mem, x0), ReluMask(data));
    Sent(Perform(m.p, Mult, d, m.r, 0.0, []), x0)
  }

  function RunRule(p: Pass, n: Node, d: Ref): Ran {
    var x0, x1 := Some(n.in0), n.in1;
    var t0, t1 := OperandAt(p.mem, n, 0), OperandAt(p.mem, n, 1);
    match n.op
    case Add => if x1.None? then Halted(p, "ad2: add null operand") else Ran(RunAdd(p, d, x0, x1))
    case Sub => if x1.None? then Halted(p, "ad2: sub null operand") else Ran(RunSub(p, d, x0, x1))
    case Mult =>
      if x1.None? then Halted(p, "ad2: mul null operand")
      else Ran(if |t0.data| == |t1.data| then RunMul(p, d, x0, x1) else RunMulSpread(p, d, x0, x1))
    case Div =>
      if x1.None? then Halted(p, "ad2: div null operand")
      else if HasZero(t1) then Halted(p, "ad2: division by zero in backward")
      else Ran(if |t0.data| == |t1.data| then RunDiv(p, d, x0, x1) else RunDivSpread(p, d, x0, x1))
    case Scale => Ran(Sent(Perform(p, Scale, d, None, n.scalar, []), x0))
    case SumAll => Ran(Sent(Perform(p, Bcast, d, None, 0.0, t0.shape), x0))
    case MeanAll => Ran(RunMean(p, d, x0, |t0.data|))
    case Transpose => Ran(Sent(Perform(p, Transpose, d, None, 0.0, []), x0))
    case Reshape => Ran(Sent(Perform(p, Reshape, d, None, 0.0, t0.shape), x0))
    case MatMul => Ran(RunMatMul(p, d, x0, x1))
    case Relu => Ran(RunRelu(p, d, x0, t0.data))
    case Conv2D => Halted(p, "ad2: CONV2D unsupported (use GRAD)")
    case SumAxis => Halted(p, "ad2: SUM_AXIS unsupported (use GRAD)")
    case MeanAxis => Halted(p, "ad2: MEAN_AXIS unsupported (use GRAD)")
    case VarAxis => Halted(p, "ad2: VAR_AXIS unsupported (use GRAD)")
    case Bcast => Ran(Sent(Perform(p, AxisSum, d, None, 0.0, t0.shape), x0))
    case AxisSum => Ran(Sent(Perform(p, Bcast, d, None, 0.0, t0.shape), x0))
  }

  function RunNode(p: Pass, n: Node): Ran {
    if n.out in p.grads then RunRule(p, n, Some(p.grads[n.out])) else Ran(p)
  }

  // From a frame's head to its first node.
  function RunNodes(p: Pass, nodes: seq<Node>): Ran
    decreases |nodes|
  {
    if nodes == [] then Ran(p)
    else
      var r := RunNode(p, nodes[0]);
      if r.Halted? then r else RunNodes(r.p, nodes[1..])
  }

  // From the top frame to the oldest, with one gradient map.
  function RunFrames(p: Pass, frames: seq<Frame>): Ran
    decreases |frames|
  {
    if frames == [] then Ran(p)
    else
      var r := RunNodes(p, frames[0].nodes);
      if r.Halted? then r else RunFrames(r.p, frames[1..])
  }

  // The pass starts with ones at the root.
  function Seeded(mem: Memory, steps: seq<Step>, root: Id): Pass
    requires root < |mem|
  {
    Create(Pass(mem, steps, map[]), mem[root].shape, Ones(Size(mem[root].shape))).p.(grads := map[root := |mem|])
  }

  function TotalOf(data: seq<real>): real { Sum(|data|, i => At(data, i)) }

  // The total of nothing is 0, of one element the element, and totals add up.
  lemma TotalAdds(a: seq<real>, b: seq<real>, x: real)
    ensures TotalOf([]) == 0.0 && TotalOf([x]) == x && TotalOf(a + b) == TotalOf(a) + TotalOf(b)
  {
    var ab := a + b;
    SumSplit(|a|, |b|, i => At(ab, i), j => At(b, j));
    SumEq(|a|, i => At(ab, i), i => At(a, i));
    var one := (i: int) => At([x], i);
    assert Sum(1, one) == Sum(0, one) + one(0);
  }

  // TENSOR_SUM of a tracked tensor leaves a node and a placeholder.
  function Totalled(p: Pass, x: Id): Pass
    requires x < |p.mem|
  {
    if !p.mem[x].tracked then p
    else
      Pass(p.mem + [Tensor([1], [0.0], false)],
           p.steps + [Step(Node(SumAll, x, None, None, TotalOf(p.mem[x].data), |p.mem|, 0, 0), true)], p.grads)
  }

  // ── What a log leaves in the frames ──

  // Only a recording top frame takes a node.
  function Emitted(frames: seq<Frame>, n: Node): seq<Frame> {
    if frames == [] || frames[0].frozen then frames
    else [frames[0].(nodes := [n] + frames[0].nodes)] + frames[1..]
  }

  function EmittedAll(frames: seq<Frame>, steps: seq<Step>): seq<Frame> {
    if steps == [] then frames
    else
      var last := |steps| - 1;
      var before := EmittedAll(frames, steps[..last]);
      if steps[last].recorded then Emitted(before, steps[last].node) else before
  }

  ghost function Taped(steps: seq<Step>): seq<Node> {
    if steps == [] then []
    else
      var last := |steps| - 1;
      Taped(steps[..last]) + if steps[last].recorded then [steps[last].node] else []
  }

  lemma {:induction false} EmittedConcat(frames: seq<Frame>, a: seq<Step>, b: seq<Step>)
    ensures EmittedAll(frames, a + b) == EmittedAll(EmittedAll(frames, a), b)
    decreases |b|
  {
    if b == [] {
      assert a + b == a;
    } else {
      var last := |b| - 1;
      assert (a + b)[..|a + b| - 1] == a + b[..last];
      EmittedConcat(frames, a, b[..last]);
    }
  }

  lemma EmittedOnce(f: Frame, rest: seq<Frame>, before: seq<Node>, n: Node)
    requires !f.frozen
    ensures Emitted([f.(nodes := Reversed(before) + f.nodes)] + rest, n)
      == [f.(nodes := Reversed(before + [n]) + f.nodes)] + rest
  {
    assert Reversed(before + [n]) == [n] + Reversed(before);
    assert [n] + (Reversed(before) + f.nodes) == ([n] + Reversed(before)) + f.nodes;
    var top := f.(nodes := Reversed(before) + f.nodes);
    assert ([top] + rest)[1..] == rest;
  }

  // What is performed while a frame records becomes its nodes, head first, and no other
  // frame changes; without a recording frame nothing does.
  lemma {:induction false} EmittedTop(frames: seq<Frame>, steps: seq<Step>)
    ensures EmittedAll(frames, steps) ==
      if frames == [] || frames[0].frozen then frames
      else [frames[0].(nodes := Reversed(Taped(steps)) + frames[0].nodes)] + frames[1..]
    decreases |steps|
  {
    if steps != [] {
      var last := |steps| - 1;
      EmittedTop(frames, steps[..last]);
      assert Taped(steps[..last]) + [] == Taped(steps[..last]);
      if frames != [] && !frames[0].frozen && steps[last].recorded {
        EmittedOnce(frames[0], frames[1..], Taped(steps[..last]), steps[last].node);
      }
    } else if frames != [] {
      assert Reversed([]) + frames[0].nodes == frames[0].nodes;
      assert frames[0].(nodes := frames[0].nodes) == frames[0];
      assert frames == [frames[0]] + frames[1..];
    }
  }
}
