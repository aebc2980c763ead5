// The second engine's state and its methods, each tied to the recording pass.
module Ad2Engine {
  import opened Options
  import opened Arith
  import opened Shapes
  import opened Sums
  import opened Tape
  import opened Rules
  import opened NodeRule
  import opened Sweep
  import opened Kernels
  import opened Ad2Rule
  import opened Ad2
  import opened Ad2Tape
  import opened Ad2Pass

  // What GRAD_HO hands back: a tensor, or an error tensor.
  datatype Answer = Found(id: Id) | Failed(message: string)

  // The frames after what was logged since steps was the log.
  ghost predicate Grown(frames: seq<Frame>, steps: seq<Step>, frames': seq<Frame>, steps': seq<Step>) {
    steps <= steps' && frames' == EmittedAll(frames, steps'[|steps|..])
  }

  lemma GrownSelf(frames: seq<Frame>, steps: seq<Step>)
    ensures Grown(frames, steps, frames, steps)
  {
    assert steps[|steps|..] == [];
  }

  lemma GrownTwice(f0: seq<Frame>, s0: seq<Step>, f1: seq<Frame>, s1: seq<Step>, f2: seq<Frame>, s2: seq<Step>)
    requires Grown(f0, s0, f1, s1) && Grown(f1, s1, f2, s2)
    ensures Grown(f0, s0, f2, s2)
  {
    assert s2[|s0|..] == s1[|s0|..] + s2[|s1|..];
    EmittedConcat(f0, s1[|s0|..], s2[|s1|..]);
  }

  lemma GrownOnce(frames: seq<Frame>, steps: seq<Step>, t: Step)
    ensures Grown(frames, steps, if t.recorded then Emitted(frames, t.node) else frames, steps + [t])
  {
    assert (steps + [t])[|steps|..] == [t];
    assert [t][..0] == [];
  }

  lemma TopRecords(e: Engine, was: seq<Frame>, s0: seq<Step>)
    requires e.Valid() && e.Recording(s0, was)
    ensures s0 <= e.steps && |e.frames| == |was| + 1 && e.frames[1..] == e.since.0[1..]
    ensures e.frames[0] == Frame(Reversed(Taped(e.steps[|s0|..])), false, was[0].level + 1)
    ensures forall j :: 1 <= j < |e.frames| ==> e.frames[j] == e.since.0[j]
  {
    hide Reversed, Taped;
    EmittedTop(e.since.0, e.steps[|s0|..]);
    var top := Reversed(Taped(e.steps[|s0|..]));
    assert top + [] == top;
    forall j | 1 <= j < |e.frames|
      ensures e.frames[j] == e.since.0[j]
    {
      assert e.frames[j] == e.since.0[1..][j - 1];
    }
  }

  class Engine {
    var mem: Memory
    var frames: seq<Frame>      // frame_top first
    var grads: map<Id, Id>
    ghost var steps: seq<Step>  // everything performed
    ghost var since: (seq<Frame>, seq<Step>)  // the frames and the log when a frame was last pushed

    ghost predicate Valid()
      reads this
    {
      Grown(since.0, since.1, frames, steps)
    }

    // The top frame was pushed above was, when the log was s0.
    ghost predicate Recording(s0: seq<Step>, was: seq<Frame>)
      reads this
    {
      was != [] && since.1 == s0 && |since.0| == |was| + 1 && since.0[0] == Frame([], false, was[0].level + 1)
    }

    ghost function Now(): Pass
      reads this
    {
      Pass(mem, steps, grads)
    }

    constructor (memory: Memory)
      ensures Valid() && frames == [Frame([], false, 0)] && grads == map[] && mem == memory && steps == []
    {
      mem, frames, grads, steps := memory, [Frame([], false, 0)], map[], [];
      since := ([Frame([], false, 0)], []);
      new;
      GrownSelf(frames, steps);
    }

    method PushFrame(level: nat, frozen: bool)
      modifies this`frames, this`since
      ensures Valid() && frames == [Frame([], frozen, level)] + old(frames) && since == (frames, steps)
    {
      frames := [Frame([], frozen, level)] + frames;
      since := (frames, steps);
      GrownSelf(frames, steps);
    }

    // a2_emit: only a recording top frame takes the node.
    method Emit(n: Node)
      modifies this`frames
      ensures frames == Emitted(old(frames), n)
    {
      if frames == [] || frames[0].frozen { return; }
      frames := [frames[0].(nodes := [n] + frames[0].nodes)] + frames[1..];
    }

    // TAPE_CLEAR.
    method Clear()
      modifies this`frames, this`since
      ensures Valid() && frames == []
    {
      while frames != []
        decreases |frames|
      {
        frames := frames[1..];
      }
      since := (frames, steps);
      GrownSelf(frames, steps);
    }

    method New(shape: Shape, data: seq<real>) returns (r: Ref)
      requires Valid()
      modifies this`mem
      ensures Valid() && Out(Now(), r) == Create(old(Now()), shape, data)
    {
      r := Some(|mem|);
      mem := mem + [Tensor(shape, data, false)];
    }

    // One tensor operation: the value, then the hook if an operand is tracked, then the flag.
    method Operate(op: Op, a: Ref, b: Ref, c: real, like: Shape) returns (r: Ref)
      requires Valid()
      modifies this`mem, this`frames, this`steps
      ensures Valid() && Out(Now(), r) == Perform(old(Now()), op, a, b, c, like)
    {
      hide Apply;
      var v := Apply(op, ValueAt(mem, a), ValueAt(mem, b), c, like);
      if v.Bad? || a.None? { return None; }
      var out := |mem|;
      var rec := Records(mem, op, a, b);
      ghost var t := Step(NewNode(op, a, b, c, out), rec);
      GrownOnce(frames, steps, t);
      GrownTwice(since.0, since.1, frames, steps, if rec then Emitted(frames, t.node) else frames, steps + [t]);
      mem := mem + [Tensor(v.shape, v.data, rec && !Own(op))];
      if rec { Emit(NewNode(op, a, b, c, out)); }
      steps := steps + [t];
      r := Some(out);
    }

    // a2_acc.
    method Accumulate(target: Ref, c: Ref)
      requires Valid()
      modifies this`mem, this`frames, this`steps, this`grads
      ensures Valid() && Now() == AddTo(old(Now()), target, c)
    {
      hide Perform;
      if target.None? || c.None? { return; }
      var x := target.value;
      if x !in grads {
        var s := ShapeAt(mem, target);
        var z := New(s, Zeros(Size(s)));
        grads := grads[x := z.value];
      }
      var was := grads[x];
      mem := Track(mem, was);
      var sum := Operate(Add, Some(was), c, 0.0, []);
      if sum.None? { return; }
      grads := grads[x := sum.value];
    }

    method Send(op: Op, a: Ref, b: Ref, c: real, like: Shape, target: Ref)
      requires Valid()
      modifies this`mem, this`frames, this`steps, this`grads
      ensures Valid() && Now() == Sent(Perform(old(Now()), op, a, b, c, like), target)
    {
      hide Perform, AddTo, Grown;
      var r := Operate(op, a, b, c, like);
      Accumulate(target, r);
    }

    method BackAdd(d: Ref, x0: Ref, x1: Ref)
      requires Valid()
      modifies this`mem, this`frames, this`steps, this`grads
      ensures Valid() && Now() == RunAdd(old(Now()), d, x0, x1)
    {
      hide Perform, Sent, Grown;
      var s0, s1 := ShapeAt(mem, x0), ShapeAt(mem, x1);
      Send(AxisSum, d, None, 0.0, s0, x0);
      Send(AxisSum, d, None, 0.0, s1, x1);
    }

    method BackSub(d: Ref, x0: Ref, x1: Ref)
      requires Valid()
      modifies this`mem, this`frames, this`steps, this`grads
      ensures Valid() && Now() == RunSub(old(Now()), d, x0, x1)
    {
      hide Perform, Sent, Grown;
      var s0, s1 := ShapeAt(mem, x0), ShapeAt(mem, x1);
      var neg := Operate(Scale, d, None, -1.0, []);
      Send(AxisSum, d, None, 0.0, s0, x0);
      Send(AxisSum, neg, None, 0.0, s1, x1);
    }

    method BackMul(d: Ref, x0: Ref, x1: Ref)
      requires Valid()
      modifies this`mem, this`frames, this`steps, this`grads
      ensures Valid() && Now() == RunMul(old(Now()), d, x0, x1)
    {
      hide Perform, Sent, Grown;
      Send(Mult, d, x1, 0.0, [], x0);
      Send(Mult, d, x0, 0.0, [], x1);
    }

    method BackMulSpread(d: Ref, x0: Ref, x1: Ref)
      requires Valid()
      modifies this`mem, this`frames, this`steps, this`grads
      ensures Valid() && Now() == RunMulSpread(old(Now()), d, x0, x1)
    {
      hide Perform, Sent, Grown;
      var os, s0, s1 := ShapeAt(mem, d), ShapeAt(mem, x0), ShapeAt(mem, x1);
      var bb := Operate(Bcast, x1, None, 0.0, os);
      var ba := Operate(Bcast, x0, None, 0.0, os);
      var da := Operate(Mult, d, bb, 0.0, []);
      var db := Operate(Mult, d, ba, 0.0, []);
      Send(AxisSum, da, None, 0.0, s0, x0);
      Send(AxisSum, db, None, 0.0, s1, x1);
    }

    method BackDiv(d: Ref, x0: Ref, x1: Ref)
      requires Valid()
      modifies this`mem, this`frames, this`steps, this`grads
      ensures Valid() && Now() == RunDiv(old(Now()), d, x0, x1)
    {
      hide Perform, Sent, Grown;
      Send(Div, d, x1, 0.0, [], x0);
      var t1 := Operate(Mult, d, x0, 0.0, []);
      var t2 := Operate(Mult, x1, x1, 0.0, []);
      var t3 := Operate(Div, t1, t2, 0.0, []);
      Send(Scale, t3, None, -1.0, [], x1);
    }

    method BackDivSpread(d: Ref, x0: Ref, x1: Ref)
      requires Valid()
      modifies this`mem, this`frames, this`steps, this`grads
      ensures Valid() && Now() == RunDivSpread(old(Now()), d, x0, x1)
    {
      hide Perform, Sent, Grown;
      var os, s0, s1 := ShapeAt(mem, d), ShapeAt(mem, x0), ShapeAt(mem, x1);
      var bb := Operate(Bcast, x1, None, 0.0, os);
      var ba := Operate(Bcast, x0, None, 0.0, os);
      var da := Operate(Div, d, bb, 0.0, []);
      var num := Operate(Mult, d, ba, 0.0, []);
      var bb2 := Operate(Mult, bb, bb, 0.0, []);
      var db := Operate(Div, num, bb2, 0.0, []);
      Send(AxisSum, da, None, 0.0, s0, x0);
      var neg := Operate(Scale, db, None, -1.0, []);
      Send(AxisSum, neg, None, 0.0, s1, x1);
    }

    method BackMatMul(d: Ref, x0: Ref, x1: Ref)
      requires Valid()
      modifies this`mem, this`frames, this`steps, this`grads
      ensures Valid() && Now() == RunMatMul(old(Now()), d, x0, x1)
    {
      hide Perform, AddTo, Grown;
      var tb := Operate(Transpose, x1, None, 0.0, []);
      var ta := Operate(Transpose, x0, None, 0.0, []);
      var da := Operate(MatMul, d, tb, 0.0, []);
      var db := Operate(MatMul, ta, d, 0.0, []);
      Accumulate(x0, da);
      Accumulate(x1, db);
    }

    method BackMean(d: Ref, x0: Ref, size: nat)
      requires Valid()
      modifies this`mem, this`frames, this`steps, this`grads
      ensures Valid() && Now() == RunMean(old(Now()), d, x0, size)
    {
      hide Perform, Sent, Grown;
      var s := ShapeAt(mem, x0);
      var b := Operate(Bcast, d, None, 0.0, s);
      Send(Scale, b, None, Inv(size), [], x0);
    }

    method BackRelu(d: Ref, x0: Ref, data: seq<real>)
      requires Valid()
      modifies this`mem, this`frames, this`steps, this`grads
      ensures Valid() && Now() == RunRelu(old(Now()), d, x0, data)
    {
      hide Perform, Sent, Grown, ReluMask;
      var s := ShapeAt(mem, x0);
      var m := New(s, ReluMask(data));
      Send(Mult, d, m, 0.0, [], x0);
    }

    // One node's branch; an error message stops the walk.
    method BackpropNode(n: Node, d: Ref) returns (err: Option<string>)
      requires Valid()
      modifies this`mem, this`frames, this`steps, this`grads
      ensures Valid() && RunRule(old(Now()), n, d) == if err.Some? then Halted(Now(), err.value) else Ran(Now())
    {
      hide Perform, Sent, Grown, RunAdd, RunSub, RunMul, RunMulSpread, RunDiv, RunDivSpread, RunMatMul, RunMean,
           RunRelu, HasZero, ShapeAt;
      var x0, x1 := Some(n.in0), n.in1;
      var t0, t1 := OperandAt(mem, n, 0), OperandAt(mem, n, 1);
      err := None;
      match n.op
      case Add =>
        if x1.None? { return Some("ad2: add null operand"); }
        BackAdd(d, x0, x1);
      case Sub =>
        if x1.None? { return Some("ad2: sub null operand"); }
        BackSub(d, x0, x1);
      case Mult =>
        if x1.None? { return Some("ad2: mul null operand"); }
        if |t0.data| == |t1.data| { BackMul(d, x0, x1); } else { BackMulSpread(d, x0, x1); }
      case Div =>
        if x1.None? { return Some("ad2: div null operand"); }
        if HasZero(t1) { return Some("ad2: division by zero in backward"); }
        if |t0.data| == |t1.data| { BackDiv(d, x0, x1); } else { BackDivSpread(d, x0, x1); }
      case Scale => Send(Scale, d, None, n.scalar, [], x0);
      case SumAll => Send(Bcast, d, None, 0.0, t0.shape, x0);
      case MeanAll => BackMean(d, x0, |t0.data|);
      case Transpose => Send(Transpose, d, None, 0.0, [], x0);
      case Reshape => Send(Reshape, d, None, 0.0, t0.shape, x0);
      case MatMul => BackMatMul(d, x0, x1);
      case Relu => BackRelu(d, x0, t0.data);
      case Conv2D => return Some("ad2: CONV2D unsupported (use GRAD)");
      case SumAxis => return Some("ad2: SUM_AXIS unsupported (use GRAD)");
      case MeanAxis => return Some("ad2: MEAN_AXIS unsupported (use GRAD)");
      case VarAxis => return Some("ad2: VAR_AXIS unsupported (use GRAD)");
      case Bcast => Send(AxisSum, d, None, 0.0, t0.shape, x0);
      case AxisSum => Send(Bcast, d, None, 0.0, t0.shape, x0);
    }

    // One frame, head first.
    method BackpropNodes(nodes: seq<Node>) returns (err: Option<string>)
      requires Valid()
      modifies this`mem, this`frames, this`steps, this`grads
      ensures Valid() && RunNodes(old(Now()), nodes) == if err.Some? then Halted(Now(), err.value) else Ran(Now())
    {
      hide RunRule, Grown;
      ghost var goal := RunNodes(Now(), nodes);
      var k := 0;
      while k < |nodes|
        invariant 0 <= k <= |nodes| && Valid() && RunNodes(Now(), nodes[k..]) == goal
      {
        var n := nodes[k];
        assert nodes[k..][1..] == nodes[k + 1..];
        if n.out in grads {
          err := BackpropNode(n, Some(grads[n.out]));
          if err.Some? { return; }
        }
        k := k + 1;
      }
      err := None;
    }

    // TENSOR_SUM: a node and its placeholder if the tensor is tracked.
    method TensorSum(x: Id) returns (s: real)
      requires Valid() && x < |mem|
      modifies this`mem, this`frames, this`steps
      ensures Valid() && Now() == Totalled(old(Now()), x) && s == TotalOf(old(mem)[x].data)
    {
      s := SumOf(mem[x].data);
      if mem[x].tracked {
        var n := Node(SumAll, x, None, None, s, |mem|, 0, 0);
        GrownOnce(frames, steps, Step(n, true));
        GrownTwice(since.0, since.1, frames, steps, Emitted(frames, n), steps + [Step(n, true)]);
        mem := mem + [Tensor([1], [0.0], false)];
        Emit(n);
        steps := steps + [Step(n, true)];
      }
    }

    // Freezing frames below the top leaves what the top records alone.
    method Freeze(f: nat)
      requires Valid() && 0 < f < |frames| && |since.0| == |frames| && !since.0[0].frozen
      modifies this`frames, this`since
      ensures Valid() && frames == old(frames)[f := old(frames)[f].(frozen := true)]
      ensures since == (old(since).0[f := old(frames)[f].(frozen := true)], old(since).1)
    {
      ghost var more := steps[|since.1|..];
      EmittedTop(since.0, more);
      frames := frames[f := frames[f].(frozen := true)];
      since := (since.0[f := frames[f]], since.1);
      EmittedTop(since.0, more);
    }

    // From the frame below the top to the oldest, freezing each one.
    method BackpropFrames(ghost was: seq<Frame>, ghost first: Pass) returns (err: Option<string>, ghost upto: nat)
      requires Valid() && Now() == first && |frames| == |was| + 1 && since == (frames, steps) && was != []
      requires frames[0] == Frame([], false, was[0].level + 1) && frames[1] == was[0].(frozen := true)
      requires frames[2..] == was[1..]
      modifies this`mem, this`frames, this`steps, this`grads, this`since
      ensures Valid() && RunFrames(first, was) == if err.Some? then Halted(Now(), err.value) else Ran(Now())
      ensures first.steps <= steps && Below(was, frames, upto) && (err.None? ==> upto == |frames|)
      ensures frames[0] == Frame(Reversed(Taped(steps[|first.steps|..])), false, was[0].level + 1)
      ensures Recording(first.steps, was)
    {
      hide RunNodes, Grown, EmittedAll, Reversed, Taped;
      var f := 1;
      TopRecords(this, was, first.steps);
      while f < |frames|
        invariant 1 <= f <= |frames| == |was| + 1 && Valid() && Recording(first.steps, was) && Below(was, since.0, f)
        invariant first.steps <= steps && Below(was, frames, f)
        invariant frames[0] == Frame(Reversed(Taped(steps[|first.steps|..])), false, was[0].level + 1)
        invariant RunFrames(Now(), was[f - 1..]) == RunFrames(first, was)
      {
        assert was[f - 1..][1..] == was[f..];
        assert frames[f].nodes == was[f - 1].nodes;
        err := BackpropNodes(frames[f].nodes);
        TopRecords(this, was, first.steps);
        Freeze(f);
        TopRecords(this, was, first.steps);
        f := f + 1;
        if err.Some? { return err, f; }
      }
      assert was[f - 1..] == [];
      return None, f;
    }

    // plant_ad2_grad.
    method Grad(w: Id) returns (r: Answer)
      requires Valid() && w < |mem| && grads == map[]
      requires Starts(mem, frames, w) ==> FramesInMemory(mem, frames) && frames[0].nodes[0].out < |mem|
      modifies this
      ensures Valid() && grads == map[]
      ensures match GradOf(old(mem), old(frames), w)
        case Error(m) => r == Answer.Failed(m)
        case Grad(v) => r.Found? && ValueAt(mem, Some(r.id)) == v
      ensures if !Starts(old(mem), old(frames), w) then mem == old(mem) && frames == old(frames) && steps == old(steps)
        else Went(old(mem), old(frames), old(steps), w, mem, frames, steps, r) && Recording(old(steps), old(frames))
    {
      hide RunFrames, WalkFrames, EmittedAll, Reversed, Taped, Grown, Agrees;
      if !mem[w].tracked { return Answer.Failed("ad2: w requires_grad=0"); }
      if frames == [] { return Answer.Failed("ad2: not initialized"); }
      if frames[0].level >= 2 { return Answer.Failed("ad2: 3rd+ derivatives unsupported (single-DAG pending 0c)"); }
      if frames[0].nodes == [] { return Answer.Failed("ad2: empty tape"); }
      var root := frames[0].nodes[0].out;
      frames := [frames[0].(frozen := true)] + frames[1..];
      PushFrame(frames[0].level + 1, false);
      var seed := New(mem[root].shape, Ones(Size(mem[root].shape)));
      grads := map[root := seed.value];
      ghost var first := Now();
      assert first == Seeded(old(mem), old(steps), root);
      PassFollows(old(mem), old(frames), old(steps));
      var err, upto := BackpropFrames(old(frames), first);
      if err.Some? {
        grads := map[];
        return Answer.Failed(err.value);
      }
      EntryValue(old(mem), old(frames), Now(), w);
      if w in grads {
        r := Found(grads[w]);
      } else {
        var z := New(mem[w].shape, Zeros(Size(mem[w].shape)));
        r := Found(z.value);
      }
      grads := map[];
    }
  }

  // The frames below the top are those that were there, the first and those before f frozen.
  ghost predicate Below(was: seq<Frame>, frames: seq<Frame>, f: nat) {
    && |frames| == |was| + 1
    && forall j :: 1 <= j < |frames| ==> frames[j] == was[j - 1].(frozen := was[j - 1].frozen || j == 1 || j < f)
  }

  // The pass it runs.
  function PassOf(mem: Memory, frames: seq<Frame>, steps: seq<Step>): Ran
    requires frames != [] && frames[0].nodes != [] && frames[0].nodes[0].out < |mem|
  {
    RunFrames(Seeded(mem, steps, frames[0].nodes[0].out), frames)
  }

  // What it leaves: the memory and log of the pass, a new top frame holding what was
  // recorded, and below it the frames that were there, frozen.
  ghost predicate Went(mem: Memory, frames: seq<Frame>, steps: seq<Step>, w: Id, mem': Memory, frames': seq<Frame>,
                       steps': seq<Step>, r: Answer)
    requires w < |mem| && Starts(mem, frames, w) && frames[0].nodes[0].out < |mem|
  {
    var q := PassOf(mem, frames, steps).p;
    && steps <= steps' == q.steps && |frames'| == |frames| + 1
    && frames'[0] == Frame(Reversed(Taped(steps'[|steps|..])), false, frames[0].level + 1)
    && (exists f: nat :: Below(frames, frames', f) && (r.Found? ==> f == |frames'|))
    && if r.Failed? then mem' == q.mem
       else if w in q.grads then mem' == q.mem && r == Found(q.grads[w])
       else r == Found(|q.mem|) && mem' == q.mem + [Tensor(mem[w].shape, Zeros(Size(mem[w].shape)), false)]
  }

  // The pass and the walk over values end alike.
  lemma PassFollows(mem: Memory, frames: seq<Frame>, steps: seq<Step>)
    requires frames != [] && frames[0].nodes != [] && frames[0].nodes[0].out < |mem| && FramesInMemory(mem, frames)
    ensures FramesInMemory(Ungated(mem), frames)
    ensures var r := PassOf(mem, frames, steps);
      var v := WalkFrames(Ungated(mem), frames, SeedMap(mem, frames[0].nodes[0].out));
      if v.Failed? then r.Halted? && r.message == v.message else r.Ran? && Agrees(Ungated(mem), r.p, v.H)
  {
    hide Agrees, RunFrames, WalkFrames, InMemory;
    FramesInMemoryUngated(mem, frames);
    SeededAgrees(mem, steps, frames[0].nodes[0].out);
    FramesFollow(Ungated(mem), Seeded(mem, steps, frames[0].nodes[0].out), frames,
      SeedMap(mem, frames[0].nodes[0].out));
  }

  // After the pass every entry shows its value, and w has kept its shape.
  lemma EntryValue(mem: Memory, frames: seq<Frame>, q: Pass, w: Id)
    requires frames != [] && frames[0].nodes != [] && frames[0].nodes[0].out < |mem|
    requires FramesInMemory(Ungated(mem), frames) && w < |mem|
    requires var v := WalkFrames(Ungated(mem), frames, SeedMap(mem, frames[0].nodes[0].out));
      v.Done? && Agrees(Ungated(mem), q, v.H)
    ensures var H := WalkFrames(Ungated(mem), frames, SeedMap(mem, frames[0].nodes[0].out)).H;
      w < |q.mem| && q.mem[w].shape == mem[w].shape && (w in q.grads <==> w in H) &&
      (w in H ==> ValueAt(q.mem, Some(q.grads[w])) == H[w])
  {
    hide WalkFrames, InMemory;
    var H := WalkFrames(Ungated(mem), frames, SeedMap(mem, frames[0].nodes[0].out)).H;
    ShownAt(q, H, w);
    assert Of(q.mem[w]) == Of(Ungated(mem)[w]);
  }

  method SumOf(data: seq<real>) returns (s: real)
    ensures s == TotalOf(data)
  {
    s := 0.0;
    ghost var at := (i: int) => At(data, i);
    for i := 0 to |data|
      invariant s == Sum(i, at)
    {
      s := s + data[i];
    }
    SumEq(|data|, at, i => At(data, i));
  }
}
