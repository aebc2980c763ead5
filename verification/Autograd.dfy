// The first-order engine: tape, gradient side table, reference counts, GRAD.
module Autograd {
  import opened Options
  import opened Arith
  import opened Shapes
  import opened Sums
  import opened Tape
  import opened Rules
  import opened NodeRule
  import opened Adjoint
  import opened Sweep
  import opened DualRun
  import opened GradAnswer
  import Kernels
  import AxisKernel
  import ConvKernel
  import GradBuffers
  import ConvRule

  // ── Reference counting ──

  ghost function One(b: bool): nat { if b then 1 else 0 }

  // References one tape node holds on tensor t.
  ghost function NodeRefs(n: Node, t: Id): nat {
    One(n.in0 == t) + One(n.in1 == Some(t)) + One(n.in2 == Some(t)) + One(n.out == t)
  }

  // How many of a node's four places name tensor t: two operands, the bias and the result.
  lemma NodeRefsIs(n: Node, t: Id)
    ensures NodeRefs(n, t) ==
      (if n.in0 == t then 1 else 0) + (if n.in1 == Some(t) then 1 else 0)
      + (if n.in2 == Some(t) then 1 else 0) + (if n.out == t then 1 else 0)
  {
  }

  ghost function TapeRefs(tape: seq<Node>, t: Id): nat {
    if tape == [] then 0 else TapeRefs(tape[..|tape| - 1], t) + NodeRefs(tape[|tape| - 1], t)
  }

  ghost function PseudoRefs(pseudo: seq<Id>, t: Id): nat {
    if pseudo == [] then 0 else PseudoRefs(pseudo[..|pseudo| - 1], t) + One(pseudo[|pseudo| - 1] == t)
  }

  ghost predicate NodeIds(n: Node, size: nat) {
    n.in0 < size && (n.in1.Some? ==> n.in1.value < size) && (n.in2.Some? ==> n.in2.value < size) && n.out < size
  }

  ghost predicate TensorOk(x: Tensor) {
    |x.data| == Size(x.shape) && |x.shape| <= Kernels.MAX_DIMS
  }

  // The operations this engine's backward pass has a branch for.
  predicate FirstOrder(op: Op) { op != Bcast && op != AxisSum }

  class Engine {
    var mem: seq<Tensor>                  // every tensor, by id
    var refs: seq<int>                    // ref_count, by id
    var tape: seq<Node>                   // plant_tape_head is the last node
    var pseudo: seq<Id>                   // plant_pseudo_list
    var gradTab: map<Id, array<real>>     // plant_grad_map
    ghost var outside: seq<nat>           // references held by everyone else

    // Everything but the side table, which is empty between calls.
    ghost predicate Core()
      reads this
    {
      && |refs| == |mem| == |outside|
      && (forall t :: 0 <= t < |mem| ==> TensorOk(mem[t]))
      && WellFormed(mem, tape)
      && (forall i :: 0 <= i < |tape| ==> FirstOrder(tape[i].op) && NodeIds(tape[i], |mem|))
      && (forall i :: 0 <= i < |pseudo| ==> pseudo[i] < |mem|)
      && (forall t :: 0 <= t < |refs| ==> refs[t] == outside[t] + TapeRefs(tape, t) + PseudoRefs(pseudo, t))
    }

    ghost predicate Valid()
      reads this
    {
      Core() && gradTab == map[]
    }

    constructor ()
      ensures Valid() && mem == [] && tape == []
    {
      mem, refs, tape, pseudo, gradTab := [], [], [], [], map[];
      outside := [];
    }

    // A new tensor with one reference, owned by the caller.
    method Create(x: Tensor) returns (t: Id)
      requires Valid() && TensorOk(x)
      modifies this
      ensures Valid() && t == |old(mem)| && mem == old(mem) + [x]
      ensures tape == old(tape) && pseudo == old(pseudo)
      ensures refs == old(refs) + [1] && outside == old(outside) + [1]
      ensures Recorded(old(mem), old(tape)) ==> Recorded(mem, tape)
    {
      hide WellFormed, TensorOk, TapeRefs, PseudoRefs, Recorded;
      if Recorded(mem, tape) { RecordedMore(mem, mem + [x], tape); }
      t := |mem|;
      Unreferenced(tape, pseudo, t);
      mem := mem + [x];
      refs := refs + [1];
      outside := outside + [1];
      GrowMemory(old(mem), mem, tape);
    }

    // ── Recording and clearing ──

    method Hold(t: Option<Id>)
      requires t.Some? ==> t.value < |refs|
      modifies this`refs
      ensures |refs| == |old(refs)|
      ensures forall x :: 0 <= x < |refs| ==> refs[x] == old(refs)[x] + One(t == Some(x))
    {
      if t.Some? { refs := refs[t.value := refs[t.value] + 1]; }
    }

    method Free(t: Option<Id>)
      requires t.Some? ==> t.value < |refs|
      modifies this`refs
      ensures |refs| == |old(refs)|
      ensures forall x :: 0 <= x < |refs| ==> refs[x] == old(refs)[x] - One(t == Some(x))
    {
      if t.Some? { refs := refs[t.value := refs[t.value] - 1]; }
    }

    // The node becomes the tape head, and the tape holds its tensors.
    method Push(n: Node)
      requires Valid() && FirstOrder(n.op) && NodeIds(n, |mem|) && NodeInMemory(mem, n) && Fresh(tape, n)
      modifies this`tape, this`refs
      ensures Valid() && tape == old(tape) + [n]
      ensures |refs| == |old(refs)| && forall t :: 0 <= t < |refs| ==>
        refs[t] == old(refs)[t] + (if n.in0 == t then 1 else 0) + (if n.in1 == Some(t) then 1 else 0)
        + (if n.in2 == Some(t) then 1 else 0) + (if n.out == t then 1 else 0)
      ensures Recorded(mem, old(tape)) && Truthful(mem, old(tape), n) ==> Recorded(mem, tape)
    {
      hide NodeInMemory, Fresh, TapeRefs, PseudoRefs, TensorOk, WellFormed, Recorded, Truthful, NodeRefs;
      if Recorded(mem, tape) && Truthful(mem, tape, n) { RecordedSnoc(mem, tape, n); }
      tape := tape + [n];
      HoldNode(n);
      forall t: Id { NodeRefsIs(n, t); }
      Extended(mem, old(tape), n);
      forall t: Id
        ensures TapeRefs(tape, t) == TapeRefs(old(tape), t) + NodeRefs(n, t)
      {
        TapeRefsSnoc(old(tape), n, t);
      }
    }

    method HoldNode(n: Node)
      requires NodeIds(n, |refs|)
      modifies this`refs
      ensures |refs| == |old(refs)| && forall t :: 0 <= t < |refs| ==> refs[t] == old(refs)[t] + NodeRefs(n, t)
    {
      Hold(Some(n.in0));
      Hold(n.in1);
      Hold(n.in2);
      Hold(Some(n.out));
    }

    // plant_tape_record. A scalar reduction has no result tensor: the tape gets a
    // one-element placeholder of its own, which nothing else can refer to.
    method Record(op: Op, a: Id, b: Option<Id>, s: real, out: Option<Id>)
      requires Valid() && FirstOrder(op) && op != Conv2D
      requires a < |mem| && (b.Some? ==> b.value < |mem|)
      requires out.None? ==> op == SumAll || op == MeanAll
      requires out.Some? ==>
        var n := Node(op, a, b, None, s, out.value, 0, 0);
        out.value < |mem| && NodeInMemory(mem, n) && Fresh(tape, n)
      modifies this
      ensures Valid()
      ensures var t := if out.Some? then out.value else |old(mem)|;
        && tape == old(tape) + [Node(op, a, b, None, s, t, 0, 0)]
        && mem == (if out.Some? then old(mem) else old(mem) + [Tensor([1], [0.0], true)])
        && pseudo == (if out.Some? then old(pseudo) else old(pseudo) + [t])
        && outside == (if out.Some? then old(outside) else old(outside) + [0])
        && (Recorded(old(mem), old(tape)) && Truthful(mem, old(tape), tape[|tape| - 1]) ==> Recorded(mem, tape))
        && |refs| == |mem| && (out.None? ==> refs[t] == 2)
        && (forall x :: 0 <= x < |old(refs)| ==>
              refs[x] == old(refs)[x] + (if a == x then 1 else 0) + (if b == Some(x) then 1 else 0)
              + (if out == Some(x) then 1 else 0))
    {
      hide Recorded, Truthful, WellFormed, NodeInMemory, Fresh, TapeRefs, PseudoRefs, TensorOk;
      ghost var before := mem;
      if out.Some? {
        Push(Node(op, a, b, None, s, out.value, 0, 0));
      } else {
        var t := AddPseudo();
        var n := Node(op, a, b, None, s, t, 0, 0);
        PlaceholderNode(old(mem), mem, tape, n);
        if Recorded(before, tape) { RecordedMore(before, mem, tape); }
        Push(n);
      }
    }

    method AddPseudo() returns (t: Id)
      requires Valid()
      modifies this`mem, this`refs, this`pseudo, this`outside
      ensures Valid() && t == |old(mem)| && mem == old(mem) + [Tensor([1], [0.0], true)]
      ensures pseudo == old(pseudo) + [t] && outside == old(outside) + [0] && refs == old(refs) + [1]
    {
      hide WellFormed, TapeRefs, PseudoRefs;
      t := |mem|;
      Unreferenced(tape, pseudo, t);
      mem := mem + [Tensor([1], [0.0], true)];
      refs := refs + [1];
      outside := outside + [0];
      pseudo := pseudo + [t];
      assert Size([1][1..]) == 1;
      GrowMemory(old(mem), mem, tape);
      forall x: Id
        ensures PseudoRefs(pseudo, x) == PseudoRefs(old(pseudo), x) + One(t == x)
      {
        PseudoRefsSnoc(old(pseudo), t, x);
      }
    }

    // plant_tape_record_conv.
    method RecordConv(x: Id, k: Id, b: Option<Id>, stride: int, pad: int, out: Id)
      requires Valid() && x < |mem| && k < |mem| && (b.Some? ==> b.value < |mem|) && out < |mem|
      requires var n := Node(Conv2D, x, Some(k), b, 0.0, out, stride, pad); NodeInMemory(mem, n) && Fresh(tape, n)
      modifies this`tape, this`refs
      ensures Valid() && tape == old(tape) + [Node(Conv2D, x, Some(k), b, 0.0, out, stride, pad)]
      ensures |refs| == |old(refs)| && forall t :: 0 <= t < |refs| ==>
        refs[t] == old(refs)[t] + (if x == t then 1 else 0) + (if k == t then 1 else 0)
          + (if b == Some(t) then 1 else 0)
        + (if out == t then 1 else 0)
      ensures Recorded(mem, old(tape)) && Truthful(mem, old(tape), tape[|tape| - 1]) ==> Recorded(mem, tape)
    {
      Push(Node(Conv2D, x, Some(k), b, 0.0, out, stride, pad));
    }

    // One turn of the clearing loop: the head node and its references go.
    method DropHead()
      requires Core() && tape != []
      modifies this`tape, this`refs
      ensures Core() && tape == old(tape)[..|old(tape)| - 1]
    {
      hide WellFormed, TapeRefs, PseudoRefs, TensorOk;
      var last := |tape| - 1;
      var n := tape[last];
      PopTape(tape);
      WellFormedPrefix(mem, tape, last);
      tape := tape[..last];
      Free(Some(n.in0));
      Free(n.in1);
      Free(n.in2);
      Free(Some(n.out));
    }

    method DropPseudo()
      requires Core() && pseudo != []
      modifies this`pseudo, this`refs
      ensures Core() && pseudo == old(pseudo)[..|old(pseudo)| - 1]
    {
      hide WellFormed, TapeRefs, PseudoRefs, TensorOk;
      var last := |pseudo| - 1;
      var t := pseudo[last];
      PopPseudo(pseudo);
      pseudo := pseudo[..last];
      Free(Some(t));
    }

    // plant_tape_clear: drops every reference the tape and the pseudo list hold.
    method Clear()
      requires Core()
      modifies this`tape, this`pseudo, this`refs
      ensures Core() && tape == [] && pseudo == []
      ensures refs == outside
    {
      hide WellFormed, TapeRefs, PseudoRefs, TensorOk;
      while tape != []
        invariant Core()
        decreases |tape|
      {
        DropHead();
      }
      while pseudo != []
        invariant Core() && tape == []
        decreases |pseudo|
      {
        DropPseudo();
      }
      forall t: Id
        ensures TapeRefs([], t) == 0 && PseudoRefs([], t) == 0
      {
        NoRefs(t);
      }
    }

    // ── Gradient side table ──

    ghost predicate TabOk()
      reads this
    {
      && (forall x :: x in gradTab ==> x < |mem| && gradTab[x].Length == |mem[x].data|)
      && (forall x, y :: x in gradTab && y in gradTab && x != y ==> gradTab[x] != gradTab[y])
    }

    ghost function Grads(): Gradients
      reads this, gradTab.Values
    {
      map x | x in gradTab :: gradTab[x][..]
    }

    // grad_or_zero: the tensor's buffer, created and zeroed on first use.
    method GradOrZero(t: Id) returns (g: array<real>)
      requires TabOk() && t < |mem|
      modifies this`gradTab
      ensures TabOk() && t in gradTab && gradTab[t] == g
      ensures gradTab == old(gradTab)[t := g]
      ensures if t in old(gradTab) then g == old(gradTab)[t] else fresh(g) && g[..] == Zeros(|mem[t].data|)
    {
      if t in gradTab {
        g := gradTab[t];
      } else {
        g := new real[|mem[t].data|](_ => 0.0);
        gradTab := gradTab[t := g];
      }
    }

    // ── One node of the sweep ──

    ghost predicate Ready(n: Node, d: seq<real>)
      reads this
    {
      && TabOk() && NodeInMemory(mem, n) && |d| == |mem[n.out].data|
      && TensorOk(mem[n.out])
    }

    // One accumulation into one operand's buffer.
    method AddSlot(n: Node, d: seq<real>, slot: nat)
      requires Ready(n, d) && n.op != Conv2D && FirstOrder(n.op)
      modifies this`gradTab, gradTab.Values
      ensures TabOk() && fresh(gradTab.Values - old(gradTab.Values))
      ensures Grads() == AccumulateSlot(mem, n, d, slot, old(Grads()))
    {
      hide NodeContribution, Plus, NodeInMemory, TensorOk;
      if Receives(mem, n, slot) {
        SlotInMemory(mem, n, slot);
        var x := InId(n, slot);
        ghost var G := Grads();
        var g := GradOrZero(x);
        label ready:
        ghost var before := g[..];
        RunRule(mem, n, d, slot, g);
        assert forall y :: y in gradTab && y != x ==> gradTab[y][..] == old@ready(gradTab[y][..]);
        SlotSize(mem, n, d, slot);
        assert before == if x in G then G[x] else Zeros(|mem[x].data|);
        assert Grads() == G[x := Plus(before, NodeContribution(mem, n, d, slot))];
      }
    }

    // The buffer of a slot that receives a gradient; null for one that does not.
    method OpenSlot(n: Node, slot: nat) returns (b: array?<real>)
      requires TabOk() && (Uses(n, slot) ==> InId(n, slot) < |mem|)
      modifies this`gradTab
      ensures TabOk() && fresh(gradTab.Values - old(gradTab.Values))
      ensures (b != null <==> Receives(mem, n, slot))
        && (b != null ==> InId(n, slot) in gradTab && gradTab[InId(n, slot)] == b)
      ensures forall y :: y in old(gradTab) ==> y in gradTab && gradTab[y] == old(gradTab)[y]
      ensures Grads() == Opened(mem, n, slot, old(Grads()))
    {
      hide Uses, Receives, Size;
      if Receives(mem, n, slot) {
        b := GradOrZero(InId(n, slot));
      } else {
        b := null;
      }
    }

    method OpenConv(n: Node) returns (b: GradBuffers.Buffers)
      requires TabOk() && n.op == Conv2D
      requires Uses(n, 0) && Uses(n, 1) && n.in0 < |mem| && n.in1.value < |mem| && (n.in2.Some? ==> n.in2.value < |mem|)
      modifies this`gradTab
      ensures TabOk() && fresh(gradTab.Values - old(gradTab.Values))
      ensures Serves(mem, n, b, gradTab)
      ensures Grads() == AllOpened(mem, n, old(Grads()))
    {
      hide Opened, Receives;
      var gx := OpenSlot(n, 0);
      var gk := OpenSlot(n, 1);
      var gb := OpenSlot(n, 2);
      b := GradBuffers.Buffers(gx, gk, gb);
    }

    // The nested loops on the buffers that exist.
    method FillConv(n: Node, d: seq<real>, b: GradBuffers.Buffers)
      requires Ready(n, d) && n.op == Conv2D && Serves(mem, n, b, gradTab) && GradientsSized(mem, Grads())
      modifies b.gx, b.gk, b.gb
      ensures TabOk() && ConvResult(mem, n, d, old(Grads()), Grads())
    {
      hide NodeContribution, NodeInMemory, TensorOk, GradBuffers.Holds, ConvKernel.OutParts, Receives, ConvResult;
      ConvSizes(mem, n, d);
      var x, k := OperandAt(mem, n, 0), OperandAt(mem, n, 1);
      var g := GeoOf(n, mem[n.out].shape, x.shape, k.shape);
      ghost var G1 := Grads();
      ghost var was := GradBuffers.Contents(b);
      ghost var none := GradBuffers.Parts(Zeros(|x.data|), Zeros(|k.data|), Zeros(|OperandAt(mem, n, 2).data|));
      GradBuffers.HoldsNothing(b, was, none);
      ConvKernel.ConvBackward(b, g, x.shape[0], x.data, k.data, d, was, none);
      ConvPartsAre(mem, n, d, none);
      ConvSettled(n, d, b, was, ConvKernel.OutParts(g, x.data, k.data, d, |d|, none), G1);
    }

    // CONV2D: grad_or_zero for the tracked operands, then the loops.
    method AddConv(n: Node, d: seq<real>)
      requires Ready(n, d) && n.op == Conv2D
      modifies this`gradTab, gradTab.Values
      ensures TabOk() && fresh(gradTab.Values - old(gradTab.Values))
      ensures Grads() == AllSlots(mem, n, d, old(Grads()))
    {
      hide NodeContribution, NodeInMemory, TensorOk, AllSlots, AllOpened, ConvResult;
      ghost var G := Grads();
      ConvSizes(mem, n, d);
      var b := OpenConv(n);
      FillConv(n, d, b);
      ConvResultIs(mem, n, d, G, Grads());
    }

    // What the buffers hold, seen as a gradient map.
    lemma ConvSettled(n: Node, d: seq<real>, b: GradBuffers.Buffers, was: GradBuffers.Parts, p: GradBuffers.Parts,
                      G1: Gradients)
      requires TabOk() && Serves(mem, n, b, gradTab)
      requires gradTab.Keys == G1.Keys && GradientsSized(mem, G1)
      requires Receives(mem, n, 0) ==> was.px == G1[InId(n, 0)]
      requires Receives(mem, n, 1) ==> was.pk == G1[InId(n, 1)]
      requires Receives(mem, n, 2) ==> was.pb == G1[InId(n, 2)]
      requires p.px == NodeContribution(mem, n, d, 0) && p.pk == NodeContribution(mem, n, d, 1)
      requires Receives(mem, n, 2) ==> p.pb == NodeContribution(mem, n, d, 2)
      requires GradBuffers.Holds(b, was, p)
      requires forall y :: y in gradTab && gradTab[y] != b.gx && gradTab[y] != b.gk && gradTab[y] != b.gb ==>
        gradTab[y][..] == G1[y]
      ensures ConvResult(mem, n, d, G1, Grads())
    {
      hide NodeContribution, NodeInMemory, Receives, Uses;
      var H := Grads();
      forall y | y in G1
        ensures |H[y]| == |G1[y]|
        ensures forall i :: 0 <= i < |G1[y]| ==>
          H[y][i] == G1[y][i] + SlotPart(mem, n, d, 0, y, i) + SlotPart(mem, n, d, 1, y, i)
            + SlotPart(mem, n, d, 2, y, i)
      {
        var a := gradTab[y];
        assert a == b.gx <==> Receives(mem, n, 0) && InId(n, 0) == y;
        assert a == b.gk <==> Receives(mem, n, 1) && InId(n, 1) == y;
        assert a == b.gb <==> Receives(mem, n, 2) && InId(n, 2) == y;
        if a == b.gx || a == b.gk || a == b.gb {
          assert GradBuffers.Mixed(a, G1[y], b, p);
        }
      }
    }

    // The branch of the backward pass for one node that has a gradient.
    method BackNode(n: Node, d: seq<real>)
      requires Ready(n, d) && FirstOrder(n.op)
      modifies this`gradTab, gradTab.Values
      ensures TabOk() && fresh(gradTab.Values - old(gradTab.Values))
      ensures Grads() == AllSlots(mem, n, d, old(Grads()))
    {
      hide AccumulateSlot, NodeInMemory;
      if n.op == Conv2D {
        AddConv(n, d);
      } else {
        AddSlot(n, d, 0);
        AddSlot(n, d, 1);
        AddSlot(n, d, 2);
      }
    }

    method SweepStep(n: Node)
      requires TabOk() && NodeInMemory(mem, n) && TensorOk(mem[n.out]) && FirstOrder(n.op)
      modifies this`gradTab, gradTab.Values
      ensures TabOk() && fresh(gradTab.Values - old(gradTab.Values))
      ensures Grads() == SweepNode(mem, n, old(Grads()))
    {
      hide NodeInMemory, AllSlots, SweepNode;
      ghost var G := Grads();
      SweepNodeIs(mem, n, G);
      if n.out in gradTab {
        NodeOut(mem, n);
        var d := gradTab[n.out][..];
        BackNode(n, d);
      }
    }

    method PlantSeed(root: Id)
      requires gradTab == map[] && root < |mem|
      modifies this`gradTab
      ensures TabOk() && fresh(gradTab.Values) && Grads() == Seed(mem, root)
    {
      var seed := new real[|mem[root].data|](_ => 1.0);
      gradTab := map[root := seed];
      assert seed[..] == Ones(|mem[root].data|);
    }

    // The sweep: from the head of the tape to its first node.
    method Sweep(root: Id)
      requires Valid() && root < |mem|
      modifies this`gradTab
      ensures Core() && TabOk() && Grads() == Backward(mem, tape, Seed(mem, root))
    {
      hide NodeInMemory, WellFormed, TensorOk, SweepNode, TapeRefs, PseudoRefs, Backward, Seed;
      PlantSeed(root);
      var k := |tape|;
      assert tape[..k] == tape;
      while k > 0
        invariant 0 <= k <= |tape|
        invariant Core() && TabOk() && fresh(gradTab.Values)
        invariant Backward(mem, tape[..k], Grads()) == Backward(mem, tape, Seed(mem, root))
      {
        BackwardStep(mem, tape, k, Grads());
        NodeReady(mem, tape, k - 1);
        SweepStep(tape[k - 1]);
        k := k - 1;
      }
      BackwardDone(mem, Grads());
      assert tape[..0] == [];
    }

    method FreeGrads()
      modifies this`gradTab
      ensures gradTab == map[]
    {
      gradTab := map[];
    }

    // plant_autograd_grad.
    method Grad(lossT: Option<Id>, lossD: real, w: Option<Id>, useTensor: bool, retain: bool) returns (r: GradResult)
      requires Valid()
      requires (w.Some? ==> w.value < |mem|) && (lossT.Some? ==> lossT.value < |mem|)
      modifies this
      ensures Valid() && mem == old(mem) && outside == old(outside)
      ensures r == GradSpec(old(mem), old(tape), lossT, lossD, w, useTensor, retain)
      ensures Answers(old(mem), old(tape), lossT, lossD, w, useTensor, retain, r)
      ensures if (r.Gradient? && retain) || r in {Failed(NullW), Failed(EmptyTape)} then
                tape == old(tape) && pseudo == old(pseudo) && refs == old(refs)
              else tape == [] && pseudo == [] && refs == outside
    {
      hide WellFormed, TensorOk, Backward, TapeRefs, PseudoRefs, Answers, LossMatches, FirstOrder, Seed;
      SpecAnswers(mem, tape, lossT, lossD, w, useTensor, retain);
      if w.None? { return Failed(NullW); }
      if !mem[w.value].tracked {
        Clear();
        return Failed(NotTracked);
      }
      if tape == [] { return Failed(EmptyTape); }
      var root;
      if useTensor && lossT.Some? {
        root := lossT.value;
      } else {
        var head := tape[|tape| - 1];
        root := head.out;
        if retain && IsScalarRoot(head) && !LossMatches(lossD, head.scalar) {
          Clear();
          FreeGrads();
          return Failed(LossMismatch);
        }
      }
      Sweep(root);
      if w.value !in gradTab {
        Clear();
        FreeGrads();
        return Failed(NotInGraph);
      }
      r := Gradient(mem[w.value].shape, gradTab[w.value][..]);
      if !retain {
        Clear();
      }
      FreeGrads();
    }

    // GRAD(loss, w) and its three-argument form.
    method GradRetain(lossD: real, w: Option<Id>, retain: bool) returns (r: GradResult)
      requires Valid() && (w.Some? ==> w.value < |mem|)
      modifies this
      ensures Valid() && mem == old(mem) && outside == old(outside)
      ensures r == GradSpec(old(mem), old(tape), None, lossD, w, false, retain)
      ensures Answers(old(mem), old(tape), None, lossD, w, false, retain, r)
      ensures if (r.Gradient? && retain) || r in {Failed(NullW), Failed(EmptyTape)} then
                tape == old(tape) && pseudo == old(pseudo) && refs == old(refs)
              else tape == [] && pseudo == [] && refs == outside
    {
      r := Grad(None, lossD, w, false, retain);
    }
  }

  lemma BackwardStep(mem: Memory, tape: seq<Node>, k: nat, G: Gradients)
    requires 0 < k <= |tape|
    ensures Backward(mem, tape[..k], G) == Backward(mem, tape[..k - 1], SweepNode(mem, tape[k - 1], G))
  {
    assert tape[..k][..k - 1] == tape[..k - 1];
  }

  lemma BackwardDone(mem: Memory, G: Gradients)
    ensures Backward(mem, [], G) == G
  {
  }

  lemma NodeOut(mem: Memory, n: Node)
    requires NodeInMemory(mem, n)
    ensures n.out < |mem|
  {
  }

  lemma NodeReady(mem: Memory, tape: seq<Node>, i: nat)
    requires WellFormed(mem, tape) && i < |tape|
    ensures NodeInMemory(mem, tape[i]) && tape[i].out < |mem|
  {
  }

  lemma SweepNodeIs(mem: Memory, n: Node, G: Gradients)
    ensures SweepNode(mem, n, G) == if n.out in G then AllSlots(mem, n, G[n.out], G) else G
  {
  }

  // A slot's gradient entry, created when missing.
  ghost function Opened(mem: Memory, n: Node, slot: nat, G: Gradients): Gradients {
    if Receives(mem, n, slot) && InId(n, slot) !in G then G[InId(n, slot) := Zeros(|OperandAt(mem, n, slot).data|)]
      else G
  }

  ghost function AllOpened(mem: Memory, n: Node, G: Gradients): Gradients {
    Opened(mem, n, 2, Opened(mem, n, 1, Opened(mem, n, 0, G)))
  }

  ghost predicate ServesSlot(mem: Memory, n: Node, slot: nat, b: array?<real>, tab: map<Id, array<real>>) {
    if Receives(mem, n, slot) then InId(n, slot) in tab && b == tab[InId(n, slot)] else b == null
  }

  ghost predicate Serves(mem: Memory, n: Node, b: GradBuffers.Buffers, tab: map<Id, array<real>>) {
    ServesSlot(mem, n, 0, b.gx, tab) && ServesSlot(mem, n, 1, b.gk, tab) && ServesSlot(mem, n, 2, b.gb, tab)
  }

  // The part a slot adds to tensor y.
  ghost function SlotPart(mem: Memory, n: Node, d: seq<real>, slot: nat, y: Id, i: int): real {
    GradBuffers.Part(Receives(mem, n, slot) && InId(n, slot) == y, NodeContribution(mem, n, d, slot), i)
  }

  // H is G1 with every slot's part added to the tensor it belongs to.
  ghost predicate ConvResult(mem: Memory, n: Node, d: seq<real>, G1: Gradients, H: Gradients) {
    && H.Keys == G1.Keys
    && forall y :: y in G1 ==> |H[y]| == |G1[y]| && forall i :: 0 <= i < |G1[y]| ==>
         H[y][i] == G1[y][i] + SlotPart(mem, n, d, 0, y, i) + SlotPart(mem, n, d, 1, y, i)
           + SlotPart(mem, n, d, 2, y, i)
  }

  // Gradient element of a tensor; a tensor without an entry reads as zero.
  ghost function ReadGrad(G: Gradients, y: Id, i: int): real { if y in G then At(G[y], i) else 0.0 }

  // Accumulating into a slot creates the same entry as opening it.
  lemma SlotEffect(mem: Memory, n: Node, d: seq<real>, slot: nat, G: Gradients)
    requires NodeInMemory(mem, n) && |d| == |mem[n.out].data| && GradientsSized(mem, G)
    ensures var H, O := AccumulateSlot(mem, n, d, slot, G), Opened(mem, n, slot, G);
      && GradientsSized(mem, H) && GradientsSized(mem, O)
      && H.Keys == O.Keys == G.Keys + (if Receives(mem, n, slot) then {InId(n, slot)} else {})
  {
    hide NodeContribution, NodeInMemory, Receives, Uses;
    if Receives(mem, n, slot) {
      SlotSize(mem, n, d, slot);
      assert OperandAt(mem, n, slot) == mem[InId(n, slot)];
    }
  }

  lemma ConvResultIs(mem: Memory, n: Node, d: seq<real>, G: Gradients, H: Gradients)
    requires NodeInMemory(mem, n) && |d| == |mem[n.out].data| && GradientsSized(mem, G)
    requires ConvResult(mem, n, d, AllOpened(mem, n, G), H)
    ensures H == AllSlots(mem, n, d, G)
  {
    hide NodeInMemory, SlotPart, AllSlots, AllOpened;
    var A, O := AllSlots(mem, n, d, G), AllOpened(mem, n, G);
    ConvKeys(mem, n, d, G);
    forall y | y in H
      ensures H[y] == A[y]
    {
      forall i | 0 <= i < |H[y]|
        ensures H[y][i] == A[y][i]
      {
        ConvRead(mem, n, d, G, y, i);
      }
    }
  }

  lemma ConvKeys(mem: Memory, n: Node, d: seq<real>, G: Gradients)
    requires NodeInMemory(mem, n) && |d| == |mem[n.out].data| && GradientsSized(mem, G)
    ensures AllSlots(mem, n, d, G).Keys == AllOpened(mem, n, G).Keys
    ensures GradientsSized(mem, AllSlots(mem, n, d, G)) && GradientsSized(mem, AllOpened(mem, n, G))
  {
    hide NodeInMemory, Receives, SlotPart, AccumulateSlot, Opened, GradientsSized, ReadGrad;
    var A0, O0 := AccumulateSlot(mem, n, d, 0, G), Opened(mem, n, 0, G);
    SlotEffect(mem, n, d, 0, G);
    SlotEffect(mem, n, d, 1, A0);
    SlotEffect(mem, n, d, 1, O0);
    SlotEffect(mem, n, d, 2, AccumulateSlot(mem, n, d, 1, A0));
    SlotEffect(mem, n, d, 2, Opened(mem, n, 1, O0));
  }

  lemma ConvRead(mem: Memory, n: Node, d: seq<real>, G: Gradients, y: Id, i: int)
    requires NodeInMemory(mem, n) && |d| == |mem[n.out].data| && GradientsSized(mem, G)
    ensures ReadGrad(AllSlots(mem, n, d, G), y, i)
         == ReadGrad(AllOpened(mem, n, G), y, i) + SlotPart(mem, n, d, 0, y, i) + SlotPart(mem, n, d, 1, y, i)
           + SlotPart(mem, n, d, 2, y, i)
  {
    hide NodeInMemory, Receives, SlotPart, AccumulateSlot, Opened, GradientsSized, ReadGrad;
    var A0, O0 := AccumulateSlot(mem, n, d, 0, G), Opened(mem, n, 0, G);
    var A1, O1 := AccumulateSlot(mem, n, d, 1, A0), Opened(mem, n, 1, O0);
    SlotEffect(mem, n, d, 0, G);
    SlotEffect(mem, n, d, 1, A0);
    ReadSlot(mem, n, d, 0, G, y, i);
    ReadSlot(mem, n, d, 1, A0, y, i);
    ReadSlot(mem, n, d, 2, A1, y, i);
    ReadOpened(mem, n, 0, G, y, i);
    ReadOpened(mem, n, 1, O0, y, i);
    ReadOpened(mem, n, 2, O1, y, i);
  }

  lemma ReadOpened(mem: Memory, n: Node, slot: nat, G: Gradients, y: Id, i: int)
    ensures ReadGrad(Opened(mem, n, slot, G), y, i) == ReadGrad(G, y, i)
  {
  }

  lemma ReadSlot(mem: Memory, n: Node, d: seq<real>, slot: nat, G: Gradients, y: Id, i: int)
    requires NodeInMemory(mem, n) && |d| == |mem[n.out].data| && GradientsSized(mem, G)
    ensures ReadGrad(AccumulateSlot(mem, n, d, slot, G), y, i) == ReadGrad(G, y, i) + SlotPart(mem, n, d, slot, y, i)
  {
    hide NodeInMemory, Receives, Uses, NodeContribution;
    if Receives(mem, n, slot) {
      SlotSize(mem, n, d, slot);
    }
  }

  // All three slots in order.
  ghost function AllSlots(mem: Memory, n: Node, d: seq<real>, G: Gradients): Gradients {
    AccumulateSlot(mem, n, d, 2, AccumulateSlot(mem, n, d, 1, AccumulateSlot(mem, n, d, 0, G)))
  }

  lemma ConvSizes(mem: Memory, n: Node, d: seq<real>)
    requires NodeInMemory(mem, n) && n.op == Conv2D && |d| == |mem[n.out].data|
    ensures n.out < |mem| && Uses(n, 0) && Uses(n, 1) && n.in0 < |mem| && n.in1.value < |mem|
    ensures (n.in2.Some? ==> n.in2.value < |mem|)
    ensures var x, k := OperandAt(mem, n, 0), OperandAt(mem, n, 1);
      var g := GeoOf(n, mem[n.out].shape, x.shape, k.shape);
      && |x.shape| == 4
      && |x.data| == x.shape[0] * g.cin * g.hh * g.ww && |k.data| == g.co * g.cin * g.kh * g.kw
      && |d| == x.shape[0] * g.co * g.ho * g.wo
      && (n.in2.Some? ==> |mem[n.in2.value].data| == g.co)
  {
    ConvRule.Size4(OperandAt(mem, n, 0).shape);
    ConvRule.Size4(OperandAt(mem, n, 1).shape);
    ConvRule.Size4(mem[n.out].shape);
    if n.in2.Some? {
      assert Uses(n, 2);
      assert Size(mem[n.in2.value].shape[1..]) == 1;
    }
  }

  lemma ConvPartsAre(mem: Memory, n: Node, d: seq<real>, none: GradBuffers.Parts)
    requires n.op == Conv2D
    requires none.px == Zeros(|OperandAt(mem, n, 0).data|)
    requires none.pk == Zeros(|OperandAt(mem, n, 1).data|)
    requires none.pb == Zeros(|OperandAt(mem, n, 2).data|)
    ensures var x, k := OperandAt(mem, n, 0), OperandAt(mem, n, 1);
      var p := ConvKernel.OutParts(GeoOf(n, OutShape(mem, n), x.shape, k.shape), x.data, k.data, d, |d|, none);
      p == GradBuffers.Parts(NodeContribution(mem, n, d, 0), NodeContribution(mem, n, d, 1),
        NodeContribution(mem, n, d, 2))
  {
  }

  lemma NoRefs(t: Id)
    ensures TapeRefs([], t) == 0 && PseudoRefs([], t) == 0
  {
  }

  lemma TapeRefsSnoc(tape: seq<Node>, n: Node, t: Id)
    ensures TapeRefs(tape + [n], t) == TapeRefs(tape, t) + NodeRefs(n, t)
  {
    assert (tape + [n])[..|tape|] == tape;
  }

  lemma PseudoRefsSnoc(pseudo: seq<Id>, p: Id, t: Id)
    ensures PseudoRefs(pseudo + [p], t) == PseudoRefs(pseudo, t) + One(p == t)
  {
    assert (pseudo + [p])[..|pseudo|] == pseudo;
  }

  lemma PopTape(tape: seq<Node>)
    requires tape != []
    ensures forall t: Id :: TapeRefs(tape, t) == TapeRefs(tape[..|tape| - 1], t) + NodeRefs(tape[|tape| - 1], t)
  {
  }

  lemma PopPseudo(pseudo: seq<Id>)
    requires pseudo != []
    ensures forall t: Id ::
      PseudoRefs(pseudo, t) == PseudoRefs(pseudo[..|pseudo| - 1], t) + One(pseudo[|pseudo| - 1] == t)
  {
  }

  lemma Extended(mem: Memory, tape: seq<Node>, n: Node)
    requires WellFormed(mem, tape) && NodeInMemory(mem, n) && Fresh(tape, n)
    ensures WellFormed(mem, tape + [n])
  {
    hide NodeInMemory, Fresh;
    var longer := tape + [n];
    forall i | 0 <= i < |longer|
      ensures NodeInMemory(mem, longer[i]) && Fresh(longer[..i], longer[i])
    {
      if i < |tape| {
        assert longer[..i] == tape[..i];
      } else {
        assert longer[..i] == tape;
      }
    }
  }

  // The placeholder of a scalar reduction is a fresh one-element result.
  lemma PlaceholderNode(before: Memory, mem: Memory, tape: seq<Node>, n: Node)
    requires mem == before + [Tensor([1], [0.0], true)]
    requires n.op == SumAll || n.op == MeanAll
    requires n.in0 < |before| && TensorOk(before[n.in0]) && n.out == |before|
    requires forall i :: 0 <= i < |tape| ==> NodeIds(tape[i], |before|)
    ensures NodeInMemory(mem, n) && Fresh(tape, n)
  {
    assert Size([1][1..]) == 1;
  }

  lemma SlotInMemory(mem: Memory, n: Node, slot: nat)
    requires NodeInMemory(mem, n) && Uses(n, slot)
    ensures InId(n, slot) < |mem|
  {
  }

  lemma SlotSize(mem: Memory, n: Node, d: seq<real>, slot: nat)
    requires NodeInMemory(mem, n) && |d| == |mem[n.out].data| && Uses(n, slot)
    ensures InId(n, slot) < |mem| && |NodeContribution(mem, n, d, slot)| == |mem[InId(n, slot)].data|
  {
    ContributionSize(mem, n, d, slot);
  }

  ghost predicate RuleReady(n: Node, os: Shape, x0: Tensor, x1: Tensor, x2: Tensor, d: seq<real>, slot: nat,
                            g: array<real>) {
    && NodeOk(n, os, x0, x1, x2) && |d| == Size(os) && |os| <= Kernels.MAX_DIMS && Uses(n, slot)
    && g.Length == |if slot == 0 then x0.data else if slot == 1 then x1.data else x2.data|
  }

  // ADD, SUB, MUL, DIV: reduce onto the operand's shape.
  method RunBroadcast(n: Node, os: Shape, x0: Tensor, x1: Tensor, x2: Tensor, d: seq<real>, slot: nat, g: array<real>)
    requires RuleReady(n, os, x0, x1, x2, d, slot, g)
    requires n.op == Add || n.op == Sub || n.op == Mult || n.op == Div
    modifies g
    ensures g[..] == Plus(old(g[..]), Contribution(n, os, x0, x1, x2, d, slot))
  {
    hide Plus, ReduceTo, Spread, DivAData, DivBData, Compatible, Size, Times, ScaleBy;
    if n.op == Add {
      Kernels.AccReduced(g, if slot == 0 then x0.shape else x1.shape, d, os, 1.0);
      Kernels.ScaleByOne(ReduceTo(if slot == 0 then x0.shape else x1.shape, os, d));
    } else if n.op == Sub {
      Kernels.AccReduced(g, if slot == 0 then x0.shape else x1.shape, d, os, if slot == 0 then 1.0 else -1.0);
      Kernels.ScaleByOne(ReduceTo(x0.shape, os, d));
    } else if n.op == Mult {
      if slot == 0 {
        Kernels.AccReducedMul(g, x0.shape, d, os, x1);
      } else {
        Kernels.AccReducedMul(g, x1.shape, d, os, x0);
      }
    } else {
      if slot == 0 {
        Kernels.AccReducedDivA(g, x0.shape, d, os, x1);
      } else {
        Kernels.AccReducedDivB(g, x1.shape, d, os, x0, x1);
      }
    }
  }

  // SCALE, RELU, RESHAPE, SUM, MEAN: one loop over the buffer.
  method RunElementwise(n: Node, os: Shape, x0: Tensor, x1: Tensor, x2: Tensor, d: seq<real>, slot: nat, g: array<real>)
    requires RuleReady(n, os, x0, x1, x2, d, slot, g)
    requires n.op == Scale || n.op == Relu || n.op == Reshape || n.op == SumAll || n.op == MeanAll
    modifies g
    ensures g[..] == Plus(old(g[..]), Contribution(n, os, x0, x1, x2, d, slot))
  {
    hide Plus, ScaleBy, Times, ReluMask, Mul;
    if n.op == SumAll || n.op == MeanAll {
      assert Size([1][1..]) == 1;
      ghost var was := g[..];
      Kernels.AccTotal(g, n.op, d);
      assert Contribution(n, os, x0, x1, x2, d, slot)
          == seq(g.Length, _ => if n.op == SumAll then At(d, 0) else Mul(At(d, 0), Inv(g.Length)));
    } else {
      Kernels.AccElementwise(g, n.op, d, n.scalar, x0.data);
    }
  }

  // MATMUL and TRANSPOSE.
  method RunMatrix(n: Node, os: Shape, x0: Tensor, x1: Tensor, x2: Tensor, d: seq<real>, slot: nat, g: array<real>)
    requires RuleReady(n, os, x0, x1, x2, d, slot, g)
    requires n.op == MatMul || n.op == Transpose
    modifies g
    ensures g[..] == Plus(old(g[..]), Contribution(n, os, x0, x1, x2, d, slot))
  {
    hide Plus, MatAData, MatBData;
    Size2(os);
    Size2(x0.shape);
    if n.op == Transpose {
      Kernels.MulCommInt(x0.shape[0], x0.shape[1]);
      Kernels.AccTranspose(g, x0.shape[0], x0.shape[1], d);
      assert Contribution(n, os, x0, x1, x2, d, slot) == Gather(g.Length, q => Swap(x0.shape[1], x0.shape[0], q), d);
    } else {
      Size2(x1.shape);
      var m, k, p := x0.shape[0], x0.shape[1], x1.shape[1];
      if slot == 0 {
        Kernels.AccMatA(g, d, x1.data, m, k, p);
      } else {
        Kernels.AccMatB(g, x0.data, d, m, k, p);
      }
    }
  }

  // SUMAXIS, MEANAXIS, VARAXIS.
  method RunAxis(n: Node, os: Shape, x0: Tensor, x1: Tensor, x2: Tensor, d: seq<real>, slot: nat, g: array<real>)
    requires RuleReady(n, os, x0, x1, x2, d, slot, g)
    requires n.op == SumAxis || n.op == MeanAxis || n.op == VarAxis
    modifies g
    ensures g[..] == Plus(old(g[..]), Contribution(n, os, x0, x1, x2, d, slot))
  {
    hide Plus, AxisData;
    var axis := AxisOf(n);
    var red := x0.shape[axis];
    var outer := AxisKernel.Extent(x0.shape, 0, axis);
    var inner := AxisKernel.Extent(x0.shape, axis + 1, |x0.shape|);
    assert x0.shape[0..axis] == x0.shape[..axis] && x0.shape[axis + 1..|x0.shape|] == x0.shape[axis + 1..];
    SizeSplit(x0.shape, axis);
    AxisKernel.AccAxis(g, n.op, x0.data, outer, red, inner, d);
  }

  // The loops of the node's backward branch for one operand.
  method RunRule(mem: Memory, n: Node, d: seq<real>, slot: nat, g: array<real>)
    requires NodeInMemory(mem, n) && |d| == |mem[n.out].data| && Uses(n, slot)
    requires n.op != Conv2D && FirstOrder(n.op)
    requires g.Length == |mem[InId(n, slot)].data|
    requires TensorOk(mem[n.out])
    modifies g
    ensures g[..] == Plus(old(g[..]), NodeContribution(mem, n, d, slot))
  {
    hide Plus, Contribution, NodeOk;
    var x0, x1, x2 := OperandAt(mem, n, 0), OperandAt(mem, n, 1), OperandAt(mem, n, 2);
    var os := mem[n.out].shape;
    assert Uses(n, 0);
    if n.op == Add || n.op == Sub || n.op == Mult || n.op == Div {
      RunBroadcast(n, os, x0, x1, x2, d, slot, g);
    } else if n.op == MatMul || n.op == Transpose {
      RunMatrix(n, os, x0, x1, x2, d, slot, g);
    } else if n.op == SumAxis || n.op == MeanAxis || n.op == VarAxis {
      RunAxis(n, os, x0, x1, x2, d, slot, g);
    } else {
      RunElementwise(n, os, x0, x1, x2, d, slot, g);
    }
  }

  // Nothing recorded so far refers to the next tensor.
  lemma {:induction false} Unreferenced(tape: seq<Node>, pseudo: seq<Id>, t: Id)
    requires forall i :: 0 <= i < |tape| ==> NodeIds(tape[i], t)
    requires forall i :: 0 <= i < |pseudo| ==> pseudo[i] < t
    ensures TapeRefs(tape, t) == 0 && PseudoRefs(pseudo, t) == 0
  {
    if tape != [] {
      Unreferenced(tape[..|tape| - 1], pseudo, t);
    } else if pseudo != [] {
      Unreferenced(tape, pseudo[..|pseudo| - 1], t);
    }
  }

  // A well-formed tape stays well formed when memory grows.
  lemma GrowMemory(mem: Memory, mem': Memory, tape: seq<Node>)
    requires WellFormed(mem, tape) && mem <= mem'
    ensures WellFormed(mem', tape)
  {
    hide NodeOk, Fresh;
    forall i | 0 <= i < |tape|
      ensures NodeInMemory(mem', tape[i]) && Fresh(tape[..i], tape[i])
    {
      var n := tape[i];
      assert NodeInMemory(mem, n);
      forall slot: nat
        ensures OperandAt(mem', n, slot) == OperandAt(mem, n, slot)
      {
      }
    }
  }
}
