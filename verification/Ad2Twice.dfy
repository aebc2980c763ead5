// GRAD_HO of GRAD_HO: the whole run, from the forward program to the second derivative.
module Ad2Twice {
  import opened Options
  import opened Arith
  import opened Shapes
  import opened Sums
  import opened Tape
  import opened Rules
  import opened NodeRule
  import opened Adjoint
  import opened Sweep
  import opened DualRun
  import opened Ad2Rule
  import opened Ad2
  import opened Ad2Tape
  import opened Ad2Pass
  import opened Ad2Sound
  import opened Ad2Second
  import opened Ad2Cover

  // ── The forward program ──

  // A forward operation is recorded if it reads a tracked tensor, and its result is
  // then tracked; the placeholder of a scalar reduction is not.
  ghost predicate Ruled(mem: Memory, steps: seq<Step>) {
    forall i, x: Id :: 0 <= i < |steps| && Reads(steps[i].node, x) && x < |mem| && mem[x].tracked ==>
      steps[i].recorded && (ScalarRoot(steps[i].node) || (steps[i].node.out < |mem| && mem[steps[i].node.out].tracked))
  }

  // The frame holds the recorded part of the program, its head first.
  ghost predicate Program(mem: Memory, steps: seq<Step>, nodes: seq<Node>) {
    && Sound(Ungated(mem), AllNodes(steps)) && Ruled(mem, steps)
    && nodes != [] && Reversed(nodes) == Taped(steps)
    && forall i :: 0 <= i < |nodes| ==> Walkable(Ungated(mem), nodes[i])
  }

  ghost predicate Placed(steps: seq<Step>, x: Id) {
    exists i :: 0 <= i < |steps| && ScalarRoot(steps[i].node) && steps[i].node.out == x
  }

  lemma NodeStep(mem: Memory, steps: seq<Step>, nodes: seq<Node>, i: nat)
    requires Program(mem, steps, nodes) && i < |nodes|
    ensures exists j :: 0 <= j < |steps| && steps[j].recorded && steps[j].node == nodes[i]
    ensures NodeSound(Ungated(mem), nodes[i]) && forall x :: Reads(nodes[i], x) ==> !Placed(steps, x)
  {
    hide Reads, NodeSound, Walkable, Ruled;
    var k := |nodes| - 1 - i;
    assert Taped(steps)[k] == nodes[i];
    TapedFrom(steps, k);
    var j :| 0 <= j < |steps| && steps[j].recorded && Taped(steps)[k] == steps[j].node;
    assert AllNodes(steps)[j] == nodes[i];
    forall x, m | Reads(nodes[i], x) && 0 <= m < |steps| && ScalarRoot(steps[m].node)
      ensures steps[m].node.out != x
    {
      assert AllNodes(steps)[m] == steps[m].node;
    }
  }

  lemma HeadIsLast(mem: Memory, steps: seq<Step>, nodes: seq<Node>, i: nat)
    requires Program(mem, steps, nodes) && 0 < i < |nodes|
    ensures nodes[i].out < nodes[0].out
  {
    hide NodeSound, Reads, Walkable, Ruled;
    TapedSound(Ungated(mem), steps);
    var tape := Taped(steps);
    assert tape[|nodes| - 1 - i] == nodes[i] && tape[|nodes| - 1] == nodes[0];
  }

  lemma ReadsUnplaced(mem: Memory, steps: seq<Step>, i: nat, x: Id)
    requires Sound(Ungated(mem), AllNodes(steps)) && i < |steps| && Reads(steps[i].node, x)
    ensures !Placed(steps, x)
  {
    hide NodeSound, Reads;
    forall m | 0 <= m < |steps| && ScalarRoot(steps[m].node)
      ensures steps[m].node.out != x
    {
      assert AllNodes(steps)[m] == steps[m].node && AllNodes(steps)[i] == steps[i].node;
    }
  }

  // What depends on w is tracked, placeholders aside.
  lemma {:induction false} DependentTracked(mem: Memory, steps: seq<Step>, w: Id, k: nat)
    requires Sound(Ungated(mem), AllNodes(steps)) && Ruled(mem, steps) && w < |mem| && mem[w].tracked && k <= |steps|
    ensures forall x :: x in Dependent(AllNodes(steps)[..k], {w}) ==> x < |mem| && (mem[x].tracked || Placed(steps, x))
  {
    hide NodeSound, Reads;
    if k > 0 {
      DependentTracked(mem, steps, w, k - 1);
      var nodes := AllNodes(steps);
      assert nodes[..k][..k - 1] == nodes[..k - 1] && nodes[..k][k - 1] == nodes[k - 1] == steps[k - 1].node;
      var D, n := Dependent(nodes[..k - 1], {w}), steps[k - 1].node;
      SoundInMemory(mem, nodes, k - 1);
      if ReadsSome(n, D) {
        var x :| x in D && Reads(n, x);
        ReadsUnplaced(mem, steps, k - 1, x);
      }
    }
  }

  lemma SeededFacts(mem: Memory, steps: seq<Step>, root: Id, S: set<Id>)
    requires Sound(Ungated(mem), AllNodes(steps)) && root < |mem| && forall x :: x in S ==> x < |mem|
    ensures var b, p := Pass(mem, steps, map[]), Seeded(mem, steps, root);
      Ready(p, |steps|) && Onward(b, p) && Steady(b, p, S) && Fair(p, S, |steps|, root) && SeedFree(p, S, root) &&
      p.grads.Keys == {root} && !TrackedAt(p.mem, Some(p.grads[root])) && p.steps == steps
  {
    var b, p := Pass(mem, steps, map[]), Seeded(mem, steps, root);
    SeededReady(mem, steps, root);
    ClosedLog(mem, steps, S);
    SeededFair(mem, steps, root, S);
  }

  lemma SeededReady(mem: Memory, steps: seq<Step>, root: Id)
    requires Sound(Ungated(mem), AllNodes(steps)) && root < |mem|
    ensures var b, p := Pass(mem, steps, map[]), Seeded(mem, steps, root); Ready(p, |steps|) && Onward(b, p)
  {
    hide Sound, Usable, Create, Sure;
    var b, p := Pass(mem, steps, map[]), Seeded(mem, steps, root);
    var s := mem[root].shape;
    SureEmpty(b);
    CreateSure(b, |steps|, s, Ones(Size(s)));
    CreateKeeps(b, s, Ones(Size(s)));
    var z := Create(b, s, Ones(Size(s)));
    KeptShape(b, z.p, root);
    SureGrads(z.p, |steps|, map[root := |mem|]);
  }

  lemma SureEmpty(b: Pass)
    requires SoundPass(b)
    ensures Sure(b, |b.steps|)
  {
  }

  lemma ClosedLog(mem: Memory, steps: seq<Step>, S: set<Id>)
    requires Sound(Ungated(mem), AllNodes(steps)) && forall x :: x in S ==> x < |mem|
    ensures Closed(Pass(mem, steps, map[]), S)
  {
    hide Reads;
    forall i | 0 <= i < |steps|
      ensures steps[i].node.out < |mem| && forall x: Id :: Reads(steps[i].node, x) ==> x < |mem|
    {
      SoundInMemory(mem, AllNodes(steps), i);
      assert NodeSound(Ungated(mem), AllNodes(steps)[i]);
    }
  }

  lemma SeededFair(mem: Memory, steps: seq<Step>, root: Id, S: set<Id>)
    requires Closed(Pass(mem, steps, map[]), S) && root < |mem|
    ensures var b, p := Pass(mem, steps, map[]), Seeded(mem, steps, root);
      Steady(b, p, S) && Fair(p, S, |steps|, root) && SeedFree(p, S, root) && !TrackedAt(p.mem, Some(p.grads[root]))
  {
    hide Dependent, Reads, ReadsSome;
    var b, p := Pass(mem, steps, map[]), Seeded(mem, steps, root);
    DependentBelow(b, S);
    assert Deps(p, S) == Deps(b, S);
  }

  lemma ProgramEligible(mem: Memory, steps: seq<Step>, nodes: seq<Node>, w: Id, i: nat)
    requires Program(mem, steps, nodes) && w < |mem| && mem[w].tracked && i < |nodes|
    ensures Eligible(Pass(mem, steps, map[]), {w}, nodes[i])
  {
    hide Walkable, Dependent, Placed, Sound, Ruled;
    var n := nodes[i];
    NodeStep(mem, steps, nodes, i);
    DependentTracked(mem, steps, w, |steps|);
    assert AllNodes(steps)[..|steps|] == AllNodes(steps);
    OperandTrusted(mem, steps, w, n, n.in0);
    if Uses(n, 1) { OperandTrusted(mem, steps, w, n, n.in1.value); }
  }

  lemma OperandTrusted(mem: Memory, steps: seq<Step>, w: Id, n: Node, x: Id)
    requires NodeSound(Ungated(mem), n) && (forall y :: Reads(n, y) ==> !Placed(steps, y))
    requires x == n.in0 || (Uses(n, 1) && x == n.in1.value)
    requires forall y :: y in Dependent(AllNodes(steps), {w}) ==> y < |mem| && (mem[y].tracked || Placed(steps, y))
    ensures var b := Pass(mem, steps, map[]); Good(b, Some(x)) && Honest(b, {w}, Some(x)) && x < |mem|
  {
    hide Dependent;
    assert InId(n, 0) == n.in0;
    if x != n.in0 { assert InId(n, 1) == x; }
    assert Reads(n, x);
  }

  lemma ProgramHead(mem: Memory, steps: seq<Step>, nodes: seq<Node>, S: set<Id>)
    requires Program(mem, steps, nodes) && nodes[0].out < |mem|
    requires var p := Seeded(mem, steps, nodes[0].out);
      SeedFree(p, S, nodes[0].out) && !TrackedAt(p.mem, Some(p.grads[nodes[0].out]))
    ensures HeadOnly(Seeded(mem, steps, nodes[0].out), S, nodes, nodes[0].out)
  {
    hide Program, SeedFree, Reads, Placed, NodeSound;
    forall i | 0 < i < |nodes|
      ensures nodes[i].out != nodes[0].out
    {
      HeadIsLast(mem, steps, nodes, i);
    }
    forall i, j | 0 <= i < |nodes| && 0 <= j < |nodes| && ScalarRoot(nodes[i])
      ensures nodes[i].out !in ReadIds(nodes[j])
    {
      NodeStep(mem, steps, nodes, i);
      NodeStep(mem, steps, nodes, j);
      PlacedNode(steps, nodes[i]);
      ReadIdsRead(nodes[j]);
    }
  }

  lemma PlacedNode(steps: seq<Step>, n: Node)
    requires ScalarRoot(n) && exists j :: 0 <= j < |steps| && steps[j].recorded && steps[j].node == n
    ensures Placed(steps, n.out)
  {
  }

  lemma ReadIdsRead(n: Node)
    ensures forall x :: x in ReadIds(n) ==> Reads(n, x)
  {
    assert InId(n, 0) == n.in0;
    if Uses(n, 1) { assert InId(n, 1) == n.in1.value; }
  }

  // The first GRAD_HO goes through, its log is sound, and it records everything it
  // computes from w if and only if no node the root leads to is lossy.
  lemma PassCovers(mem: Memory, steps: seq<Step>, nodes: seq<Node>, w: Id)
    requires Program(mem, steps, nodes) && w < |mem| && mem[w].tracked
    ensures nodes[0].out < |mem|
    ensures var root := nodes[0].out;
      var b, r := Pass(mem, steps, map[]), RunNodes(Seeded(mem, steps, root), nodes);
      r.Ran? && Ready(r.p, |steps|) && Onward(b, r.p) && r.p.grads.Keys == Live(nodes, {root}) &&
      (Covered(r.p.steps, {w}) <==> !LossyIn(mem, nodes, {root}, Dependent(AllNodes(steps), {w}), root))
  {
    hide Program, Ready, Onward, Steady, Fair, SeedFree, Eligible, HeadOnly, Dependent, NodeSound, LossyIn, Closed,
         Covered, Sound, Ruled, Placed, Seeded, Live, CoveredFrom, SoundPass;
    hide RunNodes;
    ProgramSound(mem, steps, nodes);
    NodeStep(mem, steps, nodes, 0);
    HeadInMemory(mem, nodes[0]);
    var root, S := nodes[0].out, {w};
    var b, p := Pass(mem, steps, map[]), Seeded(mem, steps, root);
    SeededFacts(mem, steps, root, S);
    ProgramHead(mem, steps, nodes, S);
    forall i | 0 <= i < |nodes|
      ensures Eligible(b, S, nodes[i])
    {
      ProgramEligible(mem, steps, nodes, w, i);
    }
    NodesCover(b, p, S, |steps|, nodes, root);
    EligibleWalks(b, p, S, nodes);
    NodesRun(p, |steps|, nodes);
    var q := RunNodes(p, nodes).p;
    OnwardTwice(b, p, q);
    ReadyParts(q, |steps|);
    OnwardSteps(b, q);
    CoveredWhole(mem, steps, q, w);
  }

  lemma ProgramSound(mem: Memory, steps: seq<Step>, nodes: seq<Node>)
    requires Program(mem, steps, nodes)
    ensures Sound(Ungated(mem), AllNodes(steps)) && Ruled(mem, steps) && nodes != []
  {
  }

  lemma HeadInMemory(mem: Memory, n: Node)
    requires NodeSound(Ungated(mem), n)
    ensures n.out < |mem|
  {
  }

  lemma EligibleWalks(b: Pass, p: Pass, S: set<Id>, nodes: seq<Node>)
    requires Onward(b, p) && forall i :: 0 <= i < |nodes| ==> Eligible(b, S, nodes[i])
    ensures forall i :: 0 <= i < |nodes| ==> Walkable(Ungated(p.mem), nodes[i]) && Operands(p, nodes[i])
  {
    hide Walkable, Operands, Onward, Trusted;
    forall i | 0 <= i < |nodes|
      ensures Walkable(Ungated(p.mem), nodes[i]) && Operands(p, nodes[i])
    {
      assert Eligible(b, S, nodes[i]);
      WalkableKept(b, p, nodes[i]);
    }
  }

  // The forward program itself leaves nothing unrecorded that depends on w.
  lemma CoveredWhole(mem: Memory, steps: seq<Step>, q: Pass, w: Id)
    requires Sound(Ungated(mem), AllNodes(steps)) && Ruled(mem, steps) && w < |mem| && mem[w].tracked
    requires steps <= q.steps && SoundPass(q)
    ensures Covered(q.steps, {w}) <==> CoveredFrom(q, {w}, |steps|)
  {
    hide Sound, Reads;
    forall i | 0 <= i < |steps| && !steps[i].recorded
      ensures !ReadsSome(steps[i].node, Deps(q, {w}))
    {
      ForwardCovered(mem, steps, q, w, i);
    }
  }

  lemma ForwardCovered(mem: Memory, steps: seq<Step>, q: Pass, w: Id, i: nat)
    requires Sound(Ungated(mem), AllNodes(steps)) && Ruled(mem, steps) && w < |mem| && mem[w].tracked
    requires steps <= q.steps && SoundPass(q) && i < |steps| && !steps[i].recorded
    ensures !ReadsSome(steps[i].node, Deps(q, {w}))
  {
    hide NodeSound, Reads;
    var n, all := steps[i].node, AllNodes(q.steps);
    assert all[i] == n == AllNodes(steps)[i];
    assert NodeSound(Ungated(q.mem), all[i]);
    SoundInMemory(mem, AllNodes(steps), i);
    DependentTracked(mem, steps, w, i);
    assert all[..i] == AllNodes(steps)[..i];
    forall x | Reads(n, x)
      ensures x !in Deps(q, {w})
    {
      ReadsBelow(Ungated(q.mem), n, x);
      DependentEarly(Ungated(q.mem), all, {w}, i, x);
      ReadsUnplaced(mem, steps, i, x);
    }
  }

  // Whether a tensor older than a node's result depends on S is settled before the node.
  lemma {:induction false} DependentEarly(M: Memory, nodes: seq<Node>, S: set<Id>, i: nat, x: Id)
    requires Sound(M, nodes) && i < |nodes| && x < nodes[i].out
    ensures x in Dependent(nodes, S) <==> x in Dependent(nodes[..i], S)
    decreases |nodes|
  {
    hide NodeSound, Reads, ReadsSome;
    var last := |nodes| - 1;
    var rest := nodes[..last];
    SoundPrefix(M, nodes, last);
    if i < last {
      assert rest[..i] == nodes[..i];
      DependentEarly(M, rest, S, i, x);
    }
  }

  // ── The total of a gradient, and the second pass ──

  lemma TotalNodeSound(M: Memory, x: Id, s: real)
    requires x < |M| && |M[x].data| == Size(M[x].shape)
    ensures var n := Node(SumAll, x, None, None, s, |M|, 0, 0);
      var M' := M + [Tensor([1], [0.0], true)];
      NodeSound(M', n) && Regular(M', n) && (forall y :: Reads(n, y) <==> y == x) && OperandAt(M', n, 0) == M[x]
  {
    var n := Node(SumAll, x, None, None, s, |M|, 0, 0);
    assert InId(n, 0) == x;
    assert Size([1]) == 1 by { assert Size([1][1..]) == 1; }
  }

  lemma TotalSound(p: Pass, k: nat, x: Id)
    requires Sure(p, k) && k <= |p.steps| && Usable(p, x)
    ensures var q := Totalled(p, x); Sure(q, k) && Onward(p, q)
  {
    hide NodeSound, Reads, Regular, Sound;
    if p.mem[x].tracked {
      var q := Totalled(p, x);
      var M, M', n := Ungated(p.mem), Ungated(q.mem), q.steps[|p.steps|].node;
      UngatedGrow(p.mem, q.mem[|p.mem|]);
      SizedAt(p, x);
      TotalNodeSound(M, x, n.scalar);
      NodesGrow(p.steps, q.steps[|p.steps|]);
      SoundExtend(M, M', AllNodes(p.steps), n);
      forall i | k <= i < |q.steps|
        ensures Regular(M', q.steps[i].node)
      {
        if i < |p.steps| { SoundAt(M, AllNodes(p.steps), i); NodeKept(M, M', p.steps[i].node); }
      }
      TotalOnward(p, x);
    }
  }

  lemma SizedAt(p: Pass, x: Id)
    requires SoundPass(p) && x < |p.mem|
    ensures Ungated(p.mem)[x] == p.mem[x].(tracked := true) && |p.mem[x].data| == Size(p.mem[x].shape)
  {
    hide NodeSound, Reads;
    LeafSized(p.mem, AllNodes(p.steps), x);
  }

  lemma TotalOnward(p: Pass, x: Id)
    requires SoundPass(p) && x < |p.mem| && p.mem[x].tracked
    ensures Onward(p, Totalled(p, x))
  {
    hide Sound;
    var q := Totalled(p, x);
    forall y | Usable(p, y)
      ensures Usable(q, y)
    {
      forall i | 0 <= i < |q.steps| && ScalarRoot(q.steps[i].node)
        ensures q.steps[i].node.out != y
      {
        if i < |p.steps| { assert q.steps[i] == p.steps[i]; }
      }
    }
  }

  lemma {:induction false} TapedConcat(a: seq<Step>, b: seq<Step>)
    ensures Taped(a + b) == Taped(a) + Taped(b)
    decreases |b|
  {
    if b == [] {
      assert a + b == a;
    } else {
      var last := |b| - 1;
      assert (a + b)[..|a + b| - 1] == a + b[..last];
      TapedConcat(a, b[..last]);
    }
  }

  lemma ReversedTwice(nodes: seq<Node>)
    ensures Reversed(Reversed(nodes)) == nodes
  {
  }

  // The frames the second GRAD_HO finds: what was recorded since the first, and the forward frame.
  ghost function SecondFrames(steps: seq<Step>, nodes: seq<Node>, q: Pass): seq<Frame>
    requires |steps| <= |q.steps|
  {
    [Frame(Reversed(Taped(q.steps[|steps|..])), false, 1), Frame(nodes, true, 0)]
  }

  lemma SecondFramesAreLog(steps: seq<Step>, nodes: seq<Node>, q: Pass)
    requires steps <= q.steps && Reversed(nodes) == Taped(steps)
    ensures Concatenated(SecondFrames(steps, nodes, q)) == Taped(q.steps)
  {
    var more := q.steps[|steps|..];
    assert q.steps == steps + more;
    TapedConcat(steps, more);
    ReversedTwice(Taped(more));
    var top, bottom := Frame(Reversed(Taped(more)), false, 1), Frame(nodes, true, 0);
    assert [top, bottom][1..] == [bottom] && [bottom][1..] == [];
    assert Concatenated([]) + Reversed(bottom.nodes) == Reversed(bottom.nodes);
  }

  // Every recorded node is one both engines treat alike.
  lemma SecondHandled(mem: Memory, steps: seq<Step>, nodes: seq<Node>, q: Pass)
    requires Program(mem, steps, nodes) && Sure(q, |steps|) && Onward(Pass(mem, steps, map[]), q)
    ensures steps <= q.steps && AllHandled(Ungated(q.mem), SecondFrames(steps, nodes, q))
  {
    hide Program, Usable, NodeInMemory, Regular, NodeSound, Reads;
    var M := Ungated(q.mem);
    forall i | 0 <= i < |nodes|
      ensures Handled(M, nodes[i])
    {
      ForwardHandled(mem, steps, nodes, q, i);
    }
    var top := Reversed(Taped(q.steps[|steps|..]));
    forall i | 0 <= i < |top|
      ensures Handled(M, top[i])
    {
      var t := Taped(q.steps[|steps|..]);
      TapedFrom(q.steps[|steps|..], |t| - 1 - i);
      var j :| 0 <= j < |q.steps[|steps|..]| && t[|t| - 1 - i] == q.steps[|steps|..][j].node;
      LoggedHandled(q, |steps|, |steps| + j);
    }
  }

  lemma LoggedHandled(q: Pass, k: nat, j: nat)
    requires Sure(q, k) && k <= j < |q.steps|
    ensures Handled(Ungated(q.mem), q.steps[j].node)
  {
    hide Regular, NodeOk;
    assert NodeSound(Ungated(q.mem), AllNodes(q.steps)[j]);
  }

  lemma ForwardHandled(mem: Memory, steps: seq<Step>, nodes: seq<Node>, q: Pass, i: nat)
    requires Program(mem, steps, nodes) && Onward(Pass(mem, steps, map[]), q) && i < |nodes|
    ensures Handled(Ungated(q.mem), nodes[i])
  {
    hide NodeOk, Regular, Sound, Ruled, Usable;
    UngatedKept(mem, q.mem);
    assert Walkable(Ungated(mem), nodes[i]);
    NodeKept(Ungated(mem), Ungated(q.mem), nodes[i]);
    AllTracked(q.mem);
  }

  lemma AllTracked(mem: Memory)
    ensures forall x :: 0 <= x < |mem| ==> Ungated(mem)[x].tracked
  {
  }

  // ── Entries are tracked ──

  // Every entry but the root's carries the flag, so what is computed from it is recorded.
  ghost predicate Flagged(p: Pass, root: Id) {
    forall x :: x in p.grads ==> p.grads[x] < |p.mem| && (x == root || p.mem[p.grads[x]].tracked)
  }

  lemma FlaggedPerform(p: Pass, root: Id, op: Op, a: Ref, b: Ref, c: real, like: Shape)
    requires Flagged(p, root)
    ensures Flagged(Perform(p, op, a, b, c, like).p, root)
  {
    hide Perform;
    PerformValue(p, op, a, b, c, like);
  }

  lemma FlaggedAddTo(p: Pass, root: Id, target: Ref, c: Ref)
    requires Flagged(p, root) && (target.Some? ==> target.value < |p.mem|)
    ensures Flagged(AddTo(p, target, c), root)
  {
    if target.Some? && c.Some? {
      var x := target.value;
      hide AddTo, Perform;
      AddToEntered(p, x, c.value);
      var t := Entered(p, x);
      FlaggedEntered(p, root, x);
      var was := Some(t.grads[x]);
      FlaggedPerform(t, root, Add, was, c, 0.0, []);
      PerformShape(t, Add, was, c, 0.0, []);
    }
  }

  lemma FlaggedEntered(p: Pass, root: Id, x: Id)
    requires Flagged(p, root)
    ensures var t := Entered(p, x);
      Flagged(t, root) && t.grads[x] < |t.mem| && t.mem[t.grads[x]].tracked && |p.mem| <= |t.mem|
  {
  }

  lemma FlaggedSent(p: Pass, root: Id, op: Op, a: Ref, b: Ref, c: real, like: Shape, target: Ref)
    requires Flagged(p, root) && (target.Some? ==> target.value < |p.mem|)
    ensures var q := Sent(Perform(p, op, a, b, c, like), target); Flagged(q, root) && |p.mem| <= |q.mem|
  {
    hide Flagged, Perform, AddTo;
    FlaggedPerform(p, root, op, a, b, c, like);
    PerformValue(p, op, a, b, c, like);
    var o := Perform(p, op, a, b, c, like);
    FlaggedAddTo(o.p, root, target, o.r);
    AddToGrows(o.p, target, o.r);
  }

  lemma AddToGrows(p: Pass, target: Ref, c: Ref)
    ensures |p.mem| <= |AddTo(p, target, c).mem|
  {
    if target.Some? && c.Some? {
      hide AddTo, Perform;
      AddToEntered(p, target.value, c.value);
      var t := Entered(p, target.value);
      PerformValue(t, Add, Some(t.grads[target.value]), c, 0.0, []);
    }
  }

  lemma FlaggedBinary(p: Pass, root: Id, n: Node, d: Ref)
    requires Flagged(p, root) && n.in0 < |p.mem| && (n.in1.Some? ==> n.in1.value < |p.mem|) && Binary(n.op)
    ensures Flagged(RunRule(p, n, d).p, root)
  {
    hide Flagged, Perform, AddTo, Sent, HasZero, ShapeAt;
    var x0, x1, os := Some(n.in0), n.in1, ShapeAt(p.mem, d);
    var s0, s1 := ShapeAt(p.mem, x0), ShapeAt(p.mem, x1);
    match n.op
    case Add =>
      FlaggedSent(p, root, AxisSum, d, None, 0.0, s0, x0);
      FlaggedSent(Sent(Perform(p, AxisSum, d, None, 0.0, s0), x0), root, AxisSum, d, None, 0.0, s1, x1);
    case Sub =>
      var neg := FlaggedStep(p, root, Scale, d, None, -1.0, []);
      FlaggedSent(neg.p, root, AxisSum, d, None, 0.0, s0, x0);
      FlaggedSent(Sent(Perform(neg.p, AxisSum, d, None, 0.0, s0), x0), root, AxisSum, neg.r, None, 0.0, s1, x1);
    case Mult =>
      FlaggedSent(p, root, Mult, d, x1, 0.0, [], x0);
      FlaggedSent(Sent(Perform(p, Mult, d, x1, 0.0, []), x0), root, Mult, d, x0, 0.0, [], x1);
      var bb := FlaggedStep(p, root, Bcast, x1, None, 0.0, os);
      var ba := FlaggedStep(bb.p, root, Bcast, x0, None, 0.0, os);
      var da := FlaggedStep(ba.p, root, Mult, d, bb.r, 0.0, []);
      var db := FlaggedStep(da.p, root, Mult, d, ba.r, 0.0, []);
      FlaggedSent(db.p, root, AxisSum, da.r, None, 0.0, s0, x0);
      FlaggedSent(Sent(Perform(db.p, AxisSum, da.r, None, 0.0, s0), x0), root, AxisSum, db.r, None, 0.0, s1, x1);
    case Div =>
      FlaggedDiv(p, root, d, x0, x1);
      FlaggedDivSpread(p, root, d, x0, x1);
    case MatMul =>
      var tb := FlaggedStep(p, root, Transpose, x1, None, 0.0, []);
      var ta := FlaggedStep(tb.p, root, Transpose, x0, None, 0.0, []);
      var da := FlaggedStep(ta.p, root, MatMul, d, tb.r, 0.0, []);
      var db := FlaggedStep(da.p, root, MatMul, ta.r, d, 0.0, []);
      FlaggedAddTo(db.p, root, x0, da.r);
      AddToGrows(db.p, x0, da.r);
      FlaggedAddTo(AddTo(db.p, x0, da.r), root, x1, db.r);
  }

  lemma FlaggedStep(p: Pass, root: Id, op: Op, a: Ref, b: Ref, c: real, like: Shape) returns (o: Out)
    requires Flagged(p, root)
    ensures o == Perform(p, op, a, b, c, like) && Flagged(o.p, root) && |p.mem| <= |o.p.mem|
  {
    hide Flagged, Perform;
    o := Perform(p, op, a, b, c, like);
    FlaggedPerform(p, root, op, a, b, c, like);
    PerformValue(p, op, a, b, c, like);
  }

  lemma FlaggedDiv(p: Pass, root: Id, d: Ref, x0: Ref, x1: Ref)
    requires Flagged(p, root) && (x0.Some? ==> x0.value < |p.mem|) && (x1.Some? ==> x1.value < |p.mem|)
    ensures Flagged(RunDiv(p, d, x0, x1), root)
  {
    hide Flagged, Perform, AddTo, Sent;
    FlaggedSent(p, root, Div, d, x1, 0.0, [], x0);
    var q := Sent(Perform(p, Div, d, x1, 0.0, []), x0);
    var t1 := FlaggedStep(q, root, Mult, d, x0, 0.0, []);
    var t2 := FlaggedStep(t1.p, root, Mult, x1, x1, 0.0, []);
    var t3 := FlaggedStep(t2.p, root, Div, t1.r, t2.r, 0.0, []);
    FlaggedSent(t3.p, root, Scale, t3.r, None, -1.0, [], x1);
  }

  lemma FlaggedDivSpread(p: Pass, root: Id, d: Ref, x0: Ref, x1: Ref)
    requires Flagged(p, root) && (x0.Some? ==> x0.value < |p.mem|) && (x1.Some? ==> x1.value < |p.mem|)
    ensures Flagged(RunDivSpread(p, d, x0, x1), root)
  {
    hide Flagged, Perform, AddTo, Sent, ShapeAt;
    var os, s0, s1 := ShapeAt(p.mem, d), ShapeAt(p.mem, x0), ShapeAt(p.mem, x1);
    var bb := FlaggedStep(p, root, Bcast, x1, None, 0.0, os);
    var ba := FlaggedStep(bb.p, root, Bcast, x0, None, 0.0, os);
    var da := FlaggedStep(ba.p, root, Div, d, bb.r, 0.0, []);
    var num := FlaggedStep(da.p, root, Mult, d, ba.r, 0.0, []);
    var bb2 := FlaggedStep(num.p, root, Mult, bb.r, bb.r, 0.0, []);
    var db := FlaggedStep(bb2.p, root, Div, num.r, bb2.r, 0.0, []);
    FlaggedSent(db.p, root, AxisSum, da.r, None, 0.0, s0, x0);
    var q := Sent(Perform(db.p, AxisSum, da.r, None, 0.0, s0), x0);
    var neg := FlaggedStep(q, root, Scale, db.r, None, -1.0, []);
    FlaggedSent(neg.p, root, AxisSum, neg.r, None, 0.0, s1, x1);
  }

  lemma FlaggedUnary(p: Pass, root: Id, n: Node, d: Ref)
    requires Flagged(p, root) && n.in0 < |p.mem| && !Binary(n.op)
    ensures Flagged(RunRule(p, n, d).p, root)
  {
    hide Flagged, Perform, AddTo, Sent, ShapeAt, ReluMask, Create;
    var x0, s0 := Some(n.in0), ShapeAt(p.mem, Some(n.in0));
    OperandShape(p, n.in0);
    OperandFirst(p.mem, n);
    match n.op
    case Scale => FlaggedSent(p, root, Scale, d, None, n.scalar, [], x0);
    case SumAll => FlaggedSent(p, root, Bcast, d, None, 0.0, s0, x0);
    case AxisSum => FlaggedSent(p, root, Bcast, d, None, 0.0, s0, x0);
    case Bcast => FlaggedSent(p, root, AxisSum, d, None, 0.0, s0, x0);
    case Transpose => FlaggedSent(p, root, Transpose, d, None, 0.0, [], x0);
    case Reshape => FlaggedSent(p, root, Reshape, d, None, 0.0, s0, x0);
    case MeanAll =>
      var b := FlaggedStep(p, root, Bcast, d, None, 0.0, s0);
      FlaggedSent(b.p, root, Scale, b.r, None, Inv(|p.mem[n.in0].data|), [], x0);
    case Relu =>
      var mask := ReluMask(p.mem[n.in0].data);
      FlaggedCreate(p, root, s0, mask);
      var m := Create(p, s0, mask);
      FlaggedSent(m.p, root, Mult, d, m.r, 0.0, [], x0);
    case _ =>
  }

  lemma OperandFirst(mem: Memory, n: Node)
    requires n.in0 < |mem|
    ensures OperandAt(mem, n, 0) == mem[n.in0]
  {
  }

  lemma FlaggedCreate(p: Pass, root: Id, shape: Shape, data: seq<real>)
    requires Flagged(p, root)
    ensures var m := Create(p, shape, data); Flagged(m.p, root) && |p.mem| <= |m.p.mem|
  {
  }

  lemma {:induction false} FlaggedNodes(p: Pass, k: nat, root: Id, nodes: seq<Node>)
    requires Flagged(p, root) && Ready(p, k)
    requires forall i :: 0 <= i < |nodes| ==> Walkable(Ungated(p.mem), nodes[i]) && Operands(p, nodes[i])
    ensures Flagged(RunNodes(p, nodes).p, root)
    decreases |nodes|
  {
    hide Flagged, Ready, Walkable, Operands, Onward, RunRule;
    if nodes != [] {
      var n := nodes[0];
      NodeRuns(p, k, n);
      var q := RunNode(p, n).p;
      if n.out in p.grads {
        WalkableIds(p, n);
        if Binary(n.op) { FlaggedBinary(p, root, n, Some(p.grads[n.out])); } else {
          FlaggedUnary(p, root, n, Some(p.grads[n.out]));
        }
      }
      forall i | 0 <= i < |nodes[1..]|
        ensures Walkable(Ungated(q.mem), nodes[1..][i]) && Operands(q, nodes[1..][i])
      {
        WalkableKept(p, q, nodes[i + 1]);
      }
      FlaggedNodes(q, k, root, nodes[1..]);
    }
  }

  lemma WalkableIds(p: Pass, n: Node)
    requires Walkable(Ungated(p.mem), n) && Operands(p, n)
    ensures n.in0 < |p.mem| && (Binary(n.op) && n.in1.Some? ==> n.in1.value < |p.mem|)
  {
    hide Regular, NodeInMemory;
  }

  // ── The whole run ──

  // After the first GRAD_HO over the forward frame.
  ghost function AfterFirst(mem: Memory, steps: seq<Step>, nodes: seq<Node>): Pass {
    if nodes != [] && nodes[0].out < |mem| then RunNodes(Seeded(mem, steps, nodes[0].out), nodes).p
      else Pass(mem, steps, map[])
  }

  // And after TENSOR_SUM of the gradient it returned for u.
  ghost function AfterTotal(mem: Memory, steps: seq<Step>, nodes: seq<Node>, u: Id): Pass {
    var p := AfterFirst(mem, steps, nodes);
    if u in p.grads && p.grads[u] < |p.mem| then Totalled(p, p.grads[u]) else p
  }

  // u is a tensor the root leads to.
  ghost predicate Reached(nodes: seq<Node>, u: Id) {
    nodes != [] && u != nodes[0].out && u in Live(nodes, {nodes[0].out})
  }

  lemma AfterFirstFacts(mem: Memory, steps: seq<Step>, nodes: seq<Node>, u: Id)
    requires Program(mem, steps, nodes) && u < |mem| && mem[u].tracked && Reached(nodes, u)
    ensures var p := AfterFirst(mem, steps, nodes);
      nodes[0].out < |mem| && RunNodes(Seeded(mem, steps, nodes[0].out), nodes) == Ran(p) &&
      Ready(p, |steps|) && Onward(Pass(mem, steps, map[]), p) && u in p.grads && Good(p, Some(p.grads[u])) &&
      p.grads[u] < |p.mem| && p.mem[p.grads[u]].tracked && p.mem[p.grads[u]].shape == mem[u].shape
  {
    hide Program, Sound, Live, Onward, Sure, RunNodes, Seeded, Usable;
    PassCovers(mem, steps, nodes, u);
    var p := AfterFirst(mem, steps, nodes);
    EntriesFlagged(mem, steps, nodes);
    GradShape(p, u);
    KeptShape(Pass(mem, steps, map[]), p, u);
  }

  lemma EntriesFlagged(mem: Memory, steps: seq<Step>, nodes: seq<Node>)
    requires Program(mem, steps, nodes) && nodes[0].out < |mem|
    ensures Flagged(AfterFirst(mem, steps, nodes), nodes[0].out)
  {
    hide Program, Ready, Onward, Steady, Fair, SeedFree, Sound, Eligible, RunNodes;
    ProgramSound(mem, steps, nodes);
    var root := nodes[0].out;
    var b, p := Pass(mem, steps, map[]), Seeded(mem, steps, root);
    SeededFacts(mem, steps, root, {});
    forall i | 0 <= i < |nodes|
      ensures Walkable(Ungated(p.mem), nodes[i]) && Operands(p, nodes[i])
    {
      ProgramWalks(mem, steps, nodes, i);
      WalkableKept(b, p, nodes[i]);
    }
    FlaggedNodes(p, |steps|, root, nodes);
  }

  lemma ProgramWalks(mem: Memory, steps: seq<Step>, nodes: seq<Node>, i: nat)
    requires Program(mem, steps, nodes) && i < |nodes|
    ensures var b := Pass(mem, steps, map[]); Walkable(Ungated(mem), nodes[i]) && Operands(b, nodes[i])
  {
    hide Walkable, Sound, Ruled;
    NodeStep(mem, steps, nodes, i);
    ReadsUsable(mem, steps, nodes[i], nodes[i].in0);
    if Uses(nodes[i], 1) { ReadsUsable(mem, steps, nodes[i], nodes[i].in1.value); }
  }

  lemma ReadsUsable(mem: Memory, steps: seq<Step>, n: Node, x: Id)
    requires NodeSound(Ungated(mem), n) && (forall y :: Reads(n, y) ==> !Placed(steps, y))
    requires x == n.in0 || (Uses(n, 1) && x == n.in1.value)
    ensures Good(Pass(mem, steps, map[]), Some(x))
  {
    assert InId(n, 0) == n.in0;
    if x != n.in0 { assert InId(n, 1) == x; }
    assert Reads(n, x);
  }

  // The first result is what the walk over values returns: the first derivative.
  lemma FirstResult(mem: Memory, steps: seq<Step>, nodes: seq<Node>, u: Id)
    requires Program(mem, steps, nodes) && u < |mem| && mem[u].tracked && Reached(nodes, u)
    ensures var p := AfterFirst(mem, steps, nodes);
      nodes[0].out < |mem| && u in p.grads && p.grads[u] < |p.mem| && FramesInMemory(mem, [Frame(nodes, false, 0)]) &&
      GradOf(mem, [Frame(nodes, false, 0)], u) == Grad(Of(p.mem[p.grads[u]]))
  {
    hide Program, Ready, Onward, Live, RunNodes, WalkNodes, InMemory, Shows, Ungated, NodeSound;
    AfterFirstFacts(mem, steps, nodes, u);
    var root, M := nodes[0].out, Ungated(mem);
    var p, V := Seeded(mem, steps, root), SeedMap(mem, root);
    SeededAgrees(mem, steps, root);
    forall i | 0 <= i < |nodes|
      ensures InMemory(M, nodes[i])
    {
      NodeStep(mem, steps, nodes, i);
      SoundInside(M, nodes[i]);
    }
    InMemoryUngated(mem, nodes);
    NodesFollow(M, p, nodes, V);
    var w, q := WalkNodes(M, nodes, V), AfterFirst(mem, steps, nodes);
    ShownAt(q, w.H, u);
    var f := Frame(nodes, false, 0);
    assert [f][1..] == [];
    FramesOfOne(M, f, V);
  }

  lemma SoundInside(M: Memory, n: Node)
    requires NodeSound(M, n)
    ensures InMemory(M, n)
  {
  }

  lemma InMemoryUngated(mem: Memory, nodes: seq<Node>)
    requires forall i :: 0 <= i < |nodes| ==> InMemory(Ungated(mem), nodes[i])
    ensures forall i :: 0 <= i < |nodes| ==> InMemory(mem, nodes[i])
  {
  }

  // The second frame's head is the total.
  lemma TotalIsHead(mem: Memory, steps: seq<Step>, nodes: seq<Node>, u: Id)
    requires Program(mem, steps, nodes) && u < |mem| && mem[u].tracked && Reached(nodes, u)
    ensures var p, q := AfterFirst(mem, steps, nodes), AfterTotal(mem, steps, nodes, u);
      u in p.grads && p.grads[u] < |p.mem| && q == Totalled(p, p.grads[u]) && |q.mem| == |p.mem| + 1
        && |q.steps| == |p.steps| + 1 &&
      steps <= p.steps && p.steps <= q.steps && |mem| <= |p.mem| &&
      var top := SecondFrames(steps, nodes, q)[0].nodes;
        top != [] && top[0] == q.steps[|p.steps|].node && top[0].out == |p.mem|
  {
    hide Program, Ready, Usable, Reached, AfterFirst, RunNodes;
    AfterFirstFacts(mem, steps, nodes, u);
    var p, q := AfterFirst(mem, steps, nodes), AfterTotal(mem, steps, nodes, u);
    OnwardSteps(Pass(mem, steps, map[]), p);
    var more := q.steps[|steps|..];
    assert more[..|more| - 1] == p.steps[|steps|..] && more[|more| - 1] == q.steps[|p.steps|];
    assert Taped(more) == Taped(p.steps[|steps|..]) + [q.steps[|p.steps|].node];
  }

  lemma AfterTotalFacts(mem: Memory, steps: seq<Step>, nodes: seq<Node>, u: Id)
    requires Program(mem, steps, nodes) && u < |mem| && mem[u].tracked && Reached(nodes, u)
    ensures var q := AfterTotal(mem, steps, nodes, u);
      Sure(q, |steps|) && Onward(Pass(mem, steps, map[]), q) && SoundPass(q)
  {
    hide Program, Usable, Reached, AfterFirst, RunNodes, Sound, Totalled;
    AfterFirstFacts(mem, steps, nodes, u);
    var b, p := Pass(mem, steps, map[]), AfterFirst(mem, steps, nodes);
    TotalSound(p, |steps|, p.grads[u]);
    OnwardTwice(b, p, AfterTotal(mem, steps, nodes, u));
  }

  // A tensor older than the pass is no result of it.
  lemma StillLeaf(mem: Memory, steps: seq<Step>, q: Pass, w: Id)
    requires Onward(Pass(mem, steps, map[]), q) && w < |mem| && w !in Outputs(AllNodes(steps))
    ensures w !in Outputs(AllNodes(q.steps)) && w < |q.mem| && |q.mem[w].data| == |mem[w].data|
  {
    hide Usable;
    KeptShape(Pass(mem, steps, map[]), q, w);
    forall i | 0 <= i < |q.steps|
      ensures AllNodes(q.steps)[i].out != w
    {
      if i < |steps| { assert AllNodes(steps)[i].out == q.steps[i].node.out; }
    }
  }

  lemma StillTracked(p: Pass, q: Pass, w: Id)
    requires Onward(p, q) && w < |p.mem| && p.mem[w].tracked
    ensures w < |q.mem| && q.mem[w].tracked
  {
    hide Usable;
  }

  // What the second GRAD_HO returns for w, after TENSOR_SUM of the first one's gradient
  // for u, against the derivative of that total by the dual run of everything computed:
  // equal if and only if nothing was missed, and nothing is if no node the first root
  // leads to is lossy.
  lemma SecondGradHo(mem: Memory, steps: seq<Step>, nodes: seq<Node>, u: Id, w: Id, i: nat, vals: Memory)
    requires Program(mem, steps, nodes) && u < |mem| && mem[u].tracked && Reached(nodes, u)
    requires w < |mem| && mem[w].tracked && w !in Outputs(AllNodes(steps)) && i < |mem[w].data|
    requires var q := AfterTotal(mem, steps, nodes, u); SameLeaves(Ungated(q.mem), AllNodes(q.steps), vals)
    ensures var q := AfterTotal(mem, steps, nodes, u);
      |steps| <= |q.steps| && |q.mem| > 0 && w < |q.mem| &&
      var frames, root := SecondFrames(steps, nodes, q), |q.mem| - 1;
      FramesInMemory(q.mem, frames) && frames[0].nodes != [] && frames[0].nodes[0].out == root &&
      var r, tans := GradOf(q.mem, frames, w), Run(AllNodes(q.steps), State(vals, Toward(q.mem, w, i))).tans;
      r.Grad? && r.value.Value? && |r.value.data| == |mem[w].data| && |tans| == |q.mem| &&
      (Dot(Ones(|q.mem[root].data|), tans[root]) == r.value.data[i] <==> Missed(q.mem, q.steps, root, w, i) == 0.0) &&
      (!LossyIn(mem, nodes, {nodes[0].out}, Dependent(AllNodes(steps), {w}), nodes[0].out) ==>
        Dot(Ones(|q.mem[root].data|), tans[root]) == r.value.data[i])
  {
    hide Program, Reached, AfterFirst, AfterTotal, Sure, Onward, Sound, Ungated, GradOf, Handled, InMemory, Dot,
         Missed, Concatenated;
    hide SameLeaves, Run, Covered, LossyIn, Dependent, FramesInMemory, SecondFrames;
    var b, q := Pass(mem, steps, map[]), AfterTotal(mem, steps, nodes, u);
    AfterTotalFacts(mem, steps, nodes, u);
    TotalIsHead(mem, steps, nodes, u);
    SecondHandled(mem, steps, nodes, q);
    ProgramReversed(mem, steps, nodes);
    SecondFramesAreLog(steps, nodes, q);
    StillLeaf(mem, steps, q, w);
    StillTracked(b, q, w);
    SecondLevel(steps, nodes, q);
    GradHoIsDerivativeIff(q.mem, q.steps, SecondFrames(steps, nodes, q), w, i, vals);
    if !LossyIn(mem, nodes, {nodes[0].out}, Dependent(AllNodes(steps), {w}), nodes[0].out) {
      SecondCovered(mem, steps, nodes, u, w);
    }
  }

  lemma ProgramReversed(mem: Memory, steps: seq<Step>, nodes: seq<Node>)
    requires Program(mem, steps, nodes)
    ensures nodes != [] && Reversed(nodes) == Taped(steps)
  {
  }

  lemma SecondLevel(steps: seq<Step>, nodes: seq<Node>, q: Pass)
    requires |steps| <= |q.steps|
    ensures SecondFrames(steps, nodes, q) != [] && SecondFrames(steps, nodes, q)[0].level == 1
  {
  }

  // The total is recorded, so the whole log is covered if the pass is.
  lemma SecondCovered(mem: Memory, steps: seq<Step>, nodes: seq<Node>, u: Id, w: Id)
    requires Program(mem, steps, nodes) && u < |mem| && mem[u].tracked && Reached(nodes, u) && w < |mem|
    requires mem[w].tracked
    requires !LossyIn(mem, nodes, {nodes[0].out}, Dependent(AllNodes(steps), {w}), nodes[0].out)
    ensures Covered(AfterTotal(mem, steps, nodes, u).steps, {w})
  {
    hide Program, Reached, Sound, Dependent, LossyIn, Onward, Usable, RunNodes, Seeded, Reads, NodeSound;
    PassCovers(mem, steps, nodes, w);
    TotalIsHead(mem, steps, nodes, u);
    AfterTotalFacts(mem, steps, nodes, u);
    var p, q := AfterFirst(mem, steps, nodes), AfterTotal(mem, steps, nodes, u);
    var all := AllNodes(q.steps);
    forall i | 0 <= i < |q.steps| && !q.steps[i].recorded
      ensures !ReadsSome(q.steps[i].node, Dependent(all, {w}))
    {
      assert q.steps[i] == p.steps[i];
      LastUnread(q, {w}, i);
      assert all[..|p.steps|] == AllNodes(p.steps);
    }
  }

  // Nothing before the last step reads its result.
  lemma LastUnread(q: Pass, S: set<Id>, i: nat)
    requires SoundPass(q) && i < |q.steps| - 1
    ensures var all := AllNodes(q.steps);
      ReadsSome(q.steps[i].node, Dependent(all, S)) <==> ReadsSome(q.steps[i].node, Dependent(all[..|all| - 1], S))
  {
    hide NodeSound, Reads, Dependent;
    var all := AllNodes(q.steps);
    var last := |all| - 1;
    assert NodeSound(Ungated(q.mem), all[i]);
    forall x | Reads(all[i], x)
      ensures x in Dependent(all, S) <==> x in Dependent(all[..last], S)
    {
      ReadsBelow(Ungated(q.mem), all[i], x);
      DependentEarly(Ungated(q.mem), all, S, last, x);
    }
  }
}
