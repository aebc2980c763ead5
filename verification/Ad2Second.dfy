// Second derivatives: what the second pass returns, against the derivative of
// everything that was computed, recorded or not.
module Ad2Second {
  import opened Options
  import opened Arith
  import opened Shapes
  import opened Sums
  import opened Tape
  import opened Rules
  import opened NodeRule
  import opened Adjoint
  import opened Sweep
  import opened DualRun
  import opened Ad2Rule
  import opened Ad2
  import opened Ad2Tape
  import opened Ad2Pass
  import opened Ad2Sound

  // ── The recorded part of a log ──

  lemma {:induction false} TapedFrom(steps: seq<Step>, i: nat)
    requires i < |Taped(steps)|
    ensures exists j :: 0 <= j < |steps| && steps[j].recorded && Taped(steps)[i] == steps[j].node
  {
    var last := |steps| - 1;
    var before := Taped(steps[..last]);
    if i < |before| {
      TapedFrom(steps[..last], i);
      var j :| 0 <= j < last && steps[..last][j].recorded && before[i] == steps[..last][j].node;
      assert steps[j].recorded && Taped(steps)[i] == steps[j].node;
    } else {
      assert Taped(steps)[i] == steps[last].node;
    }
  }

  lemma {:induction false} TapedHas(steps: seq<Step>, j: nat)
    requires j < |steps| && steps[j].recorded
    ensures exists i :: 0 <= i < |Taped(steps)| && Taped(steps)[i] == steps[j].node
  {
    var last := |steps| - 1;
    var before := Taped(steps[..last]);
    if j < last {
      TapedHas(steps[..last], j);
      var i :| 0 <= i < |before| && before[i] == steps[..last][j].node;
      assert Taped(steps)[i] == steps[j].node;
    } else {
      assert Taped(steps)[|before|] == steps[j].node;
    }
  }

  lemma SoundPrefix(M: Memory, nodes: seq<Node>, k: nat)
    requires Sound(M, nodes) && k <= |nodes|
    ensures Sound(M, nodes[..k])
  {
    hide NodeSound, Reads;
  }

  // The recorded part of a sound log is sound.
  lemma {:induction false} TapedSound(M: Memory, steps: seq<Step>)
    requires Sound(M, AllNodes(steps))
    ensures Sound(M, Taped(steps))
  {
    hide NodeSound, Reads;
    if steps != [] {
      var last := |steps| - 1;
      var nodes := AllNodes(steps);
      SoundPrefix(M, nodes, last);
      assert nodes[..last] == AllNodes(steps[..last]);
      TapedSound(M, steps[..last]);
      var before, n := Taped(steps[..last]), steps[last].node;
      assert nodes[last] == n;
      if steps[last].recorded {
        forall i | 0 <= i < |before|
          ensures before[i].out < n.out && (ScalarRoot(before[i]) ==> !Reads(n, before[i].out))
          ensures (ScalarRoot(n) ==> !Reads(before[i], n.out))
        {
          TapedFrom(steps[..last], i);
          var j :| 0 <= j < last && steps[..last][j].recorded && before[i] == steps[..last][j].node;
          assert nodes[j] == before[i];
        }
        SoundStep(M, before, n);
      }
    }
  }

  lemma SoundWellFormed(M: Memory, nodes: seq<Node>)
    requires Sound(M, nodes)
    ensures WellFormed(M, nodes) && Recorded(M, nodes)
  {
    hide NodeInMemory, NodeValue, Reads;
    forall i | 0 <= i < |nodes|
      ensures NodeInMemory(M, nodes[i]) && Fresh(nodes[..i], nodes[i])
    {
      assert NodeSound(M, nodes[i]);
      ReadsOlder(M, nodes[i]);
      forall j | 0 <= j < i
        ensures !Reads(nodes[j], nodes[i].out) && nodes[j].out != nodes[i].out
      {
        assert NodeSound(M, nodes[j]);
      }
    }
    forall i | 0 <= i < |nodes|
      ensures if ScalarRoot(nodes[i]) then forall j :: 0 <= j < |nodes| ==> !Reads(nodes[j], nodes[i].out)
              else OutData(M, nodes[i]) == NodeValue(M, nodes[i], [])
    {
      assert NodeSound(M, nodes[i]);
      ReadsOlder(M, nodes[i]);
    }
  }

  // ── What the recorded part accounts for ──

  lemma AllAtRest(mem: Memory, T: Tangents)
    ensures UntrackedAtRest(Ungated(mem), T)
  {
  }

  // The root's tangent through everything computed pairs with the seed as the
  // gradients of the recorded part pair with the tangents of its leaves, among them
  // the results that were computed without being recorded.
  lemma TapeAccount(mem: Memory, steps: seq<Step>, root: Id, T: Tangents)
    requires Sound(Ungated(mem), AllNodes(steps)) && root < |mem| && Sized(Ungated(mem), T)
    ensures var M := Ungated(mem);
      var R := Forward(M, AllNodes(steps), T);
      Sized(M, R) &&
      Dot(Ones(|mem[root].data|), R[root]) == Total(Backward(M, Taped(steps), Seed(M, root)), R, Outputs(Taped(steps)))
  {
    hide Total, Backward, Forward, Seed, UntrackedAtRest, Dot, WellFormed, Sound, NodeTangent, Ungated, Recorded;
    var M, nodes, tape := Ungated(mem), AllNodes(steps), Taped(steps);
    SoundWellFormed(M, nodes);
    TapedSound(M, steps);
    SoundWellFormed(M, tape);
    AllAtRest(mem, T);
    ForwardConsistent(M, nodes, T);
    var R := Forward(M, nodes, T);
    forall i | 0 <= i < |tape| && tape[i].out < |R|
      ensures R[tape[i].out] == NodeTangent(M, tape[i], R)
    {
      TapedFrom(steps, i);
      var j :| 0 <= j < |steps| && steps[j].recorded && tape[i] == steps[j].node;
      assert nodes[j] == tape[i];
    }
    UngatedAt(mem, root);
    SeedTotal(M, root, R);
    BackwardTotal(M, tape, Seed(M, root), R, {});
    assert {} + Outputs(tape) == Outputs(tape);
  }

  // The direction of element i of w.
  ghost function Toward(mem: Memory, w: Id, i: nat): (T: Tangents)
    ensures |T| == |mem|
  {
    seq(|mem|, x requires 0 <= x < |mem| => if x == w then Unit(|mem[w].data|, i) else Zeros(|mem[x].data|))
  }

  ghost function Gradient(mem: Memory, steps: seq<Step>, root: Id): Gradients {
    Backward(Ungated(mem), Taped(steps), Seed(Ungated(mem), root))
  }

  // The tangents of everything computed, when only element i of w moves.
  ghost function Moved(mem: Memory, steps: seq<Step>, w: Id, i: nat): (R: Tangents)
    ensures |R| == |mem|
  {
    Forward(Ungated(mem), AllNodes(steps), Toward(mem, w, i))
  }

  ghost function MissedTerm(mem: Memory, steps: seq<Step>, root: Id, w: Id, i: nat, x: int): real {
    if x in Outputs(AllNodes(steps))
      then PairTerm(Gradient(mem, steps, root), Moved(mem, steps, w, i), Outputs(Taped(steps)), x) else 0.0
  }

  // What the recorded part cannot see: the gradients that reach results computed
  // without being recorded, against the tangents those results have.
  ghost function Missed(mem: Memory, steps: seq<Step>, root: Id, w: Id, i: nat): real {
    Sum(|mem|, x => MissedTerm(mem, steps, root, w, i, x))
  }

  lemma TowardSized(mem: Memory, w: Id, i: nat)
    requires w < |mem|
    ensures Sized(Ungated(mem), Toward(mem, w, i))
  {
  }

  lemma OutputsOf(tape: seq<Node>, nodes: seq<Node>, x: Id)
    requires forall i :: 0 <= i < |tape| ==> exists j :: 0 <= j < |nodes| && tape[i] == nodes[j]
    requires x in Outputs(tape)
    ensures x in Outputs(nodes)
  {
    var i :| 0 <= i < |tape| && tape[i].out == x;
    var j :| 0 <= j < |nodes| && tape[i] == nodes[j];
  }

  lemma TapedOutput(steps: seq<Step>, x: Id)
    requires x in Outputs(Taped(steps))
    ensures x in Outputs(AllNodes(steps))
  {
    var tape, nodes := Taped(steps), AllNodes(steps);
    var i :| 0 <= i < |tape| && tape[i].out == x;
    TapedFrom(steps, i);
    var j :| 0 <= j < |steps| && steps[j].recorded && tape[i] == steps[j].node;
    assert nodes[j].out == x;
  }

  // Element i of the gradient at w, and what the recorded part missed, make up the derivative.
  lemma RecordedDerivative(mem: Memory, steps: seq<Step>, root: Id, w: Id, i: nat)
    requires Sound(Ungated(mem), AllNodes(steps)) && root < |mem| && w < |mem| && w !in Outputs(AllNodes(steps))
    requires i < |mem[w].data|
    ensures var G := Gradient(mem, steps, root);
      Dot(Ones(|mem[root].data|), Moved(mem, steps, w, i)[root])
        == (if w in G then At(G[w], i) else 0.0) + Missed(mem, steps, root, w, i)
  {
    hide Backward, Forward, Dot, Sound, Ungated, Seed;
    var M, T, R, G := Ungated(mem), Toward(mem, w, i), Moved(mem, steps, w, i), Gradient(mem, steps, root);
    TowardSized(mem, w, i);
    TapeAccount(mem, steps, root, T);
    AllAtRest(mem, T);
    SoundWellFormed(M, AllNodes(steps));
    ForwardConsistent(M, AllNodes(steps), T);
    var dead := Outputs(Taped(steps));
    if w in dead { TapedOutput(steps, w); }
    var at := (x: int) => if x == w then PairTerm(G, R, dead, w) else 0.0;
    forall x | 0 <= x < |mem|
      ensures PairTerm(G, R, dead, x) == at(x) + MissedTerm(mem, steps, root, w, i, x)
    {
      if x != w && x !in Outputs(AllNodes(steps)) && x in G {
        assert R[x] == T[x];
        DotZeroRight(G[x], T[x]);
      }
    }
    SumAdd(|mem|, at, x => MissedTerm(mem, steps, root, w, i, x), x => PairTerm(G, R, dead, x));
    SumDelta(|mem|, w, at);
    assert R[w] == T[w];
    if w in G { DotUnitRight(G[w], |mem[w].data|, i); }
  }

  // ── Dependence ──

  ghost predicate ReadsSome(n: Node, S: set<Id>) {
    exists x :: x in S && Reads(n, x)
  }

  // The tensors that depend on those of S.
  ghost function Dependent(nodes: seq<Node>, S: set<Id>): set<Id> {
    if nodes == [] then S
    else
      var last := |nodes| - 1;
      var D := Dependent(nodes[..last], S);
      if ReadsSome(nodes[last], D) then D + {nodes[last].out} else D
  }

  ghost predicate Rests(t: seq<real>) { forall i :: 0 <= i < |t| ==> t[i] == 0.0 }

  // What does not depend on S has no tangent when only S moves.
  lemma {:induction false} IndependentRests(M: Memory, nodes: seq<Node>, S: set<Id>, T: Tangents)
    requires WellFormed(M, nodes) && Sized(M, T) && UntrackedAtRest(M, T)
    requires forall x :: 0 <= x < |M| && x !in S ==> Rests(T[x])
    ensures forall x :: 0 <= x < |M| && x !in Dependent(nodes, S) ==> Rests(Forward(M, nodes, T)[x])
  {
    hide NodeTangent, NodeInMemory, Reads, Rests, UntrackedAtRest;
    if nodes != [] {
      var last := |nodes| - 1;
      var n, rest := nodes[last], nodes[..last];
      WellFormedPrefix(M, nodes, last);
      IndependentRests(M, rest, S, T);
      ForwardConsistent(M, rest, T);
      var R := Forward(M, rest, T);
      OutInMemory(M, n, R);
      if !ReadsSome(n, Dependent(rest, S)) { UnreadRests(M, n, R, Dependent(rest, S)); }
    }
  }

  lemma UnreadRests(M: Memory, n: Node, R: Tangents, D: set<Id>)
    requires Sized(M, R) && NodeInMemory(M, n) && !ReadsSome(n, D)
    requires forall x :: 0 <= x < |M| && x !in D ==> Rests(R[x])
    ensures Rests(NodeTangent(M, n, R))
  {
    hide NodeTangent, NodeOk;
    forall slot: nat, i | Uses(n, slot) && 0 <= i < |R[InId(n, slot)]|
      ensures R[InId(n, slot)][i] == 0.0
    {
      assert Reads(n, InId(n, slot));
      assert Rests(R[InId(n, slot)]);
    }
    TangentOfRest(M, n, R);
  }

  // Everything computed from w has been recorded.
  ghost predicate Covered(steps: seq<Step>, S: set<Id>) {
    forall i :: 0 <= i < |steps| && !steps[i].recorded ==> !ReadsSome(steps[i].node, Dependent(AllNodes(steps), S))
  }

  // Then nothing is missed.
  lemma CoveredMissesNothing(mem: Memory, steps: seq<Step>, root: Id, w: Id, i: nat)
    requires Sound(Ungated(mem), AllNodes(steps)) && w < |mem| && w !in Outputs(AllNodes(steps)) && Covered(steps, {w})
    ensures Missed(mem, steps, root, w, i) == 0.0
  {
    hide Sound, Ungated, Forward, Backward, Covered, Reads;
    var M, T, R := Ungated(mem), Toward(mem, w, i), Moved(mem, steps, w, i);
    var nodes, D := AllNodes(steps), Dependent(AllNodes(steps), {w});
    SoundWellFormed(M, nodes);
    TowardSized(mem, w, i);
    AllAtRest(mem, T);
    IndependentRests(M, nodes, {w}, T);
    forall x | 0 <= x < |mem|
      ensures MissedTerm(mem, steps, root, w, i, x) == 0.0
    {
      if x in Outputs(nodes) && x !in Outputs(Taped(steps)) {
        var j :| 0 <= j < |nodes| && nodes[j].out == x;
        UnrecordedIndependent(M, steps, {w}, j);
        assert Rests(R[x]);
        var G := Gradient(mem, steps, root);
        if x in G { DotZeroRight(G[x], R[x]); }
      }
    }
    SumZero(|mem|, x => MissedTerm(mem, steps, root, w, i, x));
  }

  // The result of an uncovered step depends on nothing in S.
  lemma UnrecordedIndependent(M: Memory, steps: seq<Step>, S: set<Id>, j: nat)
    requires Sound(M, AllNodes(steps)) && Covered(steps, S) && j < |steps|
    requires steps[j].node.out !in Outputs(Taped(steps)) && steps[j].node.out !in S
    ensures steps[j].node.out !in Dependent(AllNodes(steps), S)
  {
    hide Sound, Reads;
    if steps[j].recorded {
      TapedHas(steps, j);
      assert false;
    }
    DependentSplit(M, AllNodes(steps), S, j);
  }

  // A result depends on S exactly if its node reads something that does.
  lemma {:induction false} DependentSplit(M: Memory, nodes: seq<Node>, S: set<Id>, j: nat)
    requires Sound(M, nodes) && j < |nodes| && nodes[j].out !in S
    ensures nodes[j].out in Dependent(nodes, S) <==> ReadsSome(nodes[j], Dependent(nodes, S))
  {
    hide NodeSound, Reads;
    var last := |nodes| - 1;
    var rest, n := nodes[..last], nodes[last];
    var D := Dependent(rest, S);
    SoundPrefix(M, nodes, last);
    assert NodeSound(M, nodes[j]) && NodeSound(M, n);
    ReadsOlder(M, n);
    forall x | Reads(nodes[j], x)
      ensures x != n.out
    {
      ReadsBelow(M, nodes[j], x);
    }
    if j < last {
      DependentSplit(M, rest, S, j);
    } else {
      DependentOutside(M, rest, S, n.out);
    }
  }

  lemma ReadsBelow(M: Memory, n: Node, x: Id)
    requires NodeSound(M, n) && Reads(n, x)
    ensures x < n.out
  {
  }

  lemma {:induction false} DependentOutside(M: Memory, nodes: seq<Node>, S: set<Id>, x: Id)
    requires x !in S && forall i :: 0 <= i < |nodes| ==> nodes[i].out != x
    ensures x !in Dependent(nodes, S)
  {
    hide Reads, ReadsSome;
    if nodes != [] { DependentOutside(M, nodes[..|nodes| - 1], S, x); }
  }

  // ── GRAD_HO over a log ──

  lemma FramesInLog(mem: Memory, steps: seq<Step>, frames: seq<Frame>)
    requires Sound(Ungated(mem), AllNodes(steps)) && Concatenated(frames) == Taped(steps)
    ensures FramesInMemory(mem, frames)
    ensures frames != [] && frames[0].nodes != [] ==> frames[0].nodes[0].out < |mem|
  {
    hide Sound, Ungated, InMemory;
    forall f, i | 0 <= f < |frames| && 0 <= i < |frames[f].nodes|
      ensures InMemory(mem, frames[f].nodes[i]) && frames[f].nodes[i].out < |mem|
    {
      ConcatenatedHas(frames, f, i);
      var k :| 0 <= k < |Taped(steps)| && Taped(steps)[k] == frames[f].nodes[i];
      TapedFrom(steps, k);
      var j :| 0 <= j < |steps| && steps[j].recorded && Taped(steps)[k] == steps[j].node;
      SoundInMemory(mem, AllNodes(steps), j);
    }
  }

  lemma SoundInMemory(mem: Memory, nodes: seq<Node>, j: nat)
    requires Sound(Ungated(mem), nodes) && j < |nodes|
    ensures nodes[j].out < |mem|
    ensures InMemory(mem, nodes[j])
  {
    assert NodeSound(Ungated(mem), nodes[j]);
  }

  lemma {:induction false} ConcatenatedHas(frames: seq<Frame>, f: nat, i: nat)
    requires f < |frames| && i < |frames[f].nodes|
    ensures exists k :: 0 <= k < |Concatenated(frames)| && Concatenated(frames)[k] == frames[f].nodes[i]
  {
    var rest, top := Concatenated(frames[1..]), Reversed(frames[0].nodes);
    if f == 0 {
      assert Concatenated(frames)[|rest| + |frames[0].nodes| - 1 - i] == frames[0].nodes[i];
    } else {
      ConcatenatedHas(frames[1..], f - 1, i);
      var k :| 0 <= k < |rest| && rest[k] == frames[f].nodes[i];
      assert Concatenated(frames)[k] == rest[k];
    }
  }

  // GRAD_HO over the recorded part of a log: with what was missed, the element it
  // returns is the derivative of the root through everything computed, by the dual run.
  lemma GradHoAccount(mem: Memory, steps: seq<Step>, frames: seq<Frame>, w: Id, i: nat, vals: Memory)
    requires Sound(Ungated(mem), AllNodes(steps)) && Concatenated(frames) == Taped(steps)
    requires AllHandled(Ungated(mem), frames)
    requires frames != [] && frames[0].level < 2 && frames[0].nodes != []
    requires w < |mem| && mem[w].tracked && w !in Outputs(AllNodes(steps)) && i < |mem[w].data|
    requires SameLeaves(Ungated(mem), AllNodes(steps), vals)
    ensures FramesInMemory(mem, frames) && frames[0].nodes[0].out < |mem|
    ensures var root, r := frames[0].nodes[0].out, GradOf(mem, frames, w);
      var tans := Run(AllNodes(steps), State(vals, Toward(mem, w, i))).tans;
      r.Grad? && r.value.Value? && r.value.shape == mem[w].shape && |r.value.data| == |mem[w].data|
        && |tans| == |mem| &&
      Dot(Ones(|mem[root].data|), tans[root]) == r.value.data[i] + Missed(mem, steps, root, w, i)
  {
    hide Sound, Ungated, GradOf, Handled, InMemory, Backward, Forward, Dot, Missed, Concatenated, SameLeaves, Run;
    FramesInLog(mem, steps, frames);
    var M, nodes, root := Ungated(mem), AllNodes(steps), frames[0].nodes[0].out;
    LeafSized(mem, nodes, w);
    GradHoIsFirstOrder(mem, frames, w);
    FramesInMemoryUngated(mem, frames);
    UngatedAt(mem, w);
    GradientFits(M, frames, w);
    RecordedDerivative(mem, steps, root, w, i);
    SoundWellFormed(M, nodes);
    RunIsMoved(mem, steps, w, i, vals);
  }

  lemma LeafSized(mem: Memory, nodes: seq<Node>, w: Id)
    requires Sound(Ungated(mem), nodes) && w < |mem|
    ensures |mem[w].data| == Size(mem[w].shape)
  {
    hide NodeSound;
    UngatedAt(mem, w);
  }

  lemma RunIsMoved(mem: Memory, steps: seq<Step>, w: Id, i: nat, vals: Memory)
    requires Sound(Ungated(mem), AllNodes(steps)) && SameLeaves(Ungated(mem), AllNodes(steps), vals)
    ensures Run(AllNodes(steps), State(vals, Toward(mem, w, i))).tans == Moved(mem, steps, w, i)
  {
    hide Sound, SameLeaves, Run, Forward, Caught;
    var nodes := AllNodes(steps);
    SoundWellFormed(Ungated(mem), nodes);
    RunTangents(Ungated(mem), nodes, |nodes|, vals, Toward(mem, w, i));
    assert nodes[..|nodes|] == nodes;
  }

  // The element returned is the derivative if and only if nothing was missed, and
  // nothing is missed where everything computed from w was recorded.
  lemma GradHoIsDerivativeIff(mem: Memory, steps: seq<Step>, frames: seq<Frame>, w: Id, i: nat, vals: Memory)
    requires Sound(Ungated(mem), AllNodes(steps)) && Concatenated(frames) == Taped(steps)
    requires AllHandled(Ungated(mem), frames)
    requires frames != [] && frames[0].level < 2 && frames[0].nodes != []
    requires w < |mem| && mem[w].tracked && w !in Outputs(AllNodes(steps)) && i < |mem[w].data|
    requires SameLeaves(Ungated(mem), AllNodes(steps), vals)
    ensures FramesInMemory(mem, frames) && frames[0].nodes[0].out < |mem|
    ensures var root, r := frames[0].nodes[0].out, GradOf(mem, frames, w);
      var tans := Run(AllNodes(steps), State(vals, Toward(mem, w, i))).tans;
      r.Grad? && r.value.Value? && |r.value.data| == |mem[w].data| && |tans| == |mem| &&
      (Dot(Ones(|mem[root].data|), tans[root]) == r.value.data[i] <==> Missed(mem, steps, root, w, i) == 0.0) &&
      (Covered(steps, {w}) ==> Dot(Ones(|mem[root].data|), tans[root]) == r.value.data[i])
  {
    hide Sound, Ungated, GradOf, Handled, InMemory, Dot, Missed, Concatenated, SameLeaves, Run, Covered;
    GradHoAccount(mem, steps, frames, w, i, vals);
    if Covered(steps, {w}) { CoveredMissesNothing(mem, steps, frames[0].nodes[0].out, w, i); }
  }
}
