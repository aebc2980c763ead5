// What GRAD answers: the derivative by the dual run, or exactly one of its errors.
module GradAnswer {
  import opened Options
  import opened Shapes
  import opened Sums
  import opened Tape
  import opened NodeRule
  import opened Adjoint
  import opened Sweep
  import opened DualRun

  datatype GradError = NullW | NotTracked | EmptyTape | LossMismatch | NotInGraph
  datatype GradResult = Gradient(shape: Shape, data: seq<real>) | Failed(error: GradError)

  // ── The loss check of a retained GRAD ──

  function Abs(x: real): real { if x < 0.0 then -x else x }
  function Max(x: real, y: real): real { if x < y then y else x }

  predicate LossMatches(a: real, b: real) {
    Abs(a - b) <= 0.000000001 * Max(1.0, Max(Abs(a), Abs(b)))
  }

  predicate IsScalarRoot(n: Node)
    ensures IsScalarRoot(n) == ScalarRoot(n)
  {
    n.op == SumAll || n.op == MeanAll
  }

  // ── The answer as a function of the tape ──

  ghost predicate ByTensor(lossT: Option<Id>, useTensor: bool) { useTensor && lossT.Some? }

  ghost function Root(tape: seq<Node>, lossT: Option<Id>, useTensor: bool): Id
    requires tape != []
  {
    if ByTensor(lossT, useTensor) then lossT.value else tape[|tape| - 1].out
  }

  ghost function GradSpec(mem: Memory, tape: seq<Node>, lossT: Option<Id>, lossD: real, w: Option<Id>,
                          useTensor: bool, retain: bool): GradResult
    requires w.Some? ==> w.value < |mem|
  {
    if w.None? then Failed(NullW)
    else if !mem[w.value].tracked then Failed(NotTracked)
    else if tape == [] then Failed(EmptyTape)
    else if !ByTensor(lossT, useTensor) && retain && ScalarRoot(tape[|tape| - 1])
            && !LossMatches(lossD, tape[|tape| - 1].scalar) then Failed(LossMismatch)
    else
      var G := Backward(mem, tape, Seed(mem, Root(tape, lossT, useTensor)));
      if w.value !in G then Failed(NotInGraph) else Gradient(mem[w.value].shape, G[w.value])
  }


  // ── The same, without the sweep ──

  // The losses agree within one part in 10^9 of 1 or of either of them.
  predicate Near(a: real, b: real) {
    Part(a - b, 1.0) || Part(a - b, a) || Part(a - b, -a) || Part(a - b, b) || Part(a - b, -b)
  }

  predicate Part(d: real, s: real) { -s <= 1000000000.0 * d <= s }

  // A way from the root down to w, from each result to one of its operands.
  ghost predicate Way(tape: seq<Node>, root: Id, w: Id, p: seq<Id>) {
    && p != [] && p[0] == root && p[|p| - 1] == w
    && forall j :: 0 <= j < |p| - 1 ==> Edge(tape, p[j], p[j + 1])
  }

  ghost predicate Edge(tape: seq<Node>, x: Id, y: Id) {
    exists i :: 0 <= i < |tape| && tape[i].out == x && Reads(tape[i], y)
  }

  ghost predicate Reaches(tape: seq<Node>, root: Id, w: Id) {
    exists p :: Way(tape, root, w, p)
  }

  // Where the tape's nodes that come after w's own begin.
  ghost predicate After(tape: seq<Node>, w: Id, k: nat) {
    k <= |tape| && if k == 0 then forall i :: 0 <= i < |tape| ==> tape[i].out != w else tape[k - 1].out == w
  }

  // Only element i of tensor w moves.
  ghost function Nudge(mem: Memory, w: Id, i: int): (T: Tangents)
    ensures |T| == |mem|
  {
    seq(|mem|, x requires 0 <= x < |mem| => seq(|mem[x].data|, j => if x == w && j == i then 1.0 else 0.0))
  }

  // Element i of data is the derivative of the root's total: run what was recorded after
  // w on dual numbers, from any data in the tensors it produces.
  ghost predicate Derivative(mem: Memory, tape: seq<Node>, root: Id, w: Id, data: seq<real>) {
    forall k: nat, vals: Memory, i: nat :: After(tape, w, k) && SameLeaves(mem, tape[k..], vals) && i < |data| ==>
      var tans := Run(tape[k..], State(vals, Nudge(mem, w, i))).tans;
      root < |tans| && Sum(|tans[root]|, j => At(tans[root], j)) == data[i]
  }

  // The order of the checks, and what the answer is when all pass.
  ghost predicate Answers(mem: Memory, tape: seq<Node>, lossT: Option<Id>, lossD: real, w: Option<Id>,
                          useTensor: bool, retain: bool, r: GradResult)
    requires w.Some? ==> w.value < |mem|
  {
    var traced := w.Some? && mem[w.value].tracked;
    var given := useTensor && lossT.Some?;
    && (r == Failed(NullW) <==> w.None?)
    && (r == Failed(NotTracked) <==> w.Some? && !traced)
    && (r == Failed(EmptyTape) <==> traced && tape == [])
    && (traced && tape != [] ==>
          var head := tape[|tape| - 1];
          var refused := !given && retain && head.op in {SumAll, MeanAll} && !Near(lossD, head.scalar);
          var root := if given then lossT.value else head.out;
          && (r == Failed(LossMismatch) <==> refused)
          && (r == Failed(NotInGraph) <==> !refused && !Reaches(tape, root, w.value))
          && (r.Gradient? ==>
                r.shape == mem[w.value].shape && |r.data| == |mem[w.value].data| &&
                (Recorded(mem, tape) ==> Derivative(mem, tape, root, w.value, r.data))))
  }

  lemma NearIs(a: real, b: real)
    ensures LossMatches(a, b) <==> Near(a, b)
  {
  }

  // ── What the sweep reaches ──

  lemma ReadsHands(mem: Memory, n: Node, w: Id)
    requires NodeInMemory(mem, n) && Reads(n, w) && w < |mem| && mem[w].tracked
    ensures mem[n.out].tracked && Handed(mem, n, w)
  {
    var slot: nat :| Uses(n, slot) && InId(n, slot) == w;
    assert Receives(mem, n, slot);
    assert slot in {0, 1, 2};
  }

  ghost predicate Handed(mem: Memory, n: Node, w: Id) {
    exists slot :: 0 <= slot < 3 && Receives(mem, n, slot) && InId(n, slot) == w
  }

  lemma SweepKeys(mem: Memory, n: Node, G: Gradients, x: Id)
    ensures x in SweepNode(mem, n, G) <==> x in G || (n.out in G && Handed(mem, n, x))
  {
    hide NodeContribution, Receives;
    if n.out in G {
      var d := G[n.out];
      var g0 := AccumulateSlot(mem, n, d, 0, G);
      var g1 := AccumulateSlot(mem, n, d, 1, g0);
      assert x in g0 <==> x in G || (Receives(mem, n, 0) && InId(n, 0) == x);
      assert x in g1 <==> x in g0 || (Receives(mem, n, 1) && InId(n, 1) == x);
    }
  }

  lemma HandedReads(mem: Memory, n: Node, x: Id)
    requires Handed(mem, n, x)
    ensures Reads(n, x)
  {
    var slot: nat :| slot < 3 && Receives(mem, n, slot) && InId(n, slot) == x;
    assert Uses(n, slot);
  }

  lemma WayLonger(tape: seq<Node>, k: nat, x: Id, w: Id, p: seq<Id>)
    requires k <= |tape| && Way(tape[..k], x, w, p)
    ensures Way(tape, x, w, p)
  {
    forall j | 0 <= j < |p| - 1
      ensures Edge(tape, p[j], p[j + 1])
    {
      assert Edge(tape[..k], p[j], p[j + 1]);
      var i :| 0 <= i < k && tape[..k][i].out == p[j] && Reads(tape[..k][i], p[j + 1]);
      assert tape[i] == tape[..k][i];
    }
  }

  lemma LastFresh(mem: Memory, tape: seq<Node>)
    requires tape != [] && WellFormed(mem, tape)
    ensures forall i :: 0 <= i < |tape| - 1 ==> tape[i].out != tape[|tape| - 1].out
    ensures forall i :: 0 <= i < |tape| ==> !Reads(tape[i], tape[|tape| - 1].out)
  {
    hide Reads, NodeInMemory;
    var last := |tape| - 1;
    assert Fresh(tape[..last], tape[last]);
    forall i | 0 <= i < last
      ensures tape[i].out != tape[last].out && !Reads(tape[i], tape[last].out)
    {
      assert tape[..last][i] == tape[i];
    }
  }

  // Only the last node's result is not an operand of anything: a way can use that node
  // at its start alone.
  lemma WayShorter(mem: Memory, tape: seq<Node>, x: Id, w: Id, p: seq<Id>)
    requires tape != [] && WellFormed(mem, tape) && Way(tape, x, w, p) && (p[0] != tape[|tape| - 1].out || |p| == 1)
    ensures Way(tape[..|tape| - 1], x, w, p)
  {
    hide Reads, NodeInMemory;
    var last := |tape| - 1;
    LastFresh(mem, tape);
    forall j | 0 <= j < |p| - 1
      ensures Edge(tape[..last], p[j], p[j + 1])
    {
      assert Edge(tape, p[j], p[j + 1]);
      var i :| 0 <= i < |tape| && tape[i].out == p[j] && Reads(tape[i], p[j + 1]);
      assert j > 0 ==> Edge(tape, p[j - 1], p[j]);
      assert tape[..last][i] == tape[i];
    }
  }

  lemma {:induction false} WayTracked(mem: Memory, tape: seq<Node>, x: Id, w: Id, p: seq<Id>)
    requires WellFormed(mem, tape) && Way(tape, x, w, p) && w < |mem| && mem[w].tracked
    ensures x < |mem| && mem[x].tracked
    decreases |p|
  {
    hide Reads, NodeInMemory, Fresh;
    if |p| > 1 {
      assert Way(tape, p[1], w, p[1..]) by {
        forall j | 0 <= j < |p[1..]| - 1
          ensures Edge(tape, p[1..][j], p[1..][j + 1])
        {
          assert Edge(tape, p[j + 1], p[j + 2]);
        }
      }
      WayTracked(mem, tape, p[1], w, p[1..]);
      assert Edge(tape, p[0], p[1]);
      var i :| 0 <= i < |tape| && tape[i].out == p[0] && Reads(tape[i], p[1]);
      NodeOutIn(mem, tape[i]);
      ReadsHands(mem, tape[i], p[1]);
    }
  }

  lemma NodeOutIn(mem: Memory, n: Node)
    requires NodeInMemory(mem, n)
    ensures n.out < |mem|
  {
  }

  ghost predicate SomeReaches(tape: seq<Node>, G: Gradients, w: Id) {
    exists x :: x in G && Reaches(tape, x, w)
  }

  // w has an entry exactly when some tensor with one leads down to it.
  lemma {:induction false} BackwardReaches(mem: Memory, tape: seq<Node>, G: Gradients, w: Id)
    requires WellFormed(mem, tape) && w < |mem| && mem[w].tracked
    ensures w in Backward(mem, tape, G) <==> SomeReaches(tape, G, w)
    decreases |tape|
  {
    hide Reaches, SweepNode, WellFormed;
    if tape == [] {
      NoWay(w);
    } else {
      var last := |tape| - 1;
      var n, G' := tape[last], SweepNode(mem, tape[last], G);
      WellFormedPrefix(mem, tape, last);
      BackwardReaches(mem, tape[..last], G', w);
      if w in Backward(mem, tape, G) {
        var x :| x in G' && Reaches(tape[..last], x, w);
        SweepKeys(mem, n, G, x);
        LastDown(mem, tape, x, w);
      }
      forall x | x in G && Reaches(tape, x, w)
        ensures SomeReaches(tape[..last], G', w)
      {
        SweepKeys(mem, n, G, x);
        FirstStep(mem, tape, G, x, w);
      }
    }
  }

  lemma NoWay(w: Id)
    ensures forall x :: Reaches([], x, w) <==> x == w
  {
    forall x
      ensures Reaches([], x, w) <==> x == w
    {
      if x == w { assert Way([], x, w, [x]); }
      if Reaches([], x, w) {
        var p :| Way([], x, w, p);
        if |p| > 1 { assert Edge([], p[0], p[1]); }
      }
    }
  }

  lemma LastDown(mem: Memory, tape: seq<Node>, x: Id, w: Id)
    requires tape != [] && Reaches(tape[..|tape| - 1], x, w)
    ensures Reaches(tape, x, w) && (Handed(mem, tape[|tape| - 1], x) ==> Reaches(tape, tape[|tape| - 1].out, w))
  {
    hide Reads, Receives;
    var last := |tape| - 1;
    var n := tape[last];
    var p :| Way(tape[..last], x, w, p);
    WayLonger(tape, last, x, w, p);
    if Handed(mem, n, x) {
      HandedReads(mem, n, x);
      var q := [n.out] + p;
      forall j | 0 <= j < |q| - 1
        ensures Edge(tape, q[j], q[j + 1])
      {
        if j > 0 { assert Edge(tape, p[j - 1], p[j]); }
      }
      assert Way(tape, n.out, w, q);
    }
  }

  lemma FirstStep(mem: Memory, tape: seq<Node>, G: Gradients, x: Id, w: Id)
    requires tape != [] && WellFormed(mem, tape) && w < |mem| && mem[w].tracked && x in G && Reaches(tape, x, w)
    ensures SomeReaches(tape[..|tape| - 1], SweepNode(mem, tape[|tape| - 1], G), w)
  {
    hide Reads, Receives, SweepNode, NodeInMemory;
    var last := |tape| - 1;
    var n := tape[last];
    var p :| Way(tape, x, w, p);
    if p[0] != n.out || |p| == 1 {
      WayShorter(mem, tape, x, w, p);
      SweepKeys(mem, n, G, x);
    } else {
      var y, q := p[1], p[1..];
      assert Edge(tape, p[0], p[1]);
      var i :| 0 <= i < |tape| && tape[i].out == n.out && Reads(tape[i], y);
      LastFresh(mem, tape);
      assert Way(tape, y, w, q) by {
        forall j | 0 <= j < |q| - 1
          ensures Edge(tape, q[j], q[j + 1])
        {
          assert Edge(tape, p[j + 1], p[j + 2]);
        }
      }
      WayTracked(mem, tape, y, w, q);
      ReadsHands(mem, n, y);
      SweepKeys(mem, n, G, y);
      WayShorter(mem, tape, y, w, q);
      assert Reaches(tape[..last], y, w);
    }
  }

  // ── The part of the tape after a tensor ──

  lemma TailWellFormed(mem: Memory, tape: seq<Node>, k: nat)
    requires WellFormed(mem, tape) && k <= |tape|
    ensures WellFormed(mem, tape[k..]) && (Recorded(mem, tape) ==> Recorded(mem, tape[k..]))
  {
    hide Reads, NodeInMemory, NodeValue;
    var tail := tape[k..];
    forall i | 0 <= i < |tail|
      ensures NodeInMemory(mem, tail[i]) && Fresh(tail[..i], tail[i])
    {
      assert Fresh(tape[..k + i], tape[k + i]);
      forall j | 0 <= j < i
        ensures !Reads(tail[j], tail[i].out) && tail[j].out != tail[i].out
      {
        assert tape[..k + i][k + j] == tail[j];
      }
    }
  }

  lemma {:induction false} BackwardAfter(mem: Memory, tape: seq<Node>, k: nat, G: Gradients)
    requires k <= |tape|
    ensures Backward(mem, tape, G) == Backward(mem, tape[..k], Backward(mem, tape[k..], G))
    decreases |tape| - k
  {
    hide SweepNode;
    if k == |tape| {
      assert tape[..k] == tape && tape[k..] == [];
    } else {
      var last := |tape| - 1;
      var G' := SweepNode(mem, tape[last], G);
      BackwardAfter(mem, tape[..last], k, G');
      assert tape[..last][..k] == tape[..k] && tape[k..][..|tape[k..]| - 1] == tape[..last][k..];
    }
  }

  // Nodes that do not read w leave its entry.
  lemma {:induction false} BackwardLeaves(mem: Memory, tape: seq<Node>, G: Gradients, w: Id)
    requires forall i :: 0 <= i < |tape| ==> !Reads(tape[i], w)
    ensures w in Backward(mem, tape, G) <==> w in G
    ensures w in G ==> Backward(mem, tape, G)[w] == G[w]
    decreases |tape|
  {
    hide Reads, SweepNode;
    if tape != [] {
      var last := |tape| - 1;
      SweepLeaves(mem, tape[last], G, w);
      BackwardLeaves(mem, tape[..last], SweepNode(mem, tape[last], G), w);
    }
  }

  lemma SweepLeaves(mem: Memory, n: Node, G: Gradients, w: Id)
    requires !Reads(n, w)
    ensures w in SweepNode(mem, n, G) <==> w in G
    ensures w in G ==> SweepNode(mem, n, G)[w] == G[w]
  {
    hide NodeContribution;
    assert forall slot: nat :: Receives(mem, n, slot) ==> InId(n, slot) != w;
  }

  lemma BeforeUnread(mem: Memory, tape: seq<Node>, k: nat)
    requires WellFormed(mem, tape) && 0 < k <= |tape|
    ensures forall i :: 0 <= i < k ==> !Reads(tape[i], tape[k - 1].out)
    ensures forall i :: k <= i < |tape| ==> tape[i].out != tape[k - 1].out
  {
    hide Reads, NodeInMemory;
    WellFormedPrefix(mem, tape, k);
    LastFresh(mem, tape[..k]);
    forall i | 0 <= i < k
      ensures !Reads(tape[i], tape[k - 1].out)
    {
      assert tape[..k][i] == tape[i];
    }
    forall i | k <= i < |tape|
      ensures tape[i].out != tape[k - 1].out
    {
      assert Fresh(tape[..i], tape[i]);
      assert tape[..i][k - 1] == tape[k - 1];
    }
  }

  // The sweep of the whole tape gives w what the sweep of the nodes after it gives.
  lemma AfterEnough(mem: Memory, tape: seq<Node>, G: Gradients, w: Id, k: nat)
    requires WellFormed(mem, tape) && After(tape, w, k)
    ensures w !in Outputs(tape[k..])
    ensures var A, B := Backward(mem, tape, G), Backward(mem, tape[k..], G);
      (w in A <==> w in B) && (w in A ==> A[w] == B[w])
  {
    hide Reads, NodeInMemory, Backward;
    BackwardAfter(mem, tape, k, G);
    if k == 0 {
      assert tape[..0] == [] && tape[0..] == tape;
      BackwardLeaves(mem, [], Backward(mem, tape, G), w);
    } else {
      BeforeUnread(mem, tape, k);
      BackwardLeaves(mem, tape[..k], Backward(mem, tape[k..], G), w);
    }
  }

  lemma NudgeFits(mem: Memory, w: Id, i: nat)
    requires w < |mem| && mem[w].tracked && i < |mem[w].data|
    ensures Sized(mem, Nudge(mem, w, i))
    ensures Nudge(mem, w, i) == seq(|mem|, x requires 0 <= x < |mem| =>
      if x == w then Unit(|mem[w].data|, i) else Sums.Zeros(|mem[x].data|))
  {
    var T := Nudge(mem, w, i);
    forall x | 0 <= x < |mem|
      ensures T[x] == if x == w then Unit(|mem[w].data|, i) else Sums.Zeros(|mem[x].data|)
    {
    }
  }

  lemma OnesTotal(t: seq<real>, n: nat)
    requires |t| == n
    ensures Dot(Ones(n), t) == Sum(n, j => At(t, j))
  {
    SumEq(n, j => Prod(Ones(n), t, j), j => At(t, j));
  }

  // Element i of the entry is the derivative, run from right after w.
  lemma EntryIsDerivative(mem: Memory, tape: seq<Node>, root: Id, w: Id, k: nat, vals: Memory, i: nat)
    requires WellFormed(mem, tape) && Recorded(mem, tape) && root < |mem| && w < |mem| && mem[w].tracked
    requires After(tape, w, k) && SameLeaves(mem, tape[k..], vals) && i < |mem[w].data|
    requires w in Backward(mem, tape, Seed(mem, root)) && |Backward(mem, tape, Seed(mem, root))[w]| == |mem[w].data|
    ensures var tans := Run(tape[k..], State(vals, Nudge(mem, w, i))).tans;
      root < |tans| && Sum(|tans[root]|, j => At(tans[root], j)) == Backward(mem, tape, Seed(mem, root))[w][i]
  {
    hide WellFormed, Recorded, Backward, Forward, Run, SameLeaves, Seed, Caught, Nudge, Unit, Consistent,
         UntrackedAtRest;
    var tail, T := tape[k..], Nudge(mem, w, i);
    AfterEnough(mem, tape, Seed(mem, root), w, k);
    TailWellFormed(mem, tape, k);
    NudgeFits(mem, w, i);
    GradientIsDerivative(mem, tail, root, w, i);
    RunTangents(mem, tail, |tail|, vals, T);
    assert tail[..|tail|] == tail;
    var R := Forward(mem, tail, T);
    NudgeRests(mem, w, i);
    ForwardConsistent(mem, tail, T);
    OnesTotal(R[root], |mem[root].data|);
  }

  lemma EntrySized(mem: Memory, tape: seq<Node>, root: Id, w: Id)
    requires WellFormed(mem, tape) && root < |mem| && w < |mem| && mem[w].tracked
    requires w in Backward(mem, tape, Seed(mem, root))
    ensures |Backward(mem, tape, Seed(mem, root))[w]| == |mem[w].data|
  {
    hide WellFormed, Backward, Forward, Seed, Consistent, Nudge;
    var T := Nudge(mem, w, 0);
    NudgeRests(mem, w, 0);
    ForwardConsistent(mem, tape, T);
    SeedTotal(mem, root, Forward(mem, tape, T));
    BackwardTotal(mem, tape, Seed(mem, root), Forward(mem, tape, T), {});
  }

  lemma NudgeRests(mem: Memory, w: Id, i: int)
    requires w < |mem| && mem[w].tracked
    ensures Sized(mem, Nudge(mem, w, i)) && UntrackedAtRest(mem, Nudge(mem, w, i))
  {
  }

  // The specification by the sweep meets the one without it.
  lemma SpecAnswers(mem: Memory, tape: seq<Node>, lossT: Option<Id>, lossD: real, w: Option<Id>, useTensor: bool,
                    retain: bool)
    requires (w.Some? ==> w.value < |mem|) && (lossT.Some? ==> lossT.value < |mem|) && WellFormed(mem, tape)
    ensures Answers(mem, tape, lossT, lossD, w, useTensor, retain,
      GradSpec(mem, tape, lossT, lossD, w, useTensor, retain))
  {
    hide WellFormed, Backward, Derivative, Reaches, Recorded, Seed;
    if w.Some? && mem[w.value].tracked && tape != [] {
      var head, x := tape[|tape| - 1], w.value;
      var root := Root(tape, lossT, useTensor);
      NearIs(lossD, head.scalar);
      HeadIn(mem, tape);
      RootReaches(mem, tape, root, x);
      if x in Backward(mem, tape, Seed(mem, root)) {
        EntrySized(mem, tape, root, x);
        if Recorded(mem, tape) { EntryDerivative(mem, tape, root, x); }
      }
    }
  }

  lemma HeadIn(mem: Memory, tape: seq<Node>)
    requires WellFormed(mem, tape) && tape != []
    ensures tape[|tape| - 1].out < |mem|
  {
    NodeOutIn(mem, tape[|tape| - 1]);
  }

  lemma RootReaches(mem: Memory, tape: seq<Node>, root: Id, w: Id)
    requires WellFormed(mem, tape) && root < |mem| && w < |mem| && mem[w].tracked
    ensures w in Backward(mem, tape, Seed(mem, root)) <==> Reaches(tape, root, w)
  {
    hide WellFormed, Backward, Reaches;
    BackwardReaches(mem, tape, Seed(mem, root), w);
  }

  lemma EntryDerivative(mem: Memory, tape: seq<Node>, root: Id, w: Id)
    requires WellFormed(mem, tape) && Recorded(mem, tape) && root < |mem| && w < |mem| && mem[w].tracked
    requires w in Backward(mem, tape, Seed(mem, root)) && |Backward(mem, tape, Seed(mem, root))[w]| == |mem[w].data|
    ensures Derivative(mem, tape, root, w, Backward(mem, tape, Seed(mem, root))[w])
  {
    hide WellFormed, Recorded, Backward, Run, SameLeaves, Seed, Nudge, Sum;
    var data := Backward(mem, tape, Seed(mem, root))[w];
    forall k: nat, vals: Memory, i: nat | After(tape, w, k) && SameLeaves(mem, tape[k..], vals) && i < |data|
      ensures var tans := Run(tape[k..], State(vals, Nudge(mem, w, i))).tans;
        root < |tans| && Sum(|tans[root]|, j => At(tans[root], j)) == data[i]
    {
      EntryIsDerivative(mem, tape, root, w, k, vals, i);
    }
  }

  // ── Recording keeps values true ──

  // The new node's result holds its forward value, and it reads no placeholder.
  ghost predicate Truthful(mem: Memory, tape: seq<Node>, n: Node) {
    && (ScalarRoot(n) || OutData(mem, n) == NodeValue(mem, n, []))
    && forall i :: 0 <= i < |tape| && ScalarRoot(tape[i]) ==> !Reads(n, tape[i].out)
  }

  lemma RecordedSnoc(mem: Memory, tape: seq<Node>, n: Node)
    requires Recorded(mem, tape) && Fresh(tape, n) && Truthful(mem, tape, n)
    ensures Recorded(mem, tape + [n])
  {
    hide Reads, NodeValue;
  }

  lemma OperandKept(mem: Memory, more: Memory, n: Node, slot: nat)
    requires mem <= more && NodeInMemory(mem, n)
    ensures OperandAt(more, n, slot) == OperandAt(mem, n, slot)
  {
  }

  lemma NodeValueKept(mem: Memory, more: Memory, n: Node)
    requires mem <= more && NodeInMemory(mem, n)
    ensures NodeValue(more, n, []) == NodeValue(mem, n, []) && OutData(more, n) == OutData(mem, n)
  {
    hide ForwardAt, NodeOk;
    OperandKept(mem, more, n, 0);
    OperandKept(mem, more, n, 1);
    OperandKept(mem, more, n, 2);
  }

  lemma RecordedMore(mem: Memory, more: Memory, tape: seq<Node>)
    requires mem <= more && WellFormed(mem, tape) && Recorded(mem, tape)
    ensures Recorded(more, tape)
  {
    hide Reads, NodeValue, NodeInMemory, Fresh;
    forall i | 0 <= i < |tape|
      ensures ScalarRoot(tape[i]) || OutData(more, tape[i]) == NodeValue(more, tape[i], [])
    {
      NodeValueKept(mem, more, tape[i]);
    }
  }
}
