// GRAD_HO, TENSOR_SUM and GRAD_HO again, run on the engine.
module Ad2Run {
  import opened Options
  import opened Tape
  import opened Adjoint
  import opened Sweep
  import opened Ad2
  import opened Ad2Tape
  import opened Ad2Pass
  import opened Ad2Sound
  import opened Ad2Second
  import opened Ad2Twice
  import opened Ad2Engine

  lemma OneFrame(p: Pass, f: Frame)
    ensures RunFrames(p, [f]) == RunNodes(p, f.nodes)
  {
    hide RunNodes;
    assert [f][1..] == [];
  }

  lemma FirstFrames(mem: Memory, steps: seq<Step>, nodes: seq<Node>)
    requires Program(mem, steps, nodes)
    ensures FramesInMemory(mem, [Frame(nodes, false, 0)]) && nodes != [] && nodes[0].out < |mem|
  {
    hide Sound, Walkable, Ruled, NodeSound;
    forall i | 0 <= i < |nodes|
      ensures InMemory(mem, nodes[i]) && nodes[i].out < |mem|
    {
      NodeStep(mem, steps, nodes, i);
      SoundInside(Ungated(mem), nodes[i]);
      HeadInMemory(mem, nodes[i]);
    }
  }

  // What the second GRAD_HO asks of its frames.
  lemma SecondFits(mem: Memory, steps: seq<Step>, nodes: seq<Node>, u: Id)
    requires Program(mem, steps, nodes) && u < |mem| && mem[u].tracked && Reached(nodes, u)
    ensures var q := AfterTotal(mem, steps, nodes, u);
      |steps| <= |q.steps| && |mem| <= |q.mem| && (forall w :: 0 <= w < |mem| && mem[w].tracked ==> q.mem[w].tracked) &&
      FramesInMemory(q.mem, SecondFrames(steps, nodes, q)) && SecondFrames(steps, nodes, q)[0].nodes != [] &&
      SecondFrames(steps, nodes, q)[0].nodes[0].out < |q.mem|
  {
    hide Program, Reached, Sound, Sure, AfterFirst, AfterTotal, Usable, Concatenated, FramesInMemory, Taped, Reversed;
    var q := AfterTotal(mem, steps, nodes, u);
    AfterTotalFacts(mem, steps, nodes, u);
    TotalIsHead(mem, steps, nodes, u);
    ProgramReversed(mem, steps, nodes);
    SecondFramesAreLog(steps, nodes, q);
    FramesInLog(q.mem, q.steps, SecondFrames(steps, nodes, q));
  }

  // Memory, log and frames after the first GRAD_HO and the total.
  ghost predicate Ahead(e: Engine, mem: Memory, steps: seq<Step>, nodes: seq<Node>, u: Id)
    reads e
  {
    var q := AfterTotal(mem, steps, nodes, u);
    e.Valid() && e.mem == q.mem && e.steps == q.steps && e.grads == map[] && |steps| <= |q.steps|
      && e.frames == SecondFrames(steps, nodes, q)
  }

  method FirstThenTotal(e: Engine, u: Id, ghost nodes: seq<Node>)
    requires e.Valid() && e.grads == map[] && e.frames == [Frame(nodes, false, 0)] && Program(e.mem, e.steps, nodes)
    requires u < |e.mem| && e.mem[u].tracked && Reached(nodes, u)
    modifies e
    ensures Ahead(e, old(e.mem), old(e.steps), nodes, u)
  {
    hide Program, Reached, RunNodes, Sound, Taped, Reversed, GradOf, Onward, Ready, Seeded, FramesInMemory, Grown;
    ghost var mem0, steps0, was := e.mem, e.steps, e.frames;
    FirstFrames(mem0, steps0, nodes);
    FirstResult(mem0, steps0, nodes, u);
    AfterFirstFacts(mem0, steps0, nodes, u);
    var first := e.Grad(u);
    OneFrame(Seeded(mem0, steps0, nodes[0].out), was[0]);
    ghost var p := AfterFirst(mem0, steps0, nodes);
    assert first == Found(p.grads[u]) && e.mem == p.mem && e.steps == p.steps;
    TopRecords(e, was, steps0);
    assert e.since.0[1] == Frame(nodes, true, 0);
    var s := e.TensorSum(first.id);
    TopRecords(e, was, steps0);
    assert e.frames == [e.frames[0], e.frames[1]];
  }

  // The second answer is what the walk over the two frames returns, and SecondGradHo
  // says when that is the derivative of the total of the first.
  method SecondDerivative(e: Engine, u: Id, w: Id, ghost nodes: seq<Node>) returns (r: Answer)
    requires e.Valid() && e.grads == map[] && e.frames == [Frame(nodes, false, 0)] && Program(e.mem, e.steps, nodes)
    requires u < |e.mem| && e.mem[u].tracked && Reached(nodes, u) && w < |e.mem| && e.mem[w].tracked
    modifies e
    ensures var q := AfterTotal(old(e.mem), old(e.steps), nodes, u);
      |old(e.steps)| <= |q.steps| && w < |q.mem| && FramesInMemory(q.mem, SecondFrames(old(e.steps), nodes, q)) &&
      SecondFrames(old(e.steps), nodes, q)[0].nodes != []
        && SecondFrames(old(e.steps), nodes, q)[0].nodes[0].out < |q.mem| &&
      match GradOf(q.mem, SecondFrames(old(e.steps), nodes, q), w)
      case Error(m) => r == Answer.Failed(m)
      case Grad(v) => r.Found? && ValueAt(e.mem, Some(r.id)) == v
    ensures e.Valid() && e.grads == map[] && e.frames != []
    ensures r.Found? ==> e.frames[0].level == 2
  {
    hide Program, Reached, AfterTotal, SecondFrames, GradOf, FramesInMemory, Went, Starts;
    SecondFits(e.mem, e.steps, nodes, u);
    SecondTop(e.steps, nodes, AfterTotal(e.mem, e.steps, nodes, u));
    FirstThenTotal(e, u, nodes);
    ghost var mem1, frames1, steps1 := e.mem, e.frames, e.steps;
    StartsHere(mem1, frames1, w);
    r := e.Grad(w);
    WentUp(mem1, frames1, steps1, w, e.mem, e.frames, e.steps, r);
  }

  lemma SecondTop(steps: seq<Step>, nodes: seq<Node>, q: Pass)
    requires |steps| <= |q.steps|
    ensures SecondFrames(steps, nodes, q) != [] && SecondFrames(steps, nodes, q)[0].level == 1
  {
  }

  lemma StartsHere(mem: Memory, frames: seq<Frame>, w: Id)
    requires w < |mem| && mem[w].tracked && frames != [] && frames[0].level == 1 && frames[0].nodes != []
    ensures Starts(mem, frames, w)
  {
  }

  lemma WentUp(mem: Memory, frames: seq<Frame>, steps: seq<Step>, w: Id, mem': Memory, frames': seq<Frame>,
               steps': seq<Step>, r: Answer)
    requires w < |mem| && Starts(mem, frames, w) && frames[0].nodes[0].out < |mem|
    requires Went(mem, frames, steps, w, mem', frames', steps', r)
    ensures frames' != [] && frames'[0].level == frames[0].level + 1
  {
  }

  // A third derivative is refused, and nothing changes: the frame a second one leaves on
  // top is of level 2.
  method ThirdRefused(e: Engine, v: Id) returns (r: Answer)
    requires e.Valid() && e.grads == map[] && e.frames != [] && e.frames[0].level == 2
    requires v < |e.mem| && e.mem[v].tracked
    modifies e
    ensures r == Answer.Failed("ad2: 3rd+ derivatives unsupported (single-DAG pending 0c)")
    ensures e.mem == old(e.mem) && e.frames == old(e.frames) && e.steps == old(e.steps)
  {
    r := e.Grad(v);
  }
}
