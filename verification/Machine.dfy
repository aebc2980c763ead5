// Running labelled code: a program counter, the registers and the arenas.
module Machine {
  import opened Options
  import opened ExprSyntax
  import opened Ir

  datatype Config = Config(pc: nat, regs: Regs, mem: Mem)

  // Where a label stands; the end of the program if nowhere.
  function Find(prog: seq<Line>, l: Label): (p: nat)
    ensures p < |prog| ==> prog[p] == LabelLine(l)
    ensures forall i :: 0 <= i < p && i < |prog| ==> prog[i] != LabelLine(l)
    ensures p <= |prog|
  {
    if prog == [] then 0 else if prog[0] == LabelLine(l) then 0 else 1 + Find(prog[1..], l)
  }

  // Two byte ranges of one arena meet.
  ghost predicate Meets(o: int, n: nat, o': int, n': nat) {
    o < o' + n' && o' < o + n
  }

  ghost function TypeSize(v: Val): nat { if v.FactV? then 1 else 8 }

  // Writing a cell destroys every cell it overlaps.
  ghost function Write(cells: Cells, d: nat, o: int, v: Val): Cells {
    (map k | k in cells && !(k.0 == d && Meets(k.1, TypeSize(cells[k]), o, TypeSize(v))) :: cells[k])[(d, o) := v]
  }

  // Writes outside an arena have no meaning here.
  ghost function StoreVal(ty: Ty, v: Val, p: Val, mem: Mem): Option<Mem> {
    if !HasType(v, ty) then None
    else if p.OffPtr? then
      if ty == NUM && p.d < |mem.offs| then Some(mem.(offs := mem.offs[p.d := v.i])) else None
    else if p.CellPtr? then
      if p.d < DEPTHS && 0 <= p.o && p.o + SizeOf(ty) <= ARENA then Some(mem.(cells := Write(mem.cells, p.d, p.o, v)))
      else None
    else None
  }

  ghost function Step(prog: seq<Line>, pow: Power, m: Config): Option<Config> {
    if m.pc >= |prog| then None
    else
      match prog[m.pc]
      case Ins(dst, rhs) =>
        var v := RhsVal(rhs, m.regs, m.mem, pow);
        if v.Some? then Some(Config(m.pc + 1, m.regs[dst := v.value], m.mem)) else None
      case Store(ty, a, p) =>
        var x, y := OpVal(a, m.regs), OpVal(p, m.regs);
        if x.None? || y.None? then None
        else
          var mem := StoreVal(ty, x.value, y.value, m.mem);
          if mem.Some? then Some(Config(m.pc + 1, m.regs, mem.value)) else None
      case Br(l) => Some(m.(pc := Find(prog, l)))
      case CondBr(c, yes, no) =>
        var x := OpVal(c, m.regs);
        if x.Some? && x.value.FactV? then Some(m.(pc := Find(prog, if x.value.b then yes else no))) else None
      case LabelLine(_) => Some(m.(pc := m.pc + 1))
  }

  ghost function Steps(prog: seq<Line>, pow: Power, m: Config, n: nat): Option<Config>
    decreases n
  {
    if n == 0 then Some(m)
    else
      var r := Step(prog, pow, m);
      if r.None? then None else Steps(prog, pow, r.value, n - 1)
  }

  ghost predicate Reaches(prog: seq<Line>, pow: Power, m: Config, m': Config) {
    exists n: nat :: Steps(prog, pow, m, n) == Some(m')
  }

  lemma {:induction false} StepsAdd(prog: seq<Line>, pow: Power, m: Config, a: nat, b: nat)
    requires Steps(prog, pow, m, a).Some?
    ensures Steps(prog, pow, m, a + b) == Steps(prog, pow, Steps(prog, pow, m, a).value, b)
    decreases a
  {
    if a > 0 {
      StepsAdd(prog, pow, Step(prog, pow, m).value, a - 1, b);
    }
  }

  lemma ReachesThen(prog: seq<Line>, pow: Power, m: Config, m1: Config, m2: Config)
    requires Reaches(prog, pow, m, m1) && Reaches(prog, pow, m1, m2)
    ensures Reaches(prog, pow, m, m2)
  {
    var a: nat :| Steps(prog, pow, m, a) == Some(m1);
    var b: nat :| Steps(prog, pow, m1, b) == Some(m2);
    StepsAdd(prog, pow, m, a, b);
    assert Steps(prog, pow, m, a + b) == Some(m2);
  }

  lemma ReachesSelf(prog: seq<Line>, pow: Power, m: Config)
    ensures Reaches(prog, pow, m, m)
  {
    assert Steps(prog, pow, m, 0) == Some(m);
  }

  lemma ReachesStep(prog: seq<Line>, pow: Power, m: Config)
    requires Step(prog, pow, m).Some?
    ensures Reaches(prog, pow, m, Step(prog, pow, m).value)
  {
    var m' := Step(prog, pow, m).value;
    assert Steps(prog, pow, m', 0) == Some(m');
    assert Steps(prog, pow, m, 1) == Some(m');
  }

  // A run is determined: two runs that end at the end of the program end alike.
  lemma {:induction false} OneEnd(prog: seq<Line>, pow: Power, m: Config, a: nat, b: nat)
    requires Steps(prog, pow, m, a).Some? && Steps(prog, pow, m, b).Some?
    requires Steps(prog, pow, m, a).value.pc == |prog| && Steps(prog, pow, m, b).value.pc == |prog|
    ensures Steps(prog, pow, m, a) == Steps(prog, pow, m, b)
    decreases a
  {
    if a > 0 && b > 0 {
      OneEnd(prog, pow, Step(prog, pow, m).value, a - 1, b - 1);
    }
  }

  // No label is emitted twice.
  ghost predicate LabelsOnce(prog: seq<Line>) {
    forall i, j :: 0 <= i < j < |prog| && prog[i].LabelLine? && prog[j].LabelLine? ==> prog[i].l != prog[j].l
  }

  lemma FindIs(prog: seq<Line>, p: nat, l: Label)
    requires LabelsOnce(prog) && p < |prog| && prog[p] == LabelLine(l)
    ensures Find(prog, l) == p
  {
  }

  // ── Emitted stretches ──

  // The next line of the program.
  ghost predicate NextLine(prog: seq<Line>, pc: nat, line: Line) {
    pc < |prog| && prog[pc] == line
  }

  lemma PrefixLine(prog: seq<Line>, body: seq<Line>, line: Line)
    requires body + [line] <= prog
    ensures NextLine(prog, |body|, line) && body <= prog
  {
    assert (body + [line])[|body|] == line;
    assert body + [line] == prog[..|body| + 1];
  }

  // Straight-line code runs as the registers After it say.
  lemma {:induction false} StraightRun(prog: seq<Line>, body: seq<Line>, body': seq<Line>, regs: Regs, mem: Mem,
                                       pow: Power)
    requires body <= body' <= prog
    requires After(body', Start(|body|, regs, mem, pow)).Some?
    ensures var regs' := After(body', Start(|body|, regs, mem, pow)).value;
      Reaches(prog, pow, Config(|body|, regs, mem), Config(|body'|, regs', mem))
    decreases |body'|
  {
    var start := Start(|body|, regs, mem, pow);
    if |body'| == |body| {
      ReachesSelf(prog, pow, Config(|body|, regs, mem));
    } else {
      var last := |body'| - 1;
      StraightRun(prog, body, body'[..last], regs, mem, pow);
      var m1 := Config(last, After(body'[..last], start).value, mem);
      assert prog[last] == body'[last];
      ReachesStep(prog, pow, m1);
      ReachesThen(prog, pow, Config(|body|, regs, mem), m1, Step(prog, pow, m1).value);
    }
  }
}
