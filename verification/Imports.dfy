// Recursive IMPORT resolution with a shared stack of the files being resolved.
module Imports {
  import opened Options

  type Path = string

  // A parsed statement; an import carries its resolved path.
  datatype Stmt = Plain(text: string) | Import(path: Path)

  datatype Result = Done(stmts: seq<Stmt>) | Circular(path: Path) | NotFound(path: Path)

  // The parsed contents of every file that exists.
  type Files = map<Path, seq<Stmt>>

  ghost function Push(stack: set<Path>, current: Option<Path>): set<Path> {
    if current.Some? then stack + {current.value} else stack
  }

  // ── What the resolver computes ──

  // The statements of a program, resolved left to right; the first storm wins.
  ghost function Resolved(fs: Files, prog: seq<Stmt>, stack: set<Path>): Result
    decreases fs.Keys - stack, |prog|
  {
    if prog == [] then Done([])
    else
      var head := ResolvedStmt(fs, prog, stack);
      if !head.Done? then head
      else
        var rest := Resolved(fs, prog[1..], stack);
        if rest.Done? then Done(head.stmts + rest.stmts) else rest
  }

  ghost function ResolvedStmt(fs: Files, prog: seq<Stmt>, stack: set<Path>): Result
    requires prog != []
    decreases fs.Keys - stack, |prog|, 0
  {
    match prog[0]
    case Plain(_) => Done([prog[0]])
    case Import(p) =>
      if p in stack then Circular(p)
      else if p !in fs then NotFound(p)
      else
        assert p in fs.Keys - stack;
        Resolved(fs, fs[p], stack + {p})
  }

  class Resolver {
    var importStack: set<Path>

    constructor ()
      ensures importStack == {}
    {
      importStack := {};
    }

    // A storm leaves the stack as it is; a normal return leaves only the current
    // file added, which the caller takes off again.
    method ResolveImports(fs: Files, prog: seq<Stmt>, current: Option<Path>) returns (r: Result)
      modifies this
      ensures r == Resolved(fs, prog, Push(old(importStack), current))
      ensures r.Done? ==> importStack == Push(old(importStack), current)
      decreases fs.Keys - Push(importStack, current), 1
    {
      hide Resolved, ResolvedStmt;
      if current.Some? {
        importStack := importStack + {current.value};
      }
      ghost var stack := importStack;
      var newStatements := [];
      var i := 0;
      assert prog[0..] == prog;
      while i < |prog|
        invariant 0 <= i <= |prog| && importStack == stack
        invariant Resolved(fs, prog, stack) == Prepend(newStatements, Resolved(fs, prog[i..], stack))
      {
        ResolvedStep(fs, prog, i, stack);
        var head := ResolveStatement(fs, prog, i);
        if !head.Done? {
          return head;
        }
        newStatements := newStatements + head.stmts;
        i := i + 1;
      }
      ResolvedEnd(fs, prog, stack);
      r := Done(newStatements);
    }

    // The loop body: an import is replaced by its file's resolved statements.
    method ResolveStatement(fs: Files, prog: seq<Stmt>, i: nat) returns (r: Result)
      requires i < |prog|
      modifies this
      ensures r == ResolvedStmt(fs, prog[i..], old(importStack))
      ensures r.Done? ==> importStack == old(importStack)
      decreases fs.Keys - importStack, 0
    {
      hide Resolved;
      match prog[i] {
        case Plain(_) =>
          r := Done([prog[i]]);
        case Import(p) =>
          if p in importStack {
            return Circular(p);
          }
          if p !in fs {
            return NotFound(p);
          }
          assert p in fs.Keys - importStack;
          importStack := importStack + {p};
          assert importStack + {p} == importStack;
          r := ResolveImports(fs, fs[p], Some(p));
          if r.Done? {
            importStack := importStack - {p};
          }
      }
    }
  }

  lemma ResolvedStep(fs: Files, prog: seq<Stmt>, i: nat, stack: set<Path>)
    requires i < |prog|
    ensures Resolved(fs, prog[i..], stack)
      == Followed(ResolvedStmt(fs, prog[i..], stack), Resolved(fs, prog[i + 1..], stack))
  {
    assert prog[i..][1..] == prog[i + 1..];
  }

  ghost function Followed(head: Result, rest: Result): Result {
    if head.Done? then Prepend(head.stmts, rest) else head
  }

  lemma ResolvedEnd(fs: Files, prog: seq<Stmt>, stack: set<Path>)
    ensures Resolved(fs, prog[|prog|..], stack) == Done([])
  {
  }

  ghost function Prepend(stmts: seq<Stmt>, r: Result): Result {
    if r.Done? then Done(stmts + r.stmts) else r
  }

  // ── Import chains ──

  // w is a chain of imports: the program imports w[0], and each file the next.
  ghost predicate Chain(fs: Files, prog: seq<Stmt>, w: seq<Path>)
    decreases |w|
  {
    && w != []
    && Import(w[0]) in prog
    && (|w| == 1 || (w[0] in fs && Chain(fs, fs[w[0]], w[1..])))
  }

  // The chain ends in a file that exists and never meets the stack or itself.
  ghost predicate Clean(fs: Files, stack: set<Path>, w: seq<Path>)
    requires w != []
  {
    && w[|w| - 1] in fs
    && (forall i :: 0 <= i < |w| ==> w[i] !in stack)
    && (forall i, j :: 0 <= i < j < |w| ==> w[i] != w[j])
  }

  // Success clears every chain.
  lemma {:induction false} DoneMeansClean(fs: Files, prog: seq<Stmt>, stack: set<Path>, w: seq<Path>)
    requires Resolved(fs, prog, stack).Done? && Chain(fs, prog, w)
    ensures Clean(fs, stack, w)
    decreases |w|, |prog|
  {
    if prog[0] == Import(w[0]) {
      if |w| > 1 {
        DoneMeansClean(fs, fs[w[0]], stack + {w[0]}, w[1..]);
        forall i, j | 0 <= i < j < |w|
          ensures w[i] != w[j]
        {
          assert w[j] == w[1..][j - 1];
          if i > 0 { assert w[i] == w[1..][i - 1]; }
        }
        forall i | 0 <= i < |w|
          ensures w[i] !in stack
        {
          if i > 0 { assert w[i] == w[1..][i - 1]; }
        }
      }
    } else {
      DoneMeansClean(fs, prog[1..], stack, w);
    }
  }

  // A storm exhibits the chain it is about.
  lemma {:induction false} StormHasChain(fs: Files, prog: seq<Stmt>, stack: set<Path>) returns (w: seq<Path>)
    requires !Resolved(fs, prog, stack).Done?
    ensures Chain(fs, prog, w)
    ensures match Resolved(fs, prog, stack)
            case Circular(p) => w[|w| - 1] == p && (p in stack || p in w[..|w| - 1])
            case NotFound(p) => w[|w| - 1] == p && p !in fs
            case Done(_) => false
    decreases fs.Keys - stack, |prog|
  {
    var head := ResolvedStmt(fs, prog, stack);
    if head.Done? {
      w := StormHasChain(fs, prog[1..], stack);
    } else {
      var p := prog[0].path;
      if p in stack || p !in fs {
        w := [p];
      } else {
        assert p in fs.Keys - stack;
        var v := StormHasChain(fs, fs[p], stack + {p});
        w := [p] + v;
        assert w[1..] == v;
        assert w[..|w| - 1] == [p] + v[..|v| - 1];
      }
    }
  }

  // Resolution succeeds exactly when every import chain is clean.
  lemma DoneIffClean(fs: Files, prog: seq<Stmt>, stack: set<Path>)
    ensures Resolved(fs, prog, stack).Done? <==> forall w :: Chain(fs, prog, w) ==> Clean(fs, stack, w)
  {
    if Resolved(fs, prog, stack).Done? {
      forall w | Chain(fs, prog, w)
        ensures Clean(fs, stack, w)
      {
        DoneMeansClean(fs, prog, stack, w);
      }
    } else {
      var w := StormHasChain(fs, prog, stack);
      StormIsUnclean(fs, prog, stack, w);
    }
  }

  lemma StormIsUnclean(fs: Files, prog: seq<Stmt>, stack: set<Path>, w: seq<Path>)
    requires Chain(fs, prog, w)
    requires w[|w| - 1] !in fs || w[|w| - 1] in stack || w[|w| - 1] in w[..|w| - 1]
    ensures !Clean(fs, stack, w)
  {
    var last := |w| - 1;
    if w[last] in w[..last] {
      var i :| 0 <= i < last && w[..last][i] == w[last];
      assert w[i] == w[last];
    }
  }

  // ── Cycles ──

  ghost predicate AllPresent(fs: Files, prog: seq<Stmt>) {
    forall w :: Chain(fs, prog, w) ==> w[|w| - 1] in fs
  }

  // The file at the end of a chain from the root imports a file already met.
  ghost predicate CycleReachable(fs: Files, prog: seq<Stmt>, root: Option<Path>) {
    exists w :: Chain(fs, prog, w) && (root == Some(w[|w| - 1]) || w[|w| - 1] in w[..|w| - 1])
  }

  // With every import present, a storm is raised exactly for a reachable cycle,
  // and it is the circular-import storm.
  lemma CircularIffCycle(fs: Files, prog: seq<Stmt>, root: Option<Path>)
    requires AllPresent(fs, prog)
    ensures Resolved(fs, prog, Push({}, root)).Circular? <==> CycleReachable(fs, prog, root)
    ensures Resolved(fs, prog, Push({}, root)).Done? <==> !CycleReachable(fs, prog, root)
  {
    var stack := Push({}, root);
    var r := Resolved(fs, prog, stack);
    if r.Done? {
      forall w | Chain(fs, prog, w)
        ensures root != Some(w[|w| - 1]) && w[|w| - 1] !in w[..|w| - 1]
      {
        DoneMeansClean(fs, prog, stack, w);
      }
    } else {
      var w := StormHasChain(fs, prog, stack);
      assert w[|w| - 1] in fs;
    }
  }

  // ── The inlined program ──

  // Textual inlining without any stack, to a given nesting depth.
  ghost function Expand(fs: Files, prog: seq<Stmt>, depth: nat): seq<Stmt>
    decreases depth, |prog|
  {
    if prog == [] then []
    else
      var head :=
        match prog[0]
        case Plain(_) => [prog[0]]
        case Import(p) => if p in fs && depth > 0 then Expand(fs, fs[p], depth - 1) else [];
      head + Expand(fs, prog[1..], depth)
  }

  ghost predicate NoImports(stmts: seq<Stmt>) {
    forall i :: 0 <= i < |stmts| ==> stmts[i].Plain?
  }

  lemma SmallerRest(fs: Files, stack: set<Path>, p: Path)
    requires p in fs && p !in stack
    ensures |fs.Keys - (stack + {p})| + 1 == |fs.Keys - stack|
  {
    assert fs.Keys - stack == (fs.Keys - (stack + {p})) + {p};
  }

  // A successful resolution is the depth-first inlining, with no import left.
  lemma {:induction false} DoneIsInlining(fs: Files, prog: seq<Stmt>, stack: set<Path>, depth: nat)
    requires Resolved(fs, prog, stack).Done? && |fs.Keys - stack| <= depth
    ensures Resolved(fs, prog, stack).stmts == Expand(fs, prog, depth)
    ensures NoImports(Resolved(fs, prog, stack).stmts)
    decreases depth, |prog|
  {
    hide Resolved, ResolvedStmt;
    if prog == [] {
      ResolvedEnd(fs, prog, stack);
    } else {
      DoneStep(fs, prog, stack);
      DoneIsInlining(fs, prog[1..], stack, depth);
      if prog[0].Import? {
        var p := prog[0].path;
        SmallerRest(fs, stack, p);
        DoneIsInlining(fs, fs[p], stack + {p}, depth - 1);
      }
    }
  }

  lemma DoneStep(fs: Files, prog: seq<Stmt>, stack: set<Path>)
    requires prog != [] && Resolved(fs, prog, stack).Done?
    ensures ResolvedStmt(fs, prog, stack).Done? && Resolved(fs, prog[1..], stack).Done?
    ensures Resolved(fs, prog, stack).stmts == ResolvedStmt(fs, prog, stack).stmts
      + Resolved(fs, prog[1..], stack).stmts
    ensures prog[0].Plain? ==> ResolvedStmt(fs, prog, stack).stmts == [prog[0]]
    ensures prog[0].Import? ==>
      && prog[0].path in fs && prog[0].path !in stack
      && ResolvedStmt(fs, prog, stack) == Resolved(fs, fs[prog[0].path], stack + {prog[0].path})
  {
  }

  // ── Which storm comes first ──

  // w is the chain found by taking statement a[0] of the program, then statement a[1] of
  // the file it imports, and so on.
  ghost predicate Stands(fs: Files, prog: seq<Stmt>, a: seq<nat>, w: seq<Path>)
    decreases |w|
  {
    && w != [] && |a| == |w| && a[0] < |prog| && prog[a[0]] == Import(w[0])
    && (|w| == 1 || (w[0] in fs && Stands(fs, fs[w[0]], a[1..], w[1..])))
  }

  // The chain's last import is on the stack, on the chain already or missing, and none
  // before it is.
  ghost predicate Faulty(fs: Files, stack: set<Path>, w: seq<Path>)
    decreases |w|
  {
    && w != []
    && if |w| == 1 then w[0] in stack || w[0] !in fs
       else w[0] !in stack && w[0] in fs && Faulty(fs, stack + {w[0]}, w[1..])
  }

  // a comes before b when the files are read depth first.
  ghost predicate Earlier(a: seq<nat>, b: seq<nat>) {
    exists i :: 0 <= i < |a| && i < |b| && a[..i] == b[..i] && a[i] < b[i]
  }

  lemma FaultyChain(fs: Files, prog: seq<Stmt>, stack: set<Path>, a: seq<nat>, w: seq<Path>)
    requires Resolved(fs, prog, stack).Done? && Stands(fs, prog, a, w)
    ensures !Faulty(fs, stack, w)
    decreases |w|, |prog|
  {
    hide Resolved, ResolvedStmt;
    if prog == [] { ResolvedEnd(fs, prog, stack); }
    DoneStep(fs, prog, stack);
    if a[0] == 0 {
      if |w| > 1 && Faulty(fs, stack, w) { FaultyChain(fs, fs[w[0]], stack + {w[0]}, a[1..], w[1..]); }
    } else {
      var a' := [a[0] - 1] + a[1..];
      assert a'[1..] == a[1..];
      FaultyChain(fs, prog[1..], stack, a', w);
    }
  }

  // A storm is the one at the faulty chain that comes first: circular if its last import
  // is on the stack or on the chain already, not found otherwise.
  lemma {:induction false} FirstStorm(fs: Files, prog: seq<Stmt>, stack: set<Path>) returns (a: seq<nat>, w: seq<Path>)
    requires !Resolved(fs, prog, stack).Done?
    ensures Stands(fs, prog, a, w) && Faulty(fs, stack, w)
    ensures var p := w[|w| - 1];
      Resolved(fs, prog, stack) == if p in stack || p in w[..|w| - 1] then Circular(p) else NotFound(p)
    ensures forall b, v :: Stands(fs, prog, b, v) && Faulty(fs, stack, v) && b != a ==> Earlier(a, b)
    decreases fs.Keys - stack, |prog|
  {
    var head := ResolvedStmt(fs, prog, stack);
    if head.Done? {
      var a', w' := FirstStorm(fs, prog[1..], stack);
      a, w := [a'[0] + 1] + a'[1..], w';
      assert a[1..] == a'[1..];
      LaterFirst(fs, prog, stack, a', a);
    } else {
      var p := prog[0].path;
      if p in stack || p !in fs {
        a, w := [0], [p];
        forall b, v | Stands(fs, prog, b, v) && Faulty(fs, stack, v) && b != a
          ensures Earlier(a, b)
        {
          HeadOnly(fs, prog, stack, p, b, v);
          assert a[..0] == b[..0];
        }
      } else {
        assert p in fs.Keys - stack;
        var a', w' := FirstStorm(fs, fs[p], stack + {p});
        a, w := [0] + a', [p] + w';
        assert a[1..] == a' && w[1..] == w' && w[..|w| - 1] == [p] + w'[..|w'| - 1];
        InnerFirst(fs, prog, stack, p, a', a);
      }
    }
  }

  lemma HeadOnly(fs: Files, prog: seq<Stmt>, stack: set<Path>, p: Path, b: seq<nat>, v: seq<Path>)
    requires prog != [] && prog[0] == Import(p) && (p in stack || p !in fs)
    requires Stands(fs, prog, b, v) && Faulty(fs, stack, v) && b != [0]
    ensures b[0] > 0
  {
  }

  lemma EarlierCons(n: nat, a: seq<nat>, b: seq<nat>)
    requires Earlier(a, b)
    ensures Earlier([n] + a, [n] + b)
  {
    var i :| 0 <= i < |a| && i < |b| && a[..i] == b[..i] && a[i] < b[i];
    assert ([n] + a)[..i + 1] == [n] + a[..i] && ([n] + b)[..i + 1] == [n] + b[..i];
  }

  lemma InnerFirst(fs: Files, prog: seq<Stmt>, stack: set<Path>, p: Path, a': seq<nat>, a: seq<nat>)
    requires prog != [] && prog[0] == Import(p) && p !in stack && p in fs && a == [0] + a'
    requires forall b, v :: Stands(fs, fs[p], b, v) && Faulty(fs, stack + {p}, v) && b != a' ==> Earlier(a', b)
    ensures forall b, v :: Stands(fs, prog, b, v) && Faulty(fs, stack, v) && b != a ==> Earlier(a, b)
  {
    forall b, v | Stands(fs, prog, b, v) && Faulty(fs, stack, v) && b != a
      ensures Earlier(a, b)
    {
      if b[0] == 0 {
        assert v[0] == p && |v| > 1;
        assert b == [0] + b[1..];
        assert Stands(fs, fs[p], b[1..], v[1..]) && Faulty(fs, stack + {p}, v[1..]);
        EarlierCons(0, a', b[1..]);
      } else {
        assert a[..0] == b[..0];
      }
    }
  }

  lemma LaterFirst(fs: Files, prog: seq<Stmt>, stack: set<Path>, a': seq<nat>, a: seq<nat>)
    requires prog != [] && ResolvedStmt(fs, prog, stack).Done? && a' != [] && a == [a'[0] + 1] + a'[1..]
    requires forall b, v :: Stands(fs, prog[1..], b, v) && Faulty(fs, stack, v) && b != a' ==> Earlier(a', b)
    ensures forall b, v :: Stands(fs, prog, b, v) && Faulty(fs, stack, v) && b != a ==> Earlier(a, b)
  {
    forall b, v | Stands(fs, prog, b, v) && Faulty(fs, stack, v) && b != a
      ensures Earlier(a, b)
    {
      if b[0] == 0 {
        HeadFaultless(fs, prog, stack, b, v);
      } else {
        var b' := [b[0] - 1] + b[1..];
        assert b'[1..] == b[1..];
        assert Stands(fs, prog[1..], b', v);
        assert b' == a' ==> b == a by { assert b == [b[0]] + b[1..]; }
        EarlierLater(a', b', a, b);
      }
    }
  }

  lemma EarlierLater(a': seq<nat>, b': seq<nat>, a: seq<nat>, b: seq<nat>)
    requires Earlier(a', b') && a' != [] && b' != [] && a == [a'[0] + 1] + a'[1..] && b == [b'[0] + 1] + b'[1..]
    ensures Earlier(a, b)
  {
    var i :| 0 <= i < |a'| && i < |b'| && a'[..i] == b'[..i] && a'[i] < b'[i];
    if i == 0 {
      assert a[..0] == b[..0];
    } else {
      assert a'[..i][0] == a'[0] && b'[..i][0] == b'[0];
      assert a[..i] == [a'[0] + 1] + a'[..i][1..] && b[..i] == [b'[0] + 1] + b'[..i][1..];
    }
  }

  lemma HeadFaultless(fs: Files, prog: seq<Stmt>, stack: set<Path>, b: seq<nat>, v: seq<Path>)
    requires prog != [] && ResolvedStmt(fs, prog, stack).Done? && Stands(fs, prog, b, v) && b[0] == 0
    ensures !Faulty(fs, stack, v)
  {
    if Faulty(fs, stack, v) && |v| > 1 { FaultyChain(fs, fs[v[0]], stack + {v[0]}, b[1..], v[1..]); }
  }
}
