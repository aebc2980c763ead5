// Three gradient buffers that a loop adds to at once: of the input, of the weight (a
// kernel or gamma) and of the bias (or beta). Operands that are one and the same
// tensor share one buffer.
module GradBuffers {
  import opened Sums

  // A null buffer belongs to an untracked operand.
  datatype Buffers = Buffers(gx: array?<real>, gk: array?<real>, gb: array?<real>)

  // What each role's buffer held before, and what each role has added since.
  datatype Parts = Parts(px: seq<real>, pk: seq<real>, pb: seq<real>)

  ghost function Part(on: bool, p: seq<real>, i: int): real { if on then At(p, i) else 0.0 }

  // Buffer a holds its old contents plus the part of every role it serves.
  ghost predicate Mixed(a: array?<real>, was: seq<real>, b: Buffers, p: Parts)
    reads a
  {
    a != null ==>
      && a.Length == |was|
      && forall i :: 0 <= i < a.Length ==>
           a[i] == was[i] + Part(a == b.gx, p.px, i) + Part(a == b.gk, p.pk, i) + Part(a == b.gb, p.pb, i)
  }

  ghost predicate Holds(b: Buffers, was: Parts, p: Parts)
    reads b.gx, b.gk, b.gb
  {
    && Mixed(b.gx, was.px, b, p) && Mixed(b.gk, was.pk, b, p) && Mixed(b.gb, was.pb, b, p)
    && (b.gx != null ==> |p.px| == b.gx.Length)
    && (b.gk != null ==> |p.pk| == b.gk.Length)
    && (b.gb != null ==> |p.pb| == b.gb.Length)
  }

  method BumpInput(b: Buffers, i: int, c: real, ghost was: Parts, ghost p: Parts)
    requires Holds(b, was, p)
    requires b.gx != null ==> 0 <= i < b.gx.Length
    modifies b.gx
    ensures Holds(b, was, p.(px := Bump(p.px, i, c)))
  {
    if b.gx != null { b.gx[i] := b.gx[i] + c; }
  }

  method BumpWeight(b: Buffers, i: int, c: real, ghost was: Parts, ghost p: Parts)
    requires Holds(b, was, p)
    requires b.gk != null ==> 0 <= i < b.gk.Length
    modifies b.gk
    ensures Holds(b, was, p.(pk := Bump(p.pk, i, c)))
  {
    if b.gk != null { b.gk[i] := b.gk[i] + c; }
  }

  method BumpBias(b: Buffers, i: int, c: real, ghost was: Parts, ghost p: Parts)
    requires Holds(b, was, p)
    requires b.gb != null ==> 0 <= i < b.gb.Length
    modifies b.gb
    ensures Holds(b, was, p.(pb := Bump(p.pb, i, c)))
  {
    if b.gb != null { b.gb[i] := b.gb[i] + c; }
  }

  ghost function Contents(b: Buffers): Parts
    reads b.gx, b.gk, b.gb
  {
    Parts(if b.gx != null then b.gx[..] else [], if b.gk != null then b.gk[..] else [], if b.gb != null then b.gb[..]
      else [])
  }

  // Before anything has been added.
  lemma HoldsNothing(b: Buffers, was: Parts, none: Parts)
    requires b.gx != null ==> was.px == b.gx[..] && none.px == Zeros(b.gx.Length)
    requires b.gk != null ==> was.pk == b.gk[..] && none.pk == Zeros(b.gk.Length)
    requires b.gb != null ==> was.pb == b.gb[..] && none.pb == Zeros(b.gb.Length)
    ensures Holds(b, was, none)
  {
  }
}
