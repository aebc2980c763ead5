// The CONV2D backward loops, on gradient buffers that may be one and the same
// (a tensor convolved with itself).
module ConvKernel {
  import opened Arith
  import opened Sums
  import opened Tape
  import opened Rules
  import opened Kernels
  import opened GradBuffers
  import ConvRule

  // ── The loop counters and the flattened counters of the specification ──

  ghost function TapIndex(g: ConvGeo, ci: int, ki: int, kj: int): int { Ix(g.kw, Ix(g.kh, ci, ki), kj) }
  ghost function OutIndex(g: ConvGeo, i: int, j: int, oh: int, ow: int): int {
    Ix(g.wo, Ix(g.ho, Ix(g.co, i, j), oh), ow)
  }

  lemma TapAt(g: ConvGeo, ci: int, ki: int, kj: int)
    requires 0 <= ci < g.cin && 0 <= ki < g.kh && 0 <= kj < g.kw
    ensures 0 <= TapIndex(g, ci, ki, kj) < Taps(g)
    ensures DecodeTap(g, TapIndex(g, ci, ki, kj)) == TapPos(ci, ki, kj)
    ensures TapIndex(g, ci, ki, kj + 1) == TapIndex(g, ci, ki, kj) + 1
  {
    FlatBound(g.cin, g.kh, ci, ki);
    FlatBound(g.cin * g.kh, g.kw, Ix(g.kh, ci, ki), kj);
  }

  lemma TapCarry(g: ConvGeo, ci: int, ki: int)
    ensures TapIndex(g, ci, ki, g.kw) == TapIndex(g, ci, ki + 1, 0)
    ensures TapIndex(g, ci, g.kh, 0) == TapIndex(g, ci + 1, 0, 0)
    ensures TapIndex(g, 0, 0, 0) == 0 && TapIndex(g, g.cin, 0, 0) == Taps(g)
  {
  }

  lemma OutAt(g: ConvGeo, nn: nat, i: int, j: int, oh: int, ow: int)
    requires 0 <= i < nn && 0 <= j < g.co && 0 <= oh < g.ho && 0 <= ow < g.wo
    ensures 0 <= OutIndex(g, i, j, oh, ow) < nn * g.co * g.ho * g.wo
    ensures DecodeOut(g, OutIndex(g, i, j, oh, ow)) == OutPos(i, j, oh, ow)
    ensures OutIndex(g, i, j, oh, ow + 1) == OutIndex(g, i, j, oh, ow) + 1
    ensures OutIndex(g, i, j, oh, ow) == ((i * g.co + j) * g.ho + oh) * g.wo + ow
  {
    FlatBound(nn, g.co, i, j);
    FlatBound(nn * g.co, g.ho, Ix(g.co, i, j), oh);
    FlatBound(nn * g.co * g.ho, g.wo, Ix(g.ho, Ix(g.co, i, j), oh), ow);
  }

  lemma OutCarry(g: ConvGeo, nn: nat, i: int, j: int, oh: int)
    ensures OutIndex(g, i, j, oh, g.wo) == OutIndex(g, i, j, oh + 1, 0)
    ensures OutIndex(g, i, j, g.ho, 0) == OutIndex(g, i, j + 1, 0, 0)
    ensures OutIndex(g, i, g.co, 0, 0) == OutIndex(g, i + 1, 0, 0, 0)
    ensures OutIndex(g, 0, 0, 0, 0) == 0 && OutIndex(g, nn, 0, 0, 0) == nn * g.co * g.ho * g.wo
  {
    assert Ix(g.co, nn, 0) == nn * g.co;
  }

  // ── Skipped work adds nothing ──

  lemma BumpZero(s: seq<real>, i: int)
    ensures Bump(s, i, 0.0) == s
  {
  }

  lemma {:induction false} SkipTaps(g: ConvGeo, role: Role, x: seq<real>, k: seq<real>, c: real, o: int, from: nat,
                                    n: nat, acc: seq<real>)
    requires c == 0.0 || forall tap :: from <= tap < from + n ==> !Inside(g, DecodeOut(g, o), DecodeTap(g, tap))
    ensures ConvTaps(g, role, x, k, c, o, from + n, acc) == ConvTaps(g, role, x, k, c, o, from, acc)
  {
    hide Inside, DecodeOut, DecodeTap, XPos, KPos, Mul, Bump;
    if n > 0 {
      SkipTaps(g, role, x, k, c, o, from, n - 1, acc);
      var before, tap := ConvTaps(g, role, x, k, c, o, from + n - 1, acc), from + n - 1;
      if c == 0.0 {
        var p, t := DecodeOut(g, o), DecodeTap(g, tap);
        MulDistributes(At(k, KPos(g, p, t)), 0.0, 0.0);
        MulDistributes(At(x, XPos(g, p, t)), 0.0, 0.0);
        BumpZero(before, XPos(g, p, t));
        BumpZero(before, KPos(g, p, t));
      }
    }
  }

  // ── The taps of one output position ──

  ghost function TapParts(g: ConvGeo, x: seq<real>, k: seq<real>, c: real, o: int, taps: nat, p: Parts): Parts {
    Parts(ConvTaps(g, Input, x, k, c, o, taps, p.px), ConvTaps(g, Kernel, x, k, c, o, taps, p.pk), p.pb)
  }

  ghost predicate Fits(g: ConvGeo, nn: nat, x: seq<real>, k: seq<real>, b: Buffers) {
    && |x| == nn * g.cin * g.hh * g.ww && |k| == g.co * g.cin * g.kh * g.kw
    && (b.gx != null ==> b.gx.Length == |x|)
    && (b.gk != null ==> b.gk.Length == |k|)
    && (b.gb != null ==> b.gb.Length == g.co)
  }

  // Body of the kj loop for a column inside the input.
  method OneTap(b: Buffers, g: ConvGeo, nn: nat, x: seq<real>, k: seq<real>, c: real,
                i: nat, j: nat, oh: nat, ow: nat, ci: nat, ki: nat, kj: nat, ghost was: Parts, ghost p: Parts)
    requires Fits(g, nn, x, k, b)
    requires i < nn && j < g.co && oh < g.ho && ow < g.wo && ci < g.cin && ki < g.kh && kj < g.kw
    requires Inside(g, OutPos(i, j, oh, ow), TapPos(ci, ki, kj))
    requires Holds(b, was, p)
    modifies b.gx, b.gk
    ensures var o, tap := OutIndex(g, i, j, oh, ow), TapIndex(g, ci, ki, kj);
      Holds(b, was, Parts(ConvStep(g, Input, x, k, c, o, tap, p.px), ConvStep(g, Kernel, x, k, c, o, tap, p.pk), p.pb))
  {
    hide Mul, Holds, DecodeOut, DecodeTap, OutIndex, TapIndex, Inside, Bump;
    ghost var o, tap := OutIndex(g, i, j, oh, ow), TapIndex(g, ci, ki, kj);
    OutAt(g, nn, i, j, oh, ow);
    TapAt(g, ci, ki, kj);
    ConvRule.PositionsBound(g, nn, o, tap);
    var ih := oh * g.stride - g.pad + ki;
    var iw := ow * g.stride - g.pad + kj;
    var kp := ((j * g.cin + ci) * g.kh + ki) * g.kw + kj;
    var xp := ((i * g.cin + ci) * g.hh + ih) * g.ww + iw;
    assert kp == KPos(g, OutPos(i, j, oh, ow), TapPos(ci, ki, kj));
    assert xp == XPos(g, OutPos(i, j, oh, ow), TapPos(ci, ki, kj));
    BumpWeight(b, kp, Mul(c, x[xp]), was, p);
    BumpInput(b, xp, Mul(c, k[kp]), was, p.(pk := Bump(p.pk, kp, Mul(c, At(x, xp)))));
  }

  // Body of the kj loop: a column outside the input is skipped.
  method OneColumn(b: Buffers, g: ConvGeo, nn: nat, x: seq<real>, k: seq<real>, c: real,
                   i: nat, j: nat, oh: nat, ow: nat, ci: nat, ki: nat, kj: nat, ghost was: Parts, ghost p: Parts)
    requires Fits(g, nn, x, k, b)
    requires i < nn && j < g.co && oh < g.ho && ow < g.wo && ci < g.cin && ki < g.kh && kj < g.kw
    requires 0 <= oh * g.stride - g.pad + ki < g.hh
    requires 0 <= TapIndex(g, ci, ki, kj)
    requires Holds(b, was, TapParts(g, x, k, c, OutIndex(g, i, j, oh, ow), TapIndex(g, ci, ki, kj), p))
    modifies b.gx, b.gk
    ensures 0 <= TapIndex(g, ci, ki, kj + 1)
    ensures Holds(b, was, TapParts(g, x, k, c, OutIndex(g, i, j, oh, ow), TapIndex(g, ci, ki, kj + 1), p))
  {
    hide Mul, Holds, DecodeOut, DecodeTap, OutIndex, TapIndex, ConvStep, Inside, TapParts;
    ghost var o, tap := OutIndex(g, i, j, oh, ow), TapIndex(g, ci, ki, kj);
    OutAt(g, nn, i, j, oh, ow);
    TapAt(g, ci, ki, kj);
    var iw := ow * g.stride - g.pad + kj;
    InsideText(g, i, j, oh, ow, ci, ki, kj);
    if 0 <= iw < g.ww {
      OneTap(b, g, nn, x, k, c, i, j, oh, ow, ci, ki, kj, was, TapParts(g, x, k, c, o, tap, p));
      StepParts(g, x, k, c, o, tap, p);
    } else {
      SkipParts(g, x, k, c, o, tap, 1, p);
    }
  }

  // One row of the kernel, whose input row ih is inside.
  method TapRow(b: Buffers, g: ConvGeo, nn: nat, x: seq<real>, k: seq<real>, c: real,
                i: nat, j: nat, oh: nat, ow: nat, ci: nat, ki: nat, ghost was: Parts, ghost p: Parts)
    requires Fits(g, nn, x, k, b)
    requires i < nn && j < g.co && oh < g.ho && ow < g.wo && ci < g.cin && ki < g.kh
    requires 0 <= oh * g.stride - g.pad + ki < g.hh
    requires 0 <= TapIndex(g, ci, ki, 0)
    requires Holds(b, was, TapParts(g, x, k, c, OutIndex(g, i, j, oh, ow), TapIndex(g, ci, ki, 0), p))
    modifies b.gx, b.gk
    ensures 0 <= TapIndex(g, ci, ki, g.kw)
    ensures Holds(b, was, TapParts(g, x, k, c, OutIndex(g, i, j, oh, ow), TapIndex(g, ci, ki, g.kw), p))
  {
    hide Holds, OutIndex, TapIndex, TapParts;
    var kj := 0;
    while kj < g.kw
      invariant 0 <= kj <= g.kw && 0 <= TapIndex(g, ci, ki, kj)
      invariant Holds(b, was, TapParts(g, x, k, c, OutIndex(g, i, j, oh, ow), TapIndex(g, ci, ki, kj), p))
    {
      OneColumn(b, g, nn, x, k, c, i, j, oh, ow, ci, ki, kj, was, p);
      kj := kj + 1;
    }
  }

  lemma InsideText(g: ConvGeo, i: int, j: int, oh: int, ow: int, ci: int, ki: int, kj: int)
    ensures Inside(g, OutPos(i, j, oh, ow), TapPos(ci, ki, kj)) <==>
      0 <= oh * g.stride - g.pad + ki < g.hh && 0 <= ow * g.stride - g.pad + kj < g.ww
  {
  }

  lemma StepParts(g: ConvGeo, x: seq<real>, k: seq<real>, c: real, o: int, tap: nat, p: Parts)
    ensures TapParts(g, x, k, c, o, tap + 1, p)
         == (var now := TapParts(g, x, k, c, o, tap, p);
             Parts(ConvStep(g, Input, x, k, c, o, tap, now.px), ConvStep(g, Kernel, x, k, c, o, tap, now.pk), now.pb))
  {
  }

  lemma SkipParts(g: ConvGeo, x: seq<real>, k: seq<real>, c: real, o: int, from: nat, n: nat, p: Parts)
    requires c == 0.0 || forall tap :: from <= tap < from + n ==> !Inside(g, DecodeOut(g, o), DecodeTap(g, tap))
    ensures TapParts(g, x, k, c, o, from + n, p) == TapParts(g, x, k, c, o, from, p)
  {
    SkipTaps(g, Input, x, k, c, o, from, n, p.px);
    SkipTaps(g, Kernel, x, k, c, o, from, n, p.pk);
  }

  // A kernel row whose input row falls outside contributes nothing.
  lemma SkipRow(g: ConvGeo, nn: nat, x: seq<real>, k: seq<real>, c: real, i: int, j: int, oh: int, ow: int, ci: int,
                ki: int, p: Parts)
    requires 0 <= i < nn && 0 <= j < g.co && 0 <= oh < g.ho && 0 <= ow < g.wo && 0 <= ci < g.cin && 0 <= ki < g.kh
    requires !(0 <= oh * g.stride - g.pad + ki < g.hh)
    requires 0 <= TapIndex(g, ci, ki, 0)
    ensures 0 <= TapIndex(g, ci, ki, g.kw)
    ensures var o := OutIndex(g, i, j, oh, ow);
      TapParts(g, x, k, c, o, TapIndex(g, ci, ki, g.kw), p) == TapParts(g, x, k, c, o, TapIndex(g, ci, ki, 0), p)
  {
    hide TapParts, DecodeOut, DecodeTap, OutIndex, Inside;
    var o, from := OutIndex(g, i, j, oh, ow), TapIndex(g, ci, ki, 0);
    OutAt(g, nn, i, j, oh, ow);
    forall tap | from <= tap < from + g.kw
      ensures !Inside(g, DecodeOut(g, o), DecodeTap(g, tap))
    {
      var kj := tap - from;
      assert TapIndex(g, ci, ki, kj) == tap;
      TapAt(g, ci, ki, kj);
      InsideText(g, i, j, oh, ow, ci, ki, kj);
    }
    SkipParts(g, x, k, c, o, from, g.kw, p);
  }

  // All taps of one output position.
  method AllTaps(b: Buffers, g: ConvGeo, nn: nat, x: seq<real>, k: seq<real>, c: real,
                 i: nat, j: nat, oh: nat, ow: nat, ghost was: Parts, ghost p: Parts)
    requires Fits(g, nn, x, k, b)
    requires i < nn && j < g.co && oh < g.ho && ow < g.wo
    requires Holds(b, was, p)
    modifies b.gx, b.gk
    ensures Holds(b, was, TapParts(g, x, k, c, OutIndex(g, i, j, oh, ow), Taps(g), p))
  {
    hide Holds, OutIndex, TapIndex, Taps, TapParts;
    ghost var o := OutIndex(g, i, j, oh, ow);
    TapCarry(g, 0, 0);
    NoTaps(g, x, k, c, o, p);
    var ci := 0;
    while ci < g.cin
      invariant 0 <= ci <= g.cin && 0 <= TapIndex(g, ci, 0, 0)
      invariant Holds(b, was, TapParts(g, x, k, c, o, TapIndex(g, ci, 0, 0), p))
    {
      var ki := 0;
      while ki < g.kh
        invariant 0 <= ki <= g.kh && 0 <= TapIndex(g, ci, ki, 0)
        invariant Holds(b, was, TapParts(g, x, k, c, o, TapIndex(g, ci, ki, 0), p))
      {
        var ih := oh * g.stride - g.pad + ki;
        if 0 <= ih < g.hh {
          TapRow(b, g, nn, x, k, c, i, j, oh, ow, ci, ki, was, p);
        } else {
          SkipRow(g, nn, x, k, c, i, j, oh, ow, ci, ki, p);
        }
        TapCarry(g, ci, ki);
        ki := ki + 1;
      }
      TapCarry(g, ci, 0);
      ci := ci + 1;
    }
  }

  // ── All output positions ──

  ghost function OutParts(g: ConvGeo, x: seq<real>, k: seq<real>, d: seq<real>, outs: nat, p: Parts): Parts {
    Parts(ConvData(g, Input, x, k, d, outs, p.px), ConvData(g, Kernel, x, k, d, outs, p.pk),
          ConvData(g, Bias, x, k, d, outs, p.pb))
  }

  lemma OutStep(g: ConvGeo, x: seq<real>, k: seq<real>, d: seq<real>, o: nat, p: Parts)
    requires o < |d|
    ensures OutParts(g, x, k, d, o + 1, p)
         == (var now := OutParts(g, x, k, d, o, p);
             TapParts(g, x, k, d[o], o, Taps(g), now.(pb := Bump(now.pb, DecodeOut(g, o).j, d[o]))))
  {
  }

  lemma OutSkip(g: ConvGeo, x: seq<real>, k: seq<real>, d: seq<real>, o: nat, p: Parts)
    requires o < |d| && d[o] == 0.0
    ensures OutParts(g, x, k, d, o + 1, p) == OutParts(g, x, k, d, o, p)
  {
    hide TapParts, OutParts, Bump, DecodeOut;
    var now := OutParts(g, x, k, d, o, p);
    OutStep(g, x, k, d, o, p);
    BumpZero(now.pb, DecodeOut(g, o).j);
    SkipParts(g, x, k, 0.0, o, 0, Taps(g), now);
    assert TapParts(g, x, k, 0.0, o, 0, now) == now by { NoTaps(g, x, k, 0.0, o, now); }
  }

  lemma NoTaps(g: ConvGeo, x: seq<real>, k: seq<real>, c: real, o: int, p: Parts)
    ensures TapParts(g, x, k, c, o, 0, p) == p
  {
  }

  method OneOutput(b: Buffers, g: ConvGeo, nn: nat, x: seq<real>, k: seq<real>, d: seq<real>,
                   i: nat, j: nat, oh: nat, ow: nat, ghost was: Parts, ghost p: Parts)
    requires Fits(g, nn, x, k, b) && |d| == nn * g.co * g.ho * g.wo
    requires i < nn && j < g.co && oh < g.ho && ow < g.wo
    requires 0 <= OutIndex(g, i, j, oh, ow) && Holds(b, was, OutParts(g, x, k, d, OutIndex(g, i, j, oh, ow), p))
    modifies b.gx, b.gk, b.gb
    ensures 0 <= OutIndex(g, i, j, oh, ow + 1) && Holds(b, was, OutParts(g, x, k, d, OutIndex(g, i, j, oh, ow + 1), p))
  {
    hide Holds, OutIndex, DecodeOut, Taps, TapParts, OutParts, Bump;
    OutAt(g, nn, i, j, oh, ow);
    ghost var o := OutIndex(g, i, j, oh, ow);
    var c := d[((i * g.co + j) * g.ho + oh) * g.wo + ow];
    if c == 0.0 {
      OutSkip(g, x, k, d, o, p);
    } else {
      ghost var now := OutParts(g, x, k, d, o, p);
      BumpBias(b, j, c, was, now);
      AllTaps(b, g, nn, x, k, c, i, j, oh, ow, was, now.(pb := Bump(now.pb, j, c)));
      OutStep(g, x, k, d, o, p);
    }
  }

  // The seven nested loops.
  method ConvBackward(b: Buffers, g: ConvGeo, nn: nat, x: seq<real>, k: seq<real>, d: seq<real>, ghost was: Parts,
                      ghost p: Parts)
    requires Fits(g, nn, x, k, b) && |d| == nn * g.co * g.ho * g.wo
    requires Holds(b, was, p)
    modifies b.gx, b.gk, b.gb
    ensures Holds(b, was, OutParts(g, x, k, d, |d|, p))
  {
    hide Holds, OutIndex, OutParts;
    OutCarry(g, nn, 0, 0, 0);
    assert OutParts(g, x, k, d, 0, p) == p by { NoOutputs(g, x, k, d, p); }
    var i := 0;
    while i < nn
      invariant 0 <= i <= nn && 0 <= OutIndex(g, i, 0, 0, 0)
      invariant Holds(b, was, OutParts(g, x, k, d, OutIndex(g, i, 0, 0, 0), p))
    {
      var j := 0;
      while j < g.co
        invariant 0 <= j <= g.co && 0 <= OutIndex(g, i, j, 0, 0)
        invariant Holds(b, was, OutParts(g, x, k, d, OutIndex(g, i, j, 0, 0), p))
      {
        var oh := 0;
        while oh < g.ho
          invariant 0 <= oh <= g.ho && 0 <= OutIndex(g, i, j, oh, 0)
          invariant Holds(b, was, OutParts(g, x, k, d, OutIndex(g, i, j, oh, 0), p))
        {
          var ow := 0;
          while ow < g.wo
            invariant 0 <= ow <= g.wo && 0 <= OutIndex(g, i, j, oh, ow)
            invariant Holds(b, was, OutParts(g, x, k, d, OutIndex(g, i, j, oh, ow), p))
          {
            OneOutput(b, g, nn, x, k, d, i, j, oh, ow, was, p);
            ow := ow + 1;
          }
          OutCarry(g, nn, i, j, oh);
          oh := oh + 1;
        }
        OutCarry(g, nn, i, j, 0);
        j := j + 1;
      }
      OutCarry(g, nn, i, 0, 0);
      i := i + 1;
    }
  }

  lemma NoOutputs(g: ConvGeo, x: seq<real>, k: seq<real>, d: seq<real>, p: Parts)
    ensures OutParts(g, x, k, d, 0, p) == p
  {
  }
}
