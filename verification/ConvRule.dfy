// CONV2D: the backward loops bump one element per output position and kernel
// tap, so each gradient is the transpose of the bilinear forward formula.
module ConvRule {
  import opened Arith
  import opened Shapes
  import opened Sums
  import opened Tape
  import opened Rules

  // The term of the forward formula for one output position and one tap.
  ghost function TapTerm(g: ConvGeo, x: seq<real>, k: seq<real>, o: int, tap: int): real {
    var p, t := DecodeOut(g, o), DecodeTap(g, tap);
    if Inside(g, p, t) then Mul(At(x, XPos(g, p, t)), At(k, KPos(g, p, t))) else 0.0
  }

  // The bilinear forward formula (without bias), and the bias term.
  ghost function ConvAt(g: ConvGeo, x: seq<real>, k: seq<real>, o: int): real {
    Sum(Taps(g), tap => TapTerm(g, x, k, o, tap))
  }

  ghost function Conv(g: ConvGeo, x: seq<real>, k: seq<real>, outs: nat): (r: seq<real>)
    ensures |r| == outs
  {
    seq(outs, o => ConvAt(g, x, k, o))
  }

  ghost function BiasSpread(g: ConvGeo, b: seq<real>, outs: nat): (r: seq<real>)
    ensures |r| == outs
  {
    seq(outs, o => At(b, DecodeOut(g, o).j))
  }

  lemma Size4(s: Shape)
    requires |s| == 4
    ensures Size(s) == s[0] * s[1] * s[2] * s[3]
  {
    assert Size(s[1..][1..][1..][1..]) == 1;
    assert Size(s[1..][1..][1..]) == s[3];
    assert Size(s[1..][1..]) == s[2] * s[3];
    assert Size(s[1..]) == s[1] * (s[2] * s[3]);
    assert s[0] * (s[1] * (s[2] * s[3])) == s[0] * s[1] * s[2] * s[3];
  }

  lemma DecodeOutBound(g: ConvGeo, nn: nat, o: int)
    requires 0 <= o < nn * g.co * g.ho * g.wo
    ensures var p := DecodeOut(g, o);
      0 <= p.i < nn && 0 <= p.j < g.co && 0 <= p.oh < g.ho && 0 <= p.ow < g.wo
  {
    MulZero(nn * g.co * g.ho, g.wo);
    DivBound(o, nn * g.co * g.ho, g.wo);
    MulZero(nn * g.co, g.ho);
    DivBound(o / g.wo, nn * g.co, g.ho);
    MulZero(nn, g.co);
    DivBound(o / g.wo / g.ho, nn, g.co);
  }

  lemma DecodeTapBound(g: ConvGeo, tap: int)
    requires 0 <= tap < Taps(g)
    ensures var t := DecodeTap(g, tap);
      0 <= t.ci < g.cin && 0 <= t.ki < g.kh && 0 <= t.kj < g.kw
  {
    MulZero(g.cin * g.kh, g.kw);
    DivBound(tap, g.cin * g.kh, g.kw);
    MulZero(g.cin, g.kh);
    DivBound(tap / g.kw, g.cin, g.kh);
  }

  lemma PositionsBound(g: ConvGeo, nn: nat, o: int, tap: int)
    requires 0 <= o < nn * g.co * g.ho * g.wo && 0 <= tap < Taps(g)
    ensures var p, t := DecodeOut(g, o), DecodeTap(g, tap);
      && 0 <= KPos(g, p, t) < g.co * g.cin * g.kh * g.kw
      && (Inside(g, p, t) ==> 0 <= XPos(g, p, t) < nn * g.cin * g.hh * g.ww)
  {
    hide Ix, DecodeOut, DecodeTap;
    DecodeOutBound(g, nn, o);
    DecodeTapBound(g, tap);
    var p, t := DecodeOut(g, o), DecodeTap(g, tap);
    FlatBound(g.co, g.cin, p.j, t.ci);
    FlatBound(g.co * g.cin, g.kh, Ix(g.cin, p.j, t.ci), t.ki);
    FlatBound(g.co * g.cin * g.kh, g.kw, Ix(g.kh, Ix(g.cin, p.j, t.ci), t.ki), t.kj);
    if Inside(g, p, t) {
      FlatBound(nn, g.cin, p.i, t.ci);
      FlatBound(nn * g.cin, g.hh, Ix(g.cin, p.i, t.ci), RowOf(g, p, t));
      FlatBound(nn * g.cin * g.hh, g.ww, Ix(g.hh, Ix(g.cin, p.i, t.ci), RowOf(g, p, t)), ColOf(g, p, t));
    }
  }

  // The gradient of each role has that role's number of elements.
  ghost predicate Sized(g: ConvGeo, nn: nat, role: Role, n: nat) {
    match role
    case Input => n == nn * g.cin * g.hh * g.ww
    case Kernel => n == g.co * g.cin * g.kh * g.kw
    case Bias => n == g.co
  }

  // The forward formula with the tangent t in place of the given role.
  ghost function RoleAt(g: ConvGeo, role: Role, x: seq<real>, k: seq<real>, t: seq<real>, o: int): real {
    match role
    case Input => ConvAt(g, t, k, o)
    case Kernel => ConvAt(g, x, t, o)
    case Bias => At(t, DecodeOut(g, o).j)
  }

  ghost function RoleData(g: ConvGeo, role: Role, x: seq<real>, k: seq<real>, t: seq<real>, outs: nat): (r: seq<real>)
    ensures |r| == outs
  {
    match role
    case Input => Conv(g, t, k, outs)
    case Kernel => Conv(g, x, t, outs)
    case Bias => BiasSpread(g, t, outs)
  }

  ghost function RoleTap(g: ConvGeo, role: Role, x: seq<real>, k: seq<real>, t: seq<real>, o: int, tap: int): real {
    if role == Input then TapTerm(g, t, k, o, tap) else TapTerm(g, x, t, o, tap)
  }

  lemma StepAdjoint(g: ConvGeo, nn: nat, role: Role, x: seq<real>, k: seq<real>, c: real, o: int, tap: int,
                    acc: seq<real>, t: seq<real>)
    requires role != Bias && Sized(g, nn, role, |acc|)
    requires 0 <= o < nn * g.co * g.ho * g.wo && 0 <= tap < Taps(g)
    ensures Dot(ConvStep(g, role, x, k, c, o, tap, acc), t) == Dot(acc, t) + Mul(c, RoleTap(g, role, x, k, t, o, tap))
  {
    hide Mul, DecodeOut, DecodeTap, XPos, KPos, Bump, Dot, Inside;
    PositionsBound(g, nn, o, tap);
    var p, q := DecodeOut(g, o), DecodeTap(g, tap);
    if Inside(g, p, q) {
      if role == Input {
        DotBump(acc, XPos(g, p, q), Mul(c, At(k, KPos(g, p, q))), t);
        MulAssoc(c, At(k, KPos(g, p, q)), At(t, XPos(g, p, q)));
        MulComm(At(k, KPos(g, p, q)), At(t, XPos(g, p, q)));
      } else {
        DotBump(acc, KPos(g, p, q), Mul(c, At(x, XPos(g, p, q))), t);
        MulAssoc(c, At(x, XPos(g, p, q)), At(t, KPos(g, p, q)));
      }
    } else {
      MulDistributes(c, 0.0, 0.0);
    }
  }

  lemma {:induction false} TapsAdjoint(g: ConvGeo, nn: nat, role: Role, x: seq<real>, k: seq<real>, c: real, o: int,
                                       taps: nat, acc: seq<real>, t: seq<real>)
    requires role != Bias && Sized(g, nn, role, |acc|)
    requires 0 <= o < nn * g.co * g.ho * g.wo && taps <= Taps(g)
    ensures Dot(ConvTaps(g, role, x, k, c, o, taps, acc), t)
         == Dot(acc, t) + Mul(c, Sum(taps, tap => RoleTap(g, role, x, k, t, o, tap)))
  {
    hide Mul, ConvStep, RoleTap, Dot, Taps, Sized;
    if taps == 0 {
      MulDistributes(c, 0.0, 0.0);
    } else {
      TapsAdjoint(g, nn, role, x, k, c, o, taps - 1, acc, t);
      StepAdjoint(g, nn, role, x, k, c, o, taps - 1, ConvTaps(g, role, x, k, c, o, taps - 1, acc), t);
      MulDistributes(c, Sum(taps - 1, tap => RoleTap(g, role, x, k, t, o, tap)),
        RoleTap(g, role, x, k, t, o, taps - 1));
    }
  }

  lemma OutAdjoint(g: ConvGeo, nn: nat, role: Role, x: seq<real>, k: seq<real>, d: seq<real>, o: int, acc: seq<real>,
                   t: seq<real>)
    requires Sized(g, nn, role, |acc|)
    requires 0 <= o < nn * g.co * g.ho * g.wo
    ensures Dot(ConvOut(g, role, x, k, d, o, acc), t) == Dot(acc, t) + Mul(At(d, o), RoleAt(g, role, x, k, t, o))
  {
    hide Mul, ConvTaps, Bump, Dot, Taps, DecodeOut, TapTerm;
    match role
    case Bias =>
      DecodeOutBound(g, nn, o);
      DotBump(acc, DecodeOut(g, o).j, At(d, o), t);
    case Input =>
      TapsAdjoint(g, nn, role, x, k, At(d, o), o, Taps(g), acc, t);
      SumEq(Taps(g), tap => RoleTap(g, role, x, k, t, o, tap), tap => TapTerm(g, t, k, o, tap));
    case Kernel =>
      TapsAdjoint(g, nn, role, x, k, At(d, o), o, Taps(g), acc, t);
      SumEq(Taps(g), tap => RoleTap(g, role, x, k, t, o, tap), tap => TapTerm(g, x, t, o, tap));
  }

  lemma {:induction false} ConvFold(g: ConvGeo, nn: nat, role: Role, x: seq<real>, k: seq<real>, d: seq<real>,
                                    outs: nat, acc: seq<real>, t: seq<real>, y: seq<real>)
    requires Sized(g, nn, role, |acc|)
    requires outs <= |d| == nn * g.co * g.ho * g.wo
    requires y == RoleData(g, role, x, k, t, |d|)
    ensures Dot(ConvData(g, role, x, k, d, outs, acc), t) == Dot(acc, t) + Sum(outs, o => Prod(d, y, o))
  {
    hide Mul, ConvOut, Dot, Sized, DecodeOut, ConvAt;
    if outs > 0 {
      ConvFold(g, nn, role, x, k, d, outs - 1, acc, t, y);
      OutAdjoint(g, nn, role, x, k, d, outs - 1, ConvData(g, role, x, k, d, outs - 1, acc), t);
      assert At(y, outs - 1) == RoleAt(g, role, x, k, t, outs - 1);
    }
  }

  // <dX, x'> = <d, conv(x', k)>, <dK, k'> = <d, conv(x, k')>, <db, b'> = <d, spread(b')>,
  // for every stride, padding and shape.
  lemma ConvAdjoint(g: ConvGeo, nn: nat, role: Role, x: seq<real>, k: seq<real>, d: seq<real>, n: nat, t: seq<real>)
    requires Sized(g, nn, role, n)
    requires |d| == nn * g.co * g.ho * g.wo
    ensures Dot(ConvData(g, role, x, k, d, |d|, Zeros(n)), t) == Dot(d, RoleData(g, role, x, k, t, |d|))
  {
    hide Mul, ConvData, Sized, RoleData;
    ConvFold(g, nn, role, x, k, d, |d|, Zeros(n), t, RoleData(g, role, x, k, t, |d|));
    DotZeroLeft(n, t);
  }
}
