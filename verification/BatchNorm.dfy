// The backward loops of BATCHNORM over an N x C x H x W tensor (H = W = 1 for
// N x C), channel by channel.
module BatchNorm {
  import opened Arith
  import opened Sums
  import opened Tape
  import opened NodeRule
  import opened NormRule
  import opened NormKernel
  import opened GroupLoop
  import opened GradBuffers

  datatype Dims = Dims(n: nat, c: nat, h: nat, w: nat)

  // Where element k of channel c stands; k counts the (n, h, w) triples in loop order.
  function ChannelPos(g: Dims, c: int, k: int): int {
    if g.w == 0 || g.h == 0 then 0 else Ix(g.w, Ix(g.h, Ix(g.c, k / g.w / g.h, c), k / g.w % g.h), k % g.w)
  }

  function Step(g: Dims, nn: int, hh: int, ww: int): int { Ix(g.w, Ix(g.h, nn, hh), ww) }

  function Pos(g: Dims, c: int, nn: int, hh: int, ww: int): int { Ix(g.w, Ix(g.h, Ix(g.c, nn, c), hh), ww) }

  function Members(g: Dims): nat { g.n * g.h * g.w }
  function Elements(g: Dims): nat { g.n * g.c * g.h * g.w }

  function Channel(g: Dims, x: seq<real>, c: int): int -> real { k => At(x, ChannelPos(g, c, k)) }

  function Same(v: real): int -> real { _ => v }

  lemma StepDecodes(g: Dims, c: nat, nn: nat, hh: nat, ww: nat)
    requires nn < g.n && c < g.c && hh < g.h && ww < g.w
    ensures var k := Step(g, nn, hh, ww);
      && ChannelPos(g, c, k) == Pos(g, c, nn, hh, ww) && 0 <= k < Members(g)
      && 0 <= Pos(g, c, nn, hh, ww) < Elements(g)
  {
    FlatBound(g.n, g.h, nn, hh);
    FlatBound(g.n * g.h, g.w, Ix(g.h, nn, hh), ww);
    FlatBound(g.n, g.c, nn, c);
    FlatBound(g.n * g.c, g.h, Ix(g.c, nn, c), hh);
    FlatBound(g.n * g.c * g.h, g.w, Ix(g.h, Ix(g.c, nn, c), hh), ww);
  }

  lemma StepCarries(g: Dims, nn: int, hh: int)
    ensures Step(g, nn, hh, g.w) == Step(g, nn, hh + 1, 0) && Step(g, nn, g.h, 0) == Step(g, nn + 1, 0, 0)
    ensures Step(g, g.n, 0, 0) == Members(g) && Step(g, 0, 0, 0) == 0
    ensures forall ww :: Step(g, nn, hh, ww + 1) == Step(g, nn, hh, ww) + 1
  {
    var q := nn * g.h + hh;
    assert (q + 1) * g.w == q * g.w + g.w;
    assert (nn + 1) * g.h == nn * g.h + g.h;
  }

  // Channel and member can be read off a position.
  lemma PosDecodes(g: Dims, c: int, k: int)
    requires 0 <= c < g.c && 0 <= k < Members(g)
    ensures var q := ChannelPos(g, c, k);
      0 < g.h && 0 < g.w && 0 < g.c && 0 <= q < Elements(g) &&
      q / g.w / g.h % g.c == c && Step(g, q / g.w / g.h / g.c, q / g.w % g.h, q % g.w) == k
  {
    MulZero(g.n * g.h, g.w);
    MulZero(g.n, g.h);
    DivBound(k, g.n * g.h, g.w);
    DivBound(k / g.w, g.n, g.h);
    var nn, hh, ww := k / g.w / g.h, k / g.w % g.h, k % g.w;
    FlatBound(g.n, g.c, nn, c);
    FlatBound(g.n * g.c, g.h, Ix(g.c, nn, c), hh);
    FlatBound(g.n * g.c * g.h, g.w, Ix(g.h, Ix(g.c, nn, c), hh), ww);
  }

  lemma PlacesDiffer(g: Dims, c: int, k: int, c': int, k': int)
    requires 0 <= c < g.c && 0 <= k < Members(g) && 0 <= c' < g.c && 0 <= k' < Members(g)
    requires ChannelPos(g, c, k) == ChannelPos(g, c', k')
    ensures c == c' && k == k'
  {
    PosDecodes(g, c, k);
    PosDecodes(g, c', k');
  }

  method ChannelStats(g: Dims, x: seq<real>, c: nat) returns (mean: real, variance: real)
    requires c < g.c && 0 < Members(g) && |x| == Elements(g)
    ensures mean == Mean(Members(g), Channel(g, x, c)) && variance == GroupVar(Members(g), Channel(g, x, c))
  {
    hide Members, Elements, Step, Pos, ChannelPos, Ix;
    ghost var ch := Channel(g, x, c);
    ghost var sqs := Squares(ch);
    var sum, sq := 0.0, 0.0;
    StepCarries(g, 0, 0);
    var nn := 0;
    while nn < g.n
      invariant 0 <= nn <= g.n && 0 <= Step(g, nn, 0, 0) && sum == Sum(Step(g, nn, 0, 0), ch)
      invariant sq == Sum(Step(g, nn, 0, 0), sqs)
    {
      var hh := 0;
      while hh < g.h
        invariant 0 <= hh <= g.h && 0 <= Step(g, nn, hh, 0) && sum == Sum(Step(g, nn, hh, 0), ch)
        invariant sq == Sum(Step(g, nn, hh, 0), sqs)
      {
        StepCarries(g, nn, hh);
        var ww := 0;
        while ww < g.w
          invariant 0 <= ww <= g.w && 0 <= Step(g, nn, hh, ww)
          invariant sum == Sum(Step(g, nn, hh, ww), ch) && sq == Sum(Step(g, nn, hh, ww), sqs)
        {
          StepDecodes(g, c, nn, hh, ww);
          var v := x[Pos(g, c, nn, hh, ww)];
          assert ch(Step(g, nn, hh, ww)) == v;
          sum := sum + v;
          sq := sq + Mul(v, v);
          ww := ww + 1;
        }
        hh := hh + 1;
      }
      StepCarries(g, nn, 0);
      nn := nn + 1;
    }
    StepCarries(g, 0, 0);
    SquaresAre(Members(g), ch);
    MeanQuotient(sum, Members(g));
    MeanQuotient(sq, Members(g));
    var m := g.n * g.h * g.w;
    assert m == Members(g) by { MembersIs(g); }
    mean := sum / (m as real);
    variance := sq / (m as real) - Mul(mean, mean);
  }

  lemma MembersIs(g: Dims)
    ensures Members(g) == g.n * g.h * g.w
  {
  }

  ghost function Back(n: nat, x: int -> real, d: int -> real, s: real): int -> real { i => ScaleBack(n, x, d, s, i) }

  // The second pass: the two sums of dx, and the channel's dgamma and dbeta.
  method ChannelSums(g: Dims, x: seq<real>, gamma: real, d: seq<real>, c: nat, mean: real, s: real)
    returns (sdh: real, sdx: real, dg: real, db: real)
    requires c < g.c && |x| == |d| == Elements(g) && mean == Mean(Members(g), Channel(g, x, c))
    ensures var m, cx, cd := Members(g), Channel(g, x, c), Channel(g, d, c);
      && sdh == SumDHat(m, cd, Same(gamma)) && sdx == SumDHatHat(m, cx, cd, Same(gamma), s)
      && dg == Sum(m, Back(m, cx, cd, s)) && db == Sum(m, cd)
  {
    hide Members, Elements, Step, Pos, ChannelPos, Ix, Mean, Mul, SumDHat, SumDHatHat;
    ghost var m, cx, cd := Members(g), Channel(g, x, c), Channel(g, d, c);
    ghost var hats, both, back := DHats(cd, Same(gamma)), DHatHats(m, cx, cd, Same(gamma), s), Back(m, cx, cd, s);
    sdh, sdx, dg, db := 0.0, 0.0, 0.0, 0.0;
    StepCarries(g, 0, 0);
    var nn := 0;
    while nn < g.n
      invariant 0 <= nn <= g.n && 0 <= Step(g, nn, 0, 0)
      invariant Sums4(Step(g, nn, 0, 0), hats, both, back, cd, sdh, sdx, dg, db)
    {
      var hh := 0;
      while hh < g.h
        invariant 0 <= hh <= g.h && 0 <= Step(g, nn, hh, 0)
        invariant Sums4(Step(g, nn, hh, 0), hats, both, back, cd, sdh, sdx, dg, db)
      {
        StepCarries(g, nn, hh);
        var ww := 0;
        while ww < g.w
          invariant 0 <= ww <= g.w && 0 <= Step(g, nn, hh, ww)
          invariant Sums4(Step(g, nn, hh, ww), hats, both, back, cd, sdh, sdx, dg, db)
        {
          StepDecodes(g, c, nn, hh, ww);
          ghost var k := Step(g, nn, hh, ww);
          var idx := Pos(g, c, nn, hh, ww);
          assert cx(k) == x[idx] && cd(k) == d[idx];
          var xhat := Mul(x[idx] - mean, s);
          var dhat := Mul(d[idx], gamma);
          assert hats(k) == dhat && both(k) == Mul(dhat, xhat) && back(k) == Mul(d[idx], xhat);
          sdh, sdx, dg, db := sdh + dhat, sdx + Mul(dhat, xhat), dg + Mul(d[idx], xhat), db + d[idx];
          ww := ww + 1;
        }
        hh := hh + 1;
      }
      StepCarries(g, nn, 0);
      nn := nn + 1;
    }
    StepCarries(g, 0, 0);
    SumsAre(m, cx, cd, Same(gamma), s);
  }

  ghost predicate Sums4(k: int, hats: int -> real, both: int -> real, back: int -> real, cd: int -> real, sdh: real,
                        sdx: real, dg: real, db: real)
    requires 0 <= k
  {
    sdh == Sum(k, hats) && sdx == Sum(k, both) && dg == Sum(k, back) && db == Sum(k, cd)
  }

  function ChannelInv(g: Dims, x: seq<real>, c: int, eps: real, inv: InvSqrt): real {
    inv(GroupVar(Members(g), Channel(g, x, c)) + eps)
  }

  function ChannelDx(g: Dims, x: seq<real>, gamma: seq<real>, d: seq<real>, eps: real, inv: InvSqrt, c: int,
                     k: int): real {
    NormDx(Members(g), Channel(g, x, c), Channel(g, d, c), Same(At(gamma, c)), ChannelInv(g, x, c, eps, inv), k)
  }

  function ChannelPlace(g: Dims): Place { (c, k) => ChannelPos(g, c, k) }

  ghost function DxOf(g: Dims, x: seq<real>, gamma: seq<real>, d: seq<real>, eps: real, inv: InvSqrt): Share {
    (c, k) => ChannelDx(g, x, gamma, d, eps, inv, c, k)
  }

  // Every position belongs to a channel.
  lemma PosPlaced(g: Dims, q: int)
    requires 0 <= q < Elements(g)
    ensures Placed(ChannelPlace(g), g.c, Members(g), q)
  {
    var rows, planes := g.n * g.c * g.h, g.n * g.c;
    MulZero(rows, g.w);
    MulZero(planes, g.h);
    MulZero(g.n, g.c);
    DivBound(q, rows, g.w);
    DivBound(q / g.w, planes, g.h);
    DivBound(q / g.w / g.h, g.n, g.c);
    var c, nn, hh, ww := q / g.w / g.h % g.c, q / g.w / g.h / g.c, q / g.w % g.h, q % g.w;
    hide ChannelPos, Members, Elements;
    StepDecodes(g, c, nn, hh, ww);
    assert ChannelPlace(g)(c, Step(g, nn, hh, ww)) == q;
  }

  // The channels' members are all positions, each once.
  lemma ChannelLayout(g: Dims)
    ensures Layout(ChannelPlace(g), g.c, Members(g), Elements(g))
    ensures Covers(ChannelPlace(g), g.c, Members(g), Elements(g))
  {
    hide ChannelPos, Members, Elements, Placed;
    forall q | 0 <= q < Elements(g)
      ensures Placed(ChannelPlace(g), g.c, Members(g), q)
    {
      PosPlaced(g, q);
    }
    forall c, k | 0 <= c < g.c && 0 <= k < Members(g)
      ensures 0 <= ChannelPlace(g)(c, k) < Elements(g)
    {
      PosDecodes(g, c, k);
    }
    forall c, k, c', k' | 0 <= c < g.c && 0 <= k < Members(g) && 0 <= c' < g.c && 0 <= k' < Members(g)
      && ChannelPlace(g)(c, k) == ChannelPlace(g)(c', k')
      ensures c == c' && k == k'
    {
      PlacesDiffer(g, c, k, c', k');
    }
  }

  // The channels before c are done, and member k of channel c is next.
  ghost predicate Upto(now: seq<real>, was: seq<real>, g: Dims, share: Share, c: int, k: int) {
    |was| == Elements(g) && Shared(now, was, ChannelPlace(g), g.c, Members(g), share, c, k)
  }

  // The third pass.
  method ChannelUpdate(b: Buffers, g: Dims, x: seq<real>, gamma: seq<real>, d: seq<real>, c: nat, mean: real, s: real,
                       sdh: real, sdx: real, ghost eps: real, ghost inv: InvSqrt, ghost was: Parts, ghost p: Parts,
                       ghost zero: seq<real>)
    returns (ghost px: seq<real>)
    requires c < g.c && |x| == |d| == Elements(g) && |gamma| == g.c && 0 < Members(g)
    requires Fits(b, p, Elements(g), g.c) && Holds(b, was, p)
    requires mean == Mean(Members(g), Channel(g, x, c)) && s == ChannelInv(g, x, c, eps, inv)
    requires sdh == SumDHat(Members(g), Channel(g, d, c), Same(gamma[c]))
    requires sdx == SumDHatHat(Members(g), Channel(g, x, c), Channel(g, d, c), Same(gamma[c]), s)
    requires Upto(p.px, zero, g, DxOf(g, x, gamma, d, eps, inv), c, 0)
    modifies b.gx
    ensures Upto(px, zero, g, DxOf(g, x, gamma, d, eps, inv), c + 1, 0) && |px| == |p.px| && Holds(b, was, p.(px := px))
  {
    hide Members, Elements, Step, Pos, ChannelPos, Ix, Mean, Mul, SumDHat, SumDHatHat, Upto, ChannelInv, Holds;
    ghost var dx := DxOf(g, x, gamma, d, eps, inv);
    px := p.px;
    assert p.(px := px) == p;
    StepCarries(g, 0, 0);
    var nn := 0;
    while nn < g.n
      invariant 0 <= nn <= g.n && Upto(px, zero, g, dx, c, Step(g, nn, 0, 0))
      invariant |px| == |p.px| && Holds(b, was, p.(px := px))
    {
      var hh := 0;
      while hh < g.h
        invariant 0 <= hh <= g.h && Upto(px, zero, g, dx, c, Step(g, nn, hh, 0))
        invariant |px| == |p.px| && Holds(b, was, p.(px := px))
      {
        StepCarries(g, nn, hh);
        var ww := 0;
        while ww < g.w
          invariant 0 <= ww <= g.w && Upto(px, zero, g, dx, c, Step(g, nn, hh, ww))
          invariant |px| == |p.px| && Holds(b, was, p.(px := px))
        {
          px := UpdateOne(b, g, x, gamma, d, c, nn, hh, ww, mean, s, sdh, sdx, eps, inv, was, p.(px := px), zero);
          ww := ww + 1;
        }
        hh := hh + 1;
      }
      StepCarries(g, nn, 0);
      nn := nn + 1;
    }
    StepCarries(g, 0, 0);
    UptoCarry(px, zero, g, dx, c);
  }

  lemma UptoCarry(now: seq<real>, was: seq<real>, g: Dims, share: Share, c: int)
    requires Upto(now, was, g, share, c, Members(g))
    ensures Upto(now, was, g, share, c + 1, 0)
  {
    SharedCarry(now, was, ChannelPlace(g), g.c, Members(g), share, c);
  }

  lemma UptoStep(now: seq<real>, was: seq<real>, g: Dims, share: Share, c: int, k: int)
    requires Upto(now, was, g, share, c, k) && 0 <= c < g.c && 0 <= k < Members(g)
    ensures 0 <= ChannelPos(g, c, k) < |now|
    ensures Upto(now[ChannelPos(g, c, k) := now[ChannelPos(g, c, k)] + share(c, k)], was, g, share, c, k + 1)
  {
    hide Shared, Layout, ChannelPos, Members, Elements;
    ChannelLayout(g);
    SharedStep(now, was, ChannelPlace(g), g.c, Members(g), share, c, k);
  }

  method UpdateOne(b: Buffers, g: Dims, x: seq<real>, gamma: seq<real>, d: seq<real>, c: nat, nn: nat, hh: nat,
                   ww: nat, mean: real, s: real, sdh: real, sdx: real, ghost eps: real, ghost inv: InvSqrt,
                   ghost was: Parts, ghost p: Parts, ghost zero: seq<real>)
    returns (ghost px: seq<real>)
    requires nn < g.n && c < g.c && hh < g.h && ww < g.w && |x| == |d| == Elements(g) && |gamma| == g.c
    requires Fits(b, p, Elements(g), g.c) && Holds(b, was, p)
    requires mean == Mean(Members(g), Channel(g, x, c)) && s == ChannelInv(g, x, c, eps, inv)
    requires sdh == SumDHat(Members(g), Channel(g, d, c), Same(gamma[c]))
    requires sdx == SumDHatHat(Members(g), Channel(g, x, c), Channel(g, d, c), Same(gamma[c]), s)
    requires Upto(p.px, zero, g, DxOf(g, x, gamma, d, eps, inv), c, Step(g, nn, hh, ww))
    modifies b.gx
    ensures Upto(px, zero, g, DxOf(g, x, gamma, d, eps, inv), c, Step(g, nn, hh, ww) + 1)
    ensures |px| == |p.px| && Holds(b, was, p.(px := px))
  {
    hide Members, Elements, Step, Pos, ChannelPos, Ix, Mean, Mul, SumDHat, SumDHatHat, Upto, ChannelInv, Holds;
    StepDecodes(g, c, nn, hh, ww);
    ghost var k := Step(g, nn, hh, ww);
    UptoStep(p.px, zero, g, DxOf(g, x, gamma, d, eps, inv), c, k);
    var idx := Pos(g, c, nn, hh, ww);
    assert Channel(g, x, c)(k) == x[idx] && Channel(g, d, c)(k) == d[idx];
    var xhat := Mul(x[idx] - mean, s);
    var dhat := Mul(d[idx], gamma[c]);
    var m := g.n * g.h * g.w;
    assert m == Members(g) by { MembersIs(g); }
    var dx := Mul(Mul(s, Inv(m)), Mul(m as real, dhat) - sdh - Mul(xhat, sdx));
    assert dx == ChannelDx(g, x, gamma, d, eps, inv, c, k);
    BumpInput(b, idx, dx, was, p);
    px := Bump(p.px, idx, dx);
  }

  ghost function SumsBack(g: Dims, x: seq<real>, d: seq<real>, eps: real, inv: InvSqrt): int -> real {
    c => Sum(Members(g), Back(Members(g), Channel(g, x, c), Channel(g, d, c), ChannelInv(g, x, c, eps, inv)))
  }

  ghost function SumsOf(g: Dims, d: seq<real>): int -> real { c => Sum(Members(g), Channel(g, d, c)) }

  // What BATCHNORM has added to the three roles after the given number of channels.
  ghost predicate BatchParts(q: Parts, p: Parts, g: Dims, x: seq<real>, gamma: seq<real>, d: seq<real>, eps: real,
                             inv: InvSqrt, done: nat) {
    && Upto(q.px, p.px, g, DxOf(g, x, gamma, d, eps, inv), done, 0)
    && q.pk == Added(p.pk, SumsBack(g, x, d, eps, inv), done) && q.pb == Added(p.pb, SumsOf(g, d), done)
  }

  // BATCHNORM: every element receives its channel's gradient, gamma and beta their
  // channel's sums. Any of x, gamma and beta may be one tensor.
  method BatchNormBackward(b: Buffers, g: Dims, x: seq<real>, gamma: seq<real>, d: seq<real>, eps: real, inv: InvSqrt)
    returns (ghost q: Parts)
    requires 0 < Members(g) && |x| == |d| == Elements(g) && |gamma| == g.c
    requires Fits(b, Nothing(Elements(g), g.c), Elements(g), g.c)
    modifies b.gx, b.gk, b.gb
    ensures Holds(b, old(Contents(b)), q)
    ensures BatchParts(q, Nothing(Elements(g), g.c), g, x, gamma, d, eps, inv, g.c)
  {
    hide Members, Elements, Mean, GroupVar, SumDHat, SumDHatHat, Channel, Sum, Holds, BatchParts, Bump, Upto;
    ghost var was, p := Contents(b), Nothing(Elements(g), g.c);
    q := p;
    HoldsNothing(b, was, p);
    StartChannels(p, g, x, gamma, d, eps, inv);
    var c := 0;
    while c < g.c
      invariant 0 <= c <= g.c && Fits(b, q, Elements(g), g.c) && Holds(b, was, q)
      invariant BatchParts(q, p, g, x, gamma, d, eps, inv, c)
    {
      var mean, variance := ChannelStats(g, x, c);
      var s := inv(variance + eps);
      var sdh, sdx, dg, db := ChannelSums(g, x, gamma[c], d, c, mean, s);
      InputPart(q, p, g, x, gamma, d, eps, inv, c);
      ghost var px := ChannelUpdate(b, g, x, gamma, d, c, mean, s, sdh, sdx, eps, inv, was, q, p.px);
      ghost var q1 := q.(px := px);
      BumpWeight(b, c, dg, was, q1);
      BumpBias(b, c, db, was, q1.(pk := Bump(q1.pk, c, dg)));
      ChannelDone(q, px, p, g, x, gamma, d, eps, inv, c, dg, db);
      q := Parts(px, Bump(q.pk, c, dg), Bump(q.pb, c, db));
      c := c + 1;
    }
  }

  lemma StartChannels(p: Parts, g: Dims, x: seq<real>, gamma: seq<real>, d: seq<real>, eps: real, inv: InvSqrt)
    requires |p.px| == Elements(g)
    ensures BatchParts(p, p, g, x, gamma, d, eps, inv, 0)
  {
    hide Elements, Members;
    SharedNone(p.px, ChannelPlace(g), g.c, Members(g), DxOf(g, x, gamma, d, eps, inv));
    AddedNone(p.pk, SumsBack(g, x, d, eps, inv));
    AddedNone(p.pb, SumsOf(g, d));
  }

  lemma AddedNone(was: seq<real>, share: int -> real)
    ensures Added(was, share, 0) == was
  {
  }

  lemma InputPart(q: Parts, p: Parts, g: Dims, x: seq<real>, gamma: seq<real>, d: seq<real>, eps: real, inv: InvSqrt,
                  c: nat)
    requires BatchParts(q, p, g, x, gamma, d, eps, inv, c)
    ensures Upto(q.px, p.px, g, DxOf(g, x, gamma, d, eps, inv), c, 0)
  {
  }

  lemma ChannelDone(q: Parts, px: seq<real>, p: Parts, g: Dims, x: seq<real>, gamma: seq<real>, d: seq<real>,
                    eps: real, inv: InvSqrt, c: nat, dg: real, db: real)
    requires BatchParts(q, p, g, x, gamma, d, eps, inv, c) && c < |p.pk| && c < |p.pb|
    requires Upto(px, p.px, g, DxOf(g, x, gamma, d, eps, inv), c + 1, 0)
    requires dg == SumsBack(g, x, d, eps, inv)(c) && db == SumsOf(g, d)(c)
    ensures BatchParts(Parts(px, Bump(q.pk, c, dg), Bump(q.pb, c, db)), p, g, x, gamma, d, eps, inv, c + 1)
  {
    hide Upto, Sum, Members, Channel, Bump, Added;
    AddedBump(p.pk, SumsBack(g, x, d, eps, inv), c);
    AddedBump(p.pb, SumsOf(g, d), c);
  }

  // Each channel's input gradient sums to zero.
  lemma BatchNormChannelSumsToZero(g: Dims, x: seq<real>, gamma: seq<real>, d: seq<real>, eps: real, inv: InvSqrt,
                                   c: int)
    requires 0 < Members(g)
    ensures var share := DxOf(g, x, gamma, d, eps, inv); Sum(Members(g), k => share(c, k)) == 0.0
  {
    var cx, cd, s := Channel(g, x, c), Channel(g, d, c), ChannelInv(g, x, c, eps, inv);
    NormDxSumsToZero(Members(g), cx, cd, Same(At(gamma, c)), s);
    hide NormDx, Sum;
    var share := DxOf(g, x, gamma, d, eps, inv);
    forall k | 0 <= k < Members(g)
      ensures share(c, k) == NormDx(Members(g), cx, cd, Same(At(gamma, c)), s, k)
    {
      assert share(c, k) == ChannelDx(g, x, gamma, d, eps, inv, c, k);
    }
    SumEq(Members(g), k => share(c, k), i => NormDx(Members(g), cx, cd, Same(At(gamma, c)), s, i));
  }
}
