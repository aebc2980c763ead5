// NUM/SCL/FACT expressions: syntax trees, tokens, the precedence ladder as a
// function, and the round trip from a tree through its tokens.
module ExprSyntax {
  import opened Options

  datatype Cmp = Eq | Ne | Gt | Lt | Ge | Le
  datatype Op = OrOp | AndOp | CmpOp(c: Cmp) | AddOp | SubOp | MulOp | DivOp | ModOp | PowOp

  datatype Token =
    | Or | And | Not | CmpTok(c: Cmp) | Plus | Minus | Star | Slash | Percent | Pow
    | LParen | RParen | IntNumber(i: int) | RealNumber(r: real) | Bool(b: bool) | Ident(name: string)
    | Unknown(raw: string)

  // Missing, Unexpected and Unclosed are what the parser makes of malformed input.
  datatype Expr =
    | IntLit(i: int) | RealLit(v: real) | BoolLit(b: bool) | Var(name: string)
    | NotE(e: Expr) | Neg(e: Expr) | Bin(op: Op, l: Expr, r: Expr)
    | Missing | Unexpected(t: Token) | Unclosed(e: Expr)

  // Rungs of the ladder, loosest first.
  const OR_LEVEL := 0
  const AND_LEVEL := 1
  const NOT_LEVEL := 2
  const CMP_LEVEL := 3
  const ADD_LEVEL := 4
  const MUL_LEVEL := 5
  const UNARY_LEVEL := 6
  const ATOM_LEVEL := 7
  type Level = n: nat | n <= 7

  // All four multiplicative operators, ** included, share one rung.
  function OpLevel(op: Op): Level {
    match op
    case OrOp => OR_LEVEL
    case AndOp => AND_LEVEL
    case CmpOp(_) => CMP_LEVEL
    case AddOp | SubOp => ADD_LEVEL
    case MulOp | DivOp | ModOp | PowOp => MUL_LEVEL
  }

  function ToToken(op: Op): Token {
    match op
    case OrOp => Or
    case AndOp => And
    case CmpOp(c) => CmpTok(c)
    case AddOp => Plus
    case SubOp => Minus
    case MulOp => Star
    case DivOp => Slash
    case ModOp => Percent
    case PowOp => Pow
  }

  function FromToken(t: Token): Option<Op> {
    match t
    case Or => Some(OrOp)
    case And => Some(AndOp)
    case CmpTok(c) => Some(CmpOp(c))
    case Plus => Some(AddOp)
    case Minus => Some(SubOp)
    case Star => Some(MulOp)
    case Slash => Some(DivOp)
    case Percent => Some(ModOp)
    case Pow => Some(PowOp)
    case _ => None
  }

  // The binary operator at p, if it belongs to the given rung.
  function OpAt(toks: seq<Token>, p: nat, lv: Level): Option<Op> {
    if p < |toks| && FromToken(toks[p]).Some? && OpLevel(FromToken(toks[p]).value) == lv then FromToken(toks[p])
    else None
  }

  predicate LeftAssoc(lv: Level) {
    lv == OR_LEVEL || lv == AND_LEVEL || lv == ADD_LEVEL || lv == MUL_LEVEL
  }

  datatype Parsed = Parsed(e: Expr, pos: nat)

  // One rung of the ladder, started at pos.
  function Parse(lv: Level, toks: seq<Token>, pos: nat): (r: Parsed)
    requires pos <= |toks|
    ensures pos <= r.pos <= |toks|
    decreases |toks| - pos, 7 - lv, 1
  {
    if LeftAssoc(lv) then
      var left := Parse(lv + 1, toks, pos);
      Rest(lv, left.e, toks, left.pos)
    else if lv == NOT_LEVEL then
      if pos < |toks| && toks[pos] == Not then
        var inner := Parse(NOT_LEVEL, toks, pos + 1);
        Parsed(NotE(inner.e), inner.pos)
      else Parse(CMP_LEVEL, toks, pos)
    else if lv == CMP_LEVEL then
      var left := Parse(ADD_LEVEL, toks, pos);
      if OpAt(toks, left.pos, CMP_LEVEL).Some? then
        var right := Parse(ADD_LEVEL, toks, left.pos + 1);
        Parsed(Bin(OpAt(toks, left.pos, CMP_LEVEL).value, left.e, right.e), right.pos)
      else left
    else if lv == UNARY_LEVEL then
      if pos < |toks| && toks[pos] == Minus then
        var inner := Parse(UNARY_LEVEL, toks, pos + 1);
        Parsed(Neg(inner.e), inner.pos)
      else Parse(ATOM_LEVEL, toks, pos)
    else
      ParseAtom(toks, pos)
  }

  // The remaining operands of a left-associative rung.
  function Rest(lv: Level, left: Expr, toks: seq<Token>, p: nat): (r: Parsed)
    requires p <= |toks| && LeftAssoc(lv)
    ensures p <= r.pos <= |toks|
    decreases |toks| - p, 7 - lv, 0
  {
    if OpAt(toks, p, lv).None? then Parsed(left, p)
    else
      var right := Parse(lv + 1, toks, p + 1);
      Rest(lv, Bin(OpAt(toks, p, lv).value, left, right.e), toks, right.pos)
  }

  function ParseAtom(toks: seq<Token>, pos: nat): (r: Parsed)
    requires pos <= |toks|
    ensures pos <= r.pos <= |toks|
    decreases |toks| - pos, 0, 0
  {
    if pos == |toks| then Parsed(Missing, pos)
    else
      match toks[pos]
      case LParen =>
        var inner := Parse(OR_LEVEL, toks, pos + 1);
        if inner.pos < |toks| && toks[inner.pos] == RParen then Parsed(inner.e, inner.pos + 1)
        else Parsed(Unclosed(inner.e), inner.pos)
      case IntNumber(i) => Parsed(IntLit(i), pos + 1)
      case RealNumber(r) => Parsed(RealLit(r), pos + 1)
      case Bool(b) => Parsed(BoolLit(b), pos + 1)
      case Ident(x) => Parsed(Var(x), pos + 1)
      case t => Parsed(Unexpected(t), pos + 1)
  }

  // A left-associative rung reads one operand of the next rung and goes on.
  lemma ParseIsRest(lv: Level, toks: seq<Token>, pos: nat)
    requires pos <= |toks| && LeftAssoc(lv)
    ensures var left := Parse(lv + 1, toks, pos); Parse(lv, toks, pos) == Rest(lv, left.e, toks, left.pos)
  {
  }

  lemma RestStep(lv: Level, e: Expr, toks: seq<Token>, p: nat)
    requires p <= |toks| && LeftAssoc(lv)
    ensures OpAt(toks, p, lv).None? ==> Rest(lv, e, toks, p) == Parsed(e, p)
    ensures OpAt(toks, p, lv).Some? ==>
      var right := Parse(lv + 1, toks, p + 1);
      Rest(lv, e, toks, p) == Rest(lv, Bin(OpAt(toks, p, lv).value, e, right.e), toks, right.pos)
  {
  }

  // ── Rendering ──

  predicate Clean(e: Expr) {
    match e
    case NotE(x) => Clean(x)
    case Neg(x) => Clean(x)
    case Bin(_, l, r) => Clean(l) && Clean(r)
    case Missing => false
    case Unexpected(_) => false
    case Unclosed(_) => false
    case _ => true
  }

  function LevelOf(e: Expr): Level {
    match e
    case Bin(op, _, _) => OpLevel(op)
    case NotE(_) => NOT_LEVEL
    case Neg(_) => UNARY_LEVEL
    case _ => ATOM_LEVEL
  }

  // Parentheses only where the rung demands them.
  function Render(e: Expr, lv: Level): seq<Token>
    requires Clean(e)
    decreases e, 1
  {
    if LevelOf(e) < lv then [LParen] + Tokens(e) + [RParen] else Tokens(e)
  }

  // The comparison rung does not chain; the others associate to the left.
  function LeftLevel(op: Op): Level { if op.CmpOp? then ADD_LEVEL else OpLevel(op) }

  function Tokens(e: Expr): seq<Token>
    requires Clean(e)
    decreases e, 0
  {
    match e
    case IntLit(i) => [IntNumber(i)]
    case RealLit(r) => [RealNumber(r)]
    case BoolLit(b) => [Bool(b)]
    case Var(x) => [Ident(x)]
    case NotE(x) => [Not] + Render(x, NOT_LEVEL)
    case Neg(x) => [Minus] + Render(x, UNARY_LEVEL)
    case Bin(op, l, r) => Render(l, LeftLevel(op)) + [ToToken(op)] + Render(r, OpLevel(op) + 1)
  }

  // s stands in toks at p.
  ghost predicate Stands(toks: seq<Token>, p: nat, s: seq<Token>) {
    p + |s| <= |toks| && toks[p..p + |s|] == s
  }

  // What stands at p continues no rung from lv up.
  ghost predicate Stops(toks: seq<Token>, p: nat, lv: int) {
    forall k: Level :: lv <= k ==> OpAt(toks, p, k).None?
  }

  lemma AtSplit(toks: seq<Token>, p: nat, a: seq<Token>, b: seq<Token>)
    requires Stands(toks, p, a + b)
    ensures Stands(toks, p, a) && Stands(toks, p + |a|, b) && p + |a| + |b| <= |toks|
  {
    assert toks[p..p + |a|] == (a + b)[..|a|] == a;
    assert toks[p + |a|..p + |a| + |b|] == (a + b)[|a|..] == b;
  }

  lemma OpHere(toks: seq<Token>, p: nat, op: Op)
    requires Stands(toks, p, [ToToken(op)])
    ensures p < |toks| && OpAt(toks, p, OpLevel(op)) == Some(op) && Stops(toks, p, OpLevel(op) + 1)
  {
    assert toks[p] == [ToToken(op)][0];
  }

  // No rendering at the comparison rung or above starts with NOT, no atom with a minus sign.
  lemma {:induction false} FirstToken(e: Expr, lv: Level)
    requires Clean(e)
    ensures Render(e, lv) != []
    ensures lv > NOT_LEVEL ==> Render(e, lv)[0] != Not
    ensures lv > UNARY_LEVEL ==> Render(e, lv)[0] != Minus
    decreases e
  {
    if e.Bin? && LevelOf(e) >= lv {
      FirstToken(e.l, LeftLevel(e.op));
    }
  }

  // A tree's rendering is read back as the tree, whatever follows it, as long as
  // what follows continues no rung from the rendering's own up.
  lemma {:induction false} ParseRender(e: Expr, lv: Level, toks: seq<Token>, p: nat)
    requires Clean(e) && Stands(toks, p, Render(e, lv)) && Stops(toks, p + |Render(e, lv)|, lv)
    ensures Parse(lv, toks, p) == Parsed(e, p + |Render(e, lv)|)
    decreases e, 7 - lv, 4
  {
    if LeftAssoc(lv) {
      ParseChain(e, lv, toks, p);
    } else if LevelOf(e) < lv && lv == ATOM_LEVEL {
      ParseParens(e, toks, p);
    } else if lv == ATOM_LEVEL {
      assert toks[p] == Tokens(e)[0];
    } else if LevelOf(e) != lv {
      FirstToken(e, lv + 1);
      assert Render(e, lv + 1) == Render(e, lv);
      assert toks[p] == Render(e, lv)[0];
      ParseRender(e, lv + 1, toks, p);
    } else {
      ParseOwn(e, toks, p);
    }
  }

  lemma {:induction false} ParseParens(e: Expr, toks: seq<Token>, p: nat)
    requires Clean(e) && LevelOf(e) < ATOM_LEVEL && Stands(toks, p, [LParen] + Tokens(e) + [RParen])
    ensures Parse(ATOM_LEVEL, toks, p) == Parsed(e, p + |Tokens(e)| + 2)
    decreases e, 0, 3
  {
    AtSplit(toks, p, [LParen] + Tokens(e), [RParen]);
    AtSplit(toks, p, [LParen], Tokens(e));
    var q := p + 1 + |Tokens(e)|;
    assert toks[p] == [LParen][0] && toks[q] == [RParen][0];
    ParseOpen(e, OR_LEVEL, toks, p + 1);
  }

  // Inside parentheses the tree is read from the loosest rung.
  lemma {:induction false} ParseOpen(e: Expr, lv: Level, toks: seq<Token>, p: nat)
    requires Clean(e) && lv <= LevelOf(e) && LevelOf(e) < ATOM_LEVEL
    requires Stands(toks, p, Tokens(e)) && Stops(toks, p + |Tokens(e)|, lv)
    ensures Parse(lv, toks, p) == Parsed(e, p + |Tokens(e)|)
    decreases e, 0, 2, 7 - lv
  {
    if lv == LevelOf(e) {
      ParseOwn(e, toks, p);
    } else {
      ParseOpen(e, lv + 1, toks, p);
      FirstToken(e, lv + 1);
      assert Render(e, lv + 1) == Tokens(e);
      assert toks[p] == Tokens(e)[0];
    }
  }

  // The tree's own rung.
  lemma {:induction false} ParseOwn(e: Expr, toks: seq<Token>, p: nat)
    requires Clean(e) && LevelOf(e) < ATOM_LEVEL
    requires Stands(toks, p, Tokens(e)) && Stops(toks, p + |Tokens(e)|, LevelOf(e))
    ensures Parse(LevelOf(e), toks, p) == Parsed(e, p + |Tokens(e)|)
    decreases e, 0, 1
  {
    match e
    case NotE(x) =>
      AtSplit(toks, p, [Not], Render(x, NOT_LEVEL));
      assert toks[p] == [Not][0];
      ParseRender(x, NOT_LEVEL, toks, p + 1);
    case Neg(x) =>
      AtSplit(toks, p, [Minus], Render(x, UNARY_LEVEL));
      assert toks[p] == [Minus][0];
      ParseRender(x, UNARY_LEVEL, toks, p + 1);
    case Bin(op, l, r) =>
      if op.CmpOp? {
        ParseCmp(op, l, r, toks, p);
      } else {
        ParseBin(op, l, r, toks, p);
      }
  }

  lemma {:induction false} ParseCmp(op: Op, l: Expr, r: Expr, toks: seq<Token>, p: nat)
    requires Clean(l) && Clean(r) && op.CmpOp? && Stands(toks, p, Tokens(Bin(op, l, r)))
    requires Stops(toks, p + |Tokens(Bin(op, l, r))|, CMP_LEVEL)
    ensures Parse(CMP_LEVEL, toks, p) == Parsed(Bin(op, l, r), p + |Tokens(Bin(op, l, r))|)
    decreases Bin(op, l, r), 0, 0
  {
    hide Stands, Render, ToToken, FromToken, OpAt;
    var left, right := Render(l, ADD_LEVEL), Render(r, ADD_LEVEL);
    AtSplit(toks, p, left + [ToToken(op)], right);
    AtSplit(toks, p, left, [ToToken(op)]);
    OpHere(toks, p + |left|, op);
    ParseRender(l, ADD_LEVEL, toks, p);
    ParseRender(r, ADD_LEVEL, toks, p + |left| + 1);
  }

  // A left-associative rung keeps whatever follows for its remaining operands.
  lemma {:induction false} ParseBin(op: Op, l: Expr, r: Expr, toks: seq<Token>, p: nat)
    requires Clean(l) && Clean(r) && !op.CmpOp? && Stands(toks, p, Tokens(Bin(op, l, r)))
    requires Stops(toks, p + |Tokens(Bin(op, l, r))|, OpLevel(op) + 1)
    ensures Parse(OpLevel(op), toks, p) == Rest(OpLevel(op), Bin(op, l, r), toks, p + |Tokens(Bin(op, l, r))|)
    decreases Bin(op, l, r), 0, 0
  {
    hide Stands, Stops, Render, ToToken, FromToken, OpAt, Parse, Rest;
    var lv := OpLevel(op);
    var left, right := Render(l, lv), Render(r, lv + 1);
    AtSplit(toks, p, left + [ToToken(op)], right);
    AtSplit(toks, p, left, [ToToken(op)]);
    OpHere(toks, p + |left|, op);
    ParseChain0(l, lv, toks, p);
    ParseRender(r, lv + 1, toks, p + |left| + 1);
    RestStep(lv, l, toks, p + |left|);
  }

  lemma {:induction false} ParseChain0(e: Expr, lv: Level, toks: seq<Token>, p: nat)
    requires Clean(e) && LeftAssoc(lv) && Stands(toks, p, Render(e, lv)) && Stops(toks, p + |Render(e, lv)|, lv + 1)
    ensures Parse(lv, toks, p) == Rest(lv, e, toks, p + |Render(e, lv)|)
    decreases e, 7 - lv, 2
  {
    if LevelOf(e) == lv {
      ParseBin(e.op, e.l, e.r, toks, p);
    } else {
      assert Render(e, lv + 1) == Render(e, lv);
      ParseRender(e, lv + 1, toks, p);
    }
  }

  lemma {:induction false} ParseChain(e: Expr, lv: Level, toks: seq<Token>, p: nat)
    requires Clean(e) && LeftAssoc(lv) && Stands(toks, p, Render(e, lv)) && Stops(toks, p + |Render(e, lv)|, lv)
    ensures Parse(lv, toks, p) == Parsed(e, p + |Render(e, lv)|)
    decreases e, 7 - lv, 3
  {
    ParseChain0(e, lv, toks, p);
    assert OpAt(toks, p + |Render(e, lv)|, lv).None?;
  }

  // Reading back a whole rendering consumes every token of it.
  lemma ReadsBack(e: Expr)
    requires Clean(e)
    ensures Parse(OR_LEVEL, Render(e, OR_LEVEL), 0) == Parsed(e, |Render(e, OR_LEVEL)|)
  {
    var toks := Render(e, OR_LEVEL);
    assert toks[0..|toks|] == toks;
    ParseRender(e, OR_LEVEL, toks, 0);
  }
}
