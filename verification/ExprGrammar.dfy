// The grammar of expressions on tokens, rung by rung, and the proof that the ladder
// reads exactly the sentences of the grammar, as the trees it gives them.
module ExprGrammar {
  import opened Options
  import opened ExprSyntax

  // or-expression = and-expression | or-expression OR and-expression
  ghost predicate OrExpr(e: Expr, s: seq<Token>)
    decreases |s|, 7
  {
    || AndExpr(e, s)
    || exists i ::
         0 <= i < |s| && s[i] == Or && e.Bin? && e.op == OrOp && OrExpr(e.l, s[..i]) && AndExpr(e.r, s[i + 1..])
  }

  // and-expression = not-expression | and-expression AND not-expression
  ghost predicate AndExpr(e: Expr, s: seq<Token>)
    decreases |s|, 6
  {
    || NotExpr(e, s)
    || exists i ::
         0 <= i < |s| && s[i] == And && e.Bin? && e.op == AndOp && AndExpr(e.l, s[..i]) && NotExpr(e.r, s[i + 1..])
  }

  // not-expression = comparison | NOT not-expression
  ghost predicate NotExpr(e: Expr, s: seq<Token>)
    decreases |s|, 5
  {
    CmpExpr(e, s) || (s != [] && s[0] == Not && e.NotE? && NotExpr(e.e, s[1..]))
  }

  // comparison = sum | sum CMP sum
  ghost predicate CmpExpr(e: Expr, s: seq<Token>)
    decreases |s|, 4
  {
    || AddExpr(e, s)
    || exists i ::
         && 0 <= i < |s| && s[i].CmpTok? && e.Bin? && e.op == CmpOp(s[i].c)
         && AddExpr(e.l, s[..i]) && AddExpr(e.r, s[i + 1..])
  }

  // sum = product | sum + product | sum - product
  ghost predicate AddExpr(e: Expr, s: seq<Token>)
    decreases |s|, 3
  {
    || MulExpr(e, s)
    || exists i :: 0 <= i < |s| && e.Bin? && ((s[i] == Plus && e.op == AddOp) || (s[i] == Minus && e.op == SubOp))
         && AddExpr(e.l, s[..i]) && MulExpr(e.r, s[i + 1..])
  }

  // product = unary | product * unary | product / unary | product % unary | product ** unary
  ghost predicate MulExpr(e: Expr, s: seq<Token>)
    decreases |s|, 2
  {
    || UnaryExpr(e, s)
    || exists i :: 0 <= i < |s| && e.Bin? && MulSign(s[i], e.op) && MulExpr(e.l, s[..i]) && UnaryExpr(e.r, s[i + 1..])
  }

  predicate MulSign(t: Token, op: Op) {
    || (t == Star && op == MulOp) || (t == Slash && op == DivOp)
    || (t == Percent && op == ModOp) || (t == Pow && op == PowOp)
  }

  // unary = atom | - unary
  ghost predicate UnaryExpr(e: Expr, s: seq<Token>)
    decreases |s|, 1
  {
    AtomExpr(e, s) || (s != [] && s[0] == Minus && e.Neg? && UnaryExpr(e.e, s[1..]))
  }

  // atom = number | TRUE | FALSE | name | ( or-expression )
  ghost predicate AtomExpr(e: Expr, s: seq<Token>)
    decreases |s|, 0
  {
    || (|s| == 1 && Literal(e, s[0]))
    || (2 <= |s| && s[0] == LParen && s[|s| - 1] == RParen && OrExpr(e, s[1..|s| - 1]))
  }

  predicate Literal(e: Expr, t: Token) {
    || (t.IntNumber? && e == IntLit(t.i)) || (t.RealNumber? && e == RealLit(t.r))
    || (t.Bool? && e == BoolLit(t.b)) || (t.Ident? && e == Var(t.name))
  }

  // ── The rungs by number ──

  ghost predicate Sentence(lv: Level, e: Expr, s: seq<Token>) {
    match lv
    case 0 => OrExpr(e, s)
    case 1 => AndExpr(e, s)
    case 2 => NotExpr(e, s)
    case 3 => CmpExpr(e, s)
    case 4 => AddExpr(e, s)
    case 5 => MulExpr(e, s)
    case 6 => UnaryExpr(e, s)
    case _ => AtomExpr(e, s)
  }

  // What an operator token of a rung means there.
  predicate Sign(lv: Level, t: Token, op: Op) {
    match lv
    case 0 => t == Or && op == OrOp
    case 1 => t == And && op == AndOp
    case 3 => t.CmpTok? && op == CmpOp(t.c)
    case 4 => (t == Plus && op == AddOp) || (t == Minus && op == SubOp)
    case 5 => MulSign(t, op)
    case _ => false
  }

  lemma SignIs(lv: Level, toks: seq<Token>, p: nat, op: Op)
    ensures OpAt(toks, p, lv) == Some(op) <==> p < |toks| && Sign(lv, toks[p], op)
  {
  }

  // A sentence of a left-associative rung: one of the next, or a shorter one, an
  // operator and one of the next.
  ghost predicate Split(lv: Level, e: Expr, s: seq<Token>, i: nat)
    requires lv < 7
  {
    i < |s| && e.Bin? && Sign(lv, s[i], e.op) && Sentence(lv, e.l, s[..i]) && Sentence(lv + 1, e.r, s[i + 1..])
  }

  lemma LeftRung(lv: Level, e: Expr, s: seq<Token>)
    requires LeftAssoc(lv)
    ensures Sentence(lv, e, s) <==> Sentence(lv + 1, e, s) || exists i: nat :: Split(lv, e, s, i)
  {
    if Sentence(lv, e, s) && !Sentence(lv + 1, e, s) {
      var i :| 0 <= i < |s| && e.Bin? && Sign(lv, s[i], e.op) && Sentence(lv, e.l, s[..i])
        && Sentence(lv + 1, e.r, s[i + 1..]);
      assert Split(lv, e, s, i);
    }
  }

  // ── What the ladder reads is a sentence ──

  lemma {:induction false} RestClean(lv: Level, left: Expr, toks: seq<Token>, p: nat)
    requires p <= |toks| && LeftAssoc(lv) && Clean(Rest(lv, left, toks, p).e)
    ensures Clean(left)
    decreases |toks| - p
  {
    hide OpAt, Parse;
    if OpAt(toks, p, lv).Some? {
      var right := Parse(lv + 1, toks, p + 1);
      RestClean(lv, Bin(OpAt(toks, p, lv).value, left, right.e), toks, right.pos);
    }
  }

  // A stretch of tokens around one of them.
  lemma Cut(toks: seq<Token>, from: nat, p: nat, end: nat)
    requires from <= p < end <= |toks|
    ensures var s := toks[from..end];
      s[p - from] == toks[p] && s[..p - from] == toks[from..p] && s[p - from + 1..] == toks[p + 1..end]
  {
    var s := toks[from..end];
    var a, b, c, d := s[..p - from], toks[from..p], s[p - from + 1..], toks[p + 1..end];
    assert |a| == |b| && forall i :: 0 <= i < |a| ==> a[i] == b[i];
    assert |c| == |d| && forall i :: 0 <= i < |c| ==> c[i] == d[i];
  }

  lemma {:induction false} ParseReads(lv: Level, toks: seq<Token>, pos: nat)
    requires pos <= |toks| && Clean(Parse(lv, toks, pos).e)
    ensures Sentence(lv, Parse(lv, toks, pos).e, toks[pos..Parse(lv, toks, pos).pos])
    decreases |toks| - pos, 7 - lv, 1
  {
    hide OrExpr, AndExpr, MulExpr, AddExpr;
    if LeftAssoc(lv) {
      var left := Parse(lv + 1, toks, pos);
      RestClean(lv, left.e, toks, left.pos);
      ParseReads(lv + 1, toks, pos);
      LeftRung(lv, left.e, toks[pos..left.pos]);
      RestReads(lv, left.e, toks, pos, left.pos);
    } else if lv == NOT_LEVEL {
      NotReads(toks, pos);
    } else if lv == CMP_LEVEL {
      CmpReads(toks, pos);
    } else if lv == UNARY_LEVEL {
      UnaryReads(toks, pos);
    } else {
      AtomReads(toks, pos);
    }
  }

  lemma {:induction false} RestReads(lv: Level, left: Expr, toks: seq<Token>, from: nat, p: nat)
    requires from <= p <= |toks| && LeftAssoc(lv) && Clean(Rest(lv, left, toks, p).e)
    requires Sentence(lv, left, toks[from..p])
    ensures var r := Rest(lv, left, toks, p); Sentence(lv, r.e, toks[from..r.pos])
    decreases |toks| - p, 7 - lv, 0
  {
    hide Sentence, Parse, Sign;
    if OpAt(toks, p, lv).Some? {
      var op, right := OpAt(toks, p, lv).value, Parse(lv + 1, toks, p + 1);
      var both := Bin(op, left, right.e);
      RestClean(lv, both, toks, right.pos);
      ParseReads(lv + 1, toks, p + 1);
      var s := toks[from..right.pos];
      SignIs(lv, toks, p, op);
      Cut(toks, from, p, right.pos);
      assert Split(lv, both, s, p - from);
      LeftRung(lv, both, s);
      RestReads(lv, both, toks, from, right.pos);
    }
  }

  lemma {:induction false} NotReads(toks: seq<Token>, pos: nat)
    requires pos <= |toks| && Clean(Parse(NOT_LEVEL, toks, pos).e)
    ensures NotExpr(Parse(NOT_LEVEL, toks, pos).e, toks[pos..Parse(NOT_LEVEL, toks, pos).pos])
    decreases |toks| - pos, 5, 0
  {
    hide CmpExpr;
    if pos < |toks| && toks[pos] == Not {
      ParseReads(NOT_LEVEL, toks, pos + 1);
      var inner := Parse(NOT_LEVEL, toks, pos + 1);
      assert toks[pos..inner.pos][1..] == toks[pos + 1..inner.pos];
    } else {
      ParseReads(CMP_LEVEL, toks, pos);
    }
  }

  lemma {:induction false} CmpReads(toks: seq<Token>, pos: nat)
    requires pos <= |toks| && Clean(Parse(CMP_LEVEL, toks, pos).e)
    ensures CmpExpr(Parse(CMP_LEVEL, toks, pos).e, toks[pos..Parse(CMP_LEVEL, toks, pos).pos])
    decreases |toks| - pos, 4, 0
  {
    hide AddExpr, Rest;
    var left := Parse(ADD_LEVEL, toks, pos);
    ParseReads(ADD_LEVEL, toks, pos);
    if OpAt(toks, left.pos, CMP_LEVEL).Some? {
      ParseReads(ADD_LEVEL, toks, left.pos + 1);
      var right := Parse(ADD_LEVEL, toks, left.pos + 1);
      var s, i := toks[pos..right.pos], left.pos - pos;
      Cut(toks, pos, left.pos, right.pos);
    }
  }

  lemma {:induction false} UnaryReads(toks: seq<Token>, pos: nat)
    requires pos <= |toks| && Clean(Parse(UNARY_LEVEL, toks, pos).e)
    ensures UnaryExpr(Parse(UNARY_LEVEL, toks, pos).e, toks[pos..Parse(UNARY_LEVEL, toks, pos).pos])
    decreases |toks| - pos, 1, 0
  {
    hide AtomExpr;
    if pos < |toks| && toks[pos] == Minus {
      ParseReads(UNARY_LEVEL, toks, pos + 1);
      var inner := Parse(UNARY_LEVEL, toks, pos + 1);
      assert toks[pos..inner.pos][1..] == toks[pos + 1..inner.pos];
    } else {
      ParseReads(ATOM_LEVEL, toks, pos);
    }
  }

  lemma {:induction false} AtomReads(toks: seq<Token>, pos: nat)
    requires pos <= |toks| && Clean(Parse(ATOM_LEVEL, toks, pos).e)
    ensures AtomExpr(Parse(ATOM_LEVEL, toks, pos).e, toks[pos..Parse(ATOM_LEVEL, toks, pos).pos])
    decreases |toks| - pos, 0, 0
  {
    hide OrExpr;
    if pos < |toks| && toks[pos] == LParen {
      var inner := Parse(OR_LEVEL, toks, pos + 1);
      if inner.pos < |toks| && toks[inner.pos] == RParen {
        ParseReads(OR_LEVEL, toks, pos + 1);
        var s := toks[pos..inner.pos + 1];
        assert s[1..|s| - 1] == toks[pos + 1..inner.pos];
      }
    }
  }

  // ── Every sentence is read ──

  lemma {:induction false} FirstOf(lv: Level, e: Expr, s: seq<Token>)
    requires Sentence(lv, e, s)
    ensures s != [] && (lv > NOT_LEVEL ==> s[0] != Not) && (lv > UNARY_LEVEL ==> s[0] != Minus)
    decreases |s|, 7 - lv
  {
    hide OrExpr, AndExpr, AddExpr, MulExpr;
    if LeftAssoc(lv) {
      LeftRung(lv, e, s);
      if Sentence(lv + 1, e, s) {
        FirstOf(lv + 1, e, s);
      } else {
        var i: nat :| Split(lv, e, s, i);
        FirstOf(lv, e.l, s[..i]);
      }
    } else if lv == NOT_LEVEL {
      if CmpExpr(e, s) { FirstOf(CMP_LEVEL, e, s); }
    } else if lv == CMP_LEVEL {
      if AddExpr(e, s) {
        FirstOf(ADD_LEVEL, e, s);
      } else {
        var i :| 0 <= i < |s| && s[i].CmpTok? && e.Bin? && e.op == CmpOp(s[i].c) && AddExpr(e.l, s[..i])
          && AddExpr(e.r, s[i + 1..]);
        FirstOf(ADD_LEVEL, e.l, s[..i]);
      }
    } else if lv == UNARY_LEVEL {
      if AtomExpr(e, s) { FirstOf(ATOM_LEVEL, e, s); }
    }
  }

  lemma StandsPart(toks: seq<Token>, p: nat, s: seq<Token>, i: nat, j: nat)
    requires Stands(toks, p, s) && i <= j <= |s|
    ensures Stands(toks, p + i, s[i..j])
    ensures forall k :: 0 <= k < |s| ==> toks[p + k] == s[k]
  {
    forall k | 0 <= k < |s|
      ensures toks[p + k] == s[k]
    {
      assert toks[p..p + |s|][k] == s[k];
    }
    assert toks[p + i..p + j] == s[i..j];
  }

  lemma SignStops(lv: Level, toks: seq<Token>, p: nat, op: Op)
    requires p < |toks| && Sign(lv, toks[p], op)
    ensures Stops(toks, p, lv + 1)
  {
  }

  lemma {:induction false} SentenceRead(lv: Level, e: Expr, s: seq<Token>, toks: seq<Token>, p: nat)
    requires Sentence(lv, e, s) && Stands(toks, p, s) && Stops(toks, p + |s|, lv)
    ensures Clean(e) && Parse(lv, toks, p) == Parsed(e, p + |s|)
    decreases |s|, 7 - lv, 1
  {
    hide Sentence, Parse, Rest, OrExpr, AndExpr, NotExpr, CmpExpr, AddExpr, MulExpr, UnaryExpr, AtomExpr;
    if LeftAssoc(lv) {
      SentenceChain(lv, e, s, toks, p);
      RestStep(lv, e, toks, p + |s|);
    } else if lv == NOT_LEVEL {
      NotRead(e, s, toks, p);
    } else if lv == CMP_LEVEL {
      CmpRead(e, s, toks, p);
    } else if lv == UNARY_LEVEL {
      UnaryRead(e, s, toks, p);
    } else {
      AtomRead(e, s, toks, p);
    }
  }

  lemma {:induction false} SentenceChain(lv: Level, e: Expr, s: seq<Token>, toks: seq<Token>, p: nat)
    requires LeftAssoc(lv) && Sentence(lv, e, s) && Stands(toks, p, s) && Stops(toks, p + |s|, lv + 1)
    ensures Clean(e) && Parse(lv, toks, p) == Rest(lv, e, toks, p + |s|)
    decreases |s|, 7 - lv, 0
  {
    hide Sentence, Parse, Rest, Sign, Stands, Stops;
    LeftRung(lv, e, s);
    ParseIsRestAt(lv, toks, p, s);
    if Sentence(lv + 1, e, s) {
      SentenceRead(lv + 1, e, s, toks, p);
    } else {
      var i: nat :| Split(lv, e, s, i);
      StandsPart(toks, p, s, 0, i);
      StandsPart(toks, p, s, i + 1, |s|);
      assert s[i + 1..|s|] == s[i + 1..];
      SignStops(lv, toks, p + i, e.op);
      SentenceChain(lv, e.l, s[..i], toks, p);
      SentenceRead(lv + 1, e.r, s[i + 1..], toks, p + i + 1);
      SignIs(lv, toks, p + i, e.op);
      RestStep(lv, e.l, toks, p + i);
    }
  }

  lemma ParseIsRestAt(lv: Level, toks: seq<Token>, p: nat, s: seq<Token>)
    requires LeftAssoc(lv) && Stands(toks, p, s)
    ensures p + |s| <= |toks|
    ensures var left := Parse(lv + 1, toks, p); Parse(lv, toks, p) == Rest(lv, left.e, toks, left.pos)
  {
    ParseIsRest(lv, toks, p);
  }

  lemma {:induction false} NotRead(e: Expr, s: seq<Token>, toks: seq<Token>, p: nat)
    requires Sentence(NOT_LEVEL, e, s) && Stands(toks, p, s) && Stops(toks, p + |s|, NOT_LEVEL)
    ensures Clean(e) && Parse(NOT_LEVEL, toks, p) == Parsed(e, p + |s|)
    decreases |s|, 5, 0
  {
    hide CmpExpr, OpAt;
    FirstOf(NOT_LEVEL, e, s);
    StandsPart(toks, p, s, 1, |s|);
    if CmpExpr(e, s) {
      FirstOf(CMP_LEVEL, e, s);
      SentenceRead(CMP_LEVEL, e, s, toks, p);
    } else {
      SentenceRead(NOT_LEVEL, e.e, s[1..], toks, p + 1);
    }
  }

  lemma {:induction false} CmpRead(e: Expr, s: seq<Token>, toks: seq<Token>, p: nat)
    requires Sentence(CMP_LEVEL, e, s) && Stands(toks, p, s) && Stops(toks, p + |s|, CMP_LEVEL)
    ensures Clean(e) && Parse(CMP_LEVEL, toks, p) == Parsed(e, p + |s|)
    decreases |s|, 4, 0
  {
    hide AddExpr, Parse, Sign, OpAt, Stands, Stops;
    CmpUnfold(toks, p, s);
    StopsFrom(toks, p + |s|, CMP_LEVEL, ADD_LEVEL);
    if AddExpr(e, s) {
      SentenceRead(ADD_LEVEL, e, s, toks, p);
    } else {
      var i :| 0 <= i < |s| && s[i].CmpTok? && e.Bin? && e.op == CmpOp(s[i].c) && AddExpr(e.l, s[..i])
        && AddExpr(e.r, s[i + 1..]);
      StandsPart(toks, p, s, 0, i);
      StandsPart(toks, p, s, i + 1, |s|);
      assert s[0..i] == s[..i] && s[i + 1..|s|] == s[i + 1..];
      CmpSign(toks, p + i);
      SentenceRead(ADD_LEVEL, e.l, s[..i], toks, p);
      SentenceRead(ADD_LEVEL, e.r, s[i + 1..], toks, p + i + 1);
    }
  }

  lemma StopsFrom(toks: seq<Token>, p: nat, lv: Level, more: Level)
    requires Stops(toks, p, lv) && lv <= more
    ensures Stops(toks, p, more) && OpAt(toks, p, lv) == None
  {
  }

  lemma CmpUnfold(toks: seq<Token>, p: nat, s: seq<Token>)
    requires Stands(toks, p, s)
    ensures p <= |toks|
    ensures var left := Parse(ADD_LEVEL, toks, p);
      var op := OpAt(toks, left.pos, CMP_LEVEL);
      && (op.None? ==> Parse(CMP_LEVEL, toks, p) == left)
      && (op.Some? ==>
            var right := Parse(ADD_LEVEL, toks, left.pos + 1);
            Parse(CMP_LEVEL, toks, p) == Parsed(Bin(op.value, left.e, right.e), right.pos))
  {
  }

  lemma CmpSign(toks: seq<Token>, p: nat)
    requires p < |toks| && toks[p].CmpTok?
    ensures OpAt(toks, p, CMP_LEVEL) == Some(CmpOp(toks[p].c)) && Stops(toks, p, ADD_LEVEL)
  {
  }

  lemma {:induction false} UnaryRead(e: Expr, s: seq<Token>, toks: seq<Token>, p: nat)
    requires Sentence(UNARY_LEVEL, e, s) && Stands(toks, p, s) && Stops(toks, p + |s|, UNARY_LEVEL)
    ensures Clean(e) && Parse(UNARY_LEVEL, toks, p) == Parsed(e, p + |s|)
    decreases |s|, 1, 0
  {
    hide AtomExpr, OpAt;
    FirstOf(UNARY_LEVEL, e, s);
    StandsPart(toks, p, s, 1, |s|);
    if AtomExpr(e, s) {
      FirstOf(ATOM_LEVEL, e, s);
      SentenceRead(ATOM_LEVEL, e, s, toks, p);
    } else {
      SentenceRead(UNARY_LEVEL, e.e, s[1..], toks, p + 1);
    }
  }

  lemma {:induction false} AtomRead(e: Expr, s: seq<Token>, toks: seq<Token>, p: nat)
    requires Sentence(ATOM_LEVEL, e, s) && Stands(toks, p, s)
    ensures Clean(e) && Parse(ATOM_LEVEL, toks, p) == Parsed(e, p + |s|)
    decreases |s|, 0, 0
  {
    hide OrExpr, Parse, ParseAtom, Stands, Literal;
    StandsPart(toks, p, s, 0, |s|);
    AtomUnfold(toks, p, s);
    if |s| == 1 && Literal(e, s[0]) {
      LiteralRead(e, toks, p);
    } else {
      StandsPart(toks, p, s, 1, |s| - 1);
      CloseStops(toks, p + |s| - 1);
      SentenceRead(OR_LEVEL, e, s[1..|s| - 1], toks, p + 1);
      ParensRead(e, toks, p, p + |s| - 1);
    }
  }

  lemma LiteralRead(e: Expr, toks: seq<Token>, p: nat)
    requires p < |toks| && Literal(e, toks[p])
    ensures Clean(e) && ParseAtom(toks, p) == Parsed(e, p + 1)
  {
  }

  lemma CloseStops(toks: seq<Token>, p: nat)
    requires p < |toks| && toks[p] == RParen
    ensures Stops(toks, p, OR_LEVEL)
  {
  }

  lemma ParensRead(e: Expr, toks: seq<Token>, p: nat, q: nat)
    requires p < q < |toks| && toks[p] == LParen && toks[q] == RParen && Parse(OR_LEVEL, toks, p + 1) == Parsed(e, q)
    ensures ParseAtom(toks, p) == Parsed(e, q + 1)
  {
    hide Parse;
  }

  lemma AtomUnfold(toks: seq<Token>, p: nat, s: seq<Token>)
    requires Stands(toks, p, s)
    ensures p + |s| <= |toks| && Parse(ATOM_LEVEL, toks, p) == ParseAtom(toks, p)
  {
  }

  // ── The two together ──

  // The ladder reads the whole of s as the tree e, without an error, if and only if the
  // grammar derives s with that tree.
  lemma Grammar(e: Expr, s: seq<Token>)
    ensures OrExpr(e, s) <==> Clean(e) && Parse(OR_LEVEL, s, 0) == Parsed(e, |s|)
  {
    hide OrExpr, Parse;
    if OrExpr(e, s) {
      assert s[0..|s|] == s;
      SentenceRead(OR_LEVEL, e, s, s, 0);
    }
    if Clean(e) && Parse(OR_LEVEL, s, 0) == Parsed(e, |s|) {
      ParseReads(OR_LEVEL, s, 0);
      assert s[0..|s|] == s;
    }
  }

  // ── What binds tighter, on tokens ──

  predicate Means(t: Token, op: Op) {
    match t
    case Or => op == OrOp
    case And => op == AndOp
    case CmpTok(c) => op == CmpOp(c)
    case Plus => op == AddOp
    case Minus => op == SubOp
    case Star => op == MulOp
    case Slash => op == DivOp
    case Percent => op == ModOp
    case Pow => op == PowOp
    case _ => false
  }

  // OR, then AND, then the comparisons, then + and -, then *, /, % and **.
  predicate Tighter(u: Token, t: Token) {
    match t
    case Or => u == And || u.CmpTok? || u in {Plus, Minus, Star, Slash, Percent, Pow}
    case And => u.CmpTok? || u in {Plus, Minus, Star, Slash, Percent, Pow}
    case CmpTok(_) => u in {Plus, Minus, Star, Slash, Percent, Pow}
    case Plus => u in {Star, Slash, Percent, Pow}
    case Minus => u in {Star, Slash, Percent, Pow}
    case _ => false
  }

  predicate SameRung(u: Token, t: Token) {
    (u == t && u in {Or, And}) || (u in {Plus, Minus} && t in {Plus, Minus})
    || (u in {Star, Slash, Percent, Pow} && t in {Star, Slash, Percent, Pow})
  }

  lemma {:induction false} AtRung(lv: Level, k: Level, e: Expr, s: seq<Token>)
    requires k <= lv && Sentence(lv, e, s)
    ensures Sentence(k, e, s)
    decreases lv - k
  {
    hide AtomExpr;
    if k < lv { AtRung(lv - 1, k, e, s); }
  }

  lemma Joined(t: Token, op: Op, x: Expr, y: Expr, a: seq<Token>, b: seq<Token>)
    requires Means(t, op) && Sentence(LeftLevel(op), x, a) && Sentence(OpLevel(op) + 1, y, b)
    ensures Sentence(OpLevel(op), Bin(op, x, y), a + [t] + b)
  {
    hide AtomExpr, NotExpr, UnaryExpr;
    var s, i := a + [t] + b, |a|;
    assert s[i] == t && s[..i] == a && s[i + 1..] == b;
  }

  lemma WholeRead(lv: Level, e: Expr, s: seq<Token>)
    requires Sentence(lv, e, s)
    ensures Parse(OR_LEVEL, s, 0) == Parsed(e, |s|)
  {
    AtRung(lv, OR_LEVEL, e, s);
    Grammar(e, s);
  }

  lemma TighterRung(t: Token, op: Op, u: Token, op2: Op)
    requires Means(t, op) && Means(u, op2)
    ensures Tighter(u, t) ==> OpLevel(op2) >= OpLevel(op) + 1 && OpLevel(op2) >= LeftLevel(op)
    ensures SameRung(u, t) ==> OpLevel(op2) == OpLevel(op) == LeftLevel(op2) == LeftLevel(op)
    ensures LeftLevel(op) <= ATOM_LEVEL && OpLevel(op) + 1 <= ATOM_LEVEL
    ensures LeftLevel(op2) <= ATOM_LEVEL && OpLevel(op2) + 1 <= ATOM_LEVEL
  {
  }

  // An operator over two sentences of its operands' rungs is read as a whole.
  lemma BothRead(t: Token, op: Op, x: Expr, y: Expr, a: seq<Token>, b: seq<Token>, left: Level, right: Level)
    requires Means(t, op) && Sentence(left, x, a) && Sentence(right, y, b)
    requires LeftLevel(op) <= left && OpLevel(op) + 1 <= right
    ensures Sentence(OpLevel(op), Bin(op, x, y), a + [t] + b)
    ensures Parse(OR_LEVEL, a + [t] + b, 0) == Parsed(Bin(op, x, y), |a| + |b| + 1)
  {
    hide Sentence, Parse, Means;
    AtRung(left, LeftLevel(op), x, a);
    AtRung(right, OpLevel(op) + 1, y, b);
    Joined(t, op, x, y, a, b);
    WholeRead(OpLevel(op), Bin(op, x, y), a + [t] + b);
  }

  // The tighter of two operators takes the operand between them, on its left ...
  lemma TighterLeft(t: Token, op: Op, u: Token, op2: Op, x: Expr, y: Expr, z: Expr,
                    a: seq<Token>, b: seq<Token>, c: seq<Token>)
    requires AtomExpr(x, a) && AtomExpr(y, b) && AtomExpr(z, c) && Means(t, op) && Means(u, op2) && Tighter(u, t)
    ensures Parse(OR_LEVEL, a + [t] + (b + [u] + c), 0) == Parsed(Bin(op, x, Bin(op2, y, z)), |a| + |b| + |c| + 2)
  {
    hide Sentence, Parse, Means, Tighter, OpLevel, LeftLevel, AtomExpr;
    TighterRung(t, op, u, op2);
    AtomSentence(x, a);
    AtomSentence(y, b);
    AtomSentence(z, c);
    BothRead(u, op2, y, z, b, c, ATOM_LEVEL, ATOM_LEVEL);
    BothRead(t, op, x, Bin(op2, y, z), a, b + [u] + c, ATOM_LEVEL, OpLevel(op2));
  }

  // ... and on its right.
  lemma TighterRight(t: Token, op: Op, u: Token, op2: Op, x: Expr, y: Expr, z: Expr,
                     a: seq<Token>, b: seq<Token>, c: seq<Token>)
    requires AtomExpr(x, a) && AtomExpr(y, b) && AtomExpr(z, c) && Means(t, op) && Means(u, op2) && Tighter(u, t)
    ensures Parse(OR_LEVEL, (a + [u] + b) + [t] + c, 0) == Parsed(Bin(op, Bin(op2, x, y), z), |a| + |b| + |c| + 2)
  {
    hide Sentence, Parse, Means, Tighter, OpLevel, LeftLevel, AtomExpr;
    TighterRung(t, op, u, op2);
    AtomSentence(x, a);
    AtomSentence(y, b);
    AtomSentence(z, c);
    BothRead(u, op2, x, y, a, b, ATOM_LEVEL, ATOM_LEVEL);
    BothRead(t, op, Bin(op2, x, y), z, a + [u] + b, c, OpLevel(op2), ATOM_LEVEL);
  }

  // Operators of one rung take their operands from the left.
  lemma LeftToRight(t: Token, op: Op, u: Token, op2: Op, x: Expr, y: Expr, z: Expr,
                    a: seq<Token>, b: seq<Token>, c: seq<Token>)
    requires AtomExpr(x, a) && AtomExpr(y, b) && AtomExpr(z, c) && Means(t, op) && Means(u, op2) && SameRung(u, t)
    ensures Parse(OR_LEVEL, (a + [t] + b) + [u] + c, 0) == Parsed(Bin(op2, Bin(op, x, y), z), |a| + |b| + |c| + 2)
  {
    hide Sentence, Parse, Means, SameRung, OpLevel, LeftLevel, AtomExpr;
    TighterRung(t, op, u, op2);
    AtomSentence(x, a);
    AtomSentence(y, b);
    AtomSentence(z, c);
    BothRead(t, op, x, y, a, b, ATOM_LEVEL, ATOM_LEVEL);
    BothRead(u, op2, Bin(op, x, y), z, a + [t] + b, c, OpLevel(op), ATOM_LEVEL);
  }

  lemma AtomSentence(e: Expr, s: seq<Token>)
    requires AtomExpr(e, s)
    ensures Sentence(ATOM_LEVEL, e, s)
  {
  }

  lemma AtomRungs(e: Expr, s: seq<Token>)
    requires AtomExpr(e, s)
    ensures forall k: Level :: Sentence(k, e, s)
  {
    hide AtomExpr;
    forall k: Level
      ensures Sentence(k, e, s)
    {
      AtRung(ATOM_LEVEL, k, e, s);
    }
  }

  // NOT takes a whole comparison or sum, and stops before AND and OR.
  lemma NotBinds(t: Token, op: Op, x: Expr, y: Expr, a: seq<Token>, b: seq<Token>)
    requires AtomExpr(x, a) && AtomExpr(y, b) && Means(t, op)
    ensures t in {Or, And} ==> Parse(OR_LEVEL, [Not] + a + [t] + b, 0) == Parsed(Bin(op, NotE(x), y), |a| + |b| + 2)
    ensures t !in {Or, And} ==> Parse(OR_LEVEL, [Not] + (a + [t] + b), 0) == Parsed(NotE(Bin(op, x, y)), |a| + |b| + 2)
  {
    hide AtomExpr, Sentence, Parse;
    AtomSentence(x, a);
    AtomSentence(y, b);
    if t in {Or, And} {
      AtRung(ATOM_LEVEL, NOT_LEVEL, x, a);
      Negated(NOT_LEVEL, x, a);
      BothRead(t, op, NotE(x), y, [Not] + a, b, NOT_LEVEL, ATOM_LEVEL);
    } else {
      BothRead(t, op, x, y, a, b, ATOM_LEVEL, ATOM_LEVEL);
      AtRung(OpLevel(op), NOT_LEVEL, Bin(op, x, y), a + [t] + b);
      Negated(NOT_LEVEL, Bin(op, x, y), a + [t] + b);
      WholeRead(NOT_LEVEL, NotE(Bin(op, x, y)), [Not] + (a + [t] + b));
    }
  }

  // A minus sign takes one atom, on either side of an operator.
  lemma MinusBinds(t: Token, op: Op, x: Expr, y: Expr, a: seq<Token>, b: seq<Token>)
    requires AtomExpr(x, a) && AtomExpr(y, b) && Means(t, op)
    ensures Parse(OR_LEVEL, [Minus] + a + [t] + b, 0) == Parsed(Bin(op, Neg(x), y), |a| + |b| + 2)
    ensures Parse(OR_LEVEL, a + [t] + ([Minus] + b), 0) == Parsed(Bin(op, x, Neg(y)), |a| + |b| + 2)
  {
    hide AtomExpr, Sentence, Parse, Means, OpLevel, LeftLevel;
    MinusSentence(x, a);
    MinusSentence(y, b);
    AtomSentence(x, a);
    AtomSentence(y, b);
    MinusRung(t, op);
    BothRead(t, op, Neg(x), y, [Minus] + a, b, UNARY_LEVEL, ATOM_LEVEL);
    BothRead(t, op, x, Neg(y), a, [Minus] + b, ATOM_LEVEL, UNARY_LEVEL);
  }

  lemma MinusRung(t: Token, op: Op)
    requires Means(t, op)
    ensures LeftLevel(op) <= UNARY_LEVEL && OpLevel(op) + 1 <= UNARY_LEVEL
  {
  }

  lemma MinusSentence(e: Expr, s: seq<Token>)
    requires AtomExpr(e, s)
    ensures Sentence(UNARY_LEVEL, Neg(e), [Minus] + s)
  {
    hide AtomExpr;
    AtomRungs(e, s);
    Negated(UNARY_LEVEL, e, s);
  }

  lemma Negated(lv: Level, e: Expr, s: seq<Token>)
    requires lv in {NOT_LEVEL, UNARY_LEVEL} && Sentence(lv, e, s)
    ensures lv == NOT_LEVEL ==> Sentence(lv, NotE(e), [Not] + s)
    ensures lv == UNARY_LEVEL ==> Sentence(lv, Neg(e), [Minus] + s)
  {
    hide CmpExpr, AtomExpr;
    assert ([Not] + s)[1..] == s && ([Minus] + s)[1..] == s;
  }
}
