/** Expressions written back as tokens, with parentheses only where the grammar needs
    them. Reading them gives the expression again, so the parser has the precedences
    and the left associativity that the writer assumes. */
module Show {
  import opened Syntax
  import opened Parser

  /** How tightly an expression binds: 0 to 3 are the binary operators, 4 the signs, 5
      calls and indexings, 6 everything that needs no parentheses. */
  function LevelOf(e: Expr): nat {
    match e
    case Cmp(op, _, _) => if op.Eq? || op.Ne? then 0 else 1
    case Bin(op, _, _) => if op.Add? || op.Sub? then 2 else 3
    case Neg(_) => 4
    case Await(_) => 4
    case Call(_, _) => 5
    case Index(_, _) => 5
    case _ => 6
  }

  function BinToken(op: BinOp): Token {
    match op
    case Add => Plus
    case Sub => Minus
    case Mul => Star
    case Div => Slash
  }

  function CmpToken(op: CmpOp): Token {
    match op
    case Eq => EqEq
    case Ne => NotEq
    case Gt => Token.Gt
    case Ge => Token.Ge
    case Lt => Token.Lt
    case Le => Token.Le
  }

  /** What the grammar can write: literals of the four kinds and the user's names. */
  predicate Writable(e: Expr)
    decreases SizeE(e)
  {
    && (e.Lit? ==> e.v.VInt? || e.v.VText? || e.v.VBool? || e.v.VNull?)
    && (e.Name? ==> e.x.User?)
    && WritableAll(Parts(e))
  }

  predicate WritableAll(es: seq<Expr>)
    decreases SizeEs(es)
  {
    es != [] ==> Writable(es[0]) && WritableAll(es[1..])
  }

  function LitToken(v: Value): Token {
    match v
    case VInt(i) => Number(i)
    case VText(t) => Text(t)
    case VBool(b) => if b then True else False
    case _ => Null
  }

  /** The tokens of an expression where the grammar expects one of at least level `k`. */
  function Write(e: Expr, k: nat): (ts: seq<Token>)
    decreases SizeE(e), 1
  {
    if LevelOf(e) < k then [LParen] + (Bare(e) + [RParen]) else Bare(e)
  }

  function Bare(e: Expr): (ts: seq<Token>)
    decreases SizeE(e), 0
  {
    match e
    case Lit(v) => [LitToken(v)]
    case Name(x) => [Ident(if x.User? then x.text else "")]
    case Neg(a) => [Minus] + Write(a, 4)
    case Await(a) => [AwaitKw] + Write(a, 4)
    case Bin(op, a, b) => Write(a, LevelOf(e)) + ([BinToken(op)] + Write(b, LevelOf(e) + 1))
    case Cmp(op, a, b) => Write(a, LevelOf(e)) + ([CmpToken(op)] + Write(b, LevelOf(e) + 1))
    case Call(f, args) => Write(f, 5) + ([LParen] + (WriteItems(args) + [RParen]))
    case Index(a, i) => Write(a, 5) + ([LBracket] + (Write(i, 0) + [RBracket]))
    case ListLit(es) => [LBracket] + (WriteItems(es) + [RBracket])
    case MapLit(entries) => [LBrace] + (WriteEntries(entries) + [RBrace])
  }

  function WriteItems(es: seq<Expr>): seq<Token>
    decreases SizeEs(es), 0
  {
    if es == [] then []
    else Write(es[0], 0) + (if |es| == 1 then [] else [Comma] + WriteItems(es[1..]))
  }

  function WriteEntries(entries: seq<Entry>): seq<Token>
    decreases SizeEntries(entries), 0
  {
    if entries == [] then []
    else
      assert SizeEntries(entries) == SizeEntry(entries[0]) + SizeEntries(entries[1..]);
      Write(entries[0].key, 0) + ([Colon] + (Write(entries[0].val, 0)
                                             + (if |entries| == 1 then [] else [Comma] + WriteEntries(entries[1..]))))
  }

  // Reading.

  predicate TokensAt(toks: seq<Token>, p: nat, ts: seq<Token>) {
    p + |ts| <= |toks| && toks[p..p + |ts|] == ts
  }

  lemma TokensSplit(toks: seq<Token>, p: nat, a: seq<Token>, b: seq<Token>)
    requires TokensAt(toks, p, a + b)
    ensures TokensAt(toks, p, a) && TokensAt(toks, p + |a|, b)
  {
    assert (a + b)[..|a|] == a && (a + b)[|a|..] == b;
    assert toks[p..p + |a + b|][..|a|] == toks[p..p + |a|];
    assert toks[p..p + |a + b|][|a|..] == toks[p + |a|..p + |a| + |b|];
  }

  lemma OneToken(toks: seq<Token>, p: nat, t: Token, rest: seq<Token>)
    requires TokensAt(toks, p, [t] + rest)
    ensures p < |toks| && At(toks, p) == t && TokensAt(toks, p + 1, rest)
  {
    TokensSplit(toks, p, [t], rest);
    assert toks[p..p + 1][0] == toks[p];
  }

  lemma LastToken(toks: seq<Token>, p: nat, a: seq<Token>, t: Token)
    requires TokensAt(toks, p, a + [t])
    ensures TokensAt(toks, p, a) && p + |a| < |toks| && At(toks, p + |a|) == t
  {
    TokensSplit(toks, p, a, [t]);
    assert toks[p + |a|..p + |a| + 1][0] == toks[p + |a|];
  }

  /** No token that goes on with an operand, or with an operator tighter than level `k`. */
  predicate Stops(t: Token, k: nat) {
    && !t.LParen? && !t.LBracket? && !t.Newline?
    && forall j :: k < j < UNARY ==> !IsOpAt(j, t)
  }

  /** A token that an expression can start with. */
  predicate Begins(t: Token) {
    t.Number? || t.Text? || t.True? || t.False? || t.Null? || t.Ident? || t.AwaitKw? || t.Minus? || t.LParen?
    || t.LBracket? || t.LBrace?
  }

  lemma {:induction false} WriteBegins(e: Expr, k: nat)
    ensures Write(e, k) != [] && Begins(Write(e, k)[0])
    decreases SizeE(e)
  {
    if LevelOf(e) >= k {
      match e
      case Bin(_, a, _) => WriteBegins(a, LevelOf(e));
      case Cmp(_, a, _) => WriteBegins(a, LevelOf(e));
      case Call(f, _) => WriteBegins(f, 5);
      case Index(a, _) => WriteBegins(a, 5);
      case _ =>
    }
  }

  lemma NoSkip(toks: seq<Token>, p: nat)
    requires p <= |toks| && !At(toks, p).Newline?
    ensures Skip(toks, p) == p && Continued(toks, p) == p
  {
  }

  lemma Starts(toks: seq<Token>, p: nat, e: Expr, k: nat)
    requires TokensAt(toks, p, Write(e, k))
    ensures p < |toks| && Begins(At(toks, p))
  {
    WriteBegins(e, k);
    hide Write;
    assert toks[p..p + |Write(e, k)|][0] == toks[p];
  }

  /** Where level `k` is expected, the parser reads the expression and then looks for
      more operators of that level. */
  lemma {:induction false} ReadsLevel(toks: seq<Token>, p: nat, e: Expr, k: nat, q: nat)
    requires Writable(e) && k < UNARY && TokensAt(toks, p, Write(e, k)) && q == p + |Write(e, k)|
             && Stops(At(toks, q), k)
    ensures Level(toks, p, k) == LevelRest(toks, q, k, e)
    decreases q - p, 20 - k
  {
    hide Level, LevelRest, Write, Bare, Writable, Stops;
    if LevelOf(e) == k {
      BareWrite(e, k);
      ReadsBinary(toks, p, e, q);
    } else {
      LevelStep(toks, p, k);
      StopsMore(At(toks, q), k);
      SameWrite(e, k);
      if k + 1 == UNARY {
        ReadsUnary(toks, p, e, q);
      } else {
        ReadsLevel(toks, p, e, k + 1, q);
        RestStops(toks, q, k + 1, e);
      }
    }
  }

  lemma LevelStep(toks: seq<Token>, p: nat, k: nat)
    requires p <= |toks| && k < UNARY
    ensures Level(toks, p, k) == var left := Level(toks, p, k + 1);
                                 if left.Bad? then Bad else LevelRest(toks, left.p, k, left.e)
    ensures Level(toks, p, UNARY) == Unary(toks, p)
  {
    hide LevelRest, Unary;
  }

  lemma StopsMore(t: Token, k: nat)
    requires Stops(t, k)
    ensures Stops(t, k + 1) && (k + 1 < UNARY ==> !IsOpAt(k + 1, t))
  {
  }

  lemma RestStops(toks: seq<Token>, q: nat, k: nat, e: Expr)
    requires q <= |toks| && k < UNARY && !IsOpAt(k, At(toks, q))
    ensures LevelRest(toks, q, k, e) == Good(e, q)
  {
  }

  /** An expression that is not of level `k` is written the same for the next level. */
  lemma SameWrite(e: Expr, k: nat)
    requires LevelOf(e) != k
    ensures Write(e, k) == Write(e, k + 1)
  {
    hide Bare;
  }

  lemma BareWrite(e: Expr, k: nat)
    requires LevelOf(e) >= k
    ensures Write(e, k) == Bare(e)
  {
    hide Bare;
  }

  /** An operator of the expression's own level: its left operand, the token, its right operand. */
  lemma {:induction false} ReadsBinary(toks: seq<Token>, p: nat, e: Expr, q: nat)
    requires Writable(e) && LevelOf(e) < UNARY && TokensAt(toks, p, Bare(e)) && q == p + |Bare(e)|
             && Stops(At(toks, q), LevelOf(e))
    ensures Level(toks, p, LevelOf(e)) == LevelRest(toks, q, LevelOf(e), e)
    decreases q - p, 1
  {
    hide Level, LevelRest, Write, Writable, Bare, LevelOf, Stops, Combine, IsOpAt, TokensAt;
    var k := LevelOf(e);
    var a, t, b := Operands(e);
    TokensSplit(toks, p, Write(a, k), [t] + Write(b, k + 1));
    var m := p + |Write(a, k)|;
    OneToken(toks, m, t, Write(b, k + 1));
    ReadsLevel(toks, p, a, k, m);
    RestStep(toks, m, k, a);
    StopsMore(At(toks, q), k);
    if k + 1 == UNARY {
      LevelStep(toks, m + 1, 3);
      ReadsUnary(toks, m + 1, b, q);
    } else {
      ReadsLevel(toks, m + 1, b, k + 1, q);
      RestStops(toks, q, k + 1, b);
    }
  }

  lemma Operands(e: Expr) returns (a: Expr, t: Token, b: Expr)
    requires Writable(e) && LevelOf(e) < UNARY
    ensures var k := LevelOf(e);
            && Bare(e) == Write(a, k) + ([t] + Write(b, k + 1)) && Combine(t, a, b) == e && IsOpAt(k, t) && Stops(t, k)
            && Writable(a) && Writable(b)
  {
    hide Write, Bare, Writable, WritableAll, Combine, IsOpAt, Stops, SizeE, SizeEs;
    if e.Bin? {
      a, t, b := e.left, BinToken(e.bop), e.right;
      BinPieces(e.bop, a, b);
    } else {
      a, t, b := e.left, CmpToken(e.cop), e.right;
      CmpPieces(e.cop, a, b);
    }
    WritablePair(e, a, b);
  }

  lemma BinPieces(op: BinOp, a: Expr, b: Expr)
    ensures var e, t := Bin(op, a, b), BinToken(op);
            && Bare(e) == Write(a, LevelOf(e)) + ([t] + Write(b, LevelOf(e) + 1))
            && Combine(t, a, b) == e && IsOpAt(LevelOf(e), t) && Stops(t, LevelOf(e))
  {
    hide Write, Writable, SizeE;
  }

  lemma CmpPieces(op: CmpOp, a: Expr, b: Expr)
    ensures var e, t := Cmp(op, a, b), CmpToken(op);
            && Bare(e) == Write(a, LevelOf(e)) + ([t] + Write(b, LevelOf(e) + 1))
            && Combine(t, a, b) == e && IsOpAt(LevelOf(e), t) && Stops(t, LevelOf(e))
  {
    hide Write, Writable, SizeE;
  }

  lemma RestStep(toks: seq<Token>, p: nat, k: nat, left: Expr)
    requires p < |toks| && k < UNARY && IsOpAt(k, At(toks, p))
    ensures LevelRest(toks, p, k, left)
         == var right := Level(toks, p + 1, k + 1);
            if right.Bad? then Bad else LevelRest(toks, right.p, k, Combine(At(toks, p), left, right.e))
  {
    hide Level;
  }

  lemma WritablePair(e: Expr, a: Expr, b: Expr)
    requires Writable(e) && Parts(e) == [a, b]
    ensures Writable(a) && Writable(b)
  {
    assert [a, b][1..] == [b] && WritableAll([b]);
  }

  /** Where an operand is expected, the parser reads exactly the expression. */
  lemma {:induction false} ReadsUnary(toks: seq<Token>, p: nat, e: Expr, q: nat)
    requires Writable(e) && TokensAt(toks, p, Write(e, UNARY)) && q == p + |Write(e, UNARY)|
             && Stops(At(toks, q), UNARY)
    ensures Unary(toks, p) == Good(e, q)
    decreases q - p, 16
  {
    hide Level, LevelRest, Write, Chain, Primary;
    if e.Neg? || e.Await? {
      var t := if e.Neg? then Minus else AwaitKw;
      BareWrite(e, UNARY);
      assert Bare(e) == [t] + Write(e.operand, UNARY);
      WritableOne(e, e.operand);
      hide Bare, Writable;
      OneToken(toks, p, t, Write(e.operand, UNARY));
      ReadsUnary(toks, p + 1, e.operand, q);
    } else {
      SameWrite(e, UNARY);
      hide Bare, Writable;
      ReadsChain(toks, p, e, q);
      ChainStep(toks, q, e);
      NoSkip(toks, q);
    }
  }

  lemma WritableOne(e: Expr, a: Expr)
    requires Writable(e) && Parts(e) == [a]
    ensures Writable(a)
  {
  }

  /** Where the head of a chain of calls and indexings is expected, the parser reads the
      expression and then looks for more links. */
  lemma {:induction false} ReadsChain(toks: seq<Token>, p: nat, e: Expr, q: nat)
    requires Writable(e) && TokensAt(toks, p, Write(e, 5)) && q == p + |Write(e, 5)|
    ensures p < q <= |toks| && Unary(toks, p) == Chain(toks, q, e)
    decreases q - p, 15
  {
    hide Level, LevelRest, Write, Bare, Writable, Chain, Primary, Items, LevelOf, TokensAt, Unary;
    if e.Call? {
      WritableCall(e);
      CallPieces(toks, p, e.callee, e.args, q);
      var m := p + |Write(e.callee, 5)|;
      ReadsChain(toks, p, e.callee, m);
      ReadsItems(toks, m + 1, e.args, RParen, q);
      CallLink(toks, m, e.callee, e.args, q);
    } else if e.Index? {
      WritablePair(e, e.target, e.index);
      IndexPieces(toks, p, e.target, e.index, q);
      var m := p + |Write(e.target, 5)|;
      ReadsChain(toks, p, e.target, m);
      ReadsInside(toks, m + 1, e.index, RBracket, q - 1);
      IndexLink(toks, m, e.target, e.index, q);
    } else {
      ReadsPrimary(toks, p, e, q);
    }
  }

  lemma CallPieces(toks: seq<Token>, p: nat, f: Expr, args: seq<Expr>, q: nat)
    requires TokensAt(toks, p, Write(Call(f, args), 5)) && q == p + |Write(Call(f, args), 5)|
    ensures var m := p + |Write(f, 5)|;
            && TokensAt(toks, p, Write(f, 5)) && p < m < |toks| && At(toks, m) == LParen
            && TokensAt(toks, m + 1, WriteItems(args) + [RParen]) && q == m + 1 + |WriteItems(args)| + 1 <= |toks|
  {
    hide Write, WriteItems;
    BareWrite(Call(f, args), 5);
    WriteBegins(f, 5);
    var head, tail := Write(f, 5), [LParen] + (WriteItems(args) + [RParen]);
    assert Bare(Call(f, args)) == head + tail;
    hide Bare;
    TokensSplit(toks, p, head, tail);
    OneToken(toks, p + |head|, LParen, WriteItems(args) + [RParen]);
  }

  lemma IndexPieces(toks: seq<Token>, p: nat, a: Expr, i: Expr, q: nat)
    requires TokensAt(toks, p, Write(Index(a, i), 5)) && q == p + |Write(Index(a, i), 5)|
    ensures var m := p + |Write(a, 5)|;
            && TokensAt(toks, p, Write(a, 5)) && p < m < |toks| && At(toks, m) == LBracket
            && TokensAt(toks, m + 1, Write(i, 0) + [RBracket]) && q == m + 1 + |Write(i, 0)| + 1 <= |toks|
  {
    hide Write;
    BareWrite(Index(a, i), 5);
    WriteBegins(a, 5);
    var head, tail := Write(a, 5), [LBracket] + (Write(i, 0) + [RBracket]);
    assert Bare(Index(a, i)) == head + tail;
    hide Bare;
    TokensSplit(toks, p, head, tail);
    OneToken(toks, p + |head|, LBracket, Write(i, 0) + [RBracket]);
  }

  lemma CallLink(toks: seq<Token>, m: nat, f: Expr, args: seq<Expr>, q: nat)
    requires m < |toks| && At(toks, m) == LParen && Skip(toks, m + 1) == m + 1
             && Items(toks, m + 1, RParen) == GoodList(args, q)
    ensures q <= |toks| ==> Chain(toks, m, f) == Chain(toks, q, Call(f, args))
  {
    hide Chain, Items;
    ChainStep(toks, m, f);
    NoSkip(toks, m);
  }

  lemma IndexLink(toks: seq<Token>, m: nat, a: Expr, i: Expr, q: nat)
    requires m < |toks| && At(toks, m) == LBracket && 0 < q <= |toks|
    requires Skip(toks, m + 1) == m + 1 && Level(toks, m + 1, EQUALITY) == Good(i, q - 1)
    requires q - 1 < |toks| && At(toks, q - 1) == RBracket && Skip(toks, q - 1) == q - 1
    ensures Chain(toks, m, a) == Chain(toks, q, Index(a, i))
  {
    hide Chain, Level;
    ChainStep(toks, m, a);
    NoSkip(toks, m);
  }

  lemma WritableCall(e: Expr)
    requires Writable(e) && e.Call?
    ensures Writable(e.callee) && WritableAll(e.args)
  {
    assert ([e.callee] + e.args)[1..] == e.args;
  }

  predicate Closes(t: Token) {
    t.RParen? || t.RBracket? || t.RBrace? || t.Comma? || t.Colon?
  }

  /** A whole expression in front of a token that closes it. */
  lemma {:induction false} ReadsInside(toks: seq<Token>, p: nat, e: Expr, close: Token, q: nat)
    requires Writable(e) && TokensAt(toks, p, Write(e, 0) + [close]) && q == p + |Write(e, 0)| && Closes(close)
    ensures Skip(toks, p) == p && Level(toks, p, EQUALITY) == Good(e, q)
    ensures q < |toks| && At(toks, q) == close && Skip(toks, q) == q
    decreases q - p, 21
  {
    hide Level, LevelRest, Write, Writable;
    LastToken(toks, p, Write(e, 0), close);
    Starts(toks, p, e, 0);
    NoSkip(toks, p);
    NoSkip(toks, q);
    ReadsLevel(toks, p, e, 0, q);
    RestStops(toks, q, 0, e);
  }

  lemma {:induction false} ReadsItems(toks: seq<Token>, p: nat, es: seq<Expr>, close: Token, q: nat)
    requires WritableAll(es) && TokensAt(toks, p, WriteItems(es) + [close]) && q == p + |WriteItems(es)| + 1
             && (close.RParen? || close.RBracket?)
    ensures Skip(toks, p) == p && Items(toks, p, close) == GoodList(es, q)
    decreases q - p, 22
  {
    hide Level, Write, ItemsFrom;
    LastToken(toks, p, WriteItems(es), close);
    if es == [] {
      NoSkip(toks, p);
    } else {
      ReadsItemsFrom(toks, p, es, close, q);
    }
  }

  lemma {:induction false} ReadsItemsFrom(toks: seq<Token>, p: nat, es: seq<Expr>, close: Token, q: nat)
    requires es != [] && WritableAll(es) && TokensAt(toks, p, WriteItems(es) + [close]) && q == p + |WriteItems(es)| + 1
    requires close.RParen? || close.RBracket?
    ensures Skip(toks, p) == p && p < |toks| && Begins(At(toks, p)) && ItemsFrom(toks, p, close) == GoodList(es, q)
    decreases q - p, 21
  {
    hide Level, Write, Writable, WritableAll, WriteItems, ItemsFrom, Prefixed, TokensAt, Skip, Begins;
    var e, rest := es[0], es[1..];
    WritableHead(es, e, rest);
    var m := p + |Write(e, 0)|;
    ItemPieces(toks, p, es, close, m, q);
    Starts(toks, p, e, 0);
    ItemsStep(toks, p, close, []);
    PrefixedTwice([], [], ItemsFrom(toks, p, close));
    if rest == [] {
      ReadsInside(toks, p, e, close, m);
      assert [] + [e] == es;
    } else {
      ReadsInside(toks, p, e, Comma, m);
      ReadsItemsFrom(toks, m + 1, rest, close, q);
      PrefixedGood([] + [e], rest, q);
      assert ([] + [e]) + rest == es;
    }
  }

  /** The tokens of the first item, and those after it. */
  lemma ItemPieces(toks: seq<Token>, p: nat, es: seq<Expr>, close: Token, m: nat, q: nat)
    requires es != [] && TokensAt(toks, p, WriteItems(es) + [close]) && m == p + |Write(es[0], 0)|
             && q == p + |WriteItems(es)| + 1
    ensures TokensAt(toks, p, Write(es[0], 0))
    ensures if |es| == 1 then TokensAt(toks, p, Write(es[0], 0) + [close]) && q == m + 1
            else TokensAt(toks, p, Write(es[0], 0) + [Comma]) && TokensAt(toks, m + 1, WriteItems(es[1..]) + [close])
                 && q == m + 1 + |WriteItems(es[1..])| + 1
  {
    hide Write, TokensAt;
    var head := Write(es[0], 0);
    if |es| == 1 {
      assert head + [] == head;
      LastToken(toks, p, head, close);
    } else {
      var tail := WriteItems(es[1..]);
      assert (head + ([Comma] + tail)) + [close] == (head + [Comma]) + (tail + [close]);
      TokensSplit(toks, p, head + [Comma], tail + [close]);
      LastToken(toks, p, head, Comma);
    }
  }

  lemma PrefixedGood(a: seq<Expr>, b: seq<Expr>, q: nat)
    ensures Prefixed(a, GoodList(b, q)) == GoodList(a + b, q)
  {
  }

  lemma {:induction false} ReadsPrimary(toks: seq<Token>, p: nat, e: Expr, q: nat)
    requires Writable(e) && !e.Call? && !e.Index? && TokensAt(toks, p, Write(e, 5)) && q == p + |Write(e, 5)|
    ensures p < q <= |toks| && Unary(toks, p) == Chain(toks, q, e)
    decreases q - p, 14
  {
    hide Level, LevelRest, Chain, Items, Entries, TokensAt, Unary, Primary;
    if LevelOf(e) < 5 {
      assert Write(e, 5) == [LParen] + (Write(e, 0) + [RParen]);
      hide Write, Bare, Writable;
      OneToken(toks, p, LParen, Write(e, 0) + [RParen]);
      ReadsInside(toks, p + 1, e, RParen, q - 1);
      PrimaryParens(toks, p, e, q);
    } else {
      BareWrite(e, 5);
      hide Write;
      ReadsBare(toks, p, e, q);
    }
    PrimaryUnary(toks, p, e, q);
  }

  lemma PrimaryUnary(toks: seq<Token>, p: nat, e: Expr, q: nat)
    requires p < |toks| && !At(toks, p).AwaitKw? && !At(toks, p).Minus? && Primary(toks, p) == Good(e, q)
    ensures Unary(toks, p) == Chain(toks, q, e)
  {
    hide Primary, Chain;
  }

  lemma PrimaryParens(toks: seq<Token>, p: nat, e: Expr, q: nat)
    requires p + 1 < |toks| && 0 < q && At(toks, p).LParen? && Skip(toks, p + 1) == p + 1
             && Level(toks, p + 1, EQUALITY) == Good(e, q - 1)
    requires q - 1 < |toks| && At(toks, q - 1).RParen? && Skip(toks, q - 1) == q - 1
    ensures Primary(toks, p) == Good(e, q)
  {
    hide Level;
  }

  /** Literals, names, lists and maps. */
  lemma {:induction false} ReadsBare(toks: seq<Token>, p: nat, e: Expr, q: nat)
    requires Writable(e) && LevelOf(e) == 6 && TokensAt(toks, p, Bare(e)) && q == p + |Bare(e)|
    ensures p < q <= |toks| && Primary(toks, p) == Good(e, q) && !At(toks, p).AwaitKw? && !At(toks, p).Minus?
    decreases q - p, 13
  {
    hide Level, Items, Entries, TokensAt;
    if e.ListLit? {
      assert WritableAll(e.elements);
      hide Writable;
      OneToken(toks, p, LBracket, WriteItems(e.elements) + [RBracket]);
      ReadsItems(toks, p + 1, e.elements, RBracket, q);
    } else if e.MapLit? {
      assert WritableAll(Flatten(e.entries));
      hide Writable;
      OneToken(toks, p, LBrace, WriteEntries(e.entries) + [RBrace]);
      ReadsEntries(toks, p + 1, e.entries, q);
    } else {
      var t := Bare(e)[0];
      assert Bare(e) == [t] + [];
      OneToken(toks, p, t, []);
    }
  }

  lemma {:induction false} ReadsEntries(toks: seq<Token>, p: nat, entries: seq<Entry>, q: nat)
    requires WritableAll(Flatten(entries)) && TokensAt(toks, p, WriteEntries(entries) + [RBrace])
             && q == p + |WriteEntries(entries)| + 1
    ensures Skip(toks, p) == p && Entries(toks, p) == GoodMap(entries, q)
    decreases q - p, 22
  {
    hide Level, Write, EntriesFrom, WritableAll;
    LastToken(toks, p, WriteEntries(entries), RBrace);
    if entries == [] {
      NoSkip(toks, p);
    } else {
      ReadsEntriesFrom(toks, p, entries, q);
    }
  }

  lemma WritableHead(es: seq<Expr>, e: Expr, rest: seq<Expr>)
    requires WritableAll(es) && es == [e] + rest
    ensures Writable(e) && WritableAll(rest)
  {
    hide Writable;
    assert es[0] == e && es[1..] == rest;
  }

  lemma WritableEntry(entries: seq<Entry>)
    requires entries != [] && WritableAll(Flatten(entries))
    ensures Writable(entries[0].key) && Writable(entries[0].val) && WritableAll(Flatten(entries[1..]))
  {
    hide Writable, WritableAll, Flatten;
    var k, v, rest := entries[0].key, entries[0].val, Flatten(entries[1..]);
    FlattenFirst(entries, k, v, rest);
    WritableHead(Flatten(entries), k, [v] + rest);
    WritableHead([v] + rest, v, rest);
  }

  lemma {:induction false} FlattenFirst(entries: seq<Entry>, k: Expr, v: Expr, rest: seq<Expr>)
    requires entries != [] && k == entries[0].key && v == entries[0].val && rest == Flatten(entries[1..])
    ensures Flatten(entries) == [k] + ([v] + rest)
  {
    hide SizeE, SizeEs, SizeEntry, SizeEntries;
    assert Flatten(entries) == Pair(k, v) + rest;
  }

  lemma {:induction false} ReadsEntriesFrom(toks: seq<Token>, p: nat, entries: seq<Entry>, q: nat)
    requires entries != [] && WritableAll(Flatten(entries))
    requires TokensAt(toks, p, WriteEntries(entries) + [RBrace]) && q == p + |WriteEntries(entries)| + 1
    ensures Skip(toks, p) == p && p < |toks| && Begins(At(toks, p)) && EntriesFrom(toks, p) == GoodMap(entries, q)
    decreases q - p, 21
  {
    hide Level, Write, Writable, WritableAll, EntriesFrom, PrefixedMap, TokensAt, Skip;
    var k, v, rest := entries[0].key, entries[0].val, entries[1..];
    WritableEntry(entries);
    var m := p + |Write(k, 0)|;
    var n := m + 1 + |Write(v, 0)|;
    EntryPieces(toks, p, entries, m, n);
    Starts(toks, p, k, 0);
    EntriesStep(toks, p, []);
    PrefixedMapTwice([], [], EntriesFrom(toks, p));
    ReadsInside(toks, p, k, Colon, m);
    if rest == [] {
      ReadsInside(toks, m + 1, v, RBrace, n);
      assert [] + [Entry(k, v)] == entries;
    } else {
      ReadsInside(toks, m + 1, v, Comma, n);
      ReadsEntriesFrom(toks, n + 1, rest, q);
      PrefixedMapGood([] + [Entry(k, v)], rest, q);
      assert ([] + [Entry(k, v)]) + rest == entries;
    }
  }

  lemma PrefixedMapGood(a: seq<Entry>, b: seq<Entry>, q: nat)
    ensures PrefixedMap(a, GoodMap(b, q)) == GoodMap(a + b, q)
  {
  }

  /** The tokens of the first entry, and those after it. */
  lemma EntryPieces(toks: seq<Token>, p: nat, entries: seq<Entry>, m: nat, n: nat)
    requires entries != [] && TokensAt(toks, p, WriteEntries(entries) + [RBrace])
    requires m == p + |Write(entries[0].key, 0)| && n == m + 1 + |Write(entries[0].val, 0)|
    ensures TokensAt(toks, p, Write(entries[0].key, 0)) && TokensAt(toks, p, Write(entries[0].key, 0) + [Colon])
    ensures if |entries| == 1
            then TokensAt(toks, m + 1, Write(entries[0].val, 0) + [RBrace]) && |WriteEntries(entries)| == n - p
            else TokensAt(toks, m + 1, Write(entries[0].val, 0) + [Comma])
                 && TokensAt(toks, n + 1, WriteEntries(entries[1..]) + [RBrace])
                 && |WriteEntries(entries)| == n - p + 1 + |WriteEntries(entries[1..])|
  {
    hide Write, TokensAt;
    var key, val := Write(entries[0].key, 0), Write(entries[0].val, 0);
    if |entries| == 1 {
      assert val + [] == val;
      assert WriteEntries(entries) == key + ([Colon] + val);
      hide WriteEntries;
      EntryTokens(toks, p, key, val, [RBrace]);
    } else {
      var tail := WriteEntries(entries[1..]);
      assert WriteEntries(entries) == key + ([Colon] + (val + ([Comma] + tail)));
      hide WriteEntries;
      Grouped(key, val, tail);
      EntryTokens(toks, p, key, val, [Comma] + (tail + [RBrace]));
      assert val + ([Comma] + (tail + [RBrace])) == (val + [Comma]) + (tail + [RBrace]);
      TokensSplit(toks, m + 1, val + [Comma], tail + [RBrace]);
    }
  }

  lemma EntryTokens(toks: seq<Token>, p: nat, key: seq<Token>, val: seq<Token>, after: seq<Token>)
    requires TokensAt(toks, p, (key + ([Colon] + val)) + after) || TokensAt(toks, p, key + ([Colon] + (val + after)))
    ensures TokensAt(toks, p, key) && TokensAt(toks, p, key + [Colon]) && TokensAt(toks, p + |key| + 1, val + after)
  {
    hide TokensAt;
    assert (key + ([Colon] + val)) + after == key + ([Colon] + (val + after)) == (key + [Colon]) + (val + after);
    TokensSplit(toks, p, key + [Colon], val + after);
    TokensSplit(toks, p, key, [Colon] + (val + after));
  }

  lemma Grouped(key: seq<Token>, val: seq<Token>, tail: seq<Token>)
    ensures (key + ([Colon] + (val + ([Comma] + tail)))) + [RBrace]
         == key + ([Colon] + (val + ([Comma] + (tail + [RBrace]))))
  {
    var inner := val + ([Comma] + tail);
    assert (key + ([Colon] + inner)) + [RBrace] == key + ([Colon] + (inner + [RBrace]));
    assert inner + [RBrace] == val + ([Comma] + (tail + [RBrace]));
  }

  /** Every writable expression is read back from its tokens, whatever may follow that
      does not go on with it. */
  lemma ReadsBack(e: Expr, rest: seq<Token>)
    requires Writable(e) && Stops(if rest == [] then Eof else rest[0], 0) && (rest != [] ==> !IsOpAt(0, rest[0]))
    ensures Level(Write(e, 0) + rest, 0, EQUALITY) == Good(e, |Write(e, 0)|)
  {
    hide Level, Write, Writable;
    var toks, q := Write(e, 0) + rest, |Write(e, 0)|;
    assert toks[0..0 + q] == Write(e, 0);
    ReadsLevel(toks, 0, e, 0, q);
    RestStops(toks, q, 0, e);
  }
}
