/** The native toolchain's expression compiler: it emits code while it reads tokens,
    without building a tree. It is proved to agree with the parser followed by the
    compiler of expression trees. */
module OnePass {
  import opened Syntax
  import opened Bytecode
  import opened Parser
  import Compiler
  import Lowering
  import Semantics

  /** The tokens both toolchains know in an expression. */
  predicate Shared(t: Token) {
    t.Number? || t.Text? || t.Ident? || t.True? || t.False? || t.Null? || t.AwaitKw? || t.Plus? || t.Minus? || t.Star?
    || t.Slash?
    || t.LParen? || t.RParen? || t.LBracket? || t.RBracket? || t.Comma? || t.Eof?
  }

  predicate AllShared(toks: seq<Token>) {
    forall k :: 0 <= k < |toks| ==> Shared(toks[k])
  }

  /** What the native grammar leaves out: a sign in front of an operand and lists or
      maps written out. */
  predicate Native(e: Expr)
    decreases SizeE(e)
  {
    !e.Neg? && !e.ListLit? && !e.MapLit? && NativeAll(Parts(e))
  }

  predicate NativeAll(es: seq<Expr>)
    decreases SizeEs(es)
  {
    es != [] ==> Native(es[0]) && NativeAll(es[1..])
  }

  /** The native emitter has no boolean constants: it loads 1 or 0. */
  function Unbooled(i: Instr): Instr {
    if i.LoadConst? && i.v.VBool? then LoadConst(VInt(if i.v.b then 1 else 0)) else i
  }

  /** What it loads is a number wherever it was a boolean, and as true as before. */
  lemma SameTruth(w: Semantics.Host, i: Instr)
    requires i.LoadConst?
    ensures Unbooled(i).LoadConst? && !Unbooled(i).v.VBool? && (i.v.VBool? ==> Unbooled(i).v.VInt?)
    ensures Semantics.Truthy(w, Unbooled(i).v) == Semantics.Truthy(w, i.v)
    ensures !i.v.VBool? ==> Unbooled(i) == i
  {
  }

  function UnbooledAll(code: seq<Instr>): (r: seq<Instr>)
    ensures |r| == |code|
  {
    seq(|code|, k requires 0 <= k < |code| => Unbooled(code[k]))
  }

  lemma UnbooledJoin(a: seq<Instr>, b: seq<Instr>)
    ensures UnbooledAll(a + b) == UnbooledAll(a) + UnbooledAll(b)
  {
  }

  /** The code the two-pass toolchain gives an expression, without booleans. */
  function Code(e: Expr): seq<Instr> {
    UnbooledAll(CompE(e))
  }

  function Codes(es: seq<Expr>): seq<Instr> {
    UnbooledAll(CompEs(es))
  }

  lemma {:induction false} NativePair(a: Expr, b: Expr)
    ensures NativeAll([a, b]) == (Native(a) && Native(b))
    ensures NativeAll([a]) == Native(a)
  {
    assert [a, b][1..] == [b] && [a][1..] == [] && [b][1..] == [];
    assert NativeAll([b]) == Native(b);
  }

  lemma {:induction false} NativeJoin(a: seq<Expr>, b: seq<Expr>)
    ensures NativeAll(a + b) == (NativeAll(a) && NativeAll(b))
    decreases |a|
  {
    if a == [] {
      assert a + b == b;
    } else {
      assert (a + b)[1..] == a[1..] + b;
      NativeJoin(a[1..], b);
    }
  }

  // The code of each kind of expression, in the order the emitter writes it.

  lemma CodeBin(t: Token, left: Expr, right: Expr)
    requires t.Plus? || t.Minus? || t.Star? || t.Slash?
    ensures Code(Combine(t, left, right)) == Code(left) + Code(right) + [OpOf(Combine(t, left, right))]
    ensures Native(Combine(t, left, right)) == (Native(left) && Native(right))
  {
    hide CompE, UnbooledAll;
    var e := Combine(t, left, right);
    Compiler.ExprCode(e);
    NativePair(left, right);
    UnbooledJoin(CompE(left) + CompE(right), [OpOf(e)]);
    UnbooledJoin(CompE(left), CompE(right));
    UnbooledOne(OpOf(e));
  }

  lemma UnbooledOne(i: Instr)
    ensures UnbooledAll([i]) == [Unbooled(i)]
  {
  }

  lemma CodeAwait(e: Expr)
    ensures Code(Await(e)) == Code(e) + [AwaitTop] && Native(Await(e)) == Native(e)
  {
    hide CompE, UnbooledAll;
    Compiler.ExprCode(Await(e));
    NativePair(e, e);
    UnbooledJoin(CompE(e), [AwaitTop]);
    UnbooledOne(AwaitTop);
  }

  lemma CodeIndex(e: Expr, i: Expr)
    ensures Code(Index(e, i)) == Code(e) + Code(i) + [BinarySubscr] && Native(Index(e, i)) == (Native(e) && Native(i))
  {
    hide CompE, UnbooledAll;
    Compiler.ExprCode(Index(e, i));
    NativePair(e, i);
    UnbooledJoin(CompE(e) + CompE(i), [BinarySubscr]);
    UnbooledJoin(CompE(e), CompE(i));
    UnbooledOne(BinarySubscr);
  }

  lemma CodeCall(e: Expr, args: seq<Expr>)
    ensures Code(Call(e, args)) == Code(e) + Codes(args) + [CallFn(|args|)]
            && Native(Call(e, args)) == (Native(e) && NativeAll(args))
  {
    hide CompE, CompEs, UnbooledAll;
    Compiler.ExprCode(Call(e, args));
    NativeJoin([e], args);
    NativePair(e, e);
    UnbooledJoin(CompE(e) + CompEs(args), [CallFn(|args|)]);
    UnbooledJoin(CompE(e), CompEs(args));
    UnbooledOne(CallFn(|args|));
  }

  lemma CodesSnoc(es: seq<Expr>, e: Expr)
    ensures Codes(es + [e]) == Codes(es) + Code(e) && NativeAll(es + [e]) == (NativeAll(es) && Native(e))
  {
    hide CompE, CompEs, UnbooledAll;
    Lowering.CompEsJoin(es, [e]);
    Lowering.CompEsOne(e);
    UnbooledJoin(CompEs(es), CompE(e));
    NativeJoin(es, [e]);
    NativePair(e, e);
  }

  // A part that the native grammar leaves out stays a part of the whole.

  lemma {:induction false} RestNative(toks: seq<Token>, p: nat, level: nat, left: Expr)
    requires p <= |toks| && SUM <= level < UNARY && !Native(left)
    ensures var r := LevelRest(toks, p, level, left); r.Good? ==> !Native(r.e)
    decreases |toks| - p
  {
    hide Level;
    if IsOpAt(level, At(toks, p)) {
      var right := Level(toks, p + 1, level + 1);
      if right.Good? {
        CodeBin(At(toks, p), left, right.e);
        RestNative(toks, right.p, level, Combine(At(toks, p), left, right.e));
      }
    }
  }

  lemma {:induction false} ChainNative(toks: seq<Token>, p: nat, e: Expr)
    requires p <= |toks| && !Native(e)
    ensures var r := Chain(toks, p, e); r.Good? ==> !Native(r.e)
    decreases |toks| - p
  {
    hide Level, Items, Chain, Native, NativeAll, Code, Codes;
    ChainStep(toks, p, e);
    var q := Continued(toks, p);
    if At(toks, q).LParen? {
      var args := Items(toks, Skip(toks, q + 1), RParen);
      if args.GoodList? {
        CodeCall(e, args.es);
        ChainNative(toks, args.p, Call(e, args.es));
      }
    } else if At(toks, q).LBracket? {
      var i := Level(toks, Skip(toks, q + 1), EQUALITY);
      if i.Good? && At(toks, Skip(toks, i.p)).RBracket? {
        CodeIndex(e, i.e);
        ChainNative(toks, Skip(toks, i.p) + 1, Index(e, i.e));
      }
    }
  }

  // Among shared tokens the two loosest levels and the newline rules do nothing.

  lemma SharedAt(toks: seq<Token>, p: nat)
    requires AllShared(toks)
    ensures Shared(At(toks, p))
  {
  }

  lemma NothingSkipped(toks: seq<Token>, p: nat)
    requires AllShared(toks) && p <= |toks|
    ensures Skip(toks, p) == p && Continued(toks, p) == p
  {
    SharedAt(toks, p);
  }

  lemma LooseLevels(toks: seq<Token>, p: nat)
    requires AllShared(toks) && p <= |toks|
    ensures Level(toks, p, EQUALITY) == Level(toks, p, SUM)
  {
    var r := Level(toks, p, SUM);
    if r.Good? { SharedAt(toks, r.p); }
    assert Level(toks, p, 1) == r;
  }

  lemma PrefixNative(es: seq<Expr>, r: ParsedList)
    requires !NativeAll(es)
    ensures var all := Prefixed(es, r); all.GoodList? ==> !NativeAll(all.es)
  {
    if r.GoodList? { NativeJoin(es, r.es); }
  }

  class Emitter {
    const toks: seq<Token>
    var pos: nat
    var code: seq<Instr>

    constructor (toks: seq<Token>)
      ensures this.toks == toks && pos == 0 && code == []
    {
      this.toks, pos, code := toks, 0, [];
    }

    method Push(i: Instr)
      modifies this`code
      ensures code == old(code) + [i]
    {
      code := code + [i];
    }

    /** The emitter did what the two passes do, or failed where they fail or where
        the expression is outside its grammar. */
    ghost predicate Wrote(spec: Parsed, was: seq<Instr>, ok: bool)
      reads this
    {
      if spec.Good? && Native(spec.e) then ok && pos == spec.p && code == was + Code(spec.e) else !ok
    }

    /** Sums and products. */
    method EmitLevel(level: nat) returns (ok: bool)
      requires AllShared(toks) && pos <= |toks| && SUM <= level <= UNARY
      modifies this
      ensures Wrote(Level(toks, old(pos), level), old(code), ok)
      decreases |toks| - pos, 10 - level
    {
      hide Level, LevelRest, Unary, Native, Code;
      ghost var p0, was := pos, code;
      LevelIs(toks, pos, level);
      if level == UNARY {
        ok := EmitUnary();
        return;
      }
      ok := EmitLevel(level + 1);
      if !ok {
        if Level(toks, p0, level + 1).Good? { RestNative(toks, Level(toks, p0, level + 1).p, level,
                                                         Level(toks, p0, level + 1).e); }
        return;
      }
      ghost var e := Level(toks, p0, level + 1).e;
      while IsOpAt(level, At(toks, pos))
        invariant p0 < pos <= |toks|
        invariant Level(toks, p0, level) == LevelRest(toks, pos, level, e)
        invariant Native(e) && code == was + Code(e)
        decreases |toks| - pos
      {
        RestIs(toks, pos, level, e);
        var t := At(toks, pos);
        ghost var right := Level(toks, pos + 1, level + 1);
        if right.Good? { CodeBin(t, e, right.e); }
        pos := pos + 1;
        ok := EmitLevel(level + 1);
        if !ok {
          if right.Good? { RestNative(toks, right.p, level, Combine(t, e, right.e)); }
          return;
        }
        Push(match t case Plus => Binary(Add) case Minus => Binary(Sub) case Star => Binary(Mul) case _ => Binary(Div));
        e := Combine(t, e, right.e);
      }
      RestIs(toks, pos, level, e);
      ok := true;
    }

    method EmitUnary() returns (ok: bool)
      requires AllShared(toks) && pos <= |toks|
      modifies this
      ensures Wrote(Unary(toks, old(pos)), old(code), ok)
      decreases |toks| - pos, 5
    {
      hide Level, LevelRest, Primary, Chain, Code;
      if At(toks, pos).AwaitKw? {
        ghost var r := Unary(toks, pos + 1);
        if r.Good? { CodeAwait(r.e); }
        pos := pos + 1;
        ok := EmitUnary();
        if ok { Push(AwaitTop); }
        return;
      }
      ok := EmitPostfix();
    }

    method EmitPostfix() returns (ok: bool)
      requires AllShared(toks) && pos <= |toks| && !At(toks, pos).AwaitKw?
      modifies this
      ensures Wrote(Unary(toks, old(pos)), old(code), ok)
      decreases |toks| - pos, 4
    {
      hide Level, LevelRest, Chain, Code, Native, NativeAll, Codes, Unary, Primary, Items, Skip, Continued;
      ghost var p0, was := pos, code;
      ghost var first := Primary(toks, p0);
      PrimaryOrSign(toks, pos);
      ok := EmitPrimary();
      if !ok {
        if first.Good? { ChainNative(toks, first.p, first.e); }
        return;
      }
      ghost var e := first.e;
      while At(toks, pos).LParen? || At(toks, pos).LBracket?
        invariant p0 < pos <= |toks|
        invariant Unary(toks, p0) == Chain(toks, pos, e)
        invariant Native(e) && code == was + Code(e)
        decreases |toks| - pos
      {
        if At(toks, pos).LParen? {
          ok, e := EmitCall(e, was);
        } else {
          ok, e := EmitIndex(e, was);
        }
        if !ok { return; }
      }
      ChainStep(toks, pos, e);
      NothingSkipped(toks, pos);
      ok := true;
    }

    /** A call of the chain `e`, whose code follows `was`. */
    method EmitCall(ghost e: Expr, ghost was: seq<Instr>) returns (ok: bool, ghost e': Expr)
      requires AllShared(toks) && pos < |toks| && At(toks, pos).LParen? && Native(e) && code == was + Code(e)
      modifies this
      ensures var whole := Chain(toks, old(pos), e);
              if ok then old(pos) < pos <= |toks| && Native(e') && whole == Chain(toks, pos, e')
                         && code == was + Code(e')
              else whole.Good? ==> !Native(whole.e)
      decreases |toks| - pos, 2
    {
      hide Level, LevelRest, Chain, Code, Codes, Native, NativeAll, Unary, Primary, Items, Skip, Continued;
      e' := e;
      ChainStep(toks, pos, e);
      NothingSkipped(toks, pos);
      NothingSkipped(toks, pos + 1);
      pos := pos + 1;
      ghost var args := Items(toks, pos, RParen);
      if args.GoodList? { CodeCall(e, args.es); }
      var argc;
      ok, argc := EmitArguments();
      if !ok {
        if args.GoodList? { ChainNative(toks, args.p, Call(e, args.es)); }
        return;
      }
      Push(CallFn(argc));
      e' := Call(e, args.es);
    }

    method EmitIndex(ghost e: Expr, ghost was: seq<Instr>) returns (ok: bool, ghost e': Expr)
      requires AllShared(toks) && pos < |toks| && At(toks, pos).LBracket? && Native(e) && code == was + Code(e)
      modifies this
      ensures var whole := Chain(toks, old(pos), e);
              if ok then old(pos) < pos <= |toks| && Native(e') && whole == Chain(toks, pos, e')
                         && code == was + Code(e')
              else whole.Good? ==> !Native(whole.e)
      decreases |toks| - pos, 2
    {
      hide Level, LevelRest, Chain, Code, Codes, Native, NativeAll, Unary, Primary, Items, Skip, Continued;
      e' := e;
      ChainStep(toks, pos, e);
      NothingSkipped(toks, pos);
      NothingSkipped(toks, pos + 1);
      pos := pos + 1;
      ghost var i := Level(toks, pos, SUM);
      LooseLevels(toks, pos);
      if i.Good? {
        CodeIndex(e, i.e);
        NothingSkipped(toks, i.p);
      }
      ok := EmitLevel(SUM);
      if !ok {
        if i.Good? && At(toks, i.p).RBracket? { ChainNative(toks, i.p + 1, Index(e, i.e)); }
        return;
      }
      if !At(toks, pos).RBracket? { return false, e; }
      pos := pos + 1;
      Push(BinarySubscr);
      e' := Index(e, i.e);
    }

    /** One argument and what comes behind it, in front of the rest of the arguments. */
    lemma ArgumentStep(toks: seq<Token>, p: nat, es: seq<Expr>)
      requires AllShared(toks) && p <= |toks|
      ensures var r, all := Level(toks, p, SUM), Prefixed(es, ItemsFrom(toks, p, RParen));
              if r.Bad? then all == BadList
              else if At(toks, r.p).Comma? then
                && r.p < |toks| && all == Prefixed(es + [r.e], ItemsFrom(toks, r.p + 1, RParen))
                && (all.GoodList? && NativeAll(all.es) ==> NativeAll(es + [r.e]))
              else all == if At(toks, r.p).RParen? then GoodList(es + [r.e], r.p + 1) else BadList
    {
      hide Level, ItemsFrom, Native, NativeAll, Prefixed, Skip, Continued;
      ItemsStep(toks, p, RParen, es);
      NothingSkipped(toks, p);
      LooseLevels(toks, p);
      var r := Level(toks, p, SUM);
      if r.Good? {
        NothingSkipped(toks, r.p);
        if At(toks, r.p).Comma? {
          NothingSkipped(toks, r.p + 1);
          if !NativeAll(es + [r.e]) { PrefixNative(es + [r.e], ItemsFrom(toks, r.p + 1, RParen)); }
        }
      }
    }

    /** The arguments of a call, up to and past the closing parenthesis. */
    method EmitArguments() returns (ok: bool, argc: nat)
      requires AllShared(toks) && pos <= |toks|
      modifies this
      ensures var spec := Items(toks, old(pos), RParen);
              if spec.GoodList? && NativeAll(spec.es)
              then ok && argc == |spec.es| && pos == spec.p && code == old(code) + Codes(spec.es)
              else !ok
      decreases |toks| - pos, 12
    {
      hide Level, ItemsFrom, Native, NativeAll, Code, Codes, Prefixed, Skip, Continued;
      ghost var was := code;
      argc := 0;
      if At(toks, pos).RParen? {
        pos := pos + 1;
        NoCodes();
        return true, 0;
      }
      ghost var es: seq<Expr> := [];
      ghost var p0 := pos;
      PrefixedTwice([], [], ItemsFrom(toks, pos, RParen));
      NoCodes();
      while true
        invariant p0 <= pos <= |toks|
        invariant ItemsFrom(toks, p0, RParen) == Prefixed(es, ItemsFrom(toks, pos, RParen))
        invariant NativeAll(es) && argc == |es| && code == was + Codes(es)
        decreases |toks| - pos
      {
        ArgumentStep(toks, pos, es);
        ghost var r := Level(toks, pos, SUM);
        ok := EmitLevel(SUM);
        if r.Good? { CodesSnoc(es, r.e); }
        if !ok { return; }
        argc := argc + 1;
        es := es + [r.e];
        if At(toks, pos).Comma? {
          pos := pos + 1;
        } else if At(toks, pos).RParen? {
          pos := pos + 1;
          return;
        } else {
          return false, argc;
        }
      }
    }

    method EmitPrimary() returns (ok: bool)
      requires AllShared(toks) && pos <= |toks|
      modifies this
      ensures Wrote(Primary(toks, old(pos)), old(code), ok)
      decreases |toks| - pos, 3
    {
      hide Level, LevelRest, Code, Items, Entries;
      var t := At(toks, pos);
      SharedAt(toks, pos);
      ok := true;
      match t {
        case Number(i) =>
          CodeConst(VInt(i));
          Push(LoadConst(VInt(i)));
          pos := pos + 1;
        case Text(s) =>
          CodeConst(VText(s));
          Push(LoadConst(VText(s)));
          pos := pos + 1;
        case True =>
          CodeConst(VBool(true));
          Push(LoadConst(VInt(1)));
          pos := pos + 1;
        case False =>
          CodeConst(VBool(false));
          Push(LoadConst(VInt(0)));
          pos := pos + 1;
        case Null =>
          CodeConst(VNull);
          Push(LoadConst(VNull));
          pos := pos + 1;
        case Ident(s) =>
          CodeName(User(s));
          Push(LoadName(User(s)));
          pos := pos + 1;
        case LParen =>
          pos := pos + 1;
          NothingSkipped(toks, pos);
          LooseLevels(toks, pos);
          ghost var r := Level(toks, pos, SUM);
          if r.Good? { NothingSkipped(toks, r.p); }
          ok := EmitLevel(SUM);
          if !ok { return; }
          if !At(toks, pos).RParen? { return false; }
          pos := pos + 1;
        case _ => ok := false;
      }
    }
  }

  /** On every list of shared tokens the one-pass emitter stops where the parser stops
      and has emitted what the compiler of trees emits, up to booleans; it fails exactly
      where there is no expression or the expression is outside its grammar. */
  method CompileExpression(toks: seq<Token>) returns (r: Option<(seq<Instr>, nat)>)
    requires AllShared(toks)
    ensures var spec := Level(toks, 0, EQUALITY);
            r == if spec.Good? && Native(spec.e) then Some((UnbooledAll(CompE(spec.e)), spec.p)) else None
  {
    hide Level, Native, CompE;
    var emitter := new Emitter(toks);
    LooseLevels(toks, 0);
    var ok := emitter.EmitLevel(SUM);
    assert ok ==> emitter.code == Code(Level(toks, 0, SUM).e);
    r := if ok then Some((emitter.code, emitter.pos)) else None;
  }

  lemma LevelIs(toks: seq<Token>, p: nat, level: nat)
    requires p <= |toks| && level <= UNARY
    ensures Level(toks, p, level) == if level == UNARY then Unary(toks, p)
                                     else var left := Level(toks, p, level + 1);
                                          if left.Bad? then Bad else LevelRest(toks, left.p, level, left.e)
  {
    hide LevelRest, Unary;
  }

  lemma RestIs(toks: seq<Token>, p: nat, level: nat, left: Expr)
    requires p <= |toks| && level < UNARY
    ensures LevelRest(toks, p, level, left) ==
            if !IsOpAt(level, At(toks, p)) then Good(left, p)
            else
              var right := Level(toks, p + 1, level + 1);
              if right.Bad? then Bad else LevelRest(toks, right.p, level, Combine(At(toks, p), left, right.e))
  {
    hide Level;
  }

  /** Without a sign in front, a unary expression is a chain. */
  lemma PrimaryOrSign(toks: seq<Token>, p: nat)
    requires p <= |toks| && !At(toks, p).AwaitKw?
    ensures var r := Primary(toks, p);
            if At(toks, p).Minus? then r.Bad? && (Unary(toks, p).Good? ==> !Native(Unary(toks, p).e))
            else Unary(toks, p) == if r.Bad? then Bad else Chain(toks, r.p, r.e)
  {
    hide Level, Chain;
  }

  lemma NoCodes()
    ensures Codes([]) == [] && NativeAll([])
  {
  }

  lemma CodeConst(v: Value)
    ensures Code(Lit(v)) == [Unbooled(LoadConst(v))] && Native(Lit(v))
  {
    Compiler.ExprCode(Lit(v));
  }

  lemma CodeName(x: Ident)
    ensures Code(Name(x)) == [LoadName(x)] && Native(Name(x))
  {
    Compiler.ExprCode(Name(x));
  }
}
