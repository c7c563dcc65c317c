/** What expressions and the operations on values mean, form by form and law by law. */
module Operations {
  import opened Syntax
  import opened Semantics
  import Parser
  import Show

  // Expressions, one rule for each form. `Semantics.Eval` goes over the parts of an expression
  // in general; here is what that comes to.

  function Means(c: Context, e: Expr, env: nat, h: Heap, fuel: nat): (r: Res)
    ensures ExprOutcome(r.out) && (r.out.Vals? ==> |r.out.vs| == 1)
    decreases SizeE(e)
  {
    match e
    case Lit(v) => Res(Vals([v]), h)
    case Name(x) =>
      var v := Get(h, env, x);
      if v.Some? then Res(Vals([v.value]), h) else Res(Fail(Fatal), h)
    case Neg(a) =>
      var r := Means(c, a, env, h, fuel);
      if r.out.Vals? then Lift(Negate(c.host, r.out.vs[0]), r.h) else r
    case Await(a) =>
      var r := Means(c, a, env, h, fuel);
      if r.out.Vals? then Lift(c.host.awaited(r.out.vs[0]), r.h) else r
    case Bin(op, a, b) =>
      var l := Means(c, a, env, h, fuel);
      if !l.out.Vals? then l
      else
        var r := Means(c, b, env, l.h, fuel);
        if r.out.Vals? then Lift(Binary(c.host, op, l.out.vs[0], r.out.vs[0]), r.h) else r
    case Cmp(op, a, b) =>
      var l := Means(c, a, env, h, fuel);
      if !l.out.Vals? then l
      else
        var r := Means(c, b, env, l.h, fuel);
        if r.out.Vals? then Lift(Compare(c.host, op, l.out.vs[0], r.out.vs[0]), r.h) else r
    case Index(a, i) =>
      var l := Means(c, a, env, h, fuel);
      if !l.out.Vals? then l
      else
        var r := Means(c, i, env, l.h, fuel);
        if r.out.Vals? then Lift(Subscript(c.host, l.out.vs[0], r.out.vs[0]), r.h) else r
    case Call(f, args) =>
      var callee := Means(c, f, env, h, fuel);
      if !callee.out.Vals? then callee
      else
        var r := MeansAll(c, args, env, callee.h, fuel);
        if r.out.Vals? then Invoke(c, callee.out.vs[0], r.out.vs, r.h, fuel) else r
    case ListLit(es) =>
      var r := MeansAll(c, es, env, h, fuel);
      if r.out.Vals? then Res(Vals([VList(r.out.vs)]), r.h) else r
    case MapLit(entries) =>
      var r := MeansEntries(c, entries, env, h, fuel);
      if r.out.Vals? then Lift(c.host.mapOf(r.out.vs), r.h) else r
  }

  /** From left to right. */
  function MeansAll(c: Context, es: seq<Expr>, env: nat, h: Heap, fuel: nat): (r: Res)
    ensures ExprOutcome(r.out) && (r.out.Vals? ==> |r.out.vs| == |es|)
    decreases SizeEs(es)
  {
    if es == [] then Res(Vals([]), h)
    else
      var first := Means(c, es[0], env, h, fuel);
      if !first.out.Vals? then first
      else
        var rest := MeansAll(c, es[1..], env, first.h, fuel);
        if rest.out.Vals? then Res(Vals(first.out.vs + rest.out.vs), rest.h) else rest
  }

  /** From the first entry to the last, each key before its value. */
  function MeansEntries(c: Context, entries: seq<Entry>, env: nat, h: Heap, fuel: nat): (r: Res)
    ensures ExprOutcome(r.out) && (r.out.Vals? ==> |r.out.vs| == 2 * |entries|)
    decreases SizeEntries(entries)
  {
    if entries == [] then Res(Vals([]), h)
    else
      assert SizeEntries(entries) == SizeEntry(entries[0]) + SizeEntries(entries[1..]);
      var k := Means(c, entries[0].key, env, h, fuel);
      if !k.out.Vals? then k
      else
        var v := Means(c, entries[0].val, env, k.h, fuel);
        if !v.out.Vals? then v
        else
          var rest := MeansEntries(c, entries[1..], env, v.h, fuel);
          if rest.out.Vals? then Res(Vals(k.out.vs + v.out.vs + rest.out.vs), rest.h) else rest
  }

  lemma {:induction false} EvalsEntries(c: Context, entries: seq<Entry>, env: nat, h: Heap, fuel: nat)
    ensures EvalAll(c, Flatten(entries), env, h, fuel) == MeansEntries(c, entries, env, h, fuel)
    decreases SizeEntries(entries), 0
  {
    if entries != [] {
      assert SizeEntries(entries) == SizeEntry(entries[0]) + SizeEntries(entries[1..]);
      hide Eval, Means, SizeEntries;
      var k, v := entries[0].key, entries[0].val;
      FlattenFirst(entries);
      Evaluates(c, k, env, h, fuel);
      var r := Means(c, k, env, h, fuel);
      if r.out.Vals? {
        Evaluates(c, v, env, r.h, fuel);
        var r' := Means(c, v, env, r.h, fuel);
        if r'.out.Vals? { EvalsEntries(c, entries[1..], env, r'.h, fuel); }
      }
      KeyThenValue(c, k, v, Flatten(entries[1..]), env, h, fuel);
    }
  }

  lemma {:induction false} FlattenFirst(entries: seq<Entry>)
    requires entries != []
    ensures Flatten(entries) == [entries[0].key] + ([entries[0].val] + Flatten(entries[1..]))
  {
    hide SizeE, SizeEs, SizeEntry, SizeEntries;
    assert Flatten(entries) == Pair(entries[0].key, entries[0].val) + Flatten(entries[1..]);
  }

  lemma {:induction false} KeyThenValue(c: Context, k: Expr, v: Expr, rest: seq<Expr>, env: nat, h: Heap, fuel: nat)
    ensures var r, all := Eval(c, k, env, h, fuel), EvalAll(c, [k] + ([v] + rest), env, h, fuel);
            if !r.out.Vals? then all == r
            else
              var r' := Eval(c, v, env, r.h, fuel);
              if !r'.out.Vals? then all == r'
              else
                var others := EvalAll(c, rest, env, r'.h, fuel);
                all == if others.out.Vals? then Res(Vals(r.out.vs + r'.out.vs + others.out.vs), others.h) else others
  {
    hide Eval;
    assert ([k] + ([v] + rest))[1..] == [v] + rest && ([v] + rest)[1..] == rest;
    var r := Eval(c, k, env, h, fuel);
    if r.out.Vals? {
      var r' := Eval(c, v, env, r.h, fuel);
      if r'.out.Vals? {
        var others := EvalAll(c, rest, env, r'.h, fuel);
        if others.out.Vals? {
          assert r.out.vs + (r'.out.vs + others.out.vs) == r.out.vs + r'.out.vs + others.out.vs;
        }
      }
    }
  }

  lemma {:induction false} EvalsAll(c: Context, es: seq<Expr>, env: nat, h: Heap, fuel: nat)
    ensures EvalAll(c, es, env, h, fuel) == MeansAll(c, es, env, h, fuel)
    decreases SizeEs(es), 0
  {
    hide Finish;
    if es != [] {
      Evaluates(c, es[0], env, h, fuel);
      var r := Eval(c, es[0], env, h, fuel);
      if r.out.Vals? { EvalsAll(c, es[1..], env, r.h, fuel); }
    }
  }

  /** The values of two operands. */
  lemma {:induction false} EvalsTwo(c: Context, a: Expr, b: Expr, env: nat, h: Heap, fuel: nat)
    ensures var l, both := Eval(c, a, env, h, fuel), EvalAll(c, [a, b], env, h, fuel);
            if !l.out.Vals? then both == l
            else
              var r := Eval(c, b, env, l.h, fuel);
              both == if r.out.Vals? then Res(Vals([l.out.vs[0], r.out.vs[0]]), r.h) else r
  {
    hide Eval;
    assert [a, b][1..] == [b] && [b][1..] == [];
    var l := Eval(c, a, env, h, fuel);
    if l.out.Vals? {
      var r := Eval(c, b, env, l.h, fuel);
      if r.out.Vals? {
        assert EvalAll(c, [], env, r.h, fuel) == Res(Vals([]), r.h);
        assert r.out.vs + [] == [r.out.vs[0]] && l.out.vs + r.out.vs == [l.out.vs[0], r.out.vs[0]];
        assert EvalAll(c, [b], env, l.h, fuel) == Res(Vals(r.out.vs), r.h);
      }
    }
  }

  lemma {:induction false} EvalsOne(c: Context, a: Expr, env: nat, h: Heap, fuel: nat)
    ensures EvalAll(c, [a], env, h, fuel) == Eval(c, a, env, h, fuel)
  {
    hide Eval;
    assert [a][1..] == [];
    var r := Eval(c, a, env, h, fuel);
    if r.out.Vals? { assert EvalAll(c, [], env, r.h, fuel) == Res(Vals([]), r.h) && r.out.vs + [] == r.out.vs; }
  }

  /** Operands are evaluated once each, from left to right, each where the one before it left
      the variables; the first that does not give a value ends it. */
  lemma {:induction false} Evaluates(c: Context, e: Expr, env: nat, h: Heap, fuel: nat)
    ensures Eval(c, e, env, h, fuel) == Means(c, e, env, h, fuel)
    decreases SizeE(e), 0
  {
    hide EvalAll, Get, Invoke, Negate, Binary, Compare, Subscript, Lift;
    match e
    case Lit(_) => NoOperands(c, e, env, h, fuel);
    case Name(_) => NoOperands(c, e, env, h, fuel);
    case Neg(a) => OneOperand(c, e, a, env, h, fuel);
    case Await(a) => OneOperand(c, e, a, env, h, fuel);
    case Bin(_, a, b) => TwoOperands(c, e, a, b, env, h, fuel);
    case Cmp(_, a, b) => TwoOperands(c, e, a, b, env, h, fuel);
    case Index(a, b) => TwoOperands(c, e, a, b, env, h, fuel);
    case Call(f, args) => CalleeAndArguments(c, f, args, env, h, fuel);
    case ListLit(es) => EvalsAll(c, es, env, h, fuel);
    case MapLit(entries) => EvalsEntries(c, entries, env, h, fuel);
  }

  lemma NoOperands(c: Context, e: Expr, env: nat, h: Heap, fuel: nat)
    requires e.Lit? || e.Name?
    ensures Eval(c, e, env, h, fuel) == Means(c, e, env, h, fuel)
  {
    hide Get;
    assert EvalAll(c, [], env, h, fuel) == Res(Vals([]), h);
  }

  lemma {:induction false} OneOperand(c: Context, e: Expr, a: Expr, env: nat, h: Heap, fuel: nat)
    requires (e.Neg? && e.operand == a) || (e.Await? && e.operand == a)
    ensures Eval(c, e, env, h, fuel) == Means(c, e, env, h, fuel)
    decreases SizeE(a) + 1, 0
  {
    hide EvalAll, Negate, Lift;
    Evaluates(c, a, env, h, fuel);
    EvalsOne(c, a, env, h, fuel);
  }

  lemma {:induction false} TwoOperands(c: Context, e: Expr, a: Expr, b: Expr, env: nat, h: Heap, fuel: nat)
    requires (e.Bin? && e.left == a && e.right == b) || (e.Cmp? && e.left == a && e.right == b)
             || (e.Index? && e.target == a && e.index == b)
    ensures Eval(c, e, env, h, fuel) == Means(c, e, env, h, fuel)
    decreases SizeE(a) + SizeE(b) + 1, 0
  {
    hide EvalAll, Binary, Compare, Subscript, Lift;
    Evaluates(c, a, env, h, fuel);
    var l := Eval(c, a, env, h, fuel);
    if l.out.Vals? { Evaluates(c, b, env, l.h, fuel); }
    EvalsTwo(c, a, b, env, h, fuel);
    hide Means;
    TwoMean(c, e, a, b, env, h, fuel);
  }

  lemma TwoMean(c: Context, e: Expr, a: Expr, b: Expr, env: nat, h: Heap, fuel: nat)
    requires (e.Bin? && e.left == a && e.right == b) || (e.Cmp? && e.left == a && e.right == b)
             || (e.Index? && e.target == a && e.index == b)
    ensures var l := Means(c, a, env, h, fuel);
            Means(c, e, env, h, fuel) ==
            if !l.out.Vals? then l
            else
              var r := Means(c, b, env, l.h, fuel);
              if r.out.Vals? then Finish(c, e, [l.out.vs[0], r.out.vs[0]], env, r.h, fuel) else r
  {
    hide Binary, Compare, Subscript, Lift;
  }

  lemma {:induction false} CalleeAndArguments(c: Context, f: Expr, args: seq<Expr>, env: nat, h: Heap, fuel: nat)
    ensures Eval(c, Call(f, args), env, h, fuel) == Means(c, Call(f, args), env, h, fuel)
    decreases SizeE(f) + SizeEs(args) + 1, 0
  {
    hide Invoke;
    var es := [f] + args;
    assert es[0] == f && es[1..] == args;
    Evaluates(c, f, env, h, fuel);
    var r := Eval(c, f, env, h, fuel);
    if r.out.Vals? {
      EvalsAll(c, args, env, r.h, fuel);
      var rest := EvalAll(c, args, env, r.h, fuel);
      if rest.out.Vals? { assert (r.out.vs + rest.out.vs)[1..] == rest.out.vs; }
    }
  }

  // Values.

  /** Sums are built up by ones, products from sums, and differences undo sums. */
  lemma Arithmetic(w: Host, a: int, b: int)
    ensures Binary(w, Add, VInt(a), VInt(0)) == Ok(VInt(a)) && Binary(w, Mul, VInt(a), VInt(0)) == Ok(VInt(0))
    ensures var sum, next := Binary(w, Add, VInt(a), VInt(b)), Binary(w, Add, VInt(a), VInt(b + 1));
            sum.Ok? && sum.v.VInt? && next == Ok(VInt(sum.v.i + 1)) && Binary(w, Sub, sum.v, VInt(b)) == Ok(VInt(a))
    ensures var product, next := Binary(w, Mul, VInt(a), VInt(b)), Binary(w, Mul, VInt(a), VInt(b + 1));
            product.Ok? && product.v.VInt? && next == Binary(w, Add, product.v, VInt(a))
    ensures var n := Negate(w, VInt(a)); n.Ok? && Binary(w, Add, VInt(a), n.v) == Ok(VInt(0))
  {
  }

  predicate Holds(w: Host, op: CmpOp, a: int, b: int) {
    Compare(w, op, VInt(a), VInt(b)) == Ok(VBool(true))
  }

  /** The comparisons of integers are one order and its variants. */
  lemma Ordering(w: Host, a: int, b: int, c: int)
    ensures forall op :: Holds(w, op, a, b) || Compare(w, op, VInt(a), VInt(b)) == Ok(VBool(false))
    ensures Holds(w, Eq, a, a) && Holds(w, Lt, a, a + 1) && !Holds(w, Lt, a, a)
    ensures Holds(w, Lt, a, b) && Holds(w, Lt, b, c) ==> Holds(w, Lt, a, c)
    ensures Holds(w, Eq, a, b) || Holds(w, Lt, a, b) || Holds(w, Lt, b, a)
    ensures Holds(w, Eq, a, b) ==> !Holds(w, Lt, a, b) && !Holds(w, Lt, b, a)
    ensures Holds(w, Gt, a, b) <==> Holds(w, Lt, b, a)
    ensures Holds(w, Le, a, b) <==> !Holds(w, Gt, a, b)
    ensures Holds(w, Ge, a, b) <==> !Holds(w, Lt, a, b)
    ensures Holds(w, Ne, a, b) <==> !Holds(w, Eq, a, b)
  {
  }

  /** Indexes count from the front, or back from the end, around the list once. */
  lemma Indexing(w: Host, items: seq<Value>, i: int)
    ensures items != [] && -|items| <= i < |items| ==> Subscript(w, VList(items), VInt(i)) == Ok(items[i % |items|])
    ensures !(-|items| <= i < |items|) ==> Subscript(w, VList(items), VInt(i)) == w.subscript(VList(items), VInt(i))
  {
  }

  /** Of the values the machine knows itself, five are false. */
  lemma FalseValues(w: Host, v: Value)
    requires !v.VFunc? && !v.VBuiltin? && !v.VOpaque?
    ensures !Truthy(w, v) <==> v in {VNull, VBool(false), VInt(0), VText(""), VList([])}
  {
  }

  // Arithmetic in programs.

  /** Integer literals, signs, sums, differences and products. */
  predicate Arith(e: Expr) {
    match e
    case Lit(v) => v.VInt?
    case Neg(a) => Arith(a)
    case Bin(op, a, b) => !op.Div? && Arith(a) && Arith(b)
    case _ => false
  }

  function Worth(e: Expr): int
    requires Arith(e)
  {
    match e
    case Lit(v) => v.i
    case Neg(a) => -Worth(a)
    case Bin(op, a, b) =>
      if op.Add? then Worth(a) + Worth(b) else if op.Sub? then Worth(a) - Worth(b) else Worth(a) * Worth(b)
  }

  lemma {:induction false} Calculates(c: Context, e: Expr, env: nat, h: Heap, fuel: nat)
    requires Arith(e)
    ensures Means(c, e, env, h, fuel) == Res(Vals([VInt(Worth(e))]), h)
  {
    match e
    case Lit(_) =>
    case Neg(a) => Calculates(c, a, env, h, fuel);
    case Bin(_, a, b) =>
      Calculates(c, a, env, h, fuel);
      Calculates(c, b, env, h, fuel);
  }

  lemma {:induction false} ArithWritable(e: Expr)
    requires Arith(e)
    ensures Show.Writable(e)
  {
    match e
    case Lit(_) =>
    case Neg(a) =>
      ArithWritable(a);
      assert Parts(e)[1..] == [];
    case Bin(_, a, b) =>
      ArithWritable(a);
      ArithWritable(b);
      assert Parts(e)[1..] == [b] && [b][1..] == [];
      assert Show.WritableAll([b]);
  }

  /** Written down and read again, arithmetic comes to what it is worth. */
  lemma ReadAndCalculated(c: Context, e: Expr, env: nat, h: Heap, fuel: nat)
    requires Arith(e)
    ensures var r := Parser.Level(Show.Write(e, 0), 0, Parser.EQUALITY);
            r.Good? && Eval(c, r.e, env, h, fuel) == Res(Vals([VInt(Worth(e))]), h)
  {
    hide Eval, Means, Parser.Level, Show.Write, Show.Writable;
    ArithWritable(e);
    Show.ReadsBack(e, []);
    assert Show.Write(e, 0) + [] == Show.Write(e, 0);
    Evaluates(c, e, env, h, fuel);
    Calculates(c, e, env, h, fuel);
  }

  /** What a list of tokens is read as, if it is an expression from end to end. */
  function Reading(toks: seq<Parser.Token>): Option<Expr> {
    var r := Parser.Level(toks, 0, Parser.EQUALITY);
    if r.Good? && r.p == |toks| then Some(r.e) else None
  }

  lemma ReadingOf(e: Expr, toks: seq<Parser.Token>)
    requires Show.Writable(e) && Show.Write(e, 0) == toks
    ensures Reading(toks) == Some(e)
  {
    hide Parser.Level, Show.Write, Show.Writable;
    Show.ReadsBack(e, []);
    assert toks + [] == toks;
  }

  /** Single tokens. */
  lemma Literals(i: int, s: string)
    ensures Reading([Parser.Number(i)]) == Some(Lit(VInt(i))) && Reading([Parser.Text(s)]) == Some(Lit(VText(s)))
    ensures Reading([Parser.True]) == Some(Lit(VBool(true))) && Reading([Parser.False]) == Some(Lit(VBool(false)))
    ensures Reading([Parser.Null]) == Some(Lit(VNull)) && Reading([Parser.Token.Ident(s)]) == Some(Name(User(s)))
  {
    ReadingOf(Lit(VInt(i)), [Parser.Number(i)]);
    ReadingOf(Lit(VText(s)), [Parser.Text(s)]);
    ReadingOf(Lit(VBool(true)), [Parser.True]);
    ReadingOf(Lit(VBool(false)), [Parser.False]);
    ReadingOf(Lit(VNull), [Parser.Null]);
    ReadingOf(Name(User(s)), [Parser.Token.Ident(s)]);
  }

  lemma PairWritable(e: Expr, a: Expr, b: Expr)
    requires Show.Writable(a) && Show.Writable(b)
    requires e == Index(a, b) || (e.Cmp? && e.left == a && e.right == b) || (e.Bin? && e.left == a && e.right == b)
    ensures Show.Writable(e)
  {
    assert [a, b][1..] == [b] && [b][1..] == [];
    assert Show.WritableAll([b]);
  }

  lemma LitTokens(a: int, k: nat)
    requires k <= 5
    ensures Show.Write(Lit(VInt(a)), k) == [Parser.Number(a)] && Show.Writable(Lit(VInt(a)))
  {
  }

  lemma ReadsComparison(op: CmpOp, a: int, b: int)
    ensures Show.Writable(Cmp(op, Lit(VInt(a)), Lit(VInt(b))))
    ensures Show.Bare(Cmp(op, Lit(VInt(a)), Lit(VInt(b)))) == [Parser.Number(a), Show.CmpToken(op), Parser.Number(b)]
    ensures Reading([Parser.Number(a), Show.CmpToken(op), Parser.Number(b)])
         == Some(Cmp(op, Lit(VInt(a)), Lit(VInt(b))))
  {
    hide Parser.Level, Reading;
    var x, y := Lit(VInt(a)), Lit(VInt(b));
    var e := Cmp(op, x, y);
    LitTokens(a, Show.LevelOf(e));
    LitTokens(b, Show.LevelOf(e) + 1);
    PairWritable(e, x, y);
    hide Show.Writable;
    assert Show.Bare(e) == Show.Write(x, Show.LevelOf(e)) + ([Show.CmpToken(op)] + Show.Write(y, Show.LevelOf(e) + 1));
    ReadingOf(e, [Parser.Number(a), Show.CmpToken(op), Parser.Number(b)]);
  }

  lemma ReadsOperation(op: BinOp, a: int, b: int)
    ensures Reading([Parser.Number(a), Show.BinToken(op), Parser.Number(b)])
         == Some(Bin(op, Lit(VInt(a)), Lit(VInt(b))))
  {
    hide Parser.Level, Reading;
    var x, y := Lit(VInt(a)), Lit(VInt(b));
    var e := Bin(op, x, y);
    LitTokens(a, Show.LevelOf(e));
    LitTokens(b, Show.LevelOf(e) + 1);
    PairWritable(e, x, y);
    hide Show.Writable;
    assert Show.Bare(e) == Show.Write(x, Show.LevelOf(e)) + ([Show.BinToken(op)] + Show.Write(y, Show.LevelOf(e) + 1));
    ReadingOf(e, [Parser.Number(a), Show.BinToken(op), Parser.Number(b)]);
  }

  /** Every operator stands for its operation. */
  lemma Operators(a: int, b: int)
    ensures var x, y, n, m := Lit(VInt(a)), Lit(VInt(b)), Parser.Number(a), Parser.Number(b);
            && Reading([n, Parser.EqEq, m]) == Some(Cmp(Eq, x, y))
            && Reading([n, Parser.NotEq, m]) == Some(Cmp(Ne, x, y))
            && Reading([n, Parser.Token.Gt, m]) == Some(Cmp(Gt, x, y))
            && Reading([n, Parser.Token.Ge, m]) == Some(Cmp(Ge, x, y))
            && Reading([n, Parser.Token.Lt, m]) == Some(Cmp(Lt, x, y))
            && Reading([n, Parser.Token.Le, m]) == Some(Cmp(Le, x, y))
            && Reading([n, Parser.Plus, m]) == Some(Bin(Add, x, y))
            && Reading([n, Parser.Minus, m]) == Some(Bin(Sub, x, y))
            && Reading([n, Parser.Star, m]) == Some(Bin(Mul, x, y))
            && Reading([n, Parser.Slash, m]) == Some(Bin(Div, x, y))
  {
    hide Reading, Show.Bare, Show.Writable;
    ReadsComparison(Eq, a, b);
    ReadsComparison(Ne, a, b);
    ReadsComparison(Gt, a, b);
    ReadsComparison(Ge, a, b);
    ReadsComparison(Lt, a, b);
    ReadsComparison(Le, a, b);
    ReadsOperation(Add, a, b);
    ReadsOperation(Sub, a, b);
    ReadsOperation(Mul, a, b);
    ReadsOperation(Div, a, b);
  }

  /** Equality binds looser than the order: `1 < 2 == 3 < 4` compares two comparisons. */
  lemma OneComparison()
    ensures Reading([Parser.Number(1), Parser.Token.Lt, Parser.Number(2), Parser.EqEq, Parser.Number(3),
                     Parser.Token.Lt,
                     Parser.Number(4)])
         == Some(Cmp(Eq, Cmp(Lt, Lit(VInt(1)), Lit(VInt(2))), Cmp(Lt, Lit(VInt(3)), Lit(VInt(4)))))
  {
    hide Reading, Parser.Level, Show.Writable;
    var l, r := Cmp(Lt, Lit(VInt(1)), Lit(VInt(2))), Cmp(Lt, Lit(VInt(3)), Lit(VInt(4)));
    ReadsComparison(Lt, 1, 2);
    ReadsComparison(Lt, 3, 4);
    PairWritable(Cmp(Eq, l, r), l, r);
    assert Show.Write(l, 0) == Show.Bare(l) && Show.Write(r, 1) == Show.Bare(r);
    assert Show.Write(Cmp(Eq, l, r), 0) == Show.Write(l, 0) + ([Parser.EqEq] + Show.Write(r, 1));
    hide Show.Write, Show.Bare;
    ReadingOf(Cmp(Eq, l, r), [Parser.Number(1), Parser.Token.Lt, Parser.Number(2), Parser.EqEq, Parser.Number(3),
                              Parser.Token.Lt, Parser.Number(4)]);
  }

  /** A sign goes around calls and indexings: `-f(1)[2]` is the negation of what `f(1)` holds at 2. */
  lemma OneChain()
    ensures Reading([Parser.Minus, Parser.Token.Ident("f"), Parser.LParen, Parser.Number(1), Parser.RParen,
                     Parser.LBracket,
                     Parser.Number(2), Parser.RBracket])
         == Some(Neg(Index(Call(Name(User("f")), [Lit(VInt(1))]), Lit(VInt(2)))))
  {
    hide Reading, Parser.Level;
    var f, one, two := Name(User("f")), Lit(VInt(1)), Lit(VInt(2));
    var call := Call(f, [one]);
    var at := Index(call, two);
    LitTokens(1, 0);
    LitTokens(2, 0);
    CallWritable(f, one);
    PairWritable(at, call, two);
    assert Parts(Neg(at)) == [at] && [at][1..] == [];
    assert Show.Writable(Neg(at));
    hide Show.Writable;
    assert [one][0] == one && Show.WriteItems([one]) == Show.Write(one, 0) + [];
    assert Show.Write(f, 5) == [Parser.Token.Ident("f")];
    assert Show.Bare(call) == Show.Write(f, 5) + ([Parser.LParen] + (Show.WriteItems([one]) + [Parser.RParen]));
    assert Show.Write(call, 5) == Show.Bare(call);
    assert Show.Bare(at) == Show.Write(call, 5) + ([Parser.LBracket] + (Show.Write(two, 0) + [Parser.RBracket]));
    assert Show.Write(Neg(at), 0) == Show.Bare(Neg(at)) == [Parser.Minus] + Show.Write(at, 4);
    assert Show.Write(at, 4) == Show.Bare(at);
    hide Show.Write, Show.Bare, Show.WriteItems;
    ReadingOf(Neg(at), [Parser.Minus, Parser.Token.Ident("f"), Parser.LParen, Parser.Number(1), Parser.RParen,
                        Parser.LBracket, Parser.Number(2), Parser.RBracket]);
  }

  lemma CallWritable(f: Expr, a: Expr)
    requires Show.Writable(f) && Show.Writable(a)
    ensures Show.Writable(Call(f, [a]))
  {
    assert ([f] + [a])[1..] == [a] && [a][1..] == [];
    assert Show.WritableAll([a]);
    assert Show.WritableAll([f] + [a]);
  }

  /** `2 - 3 * 4 - -5` is -5. */
  lemma OneCalculation(c: Context, env: nat, h: Heap, fuel: nat)
    ensures var toks := [Parser.Number(2), Parser.Minus, Parser.Number(3), Parser.Star, Parser.Number(4), Parser.Minus,
                         Parser.Minus, Parser.Number(5)];
            var r := Parser.Level(toks, 0, Parser.EQUALITY);
            r.Good? && Eval(c, r.e, env, h, fuel) == Res(Vals([VInt(-5)]), h)
  {
    var product := Bin(Mul, Lit(VInt(3)), Lit(VInt(4)));
    var left := Bin(Sub, Lit(VInt(2)), product);
    var e := Bin(Sub, left, Neg(Lit(VInt(5))));
    assert Show.Write(product, 3) == [Parser.Number(3), Parser.Star, Parser.Number(4)];
    assert Show.Write(left, 2)
        == [Parser.Number(2), Parser.Minus, Parser.Number(3), Parser.Star, Parser.Number(4)];
    assert Show.Write(Neg(Lit(VInt(5))), 3) == [Parser.Minus, Parser.Number(5)];
    assert Show.Write(e, 0) == [Parser.Number(2), Parser.Minus, Parser.Number(3), Parser.Star, Parser.Number(4),
                                Parser.Minus, Parser.Minus, Parser.Number(5)];
    assert Worth(e) == -5;
    hide Eval, Parser.Level, Show.Write;
    ReadAndCalculated(c, e, env, h, fuel);
  }
}
