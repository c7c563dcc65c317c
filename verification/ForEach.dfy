/** What a `para` loop means: its body runs for the elements of the iterable in order.
    The compiler spells the loop out with two hidden variables and the name `tamanho`;
    scoping guarantees that nothing in between disturbs them. */
module ForEach {
  import opened Syntax
  import opened Semantics
  import opened Scoping

  /** The host's view of an iterable: its length and its elements by index. */
  ghost predicate Elements(w: Host, v: Value, elems: seq<Value>) {
    && w.builtin("tamanho", [v]) == Ok(VInt(|elems|))
    && forall k :: 0 <= k < |elems| ==> Subscript(w, v, VInt(k)) == Ok(elems[k])
  }

  /** The body for the elements from `k` on. A `continue` of the body comes back to the
      same element; only a normal end moves on to the next. */
  function Visit(c: Context, id: nat, x: Ident, elems: seq<Value>, k: nat, body: seq<Stmt>, env: nat, h: Heap,
                 fuel: nat): Res
    decreases fuel
  {
    if fuel == 0 then Res(Timeout, h)
    else if k >= |elems| then Res(Normal, h)
    else
      var r := ExecAll(c, body, env, Set(h, env, x, elems[k]), fuel);
      if r.out.Brk? then Res(Normal, r.h)
      else if r.out.Cont? then Visit(c, id, x, elems, k, body, env, r.h, fuel - 1)
      else if r.out.Normal? then Visit(c, id, x, elems, k + 1, body, env, Set(r.h, env, ForIdx(id), VInt(k + 1)),
                                       fuel - 1)
      else r
  }

  // The pieces of the loop.

  lemma EvalName(c: Context, x: Ident, env: nat, h: Heap, fuel: nat, v: Value)
    requires Get(h, env, x) == Some(v)
    ensures Eval(c, Name(x), env, h, fuel) == Res(Vals([v]), h)
  {
  }

  lemma EvalTwo(c: Context, a: Expr, b: Expr, env: nat, h: Heap, fuel: nat, va: Value, vb: Value)
    requires Eval(c, a, env, h, fuel) == Res(Vals([va]), h) && Eval(c, b, env, h, fuel) == Res(Vals([vb]), h)
    ensures EvalAll(c, [a, b], env, h, fuel) == Res(Vals([va, vb]), h)
  {
    hide Eval;
    assert [a, b][1..] == [b] && [b][1..] == [];
    assert EvalAll(c, [], env, h, fuel) == Res(Vals([]), h);
    assert EvalAll(c, [b], env, h, fuel) == Res(Vals([vb] + []), h);
    assert [va] + ([vb] + []) == [va, vb] && [vb] + [] == [vb];
  }

  /** Both hidden variables and `tamanho` stand as the loop needs them. */
  ghost predicate Prepared(h: Heap, env: nat, id: nat, v: Value, k: nat) {
    && env < |h| && ForIter(id) in h[env].vals && h[env].vals[ForIter(id)] == v
    && ForIdx(id) in h[env].vals && h[env].vals[ForIdx(id)] == VInt(k)
    && Get(h, env, LENGTH) == Some(VBuiltin("tamanho"))
  }

  lemma TestRuns(c: Context, id: nat, env: nat, h: Heap, fuel: nat, v: Value, elems: seq<Value>, k: nat)
    requires Prepared(h, env, id, v, k) && Elements(c.host, v, elems)
    ensures Eval(c, ForCond(id), env, h, fuel) == Res(Vals([VBool(k < |elems|)]), h)
  {
    var iter, idx, len := Name(ForIter(id)), Name(ForIdx(id)), Name(LENGTH);
    EvalName(c, ForIter(id), env, h, fuel, v);
    EvalName(c, ForIdx(id), env, h, fuel, VInt(k));
    EvalName(c, LENGTH, env, h, fuel, VBuiltin("tamanho"));
    hide EvalAll, Eval, Prepared;
    LengthRuns(c, len, iter, env, h, fuel, v, elems);
    LessRuns(c, idx, Call(len, [iter]), env, h, fuel, k, |elems|);
  }

  lemma LengthRuns(c: Context, len: Expr, iter: Expr, env: nat, h: Heap, fuel: nat, v: Value, elems: seq<Value>)
    requires Eval(c, len, env, h, fuel) == Res(Vals([VBuiltin("tamanho")]), h)
             && Eval(c, iter, env, h, fuel) == Res(Vals([v]), h)
    requires Elements(c.host, v, elems)
    ensures Eval(c, Call(len, [iter]), env, h, fuel) == Res(Vals([VInt(|elems|)]), h)
  {
    hide EvalAll;
    EvalTwo(c, len, iter, env, h, fuel, VBuiltin("tamanho"), v);
    var call, vs := Call(len, [iter]), [VBuiltin("tamanho"), v];
    assert Parts(call) == [len, iter] && vs[1..] == [v];
    assert Finish(c, call, vs, env, h, fuel) == Semantics.Invoke(c, vs[0], [v], h, fuel);
  }

  lemma LessRuns(c: Context, a: Expr, b: Expr, env: nat, h: Heap, fuel: nat, i: int, j: int)
    requires Eval(c, a, env, h, fuel) == Res(Vals([VInt(i)]), h) && Eval(c, b, env, h, fuel) == Res(Vals([VInt(j)]), h)
    ensures Eval(c, Cmp(Lt, a, b), env, h, fuel) == Res(Vals([VBool(i < j)]), h)
  {
    hide EvalAll;
    EvalTwo(c, a, b, env, h, fuel, VInt(i), VInt(j));
    assert Parts(Cmp(Lt, a, b)) == [a, b];
  }

  lemma HeadRuns(c: Context, id: nat, x: Ident, env: nat, h: Heap, fuel: nat, v: Value, elems: seq<Value>, k: nat)
    requires Prepared(h, env, id, v, k) && Elements(c.host, v, elems) && k < |elems|
    ensures ExecAll(c, [ForHead(id, x)], env, h, fuel) == Res(Normal, Set(h, env, x, elems[k]))
  {
    var iter, idx := Name(ForIter(id)), Name(ForIdx(id));
    EvalName(c, ForIter(id), env, h, fuel, v);
    EvalName(c, ForIdx(id), env, h, fuel, VInt(k));
    hide EvalAll;
    EvalTwo(c, iter, idx, env, h, fuel, v, VInt(k));
    assert Eval(c, Index(iter, idx), env, h, fuel) == Res(Vals([elems[k]]), h);
    OneStmt(c, ForHead(id, x), env, h, fuel);
  }

  lemma StepRuns(c: Context, id: nat, env: nat, h: Heap, fuel: nat, v: Value, k: nat)
    requires Prepared(h, env, id, v, k)
    ensures ExecAll(c, [ForStep(id)], env, h, fuel) == Res(Normal, Set(h, env, ForIdx(id), VInt(k + 1)))
  {
    var idx, one := Name(ForIdx(id)), Lit(VInt(1));
    EvalName(c, ForIdx(id), env, h, fuel, VInt(k));
    assert Eval(c, one, env, h, fuel) == Res(Vals([VInt(1)]), h);
    hide EvalAll;
    EvalTwo(c, idx, one, env, h, fuel, VInt(k), VInt(1));
    assert Eval(c, Bin(Add, idx, one), env, h, fuel) == Res(Vals([VInt(k + 1)]), h);
    OneStmt(c, ForStep(id), env, h, fuel);
  }

  lemma OneStmt(c: Context, s: Stmt, env: nat, h: Heap, fuel: nat)
    requires Exec(c, s, env, h, fuel).out.Normal?
    ensures ExecAll(c, [s], env, h, fuel) == Exec(c, s, env, h, fuel)
  {
    hide Exec;
    assert [s][1..] == [];
    assert ExecAll(c, [], env, Exec(c, s, env, h, fuel).h, fuel) == Res(Normal, Exec(c, s, env, h, fuel).h);
  }

  // The loop.

  /** After the element is bound and the body has run, the hidden variables still stand. */
  lemma BodySpares(lex: Lexicon, c: Context, id: nat, x: Ident, body: seq<Stmt>, owners: seq<nat>, env: nat, h: Heap,
                   fuel: nat, v: Value,
                   elem: Value, k: nat) returns (owners': seq<nat>)
    requires Scoping.Ready(lex, c, owners, env, h) && OwnSs(lex, owners[env], body) && MayBind(lex, owners[env], x)
    requires id !in WritesAll(body) && !(Hidden(x) && x.n == id) && ClosuresOk(lex, owners, Closures(elem))
    requires Prepared(h, env, id, v, k)
    ensures var r := ExecAll(c, body, env, Set(h, env, x, elem), fuel);
            && owners <= owners' && HeapOk(lex, owners', r.h) && Prepared(r.h, env, id, v, k)
  {
    hide LexicalContext, HostOk, OwnSs, ExecAll, Closures;
    var h1 := Set(h, env, x, elem);
    SetOk(lex, owners, h, env, x, elem);
    owners' := ExecAllEnds(lex, c, body, owners, env, h1, fuel);
    var r := ExecAll(c, body, env, h1, fuel);
    LengthFound(lex, owners', r.h, env);
    var ids := if Hidden(x) then {x.n} else {};
    assert Spared(h, h1, env, ids) && Spared(h1, r.h, env, WritesAll(body));
    SpareOne(h, h1, r.h, env, ids, WritesAll(body), ForIter(id));
    SpareOne(h, h1, r.h, env, ids, WritesAll(body), ForIdx(id));
  }

  lemma SpareOne(h: Heap, h1: Heap, h2: Heap, env: nat, ids: set<nat>, ids': set<nat>, x: Ident)
    requires Spared(h, h1, env, ids) && Spared(h1, h2, env, ids') && env < |h| && Hidden(x) && x.n !in ids
             && x.n !in ids'
    requires x in h[env].vals
    ensures env < |h2| && x in h2[env].vals && h2[env].vals[x] == h[env].vals[x]
  {
  }

  /** Stepping the index binds it in the loop's own scope. */
  lemma StepSets(lex: Lexicon, owners: seq<nat>, h: Heap, env: nat, id: nat, v: Value, k: nat)
    requires HeapOk(lex, owners, h) && Prepared(h, env, id, v, k)
    requires id in lex.home && lex.home[id] == owners[env]
    ensures var h' := Set(h, env, ForIdx(id), VInt(k + 1)); HeapOk(lex, owners, h') && Prepared(h', env, id, v, k + 1)
  {
    SetOk(lex, owners, h, env, ForIdx(id), VInt(k + 1));
    LengthFound(lex, owners, Set(h, env, ForIdx(id), VInt(k + 1)), env);
  }

  lemma ElementOk(lex: Lexicon, w: Host, owners: seq<nat>, v: Value, elems: seq<Value>, k: nat)
    requires HostOk(w) && ClosuresOk(lex, owners, Closures(v)) && Elements(w, v, elems) && k < |elems|
    ensures ClosuresOk(lex, owners, Closures(elems[k]))
  {
    SubscriptOk(w, v, VInt(k));
  }

  lemma {:induction false} LoopVisits(lex: Lexicon, c: Context, id: nat, x: Ident,
                                      body: seq<Stmt>, owners: seq<nat>, env: nat, h: Heap, fuel: nat,
                                      v: Value, elems: seq<Value>, k: nat)
    requires Scoping.Ready(lex, c, owners, env, h) && OwnSs(lex, owners[env], body) && MayBind(lex, owners[env], x)
    requires id in lex.home && lex.home[id] == owners[env]
    requires id !in WritesAll(body) && !(Hidden(x) && x.n == id)
    requires Elements(c.host, v, elems) && ClosuresOk(lex, owners, Closures(v)) && Prepared(h, env, id, v, k)
    ensures Loop(c, ForCond(id), [ForHead(id, x)], body, [ForStep(id)], env, h, fuel)
         == Visit(c, id, x, elems, k, body, env, h, fuel)
    decreases fuel
  {
    hide Eval, ExecAll, OwnSs, LexicalContext, HostOk, Elements, Prepared, HeapOk, Closures, ClosuresOk;
    if fuel > 0 {
      TestRuns(c, id, env, h, fuel, v, elems, k);
      if k < |elems| {
        HeadRuns(c, id, x, env, h, fuel, v, elems, k);
        ElementOk(lex, c.host, owners, v, elems, k);
        var owners' := BodySpares(lex, c, id, x, body, owners, env, h, fuel, v, elems[k], k);
        var r := ExecAll(c, body, env, Set(h, env, x, elems[k]), fuel);
        ClosuresGrow(lex, owners, owners', Closures(v));
        Inside(lex, owners, owners', h, r.h, env, id, v, k);
        if r.out.Cont? {
          LoopVisits(lex, c, id, x, body, owners', env, r.h, fuel - 1, v, elems, k);
        } else if r.out.Normal? {
          StepRuns(c, id, env, r.h, fuel, v, k);
          StepSets(lex, owners', r.h, env, id, v, k);
          Inside(lex, owners, owners', h, Set(r.h, env, ForIdx(id), VInt(k + 1)), env, id, v, k + 1);
          LoopVisits(lex, c, id, x, body, owners', env, Set(r.h, env, ForIdx(id), VInt(k + 1)), fuel - 1, v, elems,
                     k + 1);
        }
      }
    }
  }

  lemma Inside(lex: Lexicon, owners: seq<nat>, owners': seq<nat>, h: Heap, h': Heap, env: nat, id: nat, v: Value,
               k: nat)
    requires owners <= owners' && HeapOk(lex, owners, h) && HeapOk(lex, owners', h') && env < |h|
             && Prepared(h', env, id, v, k)
    ensures env < |h'| == |owners'| && owners'[env] == owners[env]
  {
  }

  /** A `para` loop over an iterable visits its elements in order, from the first. */
  lemma ForVisits(lex: Lexicon, c: Context, id: nat, x: Ident, it: Expr, body: seq<Stmt>, owners: seq<nat>, env: nat,
                  h: Heap, fuel: nat,
                  v: Value, elems: seq<Value>)
    requires Scoping.Ready(lex, c, owners, env, h) && OwnS(lex, owners[env], For(id, x, it, body))
    requires id !in WritesAll(body) && !(Hidden(x) && x.n == id)
    requires Eval(c, it, env, h, fuel).out == Vals([v]) && Elements(c.host, v, elems)
    ensures Exec(c, For(id, x, it, body), env, h, fuel)
         == Visit(c, id, x, elems, 0, body, env,
                  Set(Set(Eval(c, it, env, h, fuel).h, env, ForIter(id), v), env, ForIdx(id), VInt(0)), fuel)
  {
    hide Eval, ExecAll, Loop, OwnSs, PlainE, LexicalContext, HostOk, Elements, Closures, ClosuresOk, Visit, Ends;
    var e := Eval(c, it, env, h, fuel);
    var owners' := EvalEnds(lex, c, it, owners, env, h, fuel);
    Sizes(lex, owners, h);
    EndsGives(lex, owners, h, env, e, owners');
    assert ClosuresOk(lex, owners', Closures(v)) by { ClosuresOne(v); }
    var h1 := Set(e.h, env, ForIter(id), v);
    SetOk(lex, owners', e.h, env, ForIter(id), v);
    var h2 := Set(h1, env, ForIdx(id), VInt(0));
    assert ClosuresOk(lex, owners', Closures(VInt(0))) by { NumberOk(lex, owners'); }
    SetOk(lex, owners', h1, env, ForIdx(id), VInt(0));
    LengthFound(lex, owners', h2, env);
    LoopVisits(lex, c, id, x, body, owners', env, h2, fuel, v, elems, 0);
  }

  lemma NumberOk(lex: Lexicon, owners: seq<nat>)
    ensures ClosuresOk(lex, owners, Closures(VInt(0)))
  {
  }

  // `continue`.

  /** Does a `continue` of the statement leave it? */
  predicate OwnContinue(s: Stmt)
    decreases s, 0
  {
    match s
    case If(_, t, els) => OwnContinueAny(t) || OwnContinueBranch(els)
    case Try(body, _, catch, fin) => OwnContinueAny(body) || OwnContinueBranch(catch) || OwnContinueBranch(fin)
    case Continue => true
    case _ => false
  }

  predicate OwnContinueBranch(b: Branch)
    decreases b, 0
  {
    b.Block? && OwnContinueAny(b.body)
  }

  predicate OwnContinueAny(ss: seq<Stmt>)
    decreases ss, 0
  {
    ss != [] && (OwnContinue(ss[0]) || OwnContinueAny(ss[1..]))
  }

  lemma {:induction false} NoContinue(c: Context, s: Stmt, env: nat, h: Heap, fuel: nat)
    requires !OwnContinue(s)
    ensures !Exec(c, s, env, h, fuel).out.Cont?
    decreases s, 0
  {
    hide Eval, ExecAll, Loop;
    match s
    case If(cond, thn, els) =>
      var r := Eval(c, cond, env, h, fuel);
      NoContinueAll(c, thn, env, r.h, fuel);
      if els.Block? {
        assert !OwnContinueBranch(els);
        NoContinueAll(c, els.body, env, r.h, fuel);
      }
    case While(cond, body) => LoopEndsItself(c, cond, [], body, [], env, h, fuel);
    case For(id, x, it, body) =>
      ForSizes(id, x);
      var r := Exec(c, Assign(ForIter(id), it), env, h, fuel);
      LoopEndsItself(c, ForCond(id), [ForHead(id, x)], body, [ForStep(id)], env, Set(r.h, env, ForIdx(id), VInt(0)),
                     fuel);
    case Try(body, name, catch, fin) =>
      var r := ExecAll(c, body, env, h, fuel);
      NoContinueAll(c, body, env, h, fuel);
      var r' := r;
      if catch.Block? {
        assert !OwnContinueBranch(catch);
        if r.out.Thr? {
          r' := ExecAll(c, catch.body, env, Caught(r.h, env, name, r.out.v), fuel);
          NoContinueAll(c, catch.body, env, Caught(r.h, env, name, r.out.v), fuel);
        }
      }
      if fin.Block? {
        assert !OwnContinueBranch(fin);
        NoContinueAll(c, fin.body, env, r'.h, fuel);
      }
    case _ =>
  }

  lemma {:induction false} NoContinueAll(c: Context, ss: seq<Stmt>, env: nat, h: Heap, fuel: nat)
    requires !OwnContinueAny(ss)
    ensures !ExecAll(c, ss, env, h, fuel).out.Cont?
    decreases ss, 0
  {
    hide Exec;
    if ss != [] {
      NoContinue(c, ss[0], env, h, fuel);
      NoContinueAll(c, ss[1..], env, Exec(c, ss[0], env, h, fuel).h, fuel);
    }
  }

  /** A loop keeps the jumps of its body to itself, and its pieces have none. */
  lemma {:induction false} LoopEndsItself(c: Context, cond: Expr,
                                          pre: seq<Stmt>, body: seq<Stmt>, post: seq<Stmt>, env: nat, h: Heap,
                                          fuel: nat)
    requires (forall k :: 0 <= k < |pre| ==> pre[k].Assign?) && forall k :: 0 <= k < |post| ==> post[k].Assign?
    ensures !Loop(c, cond, pre, body, post, env, h, fuel).out.Cont?
    decreases fuel
  {
    hide Eval, ExecAll;
    if fuel > 0 {
      var r := Eval(c, cond, env, h, fuel);
      AssignsDoNotJump(c, pre, env, r.h, fuel);
      var r' := ExecAll(c, pre, env, r.h, fuel);
      var b := ExecAll(c, body, env, r'.h, fuel);
      AssignsDoNotJump(c, post, env, b.h, fuel);
      LoopEndsItself(c, cond, pre, body, post, env, b.h, fuel - 1);
      LoopEndsItself(c, cond, pre, body, post, env, ExecAll(c, post, env, b.h, fuel).h, fuel - 1);
    }
  }

  lemma {:induction false} AssignsDoNotJump(c: Context, ss: seq<Stmt>, env: nat, h: Heap, fuel: nat)
    requires forall k :: 0 <= k < |ss| ==> ss[k].Assign?
    ensures !ExecAll(c, ss, env, h, fuel).out.Cont?
    decreases |ss|
  {
    hide Eval;
    if ss != [] { AssignsDoNotJump(c, ss[1..], env, Exec(c, ss[0], env, h, fuel).h, fuel); }
  }

  /** One element after the other, each once. */
  function Each(c: Context, id: nat, x: Ident, elems: seq<Value>, k: nat, body: seq<Stmt>, env: nat, h: Heap,
                fuel: nat): Res
    requires k <= |elems|
    decreases |elems| - k
  {
    if fuel == 0 then Res(Timeout, h)
    else if k == |elems| then Res(Normal, h)
    else
      var r := ExecAll(c, body, env, Set(h, env, x, elems[k]), fuel);
      if r.out.Brk? then Res(Normal, r.h)
      else if r.out.Normal? then Each(c, id, x, elems, k + 1, body, env, Set(r.h, env, ForIdx(id), VInt(k + 1)),
                                      fuel - 1)
      else r
  }

  /** Without a `continue` of its own, the body runs once for each element, in order. */
  lemma {:induction false} VisitsOnce(c: Context, id: nat, x: Ident, elems: seq<Value>, k: nat,
                                      body: seq<Stmt>, env: nat, h: Heap, fuel: nat)
    requires k <= |elems| && !OwnContinueAny(body)
    ensures Visit(c, id, x, elems, k, body, env, h, fuel) == Each(c, id, x, elems, k, body, env, h, fuel)
    decreases fuel
  {
    hide ExecAll;
    if fuel > 0 && k < |elems| {
      NoContinueAll(c, body, env, Set(h, env, x, elems[k]), fuel);
      var r := ExecAll(c, body, env, Set(h, env, x, elems[k]), fuel);
      VisitsOnce(c, id, x, elems, k + 1, body, env, Set(r.h, env, ForIdx(id), VInt(k + 1)), fuel - 1);
    }
  }

  /** A body that only says `continue` never gets past the first element, whatever the fuel. */
  lemma {:induction false} ContinueRepeats(c: Context, id: nat, x: Ident, elems: seq<Value>, k: nat, env: nat, h: Heap,
                                           fuel: nat)
    requires k < |elems|
    ensures Visit(c, id, x, elems, k, [Continue], env, h, fuel).out.Timeout?
    decreases fuel
  {
    var h1 := Set(h, env, x, elems[k]);
    assert Exec(c, Continue, env, h1, fuel) == Res(Cont, h1);
    assert ExecAll(c, [Continue], env, h1, fuel) == Res(Cont, h1);
    if fuel > 0 { ContinueRepeats(c, id, x, elems, k, env, Set(h, env, x, elems[k]), fuel - 1); }
  }

  lemma {:induction false} SetGet(h: Heap, env: nat, x: Ident, v: Value)
    requires env < |h|
    ensures Get(Set(h, env, x, v), env, x) == Some(v)
    decreases env
  {
    if x !in h[env].vals && h[env].parent.Some? && h[env].parent.value < env && Get(h, h[env].parent.value, x).Some? {
      SetGet(h, h[env].parent.value, x, v);
      SetAbove(h, h[env].parent.value, env, x, v);
    }
  }

  /** Binding a name from a scope on changes no later scope. */
  lemma {:induction false} SetAbove(h: Heap, env: nat, s: nat, x: Ident, v: Value)
    requires env < s < |h|
    ensures Set(h, env, x, v)[s] == h[s]
    decreases env
  {
    if env < |h| && x !in h[env].vals && h[env].parent.Some? && h[env].parent.value < env {
      SetAbove(h, h[env].parent.value, s, x, v);
    }
  }

  /** A body that starts with `se x == w: continue` never gets past an element equal to `w`. */
  lemma {:induction false} GuardedContinueRepeats(c: Context, id: nat, x: Ident, elems: seq<Value>, k: nat, w: int,
                                                  rest: seq<Stmt>, env: nat,
                                                  h: Heap, fuel: nat)
    requires k < |elems| && elems[k] == VInt(w) && env < |h|
    ensures var body := [If(Cmp(Eq, Name(x), Lit(VInt(w))), [Continue], Absent)] + rest;
            Visit(c, id, x, elems, k, body, env, h, fuel).out.Timeout?
    decreases fuel
  {
    if fuel > 0 {
      var h1 := Set(h, env, x, elems[k]);
      GuardHolds(c, x, w, rest, env, h, fuel);
      GuardedContinueRepeats(c, id, x, elems, k, w, rest, env, h1, fuel - 1);
    }
  }

  lemma GuardHolds(c: Context, x: Ident, w: int, rest: seq<Stmt>, env: nat, h: Heap, fuel: nat)
    requires env < |h|
    ensures var h1 := Set(h, env, x, VInt(w));
            ExecAll(c, [If(Cmp(Eq, Name(x), Lit(VInt(w))), [Continue], Absent)] + rest, env, h1, fuel) == Res(Cont, h1)
  {
    var h1 := Set(h, env, x, VInt(w));
    var cond := Cmp(Eq, Name(x), Lit(VInt(w)));
    SetGet(h, env, x, VInt(w));
    EvalName(c, x, env, h1, fuel, VInt(w));
    assert Eval(c, Lit(VInt(w)), env, h1, fuel) == Res(Vals([VInt(w)]), h1);
    EvalTwo(c, Name(x), Lit(VInt(w)), env, h1, fuel, VInt(w), VInt(w));
    assert Parts(cond) == [Name(x), Lit(VInt(w))];
    assert Eval(c, cond, env, h1, fuel) == Res(Vals([VBool(true)]), h1);
    hide Eval;
    assert Exec(c, Continue, env, h1, fuel) == Res(Cont, h1);
    assert ExecAll(c, [Continue], env, h1, fuel) == Res(Cont, h1);
    assert Exec(c, If(cond, [Continue], Absent), env, h1, fuel) == Res(Cont, h1);
    var body := [If(cond, [Continue], Absent)] + rest;
    assert body[0] == If(cond, [Continue], Absent);
  }
}
