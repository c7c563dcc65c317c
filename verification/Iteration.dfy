/** What a `para` means, wherever a program runs one: the loop the compiler makes of it does
    what visiting the elements one by one does. The two readings of `para` give every program
    the same runs. */
module Iteration {
  import opened Syntax
  import opened Semantics
  import opened Scoping
  import opened Lowering
  import ForEach
  import Lexical
  import Programs
  import Theorems
  import Preservation

  /** The context in which every `para` is the visits it stands for. */
  function Direct(c: Context): Context {
    c.(iterates := true)
  }

  // Expressions.

  lemma {:induction false} SameEval(lex: Lexicon, c: Context, e: Expr, owners: seq<nat>, env: nat, h: Heap, fuel: nat)
    requires Ready(lex, c, owners, env, h) && PlainE(e)
    ensures Eval(Direct(c), e, env, h, fuel) == Eval(c, e, env, h, fuel)
    decreases fuel, SizeE(e), 0
  {
    hide Ends, Ready, Finish, EvalAll, OutOk, Direct, PlainEs;
    SameEvalAll(lex, c, Parts(e), owners, env, h, fuel);
    var r := EvalAll(c, Parts(e), env, h, fuel);
    if r.out.Vals? {
      var owners' := EvalAllEnds(lex, c, Parts(e), owners, env, h, fuel);
      StillReady(lex, c, owners, env, h, {}, r, owners');
      SameFinish(lex, c, e, r.out.vs, owners', env, r.h, fuel);
    }
  }

  /** After a run that ended well, the next one may start. */
  lemma StillReady(lex: Lexicon, c: Context, owners: seq<nat>, env: nat, h: Heap, ids: set<nat>, r: Res,
                   owners': seq<nat>)
    requires Ready(lex, c, owners, env, h) && Ends(lex, owners, h, env, ids, r, owners')
    ensures Ready(lex, c, owners', env, r.h) && OutOk(lex, owners', r.out) && owners <= owners'
    ensures env < |owners| <= |owners'| && owners'[env] == owners[env]
  {
  }

  lemma {:induction false} SameEvalAll(lex: Lexicon, c: Context, es: seq<Expr>, owners: seq<nat>, env: nat, h: Heap,
                                       fuel: nat)
    requires Ready(lex, c, owners, env, h) && PlainEs(es)
    ensures EvalAll(Direct(c), es, env, h, fuel) == EvalAll(c, es, env, h, fuel)
    decreases fuel, SizeEs(es), 0
  {
    hide Ends, Ready, Eval, OutOk, Direct, PlainE;
    if es != [] {
      SameEval(lex, c, es[0], owners, env, h, fuel);
      var r := Eval(c, es[0], env, h, fuel);
      if r.out.Vals? {
        var owners' := EvalEnds(lex, c, es[0], owners, env, h, fuel);
        StillReady(lex, c, owners, env, h, {}, r, owners');
        SameEvalAll(lex, c, es[1..], owners', env, r.h, fuel);
      }
    }
  }

  lemma {:induction false} SameFinish(lex: Lexicon, c: Context, e: Expr, vs: seq<Value>, owners: seq<nat>, env: nat,
                                      h: Heap, fuel: nat)
    requires Ready(lex, c, owners, env, h) && |vs| == |Parts(e)| && ClosuresOk(lex, owners, ClosuresAll(vs))
    ensures Finish(Direct(c), e, vs, env, h, fuel) == Finish(c, e, vs, env, h, fuel)
    decreases fuel, 0, 2
  {
    hide Ready, Semantics.Invoke, ClosuresOk, ClosuresAll;
    if e.Call? {
      assert vs == [vs[0]] + vs[1..];
      ClosuresJoin([vs[0]], vs[1..]);
      ClosuresOne(vs[0]);
      SameInvoke(lex, c, vs[0], vs[1..], owners, env, h, fuel);
    }
  }

  lemma {:induction false} SameInvoke(lex: Lexicon, c: Context, f: Value, args: seq<Value>, owners: seq<nat>, env: nat,
                                      h: Heap, fuel: nat)
    requires Ready(lex, c, owners, env, h) && ClosuresOk(lex, owners, Closures(f) + ClosuresAll(args))
    ensures Semantics.Invoke(Direct(c), f, args, h, fuel) == Semantics.Invoke(c, f, args, h, fuel)
    decreases fuel, 0, 1
  {
    hide HeapOk, ExecAll, OwnSs, HostOk, Returned, Bind;
    if f.VFunc? && f.code in c.fns && |args| == |c.fns[f.code].params| && fuel > 0 {
      var params, id := c.fns[f.code].params, f.code;
      assert (id, f.closure) in Closures(f);
      ScopeEnters(lex, owners, h, params, args, id, f.closure);
      Sizes(lex, owners, h);
      SameExecAll(lex, c, c.fns[id].body, owners + [id], |h|, h + [Scope(Bind(params, args), Some(f.closure))],
                  fuel - 1);
    }
  }

  // Statements.

  lemma {:induction false} SameExecAll(lex: Lexicon, c: Context, ss: seq<Stmt>, owners: seq<nat>, env: nat, h: Heap,
                                       fuel: nat)
    requires Ready(lex, c, owners, env, h) && env < |owners| && OwnSs(lex, owners[env], ss)
    ensures ExecAll(Direct(c), ss, env, h, fuel) == ExecAll(c, ss, env, h, fuel)
    decreases fuel, SizeSs(ss), 0
  {
    hide Ends, Ready, Exec, OwnS, OutOk, Direct, Writes;
    if ss != [] {
      SameExec(lex, c, ss[0], owners, env, h, fuel);
      var r := Exec(c, ss[0], env, h, fuel);
      if r.out.Normal? {
        var owners' := ExecEnds(lex, c, ss[0], owners, env, h, fuel);
        StillReady(lex, c, owners, env, h, Writes(ss[0]), r, owners');
        SameExecAll(lex, c, ss[1..], owners', env, r.h, fuel);
      }
    }
  }

  lemma {:induction false} SameExec(lex: Lexicon, c: Context, s: Stmt, owners: seq<nat>, env: nat, h: Heap, fuel: nat)
    requires Ready(lex, c, owners, env, h) && env < |owners| && OwnS(lex, owners[env], s)
    ensures Exec(Direct(c), s, env, h, fuel) == Exec(c, s, env, h, fuel)
    decreases fuel, SizeS(s), 1
  {
    hide Ready, Eval, Loop, ExecAll, Iterate, OwnSs, WritesAll, PlainE;
    match s
    case Assign(_, e) => SameEval(lex, c, e, owners, env, h, fuel);
    case ExprStmt(e) => SameEval(lex, c, e, owners, env, h, fuel);
    case Return(result) => if result.Some? { SameEval(lex, c, result.value, owners, env, h, fuel); }
    case Throw(e) => SameEval(lex, c, e, owners, env, h, fuel);
    case If(cond, thn, els) => SameIf(lex, c, cond, thn, els, owners, env, h, fuel);
    case While(cond, body) =>
      NothingOwned(lex, owners[env]);
      SameLoop(lex, c, cond, body, owners, env, h, fuel);
    case For(id, x, it, body) => SameFor(lex, c, id, x, it, body, owners, env, h, fuel);
    case Try(body, name, catch, fin) => SameTry(lex, c, body, name, catch, fin, owners, env, h, fuel);
    case _ =>
  }

  lemma {:induction false} SameIf(lex: Lexicon, c: Context, cond: Expr, thn: seq<Stmt>, els: Branch,
                                  owners: seq<nat>, env: nat, h: Heap, fuel: nat)
    requires Ready(lex, c, owners, env, h) && env < |owners| && OwnS(lex, owners[env], If(cond, thn, els))
    ensures Exec(Direct(c), If(cond, thn, els), env, h, fuel) == Exec(c, If(cond, thn, els), env, h, fuel)
    decreases fuel, SizeS(If(cond, thn, els)), 0
  {
    hide Ends, Ready, Eval, ExecAll, OwnSs, PlainE, OutOk;
    SameEval(lex, c, cond, owners, env, h, fuel);
    var r := Eval(c, cond, env, h, fuel);
    if r.out.Vals? {
      var owners' := EvalEnds(lex, c, cond, owners, env, h, fuel);
      StillReady(lex, c, owners, env, h, {}, r, owners');
      if Truthy(c.host, r.out.vs[0]) {
        SameExecAll(lex, c, thn, owners', env, r.h, fuel);
      } else if els.Block? {
        SameExecAll(lex, c, els.body, owners', env, r.h, fuel);
      }
    }
  }

  lemma NothingRuns(c: Context, env: nat, h: Heap, fuel: nat)
    ensures ExecAll(c, [], env, h, fuel) == Res(Normal, h)
  {
  }

  lemma {:induction false} SameLoop(lex: Lexicon, c: Context, cond: Expr, body: seq<Stmt>, owners: seq<nat>, env: nat,
                                    h: Heap, fuel: nat)
    requires Ready(lex, c, owners, env, h) && env < |owners| && PlainE(cond) && OwnSs(lex, owners[env], body)
    ensures Loop(Direct(c), cond, [], body, [], env, h, fuel) == Loop(c, cond, [], body, [], env, h, fuel)
    decreases fuel, 1 + SizeE(cond) + SizeSs(body), 0
  {
    hide Ends, Ready, Eval, ExecAll, OwnSs, PlainE, OutOk;
    if fuel > 0 {
      SameEval(lex, c, cond, owners, env, h, fuel);
      var r := Eval(c, cond, env, h, fuel);
      if r.out.Vals? && Truthy(c.host, r.out.vs[0]) {
        var first := EvalEnds(lex, c, cond, owners, env, h, fuel);
        StillReady(lex, c, owners, env, h, {}, r, first);
        NothingRuns(c, env, r.h, fuel);
        NothingRuns(Direct(c), env, r.h, fuel);
        SameExecAll(lex, c, body, first, env, r.h, fuel);
        var b := ExecAll(c, body, env, r.h, fuel);
        var second := ExecAllEnds(lex, c, body, first, env, r.h, fuel);
        StillReady(lex, c, first, env, r.h, WritesAll(body), b, second);
        NothingRuns(c, env, b.h, fuel);
        NothingRuns(Direct(c), env, b.h, fuel);
        SameLoop(lex, c, cond, body, second, env, b.h, fuel - 1);
      }
    }
  }

  lemma {:induction false} SameTry(lex: Lexicon, c: Context, body: seq<Stmt>, name: Option<Ident>, catch: Branch,
                                   fin: Branch, owners: seq<nat>,
                                   env: nat, h: Heap, fuel: nat)
    requires Ready(lex, c, owners, env, h) && env < |owners| && OwnS(lex, owners[env], Try(body, name, catch, fin))
    ensures Exec(Direct(c), Try(body, name, catch, fin), env, h, fuel)
         == Exec(c, Try(body, name, catch, fin), env, h, fuel)
    decreases fuel, SizeS(Try(body, name, catch, fin)), 0
  {
    hide Ends, Ready, ExecAll, OwnSs, WritesAll, OutOk, Caught;
    SameExecAll(lex, c, body, owners, env, h, fuel);
    var r := ExecAll(c, body, env, h, fuel);
    var first := ExecAllEnds(lex, c, body, owners, env, h, fuel);
    StillReady(lex, c, owners, env, h, WritesAll(body), r, first);
    var r', mid := r, first;
    if r.out.Thr? && catch.Block? {
      var h1 := Caught(r.h, env, name, r.out.v);
      CaughtReady(lex, c, first, env, name, r);
      SameExecAll(lex, c, catch.body, first, env, h1, fuel);
      r' := ExecAll(c, catch.body, env, h1, fuel);
      mid := ExecAllEnds(lex, c, catch.body, first, env, h1, fuel);
      StillReady(lex, c, first, env, h1, WritesAll(catch.body), r', mid);
    }
    if fin.Block? && Settles(r'.out) { SameExecAll(lex, c, fin.body, mid, env, r'.h, fuel); }
  }

  lemma CaughtReady(lex: Lexicon, c: Context, owners: seq<nat>, env: nat, name: Option<Ident>, r: Res)
    requires Ready(lex, c, owners, env, r.h) && env < |owners| && r.out.Thr? && OutOk(lex, owners, r.out)
    requires name.Some? ==> MayBind(lex, owners[env], name.value)
    ensures Ready(lex, c, owners, env, Caught(r.h, env, name, r.out.v))
  {
    if name.Some? { SetLocalOk(lex, owners, r.h, env, name.value, r.out.v); }
  }

  // `para`.

  lemma SetReady(lex: Lexicon, c: Context, owners: seq<nat>, env: nat, h: Heap, x: Ident, v: Value)
    requires Ready(lex, c, owners, env, h) && env < |owners| && MayBind(lex, owners[env], x)
             && ClosuresOk(lex, owners, Closures(v))
    ensures Ready(lex, c, owners, env, Set(h, env, x, v))
    ensures Hidden(x) ==> x in Set(h, env, x, v)[env].vals && Set(h, env, x, v) == SetLocal(h, env, x, v)
  {
    hide LexicalContext, HostOk, Set;
    SetOk(lex, owners, h, env, x, v);
  }

  lemma {:induction false} SameFor(lex: Lexicon, c: Context, id: nat, x: Ident, it: Expr,
                                   body: seq<Stmt>, owners: seq<nat>, env: nat, h: Heap, fuel: nat)
    requires Ready(lex, c, owners, env, h) && env < |owners| && OwnS(lex, owners[env], For(id, x, it, body))
    ensures Exec(Direct(c), For(id, x, it, body), env, h, fuel) == Exec(c, For(id, x, it, body), env, h, fuel)
    decreases fuel, SizeS(For(id, x, it, body)), 0
  {
    hide Ends, Ready, Eval, Loop, Iterate, ExecAll, OwnSs, WritesAll, PlainE, OutOk, Closures, ClosuresOk, Set,
      ForEach.Prepared;
    SameEval(lex, c, it, owners, env, h, fuel);
    var e := Eval(c, it, env, h, fuel);
    if e.out.Vals? {
      var v := e.out.vs[0];
      var owners' := EvalEnds(lex, c, it, owners, env, h, fuel);
      StillReady(lex, c, owners, env, h, {}, e, owners');
      ValueOk(lex, owners', e.out.vs);
      SetReady(lex, c, owners', env, e.h, ForIter(id), v);
      var h1 := Set(e.h, env, ForIter(id), v);
      PlainNumber(lex, owners', 0);
      SetReady(lex, c, owners', env, h1, ForIdx(id), VInt(0));
      var h2 := Set(h1, env, ForIdx(id), VInt(0));
      BothSet(lex, c, owners', env, e.h, id, v);
      LoopIterates(lex, c, id, x, body, owners', env, h2, fuel, v, 0);
    }
  }

  lemma ValueOk(lex: Lexicon, owners: seq<nat>, vs: seq<Value>)
    requires OutOk(lex, owners, Vals(vs)) && |vs| == 1
    ensures ClosuresOk(lex, owners, Closures(vs[0]))
  {
    assert vs == [vs[0]];
    ClosuresOne(vs[0]);
  }

  lemma PlainNumber(lex: Lexicon, owners: seq<nat>, k: int)
    ensures ClosuresOk(lex, owners, Closures(VInt(k)))
  {
  }

  lemma BothSet(lex: Lexicon, c: Context, owners: seq<nat>, env: nat, h: Heap, id: nat, v: Value)
    requires Ready(lex, c, owners, env, h) && env < |owners| && ClosuresOk(lex, owners, Closures(v))
    requires MayBind(lex, owners[env], ForIter(id)) && MayBind(lex, owners[env], ForIdx(id))
    ensures ForEach.Prepared(Set(Set(h, env, ForIter(id), v), env, ForIdx(id), VInt(0)), env, id, v, 0)
  {
    hide LexicalContext, HostOk, Set;
    SetReady(lex, c, owners, env, h, ForIter(id), v);
    var h1 := Set(h, env, ForIter(id), v);
    PlainNumber(lex, owners, 0);
    SetReady(lex, c, owners, env, h1, ForIdx(id), VInt(0));
    LengthFound(lex, owners, Set(h1, env, ForIdx(id), VInt(0)), env);
  }

  /** The test of the loop asks the host whether there is one more element. */
  lemma TestAsks(c: Context, id: nat, env: nat, h: Heap, fuel: nat, v: Value, k: nat)
    requires ForEach.Prepared(h, env, id, v, k)
    ensures Eval(c, ForCond(id), env, h, fuel) == Lift(HasNext(c.host, v, k), h)
  {
    var iter, idx, len := Name(ForIter(id)), Name(ForIdx(id)), Name(LENGTH);
    ForEach.EvalName(c, ForIter(id), env, h, fuel, v);
    ForEach.EvalName(c, ForIdx(id), env, h, fuel, VInt(k));
    ForEach.EvalName(c, LENGTH, env, h, fuel, VBuiltin("tamanho"));
    hide EvalAll, Eval, ForEach.Prepared;
    LengthAsks(c, len, iter, env, h, fuel, v);
    LessAsks(c, idx, Call(len, [iter]), env, h, fuel, VInt(k), c.host.builtin("tamanho", [v]));
  }

  lemma LengthAsks(c: Context, len: Expr, iter: Expr, env: nat, h: Heap, fuel: nat, v: Value)
    requires Eval(c, len, env, h, fuel) == Res(Vals([VBuiltin("tamanho")]), h)
             && Eval(c, iter, env, h, fuel) == Res(Vals([v]), h)
    ensures Eval(c, Call(len, [iter]), env, h, fuel) == Lift(c.host.builtin("tamanho", [v]), h)
  {
    hide EvalAll;
    ForEach.EvalTwo(c, len, iter, env, h, fuel, VBuiltin("tamanho"), v);
    var call, vs := Call(len, [iter]), [VBuiltin("tamanho"), v];
    assert Parts(call) == [len, iter] && vs[1..] == [v];
    assert Finish(c, call, vs, env, h, fuel) == Semantics.Invoke(c, vs[0], [v], h, fuel);
  }

  lemma LessAsks(c: Context, a: Expr, b: Expr, env: nat, h: Heap, fuel: nat, va: Value, rb: OpRes)
    requires Eval(c, a, env, h, fuel) == Res(Vals([va]), h) && Eval(c, b, env, h, fuel) == Lift(rb, h)
    ensures Eval(c, Cmp(Lt, a, b), env, h, fuel) == Lift(if rb.Ok? then Compare(c.host, Lt, va, rb.v) else rb, h)
  {
    assert Parts(Cmp(Lt, a, b)) == [a, b];
    if rb.Ok? {
      hide EvalAll, Compare;
      ForEach.EvalTwo(c, a, b, env, h, fuel, va, rb.v);
    } else {
      hide Eval, Finish;
      assert [a, b][1..] == [b] && [b][1..] == [];
      SecondFails(c, a, b, env, h, fuel);
      EvalFails(c, Cmp(Lt, a, b), env, h, fuel);
    }
  }

  lemma SecondFails(c: Context, a: Expr, b: Expr, env: nat, h: Heap, fuel: nat)
    requires Eval(c, a, env, h, fuel).out.Vals? && Eval(c, a, env, h, fuel).h == h
             && !Eval(c, b, env, h, fuel).out.Vals?
    ensures EvalAll(c, [a, b], env, h, fuel) == Eval(c, b, env, h, fuel)
  {
    hide Eval;
    assert [a, b][1..] == [b];
    assert EvalAll(c, [b], env, h, fuel) == Eval(c, b, env, h, fuel);
  }

  lemma EvalFails(c: Context, e: Expr, env: nat, h: Heap, fuel: nat)
    requires !EvalAll(c, Parts(e), env, h, fuel).out.Vals?
    ensures Eval(c, e, env, h, fuel) == EvalAll(c, Parts(e), env, h, fuel)
  {
    hide EvalAll, Finish;
  }

  /** The head of the loop asks the host for the element. */
  lemma HeadAsks(c: Context, id: nat, x: Ident, env: nat, h: Heap, fuel: nat, v: Value, k: nat)
    requires ForEach.Prepared(h, env, id, v, k)
    ensures var elem := Subscript(c.host, v, VInt(k));
            ExecAll(c, [ForHead(id, x)], env, h, fuel)
            == if elem.Ok? then Res(Normal, Set(h, env, x, elem.v)) else Lift(elem, h)
  {
    var iter, idx := Name(ForIter(id)), Name(ForIdx(id));
    ForEach.EvalName(c, ForIter(id), env, h, fuel, v);
    ForEach.EvalName(c, ForIdx(id), env, h, fuel, VInt(k));
    hide EvalAll, Subscript;
    ForEach.EvalTwo(c, iter, idx, env, h, fuel, v, VInt(k));
    assert Parts(Index(iter, idx)) == [iter, idx];
    assert Eval(c, Index(iter, idx), env, h, fuel) == Lift(Subscript(c.host, v, VInt(k)), h);
    OnlyStmt(c, ForHead(id, x), env, h, fuel);
  }

  lemma OnlyStmt(c: Context, s: Stmt, env: nat, h: Heap, fuel: nat)
    ensures ExecAll(c, [s], env, h, fuel) == Exec(c, s, env, h, fuel)
  {
    hide Exec;
    assert [s][1..] == [];
    NothingRuns(c, env, Exec(c, s, env, h, fuel).h, fuel);
  }

  /** The loop the compiler makes of a `para`, from number `k` on, does what the visits do. */
  lemma {:induction false} LoopIterates(lex: Lexicon, c: Context, id: nat, x: Ident,
                                        body: seq<Stmt>, owners: seq<nat>, env: nat, h: Heap, fuel: nat,
                                        v: Value, k: nat)
    requires Ready(lex, c, owners, env, h) && env < |owners| && OwnSs(lex, owners[env], body)
             && MayBind(lex, owners[env], x)
    requires id in lex.home && lex.home[id] == owners[env]
    requires id !in WritesAll(body) && !(Hidden(x) && x.n == id)
    requires ClosuresOk(lex, owners, Closures(v)) && ForEach.Prepared(h, env, id, v, k)
    ensures Loop(c, ForCond(id), [ForHead(id, x)], body, [ForStep(id)], env, h, fuel)
         == Iterate(Direct(c), id, x, v, k, body, env, h, fuel)
    decreases fuel, SizeSs(body), 3
  {
    hide Eval, ExecAll, OwnSs, Ready, ForEach.Prepared, HeapOk, Closures, ClosuresOk, HasNext, Subscript, Set, Direct,
      WritesAll;
    assert Direct(c).host == c.host by { DirectHost(c); }
    if fuel > 0 {
      TestAsks(c, id, env, h, fuel, v, k);
      var more := HasNext(c.host, v, k);
      if more.Ok? && Truthy(c.host, more.v) {
        HeadAsks(c, id, x, env, h, fuel, v, k);
        var elem := Subscript(c.host, v, VInt(k));
        if elem.Ok? { VisitSame(lex, c, id, x, body, owners, env, h, fuel, v, k, elem.v); }
      }
    }
  }

  lemma DirectHost(c: Context)
    ensures Direct(c).host == c.host
  {
  }

  lemma {:induction false} VisitSame(lex: Lexicon, c: Context, id: nat, x: Ident,
                                     body: seq<Stmt>, owners: seq<nat>, env: nat, h: Heap, fuel: nat,
                                     v: Value, k: nat, elem: Value)
    requires fuel > 0 && Ready(lex, c, owners, env, h) && env < |owners| && OwnSs(lex, owners[env], body)
             && MayBind(lex, owners[env], x)
    requires id in lex.home && lex.home[id] == owners[env]
    requires id !in WritesAll(body) && !(Hidden(x) && x.n == id)
    requires ClosuresOk(lex, owners, Closures(v)) && ForEach.Prepared(h, env, id, v, k)
             && Subscript(c.host, v, VInt(k)) == Ok(elem)
    ensures var h1 := Set(h, env, x, elem);
            var r := ExecAll(Direct(c), body, env, h1, fuel);
            Turn(c, ForCond(id), [ForHead(id, x)], body, [ForStep(id)], env, h1, fuel)
            == if r.out.Brk? then Res(Normal, r.h)
            else if r.out.Cont? then Iterate(Direct(c), id, x, v, k, body, env, r.h, fuel - 1)
            else if r.out.Normal? then Iterate(Direct(c), id, x, v, k + 1, body, env,
                                               Set(r.h, env, ForIdx(id), VInt(k + 1)), fuel - 1)
            else r
    decreases fuel, SizeSs(body), 2
  {
    hide Eval, ExecAll, OwnSs, ForEach.Prepared, HeapOk, LexicalContext, HostOk, Closures, ClosuresOk, Subscript, Set,
      Direct, WritesAll, Loop, Iterate;
    var h1 := Set(h, env, x, elem);
    ElementOk(lex, c.host, owners, v, k, elem);
    SetReady(lex, c, owners, env, h, x, elem);
    SameExecAll(lex, c, body, owners, env, h1, fuel);
    var r := ExecAll(c, body, env, h1, fuel);
    var owners' := ForEach.BodySpares(lex, c, id, x, body, owners, env, h, fuel, v, elem, k);
    ClosuresGrow(lex, owners, owners', Closures(v));
    ForEach.Inside(lex, owners, owners', h, r.h, env, id, v, k);
    if r.out.Cont? {
      LoopIterates(lex, c, id, x, body, owners', env, r.h, fuel - 1, v, k);
    } else if r.out.Normal? {
      ForEach.StepRuns(c, id, env, r.h, fuel, v, k);
      ForEach.StepSets(lex, owners', r.h, env, id, v, k);
      var h2 := Set(r.h, env, ForIdx(id), VInt(k + 1));
      ForEach.Inside(lex, owners, owners', h, h2, env, id, v, k + 1);
      LoopIterates(lex, c, id, x, body, owners', env, h2, fuel - 1, v, k + 1);
    }
  }

  lemma ElementOk(lex: Lexicon, w: Host, owners: seq<nat>, v: Value, k: nat, elem: Value)
    requires HostOk(w) && ClosuresOk(lex, owners, Closures(v)) && Subscript(w, v, VInt(k)) == Ok(elem)
    ensures ClosuresOk(lex, owners, Closures(elem))
  {
    SubscriptOk(w, v, VInt(k));
  }

  // Whole programs.

  /** For every program whose names are the user's, on every host that makes no functions of its
      own: both readings of `para` give the same run, top level and `principal`. */
  lemma ProgramIterates(program: seq<Stmt>, host: Host, policy: Policy, globals: map<Ident, Value>, fuel: nat)
    requires Lexical.UserOnlyAll(program) && HostOk(host)
    requires LENGTH in globals && globals[LENGTH] == VBuiltin("tamanho")
    requires forall x :: x in globals ==> x.User? && Closures(globals[x]) == {}
    ensures var c := Programs.ContextOf(program, host, policy);
            Theorems.RunSource(c, Numbered(program), globals, fuel)
            == Theorems.RunSource(Direct(c), Numbered(program), globals, fuel)
  {
    hide HostOk, LexicalContext, HeapOk, OwnSs, Closures, ExecAll, Lexical.LexAll, Lexical.UserOnlyAll, Numbered, Ends;
    var c := Programs.ContextOf(program, host, policy);
    var all := Lexical.LexAll(Numbered(program), 0);
    var h := [Scope(globals, None)];
    Lexical.NumberedIsLexical(program, host, policy);
    Lexical.StartIsLexical(program, globals);
    SameExecAll(all, c, Numbered(program), [0], 0, h, fuel);
    var r := ExecAll(c, Numbered(program), 0, h, fuel);
    var a := Theorems.Finished(r);
    var owners := ExecAllEnds(all, c, Numbered(program), [0], 0, h, fuel);
    StillReady(all, c, [0], 0, h, WritesAll(Numbered(program)), r, owners);
    if a.Value? && Theorems.Principal(a.h).Some? {
      assert a.h == r.h;
      PrincipalSame(all, c, owners, r.h, fuel);
    }
  }

  lemma PrincipalSame(lex: Lexicon, c: Context, owners: seq<nat>, h: Heap, fuel: nat)
    requires Ready(lex, c, owners, 0, h) && Theorems.Principal(h).Some?
    ensures var f := Theorems.Principal(h).value;
            f.code in c.fns && c.fns[f.code].params == [] ==>
              var h1 := h + [Scope(map[], Some(f.closure))];
              ExecAll(Direct(c), c.fns[f.code].body, |h|, h1, fuel) == ExecAll(c, c.fns[f.code].body, |h|, h1, fuel)
  {
    hide HostOk, ExecAll, OwnSs;
    var f := Theorems.Principal(h).value;
    if f.code in c.fns && c.fns[f.code].params == [] {
      assert ScopeOk(lex, owners, 0, h[0]);
      assert (f.code, f.closure) in Closures(f);
      ScopeEnters(lex, owners, h, [], [], f.code, f.closure);
      assert Bind([], []) == map[];
      SameExecAll(lex, c, c.fns[f.code].body, owners + [f.code], |h|, h + [Scope(map[], Some(f.closure))], fuel);
    }
  }

  /** Where the host knows the elements of `v`, the visits are to those elements, in order. */
  lemma {:induction false} IterateVisits(c: Context, id: nat, x: Ident, v: Value, elems: seq<Value>, k: nat,
                                         body: seq<Stmt>, env: nat, h: Heap, fuel: nat)
    requires ForEach.Elements(c.host, v, elems)
    ensures Iterate(c, id, x, v, k, body, env, h, fuel) == ForEach.Visit(c, id, x, elems, k, body, env, h, fuel)
    decreases fuel
  {
    hide ExecAll, Subscript;
    if fuel > 0 && k < |elems| {
      var r := ExecAll(c, body, env, Set(h, env, x, elems[k]), fuel);
      if r.out.Cont? {
        IterateVisits(c, id, x, v, elems, k, body, env, r.h, fuel - 1);
      } else if r.out.Normal? {
        IterateVisits(c, id, x, v, elems, k + 1, body, env, Set(r.h, env, ForIdx(id), VInt(k + 1)), fuel - 1);
      }
    }
  }

  /** Compilation preserves this meaning too: with every `para` read as its visits, a program has an
      answer exactly when the machine halts with that answer on the compiled program. */
  lemma CompiledIterates(program: seq<Stmt>, host: Host, policy: Policy, globals: map<Ident, Value>, a: Theorems.Answer)
    requires Lexical.UserOnlyAll(program) && HostOk(host) && Preservation.Faithful(policy, program) && !a.Undecided?
    requires LENGTH in globals && globals[LENGTH] == VBuiltin("tamanho")
    requires forall x :: x in globals ==> x.User? && Closures(globals[x]) == {}
    ensures var c := Programs.ContextOf(program, host, policy);
            (exists fuel: nat :: Theorems.RunSource(Direct(c), Numbered(program), globals, fuel) == a)
            <==> (exists n: nat, k: nat ::
                    Theorems.RunMachine(Preservation.VmOf(c), Numbered(program), globals, n, k) == Theorems.AsConfig(a))
  {
    hide HostOk, Theorems.RunSource, Theorems.RunMachine, Numbered, Preservation.VmOf, Preservation.Faithful,
      Preservation.FaithfulContext, Direct;
    var c := Programs.ContextOf(program, host, policy);
    Programs.ProgramFaithful(program, host, policy);
    Theorems.CompilationPreservesMeaning(c, Numbered(program), globals, a);
    forall fuel: nat
      ensures Theorems.RunSource(c, Numbered(program), globals, fuel)
           == Theorems.RunSource(Direct(c), Numbered(program), globals, fuel)
    {
      ProgramIterates(program, host, policy, globals, fuel);
    }
  }
}
