/** Lexical scoping: which variables a piece of program can disturb. Every scope belongs
    to a function, its parent to the function around it; the hidden variables of a `para`
    loop live in scopes of the function that contains the loop and in no others. */
module Scoping {
  import opened Syntax
  import opened Semantics

  /** `around` gives the function that contains a function, `home` the function that
      contains a loop. The top level is function 0. */
  datatype Lexicon = Lexicon(around: map<nat, nat>, home: map<nat, nat>)

  predicate Hidden(x: Ident) {
    x.ForIter? || x.ForIdx?
  }

  const LENGTH := User("tamanho")

  predicate Protected(x: Ident) {
    Hidden(x) || x == LENGTH
  }

  // What a function's own statements may do.

  /** Literals are not functions. */
  predicate PlainE(e: Expr)
    decreases SizeE(e)
  {
    (e.Lit? ==> Closures(e.v) == {}) && PlainEs(Parts(e))
  }

  predicate PlainEs(es: seq<Expr>)
    decreases SizeEs(es)
  {
    es != [] ==> PlainE(es[0]) && PlainEs(es[1..])
  }

  /** May function `k` bind this name? */
  predicate MayBind(lex: Lexicon, k: nat, x: Ident) {
    x != LENGTH && (Hidden(x) ==> x.n in lex.home && lex.home[x.n] == k)
  }

  predicate OwnS(lex: Lexicon, k: nat, s: Stmt)
    decreases SizeS(s)
  {
    match s
    case Func(id, name, params, _) => id in lex.around && lex.around[id] == k && k < id && MayBind(lex, k, name)
    case Assign(x, e) => MayBind(lex, k, x) && PlainE(e)
    case ExprStmt(e) => PlainE(e)
    case Return(r) => r.Some? ==> PlainE(r.value)
    case Throw(e) => PlainE(e)
    case If(c, t, els) => PlainE(c) && OwnSs(lex, k, t) && (els.Block? ==> OwnSs(lex, k, els.body))
    case While(c, body) => PlainE(c) && OwnSs(lex, k, body)
    case For(id, x, it, body) =>
      && id in lex.home && lex.home[id] == k && MayBind(lex, k, x) && PlainE(it) && OwnSs(lex, k, body)
      && id !in WritesAll(body) && !(Hidden(x) && x.n == id)  // nothing else writes the loop's hidden variables
    case Try(body, name, catch, fin) =>
      OwnSs(lex, k, body) && (name.Some? ==> MayBind(lex, k, name.value))
      && (catch.Block? ==> OwnSs(lex, k, catch.body)) && (fin.Block? ==> OwnSs(lex, k, fin.body))
    case Break => true
    case Continue => true
  }

  predicate OwnSs(lex: Lexicon, k: nat, ss: seq<Stmt>)
    decreases SizeSs(ss)
  {
    ss != [] ==> OwnS(lex, k, ss[0]) && OwnSs(lex, k, ss[1..])
  }

  /** The loops whose hidden variables a statement writes itself. */
  function Writes(s: Stmt): set<nat>
    decreases SizeS(s)
  {
    match s
    case Func(_, name, _, _) => if Hidden(name) then {name.n} else {}
    case Assign(x, _) => if Hidden(x) then {x.n} else {}
    case If(_, t, els) => WritesAll(t) + (if els.Block? then WritesAll(els.body) else {})
    case While(_, body) => WritesAll(body)
    case For(id, x, _, body) => {id} + (if Hidden(x) then {x.n} else {}) + WritesAll(body)
    case Try(body, name, catch, fin) =>
      WritesAll(body) + (if name.Some? && Hidden(name.value) then {name.value.n} else {})
      + (if catch.Block? then WritesAll(catch.body) else {}) + (if fin.Block? then WritesAll(fin.body) else {})
    case _ => {}
  }

  function WritesAll(ss: seq<Stmt>): set<nat>
    decreases SizeSs(ss)
  {
    if ss == [] then {} else Writes(ss[0]) + WritesAll(ss[1..])
  }

  predicate LexicalContext(lex: Lexicon, c: Context) {
    forall k :: k in c.fns ==>
                  && k in lex.around && lex.around[k] < k && OwnSs(lex, k, c.fns[k].body)
                  && forall i :: 0 <= i < |c.fns[k].params| ==> !Protected(c.fns[k].params[i])
  }

  // Values and heaps.

  /** The functions in a value, each with the scope it closes over. */
  function Closures(v: Value): set<(nat, nat)> {
    match v
    case VFunc(_, id, closure) => {(id, closure)}
    case VList(items) => ClosuresAll(items)
    case VOpaque(_, inside) => ClosuresAll(inside)
    case _ => {}
  }

  function ClosuresAll(vs: seq<Value>): set<(nat, nat)> {
    if vs == [] then {} else Closures(vs[0]) + ClosuresAll(vs[1..])
  }

  predicate MakesNoClosures(r: OpRes, from: set<(nat, nat)>) {
    (r.Ok? || r.Raise?) ==> Closures(r.v) <= from
  }

  /** The host gives back only functions that it was given. */
  ghost predicate HostOk(w: Host) {
    && (forall a :: MakesNoClosures(w.negate(a), Closures(a)))
    && (forall a :: MakesNoClosures(w.awaited(a), Closures(a)))
    && (forall op, a, b :: MakesNoClosures(w.binary(op, a, b), Closures(a) + Closures(b)))
    && (forall op, a, b :: MakesNoClosures(w.compare(op, a, b), Closures(a) + Closures(b)))
    && (forall a, b :: MakesNoClosures(w.subscript(a, b), Closures(a) + Closures(b)))
    && (forall vs :: MakesNoClosures(w.mapOf(vs), ClosuresAll(vs)))
    && (forall name, vs :: MakesNoClosures(w.builtin(name, vs), ClosuresAll(vs)))
  }

  /** There are such hosts, for instance one that can do nothing. */
  lemma SomeHost()
    ensures exists w :: HostOk(w)
  {
    var w := Host(_ => Crash, _ => Crash, (_, _, _) => Crash, (_, _, _) => Crash, (_, _) => Crash, _ => Crash,
                  (_, _) => Crash,
                  _ => false);
    assert HostOk(w);
  }

  /** `owners[s]` is the function that scope `s` belongs to. A function closes over a scope
      of the function around it. */
  predicate ClosuresOk(lex: Lexicon, owners: seq<nat>, cs: set<(nat, nat)>) {
    forall c :: c in cs ==> c.1 < |owners| && c.0 in lex.around && owners[c.1] == lex.around[c.0]
  }

  predicate ScopeOk(lex: Lexicon, owners: seq<nat>, s: nat, scope: Scope)
    requires s < |owners|
  {
    && (if s == 0 then scope.parent.None?
        else scope.parent.Some? && scope.parent.value < s && owners[scope.parent.value] < owners[s])
    && (forall x :: x in scope.vals ==>
                      ClosuresOk(lex, owners, Closures(scope.vals[x]))
                      && (Hidden(x) ==> x.n in lex.home && lex.home[x.n] == owners[s]))
    && (s == 0 ==> LENGTH in scope.vals && scope.vals[LENGTH] == VBuiltin("tamanho"))
    && (s != 0 ==> LENGTH !in scope.vals)
  }

  ghost predicate HeapOk(lex: Lexicon, owners: seq<nat>, h: Heap) {
    |owners| == |h| > 0 && forall s :: 0 <= s < |h| ==> ScopeOk(lex, owners, s, h[s])
  }

  /** Scopes stay; of the protected names only the hidden ones of `ids` in scope `env` may
      have changed. */
  ghost predicate Spared(h: Heap, h': Heap, env: nat, ids: set<nat>) {
    |h| <= |h'| && forall s, x :: 0 <= s < |h| && Protected(x) && !(s == env && Hidden(x) && x.n in ids) ==>
                                    (x in h'[s].vals <==> x in h[s].vals)
                                    && (x in h[s].vals ==> h'[s].vals[x] == h[s].vals[x])
  }

  predicate OutOk(lex: Lexicon, owners: seq<nat>, o: Outcome) {
    match o
    case Vals(vs) => ClosuresOk(lex, owners, ClosuresAll(vs))
    case Ret(v) => ClosuresOk(lex, owners, Closures(v))
    case Thr(v) => ClosuresOk(lex, owners, Closures(v))
    case _ => true
  }

  /** A run that started in `h` has ended well. */
  ghost predicate Ends(lex: Lexicon, owners: seq<nat>, h: Heap, env: nat, ids: set<nat>, r: Res, owners': seq<nat>) {
    owners <= owners' && HeapOk(lex, owners', r.h) && OutOk(lex, owners', r.out) && Spared(h, r.h, env, ids)
  }

  lemma ClosuresGrow(lex: Lexicon, owners: seq<nat>, owners': seq<nat>, cs: set<(nat, nat)>)
    requires owners <= owners' && ClosuresOk(lex, owners, cs)
    ensures ClosuresOk(lex, owners', cs)
  {
  }

  lemma {:induction false} ClosuresJoin(a: seq<Value>, b: seq<Value>)
    ensures ClosuresAll(a + b) == ClosuresAll(a) + ClosuresAll(b)
    decreases |a|
  {
    if a == [] {
      assert a + b == b;
    } else {
      assert (a + b)[1..] == a[1..] + b;
      ClosuresJoin(a[1..], b);
    }
  }

  lemma {:induction false} ClosuresIn(vs: seq<Value>, i: nat)
    requires i < |vs|
    ensures Closures(vs[i]) <= ClosuresAll(vs)
    decreases i
  {
    if i > 0 { ClosuresIn(vs[1..], i - 1); }
  }

  lemma ClosuresOne(v: Value)
    ensures ClosuresAll([v]) == Closures(v)
  {
    assert [v][1..] == [];
  }

  lemma SparedTwice(h: Heap, h1: Heap, h2: Heap, env: nat, ids: set<nat>, ids': set<nat>, all: set<nat>)
    requires Spared(h, h1, env, ids) && Spared(h1, h2, env, ids') && ids <= all && ids' <= all
    ensures Spared(h, h2, env, all)
  {
  }

  // Looking names up and binding them.

  /** Above a scope, hidden variables of its function's loops, or of functions further in, are not found. */
  lemma {:induction false} NotAbove(lex: Lexicon, owners: seq<nat>, h: Heap, s: nat, x: Ident)
    requires HeapOk(lex, owners, h) && s < |h| && Hidden(x) && x.n in lex.home && owners[s] < lex.home[x.n]
    ensures Get(h, s, x).None?
    decreases s
  {
    assert ScopeOk(lex, owners, s, h[s]);
    if s > 0 { NotAbove(lex, owners, h, h[s].parent.value, x); }
  }

  lemma {:induction false} LengthFound(lex: Lexicon, owners: seq<nat>, h: Heap, s: nat)
    requires HeapOk(lex, owners, h) && s < |h|
    ensures Get(h, s, LENGTH) == Some(VBuiltin("tamanho"))
    decreases s
  {
    assert ScopeOk(lex, owners, s, h[s]);
    if s > 0 { LengthFound(lex, owners, h, h[s].parent.value); }
  }

  lemma {:induction false} GetOk(lex: Lexicon, owners: seq<nat>, h: Heap, s: nat, x: Ident)
    requires HeapOk(lex, owners, h) && s < |h|
    ensures Get(h, s, x).Some? ==> ClosuresOk(lex, owners, Closures(Get(h, s, x).value))
    decreases s
  {
    assert ScopeOk(lex, owners, s, h[s]);
    if s > 0 && x !in h[s].vals { GetOk(lex, owners, h, h[s].parent.value, x); }
  }

  lemma SetLocalOk(lex: Lexicon, owners: seq<nat>, h: Heap, env: nat, x: Ident, v: Value)
    requires HeapOk(lex, owners, h) && env < |h| && MayBind(lex, owners[env], x) && ClosuresOk(lex, owners, Closures(v))
    ensures HeapOk(lex, owners, SetLocal(h, env, x, v))
    ensures Spared(h, SetLocal(h, env, x, v), env, if Hidden(x) then {x.n} else {})
  {
    hide ScopeOk, MayBind, ClosuresOk, Closures, Spared;
    var h' := SetLocal(h, env, x, v);
    assert ScopeOk(lex, owners, env, h[env]);
    ScopeSet(lex, owners, env, h[env], x, v);
    forall s | 0 <= s < |h'| ensures ScopeOk(lex, owners, s, h'[s]) {
      assert s != env ==> ScopeOk(lex, owners, s, h[s]);
    }
    assert x != LENGTH by { NotLength(lex, owners[env], x); }
    LocalSpares(h, env, x, v);
  }

  lemma NotLength(lex: Lexicon, k: nat, x: Ident)
    requires MayBind(lex, k, x)
    ensures x != LENGTH
  {
  }

  lemma ScopeSet(lex: Lexicon, owners: seq<nat>, s: nat, scope: Scope, x: Ident, v: Value)
    requires s < |owners| && ScopeOk(lex, owners, s, scope) && MayBind(lex, owners[s], x)
             && ClosuresOk(lex, owners, Closures(v))
    ensures ScopeOk(lex, owners, s, scope.(vals := scope.vals[x := v]))
  {
    hide ClosuresOk, Closures;
  }

  lemma LocalSpares(h: Heap, env: nat, x: Ident, v: Value)
    requires env < |h| && x != LENGTH
    ensures Spared(h, SetLocal(h, env, x, v), env, if Hidden(x) then {x.n} else {})
  {
  }

  /** A hidden variable is always bound in the scope that assigns it; another name wherever it is found. */
  lemma {:induction false} SetOk(lex: Lexicon, owners: seq<nat>, h: Heap, env: nat, x: Ident, v: Value)
    requires HeapOk(lex, owners, h) && env < |h| && ClosuresOk(lex, owners, Closures(v))
    requires MayBind(lex, owners[env], x)
    ensures HeapOk(lex, owners, Set(h, env, x, v))
    ensures Spared(h, Set(h, env, x, v), env, if Hidden(x) then {x.n} else {})
    ensures Hidden(x) ==> Set(h, env, x, v) == SetLocal(h, env, x, v)
    decreases env
  {
    assert ScopeOk(lex, owners, env, h[env]);
    if x in h[env].vals || env == 0 {
      SetLocalOk(lex, owners, h, env, x, v);
    } else {
      var p := h[env].parent.value;
      if Hidden(x) {
        NotAbove(lex, owners, h, p, x);
        SetLocalOk(lex, owners, h, env, x, v);
      } else if Get(h, p, x).Some? {
        SetOk(lex, owners, h, p, x, v);
        SparedElsewhere(h, Set(h, p, x, v), p, env);
      } else {
        SetLocalOk(lex, owners, h, env, x, v);
      }
    }
  }

  lemma SparedElsewhere(h: Heap, h': Heap, env: nat, env': nat)
    requires Spared(h, h', env, {})
    ensures Spared(h, h', env', {})
  {
  }

  // Every run keeps scoping, and spares what it does not write.

  ghost predicate Ready(lex: Lexicon, c: Context, owners: seq<nat>, env: nat, h: Heap) {
    !c.iterates && LexicalContext(lex, c) && HostOk(c.host) && HeapOk(lex, owners, h) && env < |h|
  }

  lemma EndsHere(lex: Lexicon, owners: seq<nat>, env: nat, h: Heap, o: Outcome, ids: set<nat>)
    requires HeapOk(lex, owners, h) && OutOk(lex, owners, o)
    ensures Ends(lex, owners, h, env, ids, Res(o, h), owners)
  {
  }

  /** One run after another. */
  lemma EndsTwice(lex: Lexicon, owners: seq<nat>, h: Heap, env: nat, ids: set<nat>, r: Res,
                  mid: seq<nat>, ids': set<nat>, r': Res,
                  owners': seq<nat>, all: set<nat>)
    requires Ends(lex, owners, h, env, ids, r, mid) && Ends(lex, mid, r.h, env, ids', r', owners')
    requires ids <= all && ids' <= all
    ensures Ends(lex, owners, h, env, all, r', owners')
  {
    SparedTwice(h, r.h, r'.h, env, ids, ids', all);
  }

  lemma EndsMore(lex: Lexicon, owners: seq<nat>, h: Heap, env: nat, ids: set<nat>, r: Res,
                 owners': seq<nat>, all: set<nat>)
    requires Ends(lex, owners, h, env, ids, r, owners') && ids <= all
    ensures Ends(lex, owners, h, env, all, r, owners')
  {
  }

  lemma {:induction false} EvalEnds(lex: Lexicon, c: Context, e: Expr, owners: seq<nat>, env: nat, h: Heap, fuel: nat)
    returns (owners': seq<nat>)
    requires Ready(lex, c, owners, env, h) && PlainE(e)
    ensures Ends(lex, owners, h, env, {}, Eval(c, e, env, h, fuel), owners')
    decreases fuel, SizeE(e), 0
  {
    hide Ends, LexicalContext, HostOk, HeapOk, Finish, EvalAll, OutOk, Spared;
    owners' := EvalAllEnds(lex, c, Parts(e), owners, env, h, fuel);
    var r := EvalAll(c, Parts(e), env, h, fuel);
    if r.out.Vals? {
      assert HeapOk(lex, owners', r.h) && env < |r.h| && ClosuresOk(lex, owners', ClosuresAll(r.out.vs)) by {
        EndsGives(lex, owners, h, env, r, owners');
      }
      var mid := owners';
      owners' := FinishEnds(lex, c, e, r.out.vs, mid, env, r.h, fuel);
      EndsTwice(lex, owners, h, env, {}, r, mid, {}, Finish(c, e, r.out.vs, env, r.h, fuel), owners', {});
    }
  }

  lemma EndsGives(lex: Lexicon, owners: seq<nat>, h: Heap, env: nat, r: Res, owners': seq<nat>)
    requires HeapOk(lex, owners, h) && env < |h|
    requires exists ids :: Ends(lex, owners, h, env, ids, r, owners')
    ensures HeapOk(lex, owners', r.h) && env < |r.h| && OutOk(lex, owners', r.out) && owners <= owners'
            && owners'[env] == owners[env]
  {
  }

  lemma {:induction false} EvalAllEnds(lex: Lexicon, c: Context, es: seq<Expr>, owners: seq<nat>, env: nat, h: Heap,
                                       fuel: nat)
    returns (owners': seq<nat>)
    requires Ready(lex, c, owners, env, h) && PlainEs(es)
    ensures Ends(lex, owners, h, env, {}, EvalAll(c, es, env, h, fuel), owners')
    decreases fuel, SizeEs(es), 0
  {
    hide Ends, LexicalContext, HostOk, HeapOk, Eval, OutOk, PlainE;
    if es == [] {
      owners' := owners;
      assert OutOk(lex, owners, Vals([])) by { NoClosures(lex, owners); }
      EndsHere(lex, owners, env, h, Vals([]), {});
    } else {
      var first := Eval(c, es[0], env, h, fuel);
      owners' := EvalEnds(lex, c, es[0], owners, env, h, fuel);
      if first.out.Vals? {
        EndsGives(lex, owners, h, env, first, owners');
        var mid := owners';
        var rest := EvalAll(c, es[1..], env, first.h, fuel);
        owners' := EvalAllEnds(lex, c, es[1..], mid, env, first.h, fuel);
        EndsTwice(lex, owners, h, env, {}, first, mid, {}, rest, owners', {});
        EndsGives(lex, mid, first.h, env, rest, owners');
        if rest.out.Vals? { JoinedOut(lex, owners, h, env, first, mid, rest, owners'); }
      }
    }
  }

  lemma NoClosures(lex: Lexicon, owners: seq<nat>)
    ensures OutOk(lex, owners, Vals([]))
  {
  }

  lemma JoinedOut(lex: Lexicon, owners: seq<nat>, h: Heap, env: nat, first: Res, mid: seq<nat>, rest: Res,
                  owners': seq<nat>)
    requires Ends(lex, owners, h, env, {}, first, mid) && Ends(lex, owners, h, env, {}, rest, owners') && mid <= owners'
    requires first.out.Vals? && rest.out.Vals?
    ensures Ends(lex, owners, h, env, {}, Res(Vals(first.out.vs + rest.out.vs), rest.h), owners')
  {
    ClosuresJoin(first.out.vs, rest.out.vs);
    ClosuresGrow(lex, mid, owners', ClosuresAll(first.out.vs));
  }

  // Operations give back only what they were given.

  lemma OpsOk(w: Host, vs: seq<Value>)
    requires HostOk(w)
    ensures |vs| == 1 ==>
              MakesNoClosures(Negate(w, vs[0]), ClosuresAll(vs))
              && MakesNoClosures(w.awaited(vs[0]), ClosuresAll(vs))
    ensures |vs| == 2 ==> forall op :: MakesNoClosures(Binary(w, op, vs[0], vs[1]), ClosuresAll(vs))
    ensures |vs| == 2 ==> forall op :: MakesNoClosures(Compare(w, op, vs[0], vs[1]), ClosuresAll(vs))
    ensures |vs| == 2 ==> MakesNoClosures(Subscript(w, vs[0], vs[1]), ClosuresAll(vs))
    ensures MakesNoClosures(w.mapOf(vs), ClosuresAll(vs))
  {
    if |vs| == 1 {
      assert vs == [vs[0]];
      ClosuresOne(vs[0]);
    }
    if |vs| == 2 {
      assert vs == [vs[0]] + [vs[1]];
      ClosuresJoin([vs[0]], [vs[1]]);
      ClosuresOne(vs[0]);
      ClosuresOne(vs[1]);
      SubscriptOk(w, vs[0], vs[1]);
    }
  }

  lemma SubscriptOk(w: Host, a: Value, i: Value)
    requires HostOk(w)
    ensures MakesNoClosures(Subscript(w, a, i), Closures(a) + Closures(i))
  {
    if a.VList? && i.VInt? && 0 <= i.i < |a.items| {
      ClosuresIn(a.items, i.i);
    } else if a.VList? && i.VInt? && -|a.items| <= i.i < 0 {
      ClosuresIn(a.items, |a.items| + i.i);
    }
  }

  lemma LiftEnds(lex: Lexicon, owners: seq<nat>, env: nat, h: Heap, r: OpRes, from: set<(nat, nat)>)
    requires HeapOk(lex, owners, h) && MakesNoClosures(r, from) && ClosuresOk(lex, owners, from)
    ensures Ends(lex, owners, h, env, {}, Lift(r, h), owners)
  {
    if r.Ok? { ClosuresOne(r.v); }
  }

  lemma {:induction false} FinishEnds(lex: Lexicon, c: Context, e: Expr, vs: seq<Value>, owners: seq<nat>, env: nat,
                                      h: Heap, fuel: nat)
    returns (owners': seq<nat>)
    requires Ready(lex, c, owners, env, h) && |vs| == |Parts(e)| && ClosuresOk(lex, owners, ClosuresAll(vs))
             && (e.Lit? ==> Closures(e.v) == {})
    ensures Ends(lex, owners, h, env, {}, Finish(c, e, vs, env, h, fuel), owners')
    decreases fuel, 0, 2
  {
    hide Ends, HeapOk, Semantics.Invoke, Negate, Binary, Compare, Subscript, LexicalContext, MakesNoClosures,
      ClosuresAll;
    owners' := owners;
    OpsOk(c.host, vs);
    match e
    case Lit(v) =>
      ClosuresOne(v);
      EndsHere(lex, owners, env, h, Vals([v]), {});
    case Name(x) =>
      GetOk(lex, owners, h, env, x);
      var v := Get(h, env, x);
      if v.Some? { ClosuresOne(v.value); }
      EndsHere(lex, owners, env, h, if v.Some? then Vals([v.value]) else Fail(Fatal), {});
    case Neg(_) => LiftEnds(lex, owners, env, h, Negate(c.host, vs[0]), ClosuresAll(vs));
    case Await(_) => LiftEnds(lex, owners, env, h, c.host.awaited(vs[0]), ClosuresAll(vs));
    case Bin(op, _, _) => LiftEnds(lex, owners, env, h, Binary(c.host, op, vs[0], vs[1]), ClosuresAll(vs));
    case Cmp(op, _, _) => LiftEnds(lex, owners, env, h, Compare(c.host, op, vs[0], vs[1]), ClosuresAll(vs));
    case Index(_, _) => LiftEnds(lex, owners, env, h, Subscript(c.host, vs[0], vs[1]), ClosuresAll(vs));
    case ListLit(_) =>
      ClosuresOne(VList(vs));
      EndsHere(lex, owners, env, h, Vals([VList(vs)]), {});
    case MapLit(_) => LiftEnds(lex, owners, env, h, c.host.mapOf(vs), ClosuresAll(vs));
    case Call(_, _) =>
      assert vs == [vs[0]] + vs[1..];
      ClosuresJoin([vs[0]], vs[1..]);
      ClosuresOne(vs[0]);
      owners' := InvokeEnds(lex, c, vs[0], vs[1..], owners, env, h, fuel);
  }

  lemma {:induction false} BindOk(params: seq<Ident>, args: seq<Value>, x: Ident)
    requires |params| == |args| && x in Bind(params, args)
    ensures x in params && Closures(Bind(params, args)[x]) <= ClosuresAll(args)
    decreases |params|
  {
    var n := |params| - 1;
    if x == params[n] {
      ClosuresIn(args, n);
    } else {
      BindOk(params[..n], args[..n], x);
      assert args == args[..n] + args[n..];
      ClosuresJoin(args[..n], args[n..]);
    }
  }

  /** The scope of a call of function `id` under the scope it closes over. */
  lemma ScopeEnters(lex: Lexicon, owners: seq<nat>, h: Heap, params: seq<Ident>, args: seq<Value>, id: nat,
                    closure: nat)
    requires HeapOk(lex, owners, h) && |params| == |args|
             && ClosuresOk(lex, owners, ClosuresAll(args) + {(id, closure)})
    requires forall i :: 0 <= i < |params| ==> !Protected(params[i])
    requires id in lex.around && lex.around[id] < id
    ensures HeapOk(lex, owners + [id], h + [Scope(Bind(params, args), Some(closure))])
  {
    var scope := Scope(Bind(params, args), Some(closure));
    var owners', h' := owners + [id], h + [scope];
    assert (id, closure) in ClosuresAll(args) + {(id, closure)};
    forall x | x in scope.vals ensures ClosuresOk(lex, owners', Closures(scope.vals[x])) && !Protected(x) {
      BindOk(params, args, x);
    }
    forall s | 0 <= s < |h'| ensures ScopeOk(lex, owners', s, h'[s]) {
      if s < |h| {
        assert ScopeOk(lex, owners, s, h[s]);
        forall x | x in h[s].vals ensures ClosuresOk(lex, owners', Closures(h[s].vals[x])) {
          ClosuresGrow(lex, owners, owners', Closures(h[s].vals[x]));
        }
      }
    }
  }

  lemma {:induction false} InvokeEnds(lex: Lexicon, c: Context, f: Value, args: seq<Value>, owners: seq<nat>, env: nat,
                                      h: Heap, fuel: nat)
    returns (owners': seq<nat>)
    requires Ready(lex, c, owners, env, h) && ClosuresOk(lex, owners, Closures(f) + ClosuresAll(args))
    ensures Ends(lex, owners, h, env, {}, Semantics.Invoke(c, f, args, h, fuel), owners')
    decreases fuel, 0, 1
  {
    hide Ends, HeapOk, ExecAll, OwnSs;
    owners' := owners;
    match f
    case VBuiltin(name) =>
      assert MakesNoClosures(c.host.builtin(name, args), ClosuresAll(args));
      LiftEnds(lex, owners, env, h, c.host.builtin(name, args), ClosuresAll(args));
    case VFunc(_, id, closure) =>
      if id !in c.fns || |args| != |c.fns[id].params| {
        EndsHere(lex, owners, env, h, Fail(Fatal), {});
      } else if fuel == 0 {
        EndsHere(lex, owners, env, h, Timeout, {});
      } else {
        assert (id, closure) in Closures(f);
        ScopeEnters(lex, owners, h, c.fns[id].params, args, id, closure);
        var h1 := h + [Scope(Bind(c.fns[id].params, args), Some(closure))];
        owners' := ExecAllEnds(lex, c, c.fns[id].body, owners + [id], |h|, h1, fuel - 1);
        BodyEnds(lex, c, owners, h, env, id, h1, ExecAll(c, c.fns[id].body, |h|, h1, fuel - 1),
                 WritesAll(c.fns[id].body), owners');
      }
    case _ => EndsHere(lex, owners, env, h, Fail(Fatal), {});
  }

  /** The callee's scope is new, so the caller's are spared entirely. */
  lemma BodyEnds(lex: Lexicon, c: Context, owners: seq<nat>, h: Heap, env: nat, id: nat, h1: Heap, r: Res,
                 ids: set<nat>, owners': seq<nat>)
    requires |h1| == |h| + 1 && h1[..|h|] == h && |owners| == |h| && !r.out.Vals?
    requires Ends(lex, owners + [id], h1, |h|, ids, r, owners')
    ensures Ends(lex, owners, h, env, {}, Returned(c.policy, r), owners')
  {
    assert forall s :: 0 <= s < |h| ==> h1[s] == h[s];
    if r.out.Ret? { ClosuresOne(r.out.v); } else if r.out.Normal? || r.out.Brk? || r.out.Cont? { ClosuresOne(VNull); }
  }

  // Statements.

  lemma {:induction false} ExecAllEnds(lex: Lexicon, c: Context, ss: seq<Stmt>, owners: seq<nat>, env: nat, h: Heap,
                                       fuel: nat)
    returns (owners': seq<nat>)
    requires Ready(lex, c, owners, env, h) && OwnSs(lex, owners[env], ss)
    ensures Ends(lex, owners, h, env, WritesAll(ss), ExecAll(c, ss, env, h, fuel), owners')
    decreases fuel, SizeSs(ss), 0
  {
    hide Ends, LexicalContext, HostOk, HeapOk, Exec, OwnS, Writes, OutOk;
    if ss == [] {
      owners' := owners;
      assert OutOk(lex, owners, Normal) by { NormalOk(lex, owners); }
      EndsHere(lex, owners, env, h, Normal, WritesAll(ss));
    } else {
      var r := Exec(c, ss[0], env, h, fuel);
      owners' := ExecEnds(lex, c, ss[0], owners, env, h, fuel);
      EndsGives(lex, owners, h, env, r, owners');
      if r.out.Normal? {
        var mid := owners';
        owners' := ExecAllEnds(lex, c, ss[1..], mid, env, r.h, fuel);
        EndsTwice(lex, owners, h, env, Writes(ss[0]), r, mid, WritesAll(ss[1..]), ExecAll(c, ss[1..], env, r.h, fuel),
                  owners', WritesAll(ss));
      } else {
        EndsMore(lex, owners, h, env, Writes(ss[0]), r, owners', WritesAll(ss));
      }
    }
  }

  lemma NormalOk(lex: Lexicon, owners: seq<nat>)
    ensures OutOk(lex, owners, Normal) && OutOk(lex, owners, Brk) && OutOk(lex, owners, Cont)
            && OutOk(lex, owners, Timeout)
    ensures forall err :: OutOk(lex, owners, Fail(err))
  {
  }

  /** Storing the value of an expression that has been evaluated. */
  lemma StoreEnds(lex: Lexicon, owners: seq<nat>, h: Heap, env: nat, x: Ident, r: Res, owners': seq<nat>)
    requires HeapOk(lex, owners, h) && env < |h| && Ends(lex, owners, h, env, {}, r, owners') && ExprOutcome(r.out)
    requires r.out.Vals? ==> |r.out.vs| == 1
    requires MayBind(lex, owners[env], x)
    ensures var ids := if Hidden(x) then {x.n} else {};
            Ends(lex, owners, h, env, ids, if r.out.Vals? then Res(Normal, Set(r.h, env, x, r.out.vs[0])) else r,
                 owners')
  {
    var ids := if Hidden(x) then {x.n} else {};
    if r.out.Vals? {
      ClosuresIn(r.out.vs, 0);
      SetOk(lex, owners', r.h, env, x, r.out.vs[0]);
      SparedTwice(h, r.h, Set(r.h, env, x, r.out.vs[0]), env, {}, ids, ids);
    }
  }

  /** What a statement makes of the value of its expression. */
  lemma UseEnds(lex: Lexicon, owners: seq<nat>, h: Heap, env: nat, r: Res, owners': seq<nat>, o: Outcome)
    requires Ends(lex, owners, h, env, {}, r, owners') && r.out.Vals? && |r.out.vs| == 1
    requires o.Normal? || o == Ret(r.out.vs[0]) || o == Thr(r.out.vs[0])
    ensures Ends(lex, owners, h, env, {}, Res(o, r.h), owners')
  {
    ClosuresIn(r.out.vs, 0);
  }

  lemma {:induction false} ExecEnds(lex: Lexicon, c: Context, s: Stmt, owners: seq<nat>, env: nat, h: Heap, fuel: nat)
    returns (owners': seq<nat>)
    requires Ready(lex, c, owners, env, h) && OwnS(lex, owners[env], s)
    ensures Ends(lex, owners, h, env, Writes(s), Exec(c, s, env, h, fuel), owners')
    decreases fuel, SizeS(s), 1
  {
    hide Ends, LexicalContext, HostOk, HeapOk, Eval, Loop, ExecAll, OwnSs, WritesAll, PlainE, ClosuresAll;
    owners' := owners;
    NormalOk(lex, owners);
    Sizes(lex, owners, h);
    match s
    case Func(id, name, _, _) =>
      if id in c.fns {
        SetOk(lex, owners, h, env, name, VFunc(name, id, env));
        assert Ends(lex, owners, h, env, Writes(s), Exec(c, s, env, h, fuel), owners) by {
          SetEnds(lex, owners, h, env, Set(h, env, name, VFunc(name, id, env)), Writes(s));
        }
      } else {
        EndsHere(lex, owners, env, h, Fail(Fatal), Writes(s));
      }
    case Assign(x, e) =>
      owners' := EvalEnds(lex, c, e, owners, env, h, fuel);
      StoreEnds(lex, owners, h, env, x, Eval(c, e, env, h, fuel), owners');
    case ExprStmt(e) =>
      owners' := EvalEnds(lex, c, e, owners, env, h, fuel);
      if Eval(c, e, env, h, fuel).out.Vals? { UseEnds(lex, owners, h, env, Eval(c, e, env, h, fuel), owners', Normal); }
    case Return(result) =>
      if result.None? {
        assert OutOk(lex, owners, Ret(VNull));
        EndsHere(lex, owners, env, h, Ret(VNull), {});
      } else {
        var r := Eval(c, result.value, env, h, fuel);
        owners' := EvalEnds(lex, c, result.value, owners, env, h, fuel);
        if r.out.Vals? { UseEnds(lex, owners, h, env, r, owners', Ret(r.out.vs[0])); }
      }
    case Throw(e) =>
      var r := Eval(c, e, env, h, fuel);
      owners' := EvalEnds(lex, c, e, owners, env, h, fuel);
      if r.out.Vals? { UseEnds(lex, owners, h, env, r, owners', Thr(r.out.vs[0])); }
    case If(cond, thn, els) => owners' := IfEnds(lex, c, cond, thn, els, owners, env, h, fuel);
    case While(cond, body) =>
      NothingOwned(lex, owners[env]);
      owners' := LoopEnds(lex, c, cond, [], body, [], owners, env, h, fuel, WritesAll(body));
    case For(id, x, it, body) => owners' := ForEnds(lex, c, id, x, it, body, owners, env, h, fuel);
    case Try(body, name, catch, fin) => owners' := TryEnds(lex, c, body, name, catch, fin, owners, env, h, fuel);
    case Break => EndsHere(lex, owners, env, h, Brk, {});
    case Continue => EndsHere(lex, owners, env, h, Cont, {});
  }

  lemma Sizes(lex: Lexicon, owners: seq<nat>, h: Heap)
    requires HeapOk(lex, owners, h)
    ensures |owners| == |h|
  {
  }

  lemma NothingOwned(lex: Lexicon, k: nat)
    ensures OwnSs(lex, k, []) && WritesAll([]) == {}
  {
  }

  lemma SetEnds(lex: Lexicon, owners: seq<nat>, h: Heap, env: nat, h': Heap, ids: set<nat>)
    requires HeapOk(lex, owners, h') && Spared(h, h', env, ids)
    ensures Ends(lex, owners, h, env, ids, Res(Normal, h'), owners)
  {
  }

  lemma {:induction false} IfEnds(lex: Lexicon, c: Context, cond: Expr, thn: seq<Stmt>, els: Branch,
                                  owners: seq<nat>, env: nat, h: Heap, fuel: nat)
    returns (owners': seq<nat>)
    requires Ready(lex, c, owners, env, h) && OwnS(lex, owners[env], If(cond, thn, els))
    ensures Ends(lex, owners, h, env, Writes(If(cond, thn, els)), Exec(c, If(cond, thn, els), env, h, fuel), owners')
    decreases fuel, SizeS(If(cond, thn, els)), 0
  {
    hide Ends, LexicalContext, HostOk, HeapOk, Eval, ExecAll, OwnSs, WritesAll, PlainE, OutOk;
    var all := Writes(If(cond, thn, els));
    var r := Eval(c, cond, env, h, fuel);
    owners' := EvalEnds(lex, c, cond, owners, env, h, fuel);
    EndsGives(lex, owners, h, env, r, owners');
    EndsMore(lex, owners, h, env, {}, r, owners', all);
    var mid := owners';
    if r.out.Vals? {
      if Truthy(c.host, r.out.vs[0]) {
        owners' := ExecAllEnds(lex, c, thn, mid, env, r.h, fuel);
        EndsTwice(lex, owners, h, env, {}, r, mid, WritesAll(thn), ExecAll(c, thn, env, r.h, fuel), owners', all);
      } else if els.Block? {
        owners' := ExecAllEnds(lex, c, els.body, mid, env, r.h, fuel);
        EndsTwice(lex, owners, h, env, {}, r, mid, WritesAll(els.body), ExecAll(c, els.body, env, r.h, fuel), owners',
                  all);
      } else {
        UseEnds(lex, owners, h, env, r, mid, Normal);
        EndsMore(lex, owners, h, env, {}, Res(Normal, r.h), mid, all);
      }
    }
  }

  lemma {:induction false} LoopEnds(lex: Lexicon, c: Context, cond: Expr,
                                    pre: seq<Stmt>, body: seq<Stmt>, post: seq<Stmt>, owners: seq<nat>,
                                    env: nat, h: Heap, fuel: nat, ids: set<nat>) returns (owners': seq<nat>)
    requires Ready(lex, c, owners, env, h) && PlainE(cond)
    requires OwnSs(lex, owners[env], pre) && OwnSs(lex, owners[env], body) && OwnSs(lex, owners[env], post)
    requires WritesAll(pre) <= ids && WritesAll(body) <= ids && WritesAll(post) <= ids
    ensures Ends(lex, owners, h, env, ids, Loop(c, cond, pre, body, post, env, h, fuel), owners')
    decreases fuel, 1 + SizeE(cond) + SizeSs(pre) + SizeSs(body) + SizeSs(post), 0
  {
    hide Ends, LexicalContext, HostOk, HeapOk, Eval, ExecAll, Turn, OwnSs, WritesAll, PlainE, OutOk;
    owners' := owners;
    if fuel == 0 {
      NormalOk(lex, owners);
      EndsHere(lex, owners, env, h, Timeout, ids);
    } else {
      var r := Eval(c, cond, env, h, fuel);
      var first := EvalEnds(lex, c, cond, owners, env, h, fuel);
      EndsGives(lex, owners, h, env, r, first);
      EndsMore(lex, owners, h, env, {}, r, first, ids);
      owners' := first;
      if r.out.Vals? {
        if !Truthy(c.host, r.out.vs[0]) {
          UseEnds(lex, owners, h, env, r, first, Normal);
          EndsMore(lex, owners, h, env, {}, Res(Normal, r.h), first, ids);
        } else {
          var r' := ExecAll(c, pre, env, r.h, fuel);
          var second := ExecAllEnds(lex, c, pre, first, env, r.h, fuel);
          EndsGives(lex, first, r.h, env, r', second);
          EndsTwice(lex, owners, h, env, {}, r, first, WritesAll(pre), r', second, ids);
          owners' := second;
          if r'.out.Normal? {
            owners' := TurnEnds(lex, c, cond, pre, body, post, second, env, r'.h, fuel, ids);
            EndsTwice(lex, owners, h, env, ids, r', second, ids, Turn(c, cond, pre, body, post, env, r'.h, fuel),
                      owners', ids);
          }
        }
      }
    }
  }

  lemma {:induction false} TurnEnds(lex: Lexicon, c: Context, cond: Expr,
                                    pre: seq<Stmt>, body: seq<Stmt>, post: seq<Stmt>, owners: seq<nat>,
                                    env: nat, h: Heap, fuel: nat, ids: set<nat>) returns (owners': seq<nat>)
    requires fuel > 0 && Ready(lex, c, owners, env, h) && PlainE(cond)
    requires OwnSs(lex, owners[env], pre) && OwnSs(lex, owners[env], body) && OwnSs(lex, owners[env], post)
    requires WritesAll(pre) <= ids && WritesAll(body) <= ids && WritesAll(post) <= ids
    ensures Ends(lex, owners, h, env, ids, Turn(c, cond, pre, body, post, env, h, fuel), owners')
    decreases fuel, SizeE(cond) + SizeSs(pre) + SizeSs(body) + SizeSs(post), 1
  {
    hide Ends, LexicalContext, HostOk, HeapOk, ExecAll, Loop, OwnSs, WritesAll, PlainE;
    var r := ExecAll(c, body, env, h, fuel);
    var first := ExecAllEnds(lex, c, body, owners, env, h, fuel);
    EndsGives(lex, owners, h, env, r, first);
    EndsMore(lex, owners, h, env, WritesAll(body), r, first, ids);
    owners' := first;
    if r.out.Brk? {
      NormalAfter(lex, owners, h, env, ids, r, first);
    } else if r.out.Cont? {
      owners' := LoopEnds(lex, c, cond, pre, body, post, first, env, r.h, fuel - 1, ids);
      EndsTwice(lex, owners, h, env, ids, r, first, ids, Loop(c, cond, pre, body, post, env, r.h, fuel - 1), owners',
                ids);
    } else if r.out.Normal? {
      var r' := ExecAll(c, post, env, r.h, fuel);
      var second := ExecAllEnds(lex, c, post, first, env, r.h, fuel);
      EndsGives(lex, first, r.h, env, r', second);
      EndsTwice(lex, owners, h, env, ids, r, first, WritesAll(post), r', second, ids);
      owners' := second;
      if r'.out.Normal? {
        owners' := LoopEnds(lex, c, cond, pre, body, post, second, env, r'.h, fuel - 1, ids);
        EndsTwice(lex, owners, h, env, ids, r', second, ids, Loop(c, cond, pre, body, post, env, r'.h, fuel - 1),
                  owners', ids);
      }
    }
  }

  lemma NormalAfter(lex: Lexicon, owners: seq<nat>, h: Heap, env: nat, ids: set<nat>, r: Res, owners': seq<nat>)
    requires Ends(lex, owners, h, env, ids, r, owners')
    ensures Ends(lex, owners, h, env, ids, Res(Normal, r.h), owners')
  {
  }

  /** The pieces of a `para` loop belong to the function that holds the loop. */
  lemma ForOwns(lex: Lexicon, k: nat, id: nat, x: Ident)
    requires id in lex.home && lex.home[id] == k && MayBind(lex, k, x)
    ensures PlainE(ForCond(id)) && OwnSs(lex, k, [ForHead(id, x)]) && OwnSs(lex, k, [ForStep(id)])
    ensures WritesAll([ForHead(id, x)]) == (if Hidden(x) then {x.n} else {}) && WritesAll([ForStep(id)]) == {id}
  {
    var iter, idx, len := Name(ForIter(id)), Name(ForIdx(id)), Name(LENGTH);
    PlainPair(len, iter);
    PlainPair(idx, Call(len, [iter]));
    PlainPair(iter, idx);
    PlainPair(idx, Lit(VInt(1)));
    assert Parts(Call(len, [iter])) == [len, iter];
    assert [ForHead(id, x)][1..] == [] && [ForStep(id)][1..] == [];
  }

  lemma PlainPair(a: Expr, b: Expr)
    ensures PlainEs([a, b]) == (PlainE(a) && PlainE(b))
  {
    assert [a, b][1..] == [b] && [b][1..] == [];
    assert PlainEs([]);
    assert PlainEs([b]) == PlainE(b);
  }

  lemma {:induction false} ForEnds(lex: Lexicon, c: Context, id: nat, x: Ident, it: Expr,
                                   body: seq<Stmt>, owners: seq<nat>, env: nat, h: Heap, fuel: nat)
    returns (owners': seq<nat>)
    requires Ready(lex, c, owners, env, h) && OwnS(lex, owners[env], For(id, x, it, body))
    ensures Ends(lex, owners, h, env, Writes(For(id, x, it, body)), Exec(c, For(id, x, it, body), env, h, fuel),
                 owners')
    decreases fuel, SizeS(For(id, x, it, body)), 0
  {
    hide Ends, LexicalContext, HostOk, HeapOk, Eval, Loop, OwnSs, WritesAll, PlainE, OutOk;
    var all := Writes(For(id, x, it, body));
    Sizes(lex, owners, h);
    ForSizes(id, x);
    ForOwns(lex, owners[env], id, x);
    var e := Eval(c, it, env, h, fuel);
    var first := EvalEnds(lex, c, it, owners, env, h, fuel);
    StoreEnds(lex, owners, h, env, ForIter(id), e, first);
    var r := Exec(c, Assign(ForIter(id), it), env, h, fuel);
    EndsGives(lex, owners, h, env, r, first);
    EndsMore(lex, owners, h, env, {id}, r, first, all);
    owners' := first;
    if r.out.Normal? {
      var h1 := Set(r.h, env, ForIdx(id), VInt(0));
      SetOk(lex, first, r.h, env, ForIdx(id), VInt(0));
      SetEnds(lex, first, r.h, env, h1, {id});
      EndsTwice(lex, owners, h, env, {id}, r, first, {id}, Res(Normal, h1), first, all);
      owners' := LoopEnds(lex, c, ForCond(id), [ForHead(id, x)], body, [ForStep(id)], first, env, h1, fuel, all);
      EndsTwice(lex, owners, h, env, all, Res(Normal, h1), first, all,
                Loop(c, ForCond(id), [ForHead(id, x)], body, [ForStep(id)], env, h1, fuel), owners', all);
    }
  }

  lemma {:induction false} TryEnds(lex: Lexicon, c: Context, body: seq<Stmt>, name: Option<Ident>, catch: Branch,
                                   fin: Branch, owners: seq<nat>,
                                   env: nat, h: Heap, fuel: nat) returns (owners': seq<nat>)
    requires Ready(lex, c, owners, env, h) && OwnS(lex, owners[env], Try(body, name, catch, fin))
    ensures Ends(lex, owners, h, env, Writes(Try(body, name, catch, fin)),
                 Exec(c, Try(body, name, catch, fin), env, h, fuel), owners')
    decreases fuel, SizeS(Try(body, name, catch, fin)), 0
  {
    hide Ends, LexicalContext, HostOk, HeapOk, ExecAll, OwnSs, WritesAll, OutOk;
    var all := Writes(Try(body, name, catch, fin));
    var r := ExecAll(c, body, env, h, fuel);
    var first := ExecAllEnds(lex, c, body, owners, env, h, fuel);
    EndsGives(lex, owners, h, env, r, first);
    EndsMore(lex, owners, h, env, WritesAll(body), r, first, all);
    var r', mid := r, first;
    if r.out.Thr? && catch.Block? {
      var h1 := Caught(r.h, env, name, r.out.v);
      CaughtEnds(lex, owners, h, env, name, r, first, all);
      EndsGives(lex, owners, h, env, Res(Normal, h1), first);
      r' := ExecAll(c, catch.body, env, h1, fuel);
      mid := ExecAllEnds(lex, c, catch.body, first, env, h1, fuel);
      EndsTwice(lex, owners, h, env, all, Res(Normal, h1), first, WritesAll(catch.body), r', mid, all);
    }
    EndsGives(lex, owners, h, env, r', mid);
    owners' := mid;
    if fin.Block? && Settles(r'.out) {
      var q := ExecAll(c, fin.body, env, r'.h, fuel);
      owners' := ExecAllEnds(lex, c, fin.body, mid, env, r'.h, fuel);
      EndsGives(lex, mid, r'.h, env, q, owners');
      EndsTwice(lex, owners, h, env, all, r', mid, WritesAll(fin.body), q, owners', all);
      ResumedEnds(lex, owners, h, env, all, c.policy, r', mid, q, owners');
    }
  }

  lemma CaughtEnds(lex: Lexicon, owners: seq<nat>, h: Heap, env: nat, name: Option<Ident>, r: Res,
                   owners': seq<nat>, all: set<nat>)
    requires Ends(lex, owners, h, env, all, r, owners') && r.out.Thr? && HeapOk(lex, owners, h) && env < |h|
    requires name.Some? ==> MayBind(lex, owners[env], name.value) && (Hidden(name.value) ==> name.value.n in all)
    ensures Ends(lex, owners, h, env, all, Res(Normal, Caught(r.h, env, name, r.out.v)), owners')
  {
    if name.Some? {
      SetLocalOk(lex, owners', r.h, env, name.value, r.out.v);
      SparedTwice(h, r.h, Caught(r.h, env, name, r.out.v), env, all, if Hidden(name.value) then {name.value.n} else {},
                  all);
    }
  }

  lemma ResumedEnds(lex: Lexicon, owners: seq<nat>, h: Heap, env: nat, all: set<nat>, policy: Policy, r: Res,
                    mid: seq<nat>, q: Res, owners': seq<nat>)
    requires Ends(lex, owners, h, env, all, r, mid) && Ends(lex, owners, h, env, all, q, owners') && mid <= owners'
             && !q.out.Vals?
    ensures Ends(lex, owners, h, env, all, Resumed(policy, r.out, q), owners')
  {
    if r.out.Thr? { ClosuresGrow(lex, mid, owners', Closures(r.out.v)); }
  }
}
