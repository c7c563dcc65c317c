/** Numbered programs are lexically scoped: their numbers say which function contains
    which, and no two loops share hidden variables. */
module Lexical {
  import opened Syntax
  import opened Semantics
  import opened Lowering
  import opened Scoping
  import Programs
  import ForEach

  predicate UserName(x: Ident) {
    x.User? && x != LENGTH
  }

  /** The names a program binds are written by the user and do not hide `tamanho`. */
  predicate UserOnly(s: Stmt)
    decreases s, 0
  {
    match s
    case Func(_, name, params, body) =>
      UserName(name) && (forall i :: 0 <= i < |params| ==> UserName(params[i])) && UserOnlyAll(body)
    case Assign(x, e) => UserName(x) && PlainE(e)
    case ExprStmt(e) => PlainE(e)
    case Return(r) => r.Some? ==> PlainE(r.value)
    case Throw(e) => PlainE(e)
    case If(c, t, els) => PlainE(c) && UserOnlyAll(t) && UserOnlyBranch(els)
    case While(c, body) => PlainE(c) && UserOnlyAll(body)
    case For(_, x, it, body) => UserName(x) && PlainE(it) && UserOnlyAll(body)
    case Try(body, name, catch, fin) =>
      UserOnlyAll(body) && (name.Some? ==> UserName(name.value)) && UserOnlyBranch(catch) && UserOnlyBranch(fin)
    case _ => true
  }

  predicate UserOnlyBranch(b: Branch)
    decreases b, 0
  {
    b.Block? ==> UserOnlyAll(b.body)
  }

  predicate UserOnlyAll(ss: seq<Stmt>)
    decreases ss, 0
  {
    ss != [] ==> UserOnly(ss[0]) && UserOnlyAll(ss[1..])
  }

  function Both(a: Lexicon, b: Lexicon): Lexicon {
    Lexicon(a.around + b.around, a.home + b.home)
  }

  const NOWHERE := Lexicon(map[], map[])

  /** Which functions and loops a statement of function `k` contains, and where. */
  function Lex(s: Stmt, k: nat): Lexicon
    decreases s, 0
  {
    match s
    case Func(id, _, _, body) =>
      var l := LexAll(body, id);
      l.(around := l.around[id := k])
    case If(_, t, els) => Both(LexAll(t, k), LexBranch(els, k))
    case While(_, body) => LexAll(body, k)
    case For(id, _, _, body) =>
      var l := LexAll(body, k);
      l.(home := l.home[id := k])
    case Try(body, _, catch, fin) => Both(Both(LexAll(body, k), LexBranch(catch, k)), LexBranch(fin, k))
    case _ => NOWHERE
  }

  function LexBranch(b: Branch, k: nat): Lexicon
    decreases b, 0
  {
    if b.Block? then LexAll(b.body, k) else NOWHERE
  }

  function LexAll(ss: seq<Stmt>, k: nat): Lexicon
    decreases ss, 0
  {
    if ss == [] then NOWHERE else Both(Lex(ss[0], k), LexAll(ss[1..], k))
  }

  /** The numbers lie between the counters before and after. */
  ghost predicate Span(l: Lexicon, c: Counters, c': Counters) {
    && c.fn <= c'.fn && c.tmp <= c'.tmp
    && (forall id :: id in l.around ==> c.fn < id <= c'.fn)
    && forall id :: id in l.home ==> c.tmp < id <= c'.tmp
  }

  ghost predicate Sub(l: Lexicon, all: Lexicon) {
    && (forall id :: id in l.around ==> id in all.around && all.around[id] == l.around[id])
    && forall id :: id in l.home ==> id in all.home && all.home[id] == l.home[id]
  }

  lemma SpanBoth(a: Lexicon, b: Lexicon, c: Counters, c1: Counters, c2: Counters)
    requires Span(a, c, c1) && Span(b, c1, c2)
    ensures Span(Both(a, b), c, c2)
    ensures forall all :: Sub(Both(a, b), all) ==> Sub(a, all) && Sub(b, all)
  {
  }

  lemma SpanNone(c: Counters)
    ensures Span(NOWHERE, c, c)
  {
  }

  lemma SpanFunc(l: Lexicon, c: Counters, c': Counters, k: nat)
    requires Span(l, c.(fn := c.fn + 1), c')
    ensures Span(l.(around := l.around[c.fn + 1 := k]), c, c')
    ensures forall all :: Sub(l.(around := l.around[c.fn + 1 := k]), all) ==> Sub(l, all)
  {
  }

  lemma SpanFor(l: Lexicon, c: Counters, c': Counters, k: nat)
    requires Span(l, c.(tmp := c.tmp + 2), c')
    ensures Span(l.(home := l.home[c.tmp + 1 := k]), c, c')
    ensures forall all :: Sub(l.(home := l.home[c.tmp + 1 := k]), all) ==> Sub(l, all)
  {
  }

  lemma {:induction false} Spans(s: Stmt, c: Counters, k: nat)
    ensures Span(Lex(Number(s, c).0, k), c, Number(s, c).1)
    decreases s, 0
  {
    hide Span;
    match s
    case Func(_, name, params, body) =>
      var (b, c') := NumberAll(body, c.(fn := c.fn + 1));
      SpansAll(body, c.(fn := c.fn + 1), c.fn + 1);
      SpanFunc(LexAll(b, c.fn + 1), c, c', k);
    case If(cond, thn, els) =>
      var (t, c1) := NumberAll(thn, c);
      var (e, c2) := NumberBranch(els, c1);
      SpansAll(thn, c, k);
      SpansBranch(els, c1, k);
      SpanBoth(LexAll(t, k), LexBranch(e, k), c, c1, c2);
    case While(_, body) => SpansAll(body, c, k);
    case For(_, _, _, body) =>
      var (b, c') := NumberAll(body, c.(tmp := c.tmp + 2));
      SpansAll(body, c.(tmp := c.tmp + 2), k);
      SpanFor(LexAll(b, k), c, c', k);
    case Try(body, name, catch, fin) =>
      var (b, c1) := NumberAll(body, c);
      var (q, c2) := NumberBranch(catch, c1);
      var (r, c3) := NumberBranch(fin, c2);
      SpansAll(body, c, k);
      SpansBranch(catch, c1, k);
      SpansBranch(fin, c2, k);
      SpanBoth(LexAll(b, k), LexBranch(q, k), c, c1, c2);
      SpanBoth(Both(LexAll(b, k), LexBranch(q, k)), LexBranch(r, k), c, c2, c3);
    case _ => SpanNone(c);
  }

  lemma {:induction false} SpansBranch(b: Branch, c: Counters, k: nat)
    ensures Span(LexBranch(NumberBranch(b, c).0, k), c, NumberBranch(b, c).1)
    decreases b, 0
  {
    hide Span;
    if b.Block? { SpansAll(b.body, c, k); } else { SpanNone(c); }
  }

  lemma {:induction false} SpansAll(ss: seq<Stmt>, c: Counters, k: nat)
    ensures Span(LexAll(NumberAll(ss, c).0, k), c, NumberAll(ss, c).1)
    decreases ss, 0
  {
    hide Span;
    if ss == [] {
      SpanNone(c);
    } else {
      var (s, c1) := Number(ss[0], c);
      var (rest, c2) := NumberAll(ss[1..], c1);
      Spans(ss[0], c, k);
      SpansAll(ss[1..], c1, k);
      SpanBoth(Lex(s, k), LexAll(rest, k), c, c1, c2);
      assert ([s] + rest)[1..] == rest;
    }
  }

  /** A numbered statement of function `k` belongs to it, and each function in it to itself. */
  lemma {:induction false} Owned(s: Stmt, c: Counters, k: nat, all: Lexicon)
    requires UserOnly(s) && k <= c.fn && Sub(Lex(Number(s, c).0, k), all)
    ensures OwnS(all, k, Number(s, c).0)
    ensures forall id :: id in Fns(Number(s, c).0) ==> FnOwned(all, id, Fns(Number(s, c).0)[id])
    decreases s, 0
  {
    hide Span, Sub, PlainE, FnOwned, OwnSs, LexAll, NumberAll, FnsAll, UserOnlyAll;
    match s
    case Func(_, name, params, body) =>
      var (b, c') := NumberAll(body, c.(fn := c.fn + 1));
      SpansAll(body, c.(fn := c.fn + 1), c.fn + 1);
      SpanFunc(LexAll(b, c.fn + 1), c, c', k);
      OwnedAll(body, c.(fn := c.fn + 1), c.fn + 1, all);
      FunctionOwned(all, LexAll(b, c.fn + 1), c.fn + 1, k, params, b);
    case If(cond, thn, els) =>
      var (t, c1) := NumberAll(thn, c);
      var (e, c2) := NumberBranch(els, c1);
      SpansAll(thn, c, k);
      SpansBranch(els, c1, k);
      SpanBoth(LexAll(t, k), LexBranch(e, k), c, c1, c2);
      SpanKeeps(LexAll(t, k), c, c1);
      OwnedAll(thn, c, k, all);
      OwnedBranch(els, c1, k, all);
    case While(_, body) => OwnedAll(body, c, k, all);
    case For(_, _, _, body) =>
      var (b, c') := NumberAll(body, c.(tmp := c.tmp + 2));
      SpansAll(body, c.(tmp := c.tmp + 2), k);
      SpanFor(LexAll(b, k), c, c', k);
      OwnedAll(body, c.(tmp := c.tmp + 2), k, all);
      LoopOwned(all, LexAll(b, k), c.tmp + 1, k);
      if c.tmp + 1 in WritesAll(b) { WritesAboveAll(body, c.(tmp := c.tmp + 2), c.tmp + 1); }
    case Try(body, name, catch, fin) => OwnedTry(body, name, catch, fin, c, k, all);
    case _ =>
  }

  lemma {:induction false} OwnedTry(body: seq<Stmt>, name: Option<Ident>, catch: Branch, fin: Branch, c: Counters,
                                    k: nat, all: Lexicon)
    requires var s := Try(body, name, catch, fin); UserOnly(s) && k <= c.fn && Sub(Lex(Number(s, c).0, k), all)
    ensures var n := Number(Try(body, name, catch, fin), c).0;
            OwnS(all, k, n) && forall id :: id in Fns(n) ==> FnOwned(all, id, Fns(n)[id])
    decreases Try(body, name, catch, fin), -1
  {
    hide Span, Sub, PlainE, FnOwned, OwnSs, LexAll, NumberAll, FnsAll, UserOnlyAll;
      var (b, c1) := NumberAll(body, c);
    var (q, c2) := NumberBranch(catch, c1);
    var (r, c3) := NumberBranch(fin, c2);
    SpansAll(body, c, k);
    SpansBranch(catch, c1, k);
    SpansBranch(fin, c2, k);
    SpanKeeps(LexAll(b, k), c, c1);
    SpanKeeps(LexBranch(q, k), c1, c2);
    SpanBoth(LexAll(b, k), LexBranch(q, k), c, c1, c2);
    SpanBoth(Both(LexAll(b, k), LexBranch(q, k)), LexBranch(r, k), c, c2, c3);
    OwnedAll(body, c, k, all);
    OwnedBranch(catch, c1, k, all);
    OwnedBranch(fin, c2, k, all);
  }

  lemma SpanKeeps(l: Lexicon, c: Counters, c': Counters)
    requires Span(l, c, c')
    ensures c.fn <= c'.fn && c.tmp <= c'.tmp
  {
  }

  predicate FnOwned(all: Lexicon, id: nat, f: FnDecl) {
    && id in all.around && all.around[id] < id && OwnSs(all, id, f.body)
    && forall i :: 0 <= i < |f.params| ==> !Protected(f.params[i])
  }

  lemma FunctionOwned(all: Lexicon, l: Lexicon, id: nat, k: nat, params: seq<Ident>, body: seq<Stmt>)
    requires Sub(l.(around := l.around[id := k]), all) && k < id && OwnSs(all, id, body)
    requires forall i :: 0 <= i < |params| ==> UserName(params[i])
    ensures id in all.around && all.around[id] == k && FnOwned(all, id, FnDecl(params, body))
  {
    assert id in l.around[id := k];
  }

  lemma LoopOwned(all: Lexicon, l: Lexicon, id: nat, k: nat)
    requires Sub(l.(home := l.home[id := k]), all)
    ensures id in all.home && all.home[id] == k
  {
    assert id in l.home[id := k];
  }

  lemma {:induction false} OwnedBranch(b: Branch, c: Counters, k: nat, all: Lexicon)
    requires UserOnlyBranch(b) && k <= c.fn && Sub(LexBranch(NumberBranch(b, c).0, k), all)
    ensures var n := NumberBranch(b, c).0; n.Block? ==> OwnSs(all, k, n.body)
    ensures forall id :: id in FnsBranch(NumberBranch(b, c).0) ==> FnOwned(all, id, FnsBranch(NumberBranch(b, c).0)[id])
    decreases b, 0
  {
    if b.Block? { OwnedAll(b.body, c, k, all); }
  }

  lemma {:induction false} OwnedAll(ss: seq<Stmt>, c: Counters, k: nat, all: Lexicon)
    requires UserOnlyAll(ss) && k <= c.fn && Sub(LexAll(NumberAll(ss, c).0, k), all)
    ensures OwnSs(all, k, NumberAll(ss, c).0)
    ensures forall id :: id in FnsAll(NumberAll(ss, c).0) ==> FnOwned(all, id, FnsAll(NumberAll(ss, c).0)[id])
    decreases ss, 0
  {
    hide Span, Sub, FnOwned, OwnS;
    if ss != [] {
      var (s, c1) := Number(ss[0], c);
      var (rest, c2) := NumberAll(ss[1..], c1);
      assert ([s] + rest)[1..] == rest;
      Spans(ss[0], c, k);
      SpansAll(ss[1..], c1, k);
      SpanBoth(Lex(s, k), LexAll(rest, k), c, c1, c2);
      SpanKeeps(Lex(s, k), c, c1);
      Owned(ss[0], c, k, all);
      OwnedAll(ss[1..], c1, k, all);
    }
  }

  /** Every program whose own names are the user's is lexically scoped once numbered. */
  lemma NumberedIsLexical(program: seq<Stmt>, host: Host, policy: Policy)
    requires UserOnlyAll(program)
    ensures var all := LexAll(Numbered(program), 0);
            LexicalContext(all, Programs.ContextOf(program, host, policy)) && OwnSs(all, 0, Numbered(program))
  {
    var all := LexAll(Numbered(program), 0);
    OwnedAll(program, Counters(0, 0), 0, all);
    var c := Programs.ContextOf(program, host, policy);
    assert forall id :: id in c.fns ==> FnOwned(all, id, c.fns[id]);
  }

  // A loop's hidden variables are not those of the loops inside it.

  lemma {:induction false} WritesAbove(s: Stmt, c: Counters, n: nat)
    requires UserOnly(s) && n in Writes(Number(s, c).0)
    ensures c.tmp < n
    decreases s, 0
  {
    match s
    case If(cond, thn, els) =>
      var (t, c1) := NumberAll(thn, c);
      SpansAll(thn, c, 0);
      if n in WritesAll(t) { WritesAboveAll(thn, c, n); } else { WritesAboveBranch(els, c1, n); }
    case While(_, body) => WritesAboveAll(body, c, n);
    case For(_, _, _, body) => if n != c.tmp + 1 { WritesAboveAll(body, c.(tmp := c.tmp + 2), n); }
    case Try(body, name, catch, fin) =>
      var (b, c1) := NumberAll(body, c);
      var (q, c2) := NumberBranch(catch, c1);
      SpansAll(body, c, 0);
      SpansBranch(catch, c1, 0);
      if n in WritesAll(b) { WritesAboveAll(body, c, n); }
      else if q.Block? && n in WritesAll(q.body) { WritesAboveBranch(catch, c1, n); }
      else { WritesAboveBranch(fin, c2, n); }
    case _ =>
  }

  lemma {:induction false} WritesAboveBranch(b: Branch, c: Counters, n: nat)
    requires UserOnlyBranch(b) && var k := NumberBranch(b, c).0; k.Block? && n in WritesAll(k.body)
    ensures c.tmp < n
    decreases b, 0
  {
    WritesAboveAll(b.body, c, n);
  }

  lemma {:induction false} WritesAboveAll(ss: seq<Stmt>, c: Counters, n: nat)
    requires UserOnlyAll(ss) && n in WritesAll(NumberAll(ss, c).0)
    ensures c.tmp < n
    decreases ss, 0
  {
    var (s, c1) := Number(ss[0], c);
    var rest := NumberAll(ss[1..], c1).0;
    assert ([s] + rest)[1..] == rest;
    Spans(ss[0], c, 0);
    if n in Writes(s) { WritesAbove(ss[0], c, n); } else { WritesAboveAll(ss[1..], c1, n); }
  }

  lemma {:induction false} Apart(f: Stmt, s: Stmt, c: Counters)
    requires UserOnly(s) && f.For? && Programs.Within(f, Number(s, c).0)
    ensures f.id !in WritesAll(f.body) && f.x.User?
    decreases s, 0
  {
    match s
    case Func(_, _, _, body) => ApartAll(f, body, c.(fn := c.fn + 1));
    case If(_, thn, els) =>
      var (t, c1) := NumberAll(thn, c);
      if Programs.WithinAny(f, t) { ApartAll(f, thn, c); } else { ApartBranch(f, els, c1); }
    case While(_, body) => ApartAll(f, body, c);
    case For(_, _, _, body) =>
      var c1 := c.(tmp := c.tmp + 2);
      if f == Number(s, c).0 {
        if f.id in WritesAll(f.body) { WritesAboveAll(body, c1, f.id); }
      } else {
        ApartAll(f, body, c1);
      }
    case Try(body, name, catch, fin) =>
      var (b, c1) := NumberAll(body, c);
      var (q, c2) := NumberBranch(catch, c1);
      if Programs.WithinAny(f, b) { ApartAll(f, body, c); }
      else if Programs.WithinBranch(f, q) { ApartBranch(f, catch, c1); }
      else { ApartBranch(f, fin, c2); }
    case _ =>
  }

  lemma {:induction false} ApartBranch(f: Stmt, b: Branch, c: Counters)
    requires UserOnlyBranch(b) && f.For? && Programs.WithinBranch(f, NumberBranch(b, c).0)
    ensures f.id !in WritesAll(f.body) && f.x.User?
    decreases b, 0
  {
    ApartAll(f, b.body, c);
  }

  lemma {:induction false} ApartAll(f: Stmt, ss: seq<Stmt>, c: Counters)
    requires UserOnlyAll(ss) && f.For? && Programs.WithinAny(f, NumberAll(ss, c).0)
    ensures f.id !in WritesAll(f.body) && f.x.User?
    decreases ss, 0
  {
    var (s, c1) := Number(ss[0], c);
    var rest := NumberAll(ss[1..], c1).0;
    assert ([s] + rest)[1..] == rest;
    if Programs.Within(f, s) { Apart(f, ss[0], c); } else { ApartAll(f, ss[1..], c1); }
  }

  /** In every program, every `para` loop over an iterable with known elements, wherever it
      runs, visits the elements in order; without a `continue` of its own, each once. */
  lemma ParaVisits(program: seq<Stmt>, host: Host, policy: Policy, s: Stmt, owners: seq<nat>, env: nat, h: Heap,
                   fuel: nat, v: Value, elems: seq<Value>)
    requires UserOnlyAll(program) && HostOk(host) && s.For? && Programs.WithinAny(s, Numbered(program))
    requires var all := LexAll(Numbered(program), 0); HeapOk(all, owners, h) && env < |h| && OwnS(all, owners[env], s)
    requires var c := Programs.ContextOf(program, host, policy); Eval(c, s.iterable, env, h, fuel).out == Vals([v])
    requires ForEach.Elements(host, v, elems)
    ensures var c := Programs.ContextOf(program, host, policy);
            var h1 := Set(Set(Eval(c, s.iterable, env, h, fuel).h, env, ForIter(s.id), v), env, ForIdx(s.id), VInt(0));
            && Exec(c, s, env, h, fuel) == ForEach.Visit(c, s.id, s.x, elems, 0, s.body, env, h1, fuel)
            && (!ForEach.OwnContinueAny(s.body)
                ==> Exec(c, s, env, h, fuel) == ForEach.Each(c, s.id, s.x, elems, 0, s.body, env, h1, fuel))
  {
    hide Eval, Exec, ForEach.Visit, ForEach.Each, HostOk, ForEach.Elements, LexicalContext, HeapOk;
    var c := Programs.ContextOf(program, host, policy);
    NumberedIsLexical(program, host, policy);
    ApartAll(s, program, Counters(0, 0));
    assert s == For(s.id, s.x, s.iterable, s.body);
    ForEach.ForVisits(LexAll(Numbered(program), 0), c, s.id, s.x, s.iterable, s.body, owners, env, h, fuel, v, elems);
    if !ForEach.OwnContinueAny(s.body) {
      var h1 := Set(Set(Eval(c, s.iterable, env, h, fuel).h, env, ForIter(s.id), v), env, ForIdx(s.id), VInt(0));
      ForEach.VisitsOnce(c, s.id, s.x, elems, 0, s.body, env, h1, fuel);
    }
  }

  /** The heap a program starts with is lexically scoped. */
  lemma StartIsLexical(program: seq<Stmt>, globals: map<Ident, Value>)
    requires LENGTH in globals && globals[LENGTH] == VBuiltin("tamanho")
    requires forall x :: x in globals ==> x.User? && Closures(globals[x]) == {}
    ensures HeapOk(LexAll(Numbered(program), 0), [0], [Scope(globals, None)])
  {
  }
}
