/** What programs come to: calls, branches, loops and exceptions, followed through the semantics
    to results that can be told without it. */
module Behaviour {
  import opened Syntax
  import opened Semantics
  import opened Operations
  import Scopes
  import Theorems

  // Recursion.

  const N := User("n")

  /** `se n < 1: retorne 1; retorne n * f(n - 1)` */
  function FactorialBody(f: Ident): seq<Stmt> {
    [If(Cmp(Lt, Name(N), Lit(VInt(1))), [Return(Some(Lit(VInt(1))))], Absent),
     Return(Some(Bin(Mul, Name(N), Call(Name(f), [Bin(Sub, Name(N), Lit(VInt(1)))]))))]
  }

  function Factorial(n: nat): nat {
    if n == 0 then 1 else n * Factorial(n - 1)
  }

  /** The function is bound where it was declared. */
  predicate Recursive(c: Context, f: Value, name: Ident, h: Heap) {
    && f.VFunc? && f.code in c.fns && c.fns[f.code] == FnDecl([N], FactorialBody(name)) && name != N
    && f.closure < |h| && Get(h, f.closure, name) == Some(f)
  }

  function Inner(h: Heap, f: Value, k: int): Heap
    requires f.VFunc?
  {
    h + [Scope(map[N := VInt(k)], Some(f.closure))]
  }

  /** In the scope of the call the parameter and the function itself are found. */
  lemma InnerFinds(c: Context, f: Value, name: Ident, h: Heap, k: int)
    requires Recursive(c, f, name, h)
    ensures Get(Inner(h, f, k), |h|, N) == Some(VInt(k)) && Get(Inner(h, f, k), |h|, name) == Some(f)
    ensures Recursive(c, f, name, Inner(h, f, k))
  {
    Scopes.GetGrown(h, [Scope(map[N := VInt(k)], Some(f.closure))], f.closure, name);
  }

  lemma OneStatement(c: Context, ss: seq<Stmt>, env: nat, h: Heap, fuel: nat)
    requires ss != []
    ensures var r := Exec(c, ss[0], env, h, fuel);
            ExecAll(c, ss, env, h, fuel) == if r.out.Normal? then ExecAll(c, ss[1..], env, r.h, fuel) else r
  {
    hide Exec;
  }

  lemma ReturnOf(c: Context, e: Expr, env: nat, h: Heap, fuel: nat, v: Value, h': Heap)
    requires Means(c, e, env, h, fuel) == Res(Vals([v]), h')
    ensures Exec(c, Return(Some(e)), env, h, fuel) == Res(Ret(v), h')
  {
    Evaluates(c, e, env, h, fuel);
  }

  lemma TestOf(c: Context, cond: Expr, thn: seq<Stmt>, env: nat, h: Heap, fuel: nat, b: bool)
    requires Means(c, cond, env, h, fuel) == Res(Vals([VBool(b)]), h)
    ensures Exec(c, If(cond, thn, Absent), env, h, fuel) == if b then ExecAll(c, thn, env, h, fuel) else Res(Normal, h)
  {
    Evaluates(c, cond, env, h, fuel);
    FalseValues(c.host, VBool(b));
  }

  /** The call of a function with one parameter. */
  lemma CallOf(c: Context, f: Value, body: seq<Stmt>, k: int, h: Heap, fuel: nat)
    requires f.VFunc? && f.code in c.fns && c.fns[f.code] == FnDecl([N], body) && fuel > 0
    ensures Invoke(c, f, [VInt(k)], h, fuel)
         == Returned(c.policy, ExecAll(c, body, |h|, Inner(h, f, k), fuel - 1))
  {
    hide ExecAll;
    assert [N][..0] == [] && [VInt(k)][..0] == [];
    assert Bind([N], [VInt(k)]) == map[N := VInt(k)];
  }

  lemma ArgumentOf(c: Context, k: int, env: nat, h: Heap, fuel: nat)
    requires Get(h, env, N) == Some(VInt(k))
    ensures Means(c, Bin(Sub, Name(N), Lit(VInt(1))), env, h, fuel) == Res(Vals([VInt(k - 1)]), h)
    ensures Means(c, Cmp(Lt, Name(N), Lit(VInt(1))), env, h, fuel) == Res(Vals([VBool(k < 1)]), h)
  {
    hide Get;
  }

  lemma ProductOf(c: Context, f: Value, name: Ident, k: int, env: nat, h: Heap, fuel: nat, r: int, h': Heap)
    requires Get(h, env, N) == Some(VInt(k)) && Get(h, env, name) == Some(f)
    requires Invoke(c, f, [VInt(k - 1)], h, fuel) == Res(Vals([VInt(r)]), h')
    ensures Means(c, Bin(Mul, Name(N), Call(Name(name), [Bin(Sub, Name(N), Lit(VInt(1)))])), env, h, fuel)
         == Res(Vals([VInt(k * r)]), h')
  {
    hide Get, Invoke;
    var arg := Bin(Sub, Name(N), Lit(VInt(1)));
    ArgumentOf(c, k, env, h, fuel);
    assert [arg][1..] == [] && [VInt(k - 1)] + [] == [VInt(k - 1)];
    assert MeansAll(c, [], env, h, fuel) == Res(Vals([]), h);
    assert MeansAll(c, [arg], env, h, fuel) == Res(Vals([VInt(k - 1)]), h);
    assert Means(c, Call(Name(name), [arg]), env, h, fuel) == Res(Vals([VInt(r)]), h');
  }

  /** Called with `k`, the recursive function gives the factorial of `k`, with one more level of
      fuel than calls, and changes no variable. */
  lemma {:induction false} FactorialOf(c: Context, f: Value, name: Ident, h: Heap, k: nat, fuel: nat)
    requires Recursive(c, f, name, h) && fuel > k
    ensures var r := Invoke(c, f, [VInt(k)], h, fuel);
            r.out == Vals([VInt(Factorial(k))]) && |h| <= |r.h| && r.h[..|h|] == h
    decreases k
  {
    hide Invoke, Exec, ExecAll, Get, Means;
    var inner, body := Inner(h, f, k), FactorialBody(name);
    InnerFinds(c, f, name, h, k);
    CallOf(c, f, body, k, h, fuel);
    ArgumentOf(c, k, |h|, inner, fuel - 1);
    OneStatement(c, body, |h|, inner, fuel - 1);
    TestOf(c, Cmp(Lt, Name(N), Lit(VInt(1))), [Return(Some(Lit(VInt(1))))], |h|, inner, fuel - 1, k < 1);
    if k == 0 {
      OneStatement(c, [Return(Some(Lit(VInt(1))))], |h|, inner, fuel - 1);
      ReturnsOne(c, |h|, inner, fuel - 1);
      assert inner[..|h|] == h;
    } else {
      FactorialOf(c, f, name, inner, k - 1, fuel - 1);
      var r := Invoke(c, f, [VInt(k - 1)], inner, fuel - 1);
      var product := Bin(Mul, Name(N), Call(Name(name), [Bin(Sub, Name(N), Lit(VInt(1)))]));
      ProductOf(c, f, name, k, |h|, inner, fuel - 1, Factorial(k - 1), r.h);
      ReturnOf(c, product, |h|, inner, fuel - 1, VInt(k * Factorial(k - 1)), r.h);
      assert body[1..] == [Return(Some(product))];
      OneStatement(c, body[1..], |h|, inner, fuel - 1);
      assert r.h[..|h|] == r.h[..|inner|][..|h|] == inner[..|h|] == h;
    }
  }

  lemma ReturnsOne(c: Context, env: nat, h: Heap, fuel: nat)
    ensures Exec(c, Return(Some(Lit(VInt(1)))), env, h, fuel) == Res(Ret(VInt(1)), h)
  {
    Evaluates(c, Lit(VInt(1)), env, h, fuel);
  }

  /** A program that declares `principal` gives what that returns; one that binds no such name
      and falls off its end gives nothing. */
  lemma PrincipalRuns(c: Context, id: nat, v: Value, globals: map<Ident, Value>, fuel: nat)
    requires id in c.fns && c.fns[id] == FnDecl([], [Return(Some(Lit(v)))])
    ensures var body := [Return(Some(Lit(v)))];
            var a := Theorems.RunSource(c, [Func(id, User("principal"), [], body)], globals, fuel);
            a.Value? && a.v == v
    ensures User("principal") !in globals ==>
              Theorems.RunSource(c, [], globals, fuel) == Theorems.Answer.Value(VNull, [Scope(globals, None)])
  {
    var declared := [Func(id, User("principal"), [], [Return(Some(Lit(v)))])];
    var h := [Scope(globals, None)];
    var h' := Set(h, 0, User("principal"), VFunc(User("principal"), id, 0));
    NoStatements(c, 0, h, fuel);
    NoStatements(c, 0, h', fuel);
    assert declared[1..] == [];
    OneStatement(c, declared, 0, h, fuel);
    assert ExecAll(c, declared, 0, h, fuel) == Res(Normal, h');
    Evaluates(c, Lit(v), 1, h' + [Scope(map[], Some(0))], fuel);
    OneStatement(c, c.fns[id].body, 1, h' + [Scope(map[], Some(0))], fuel);
    hide ExecAll, Eval;
  }

  // Loops.

  /** `enquanto 0 < n: s = s + n; n = n - 1` */
  function SumLoop(s: Ident): Stmt {
    While(Cmp(Lt, Lit(VInt(0)), Name(N)),
          [Assign(s, Bin(Add, Name(s), Name(N))), Assign(N, Bin(Sub, Name(N), Lit(VInt(1))))])
  }

  lemma SumOf(c: Context, s: Ident, k: int, i: int, env: nat, h: Heap, fuel: nat)
    requires Get(h, env, N) == Some(VInt(k)) && Get(h, env, s) == Some(VInt(i))
    ensures Means(c, Bin(Add, Name(s), Name(N)), env, h, fuel) == Res(Vals([VInt(i + k)]), h)
    ensures Means(c, Cmp(Lt, Lit(VInt(0)), Name(N)), env, h, fuel) == Res(Vals([VBool(0 < k)]), h)
  {
    hide Get;
  }

  lemma AssignOf(c: Context, x: Ident, e: Expr, env: nat, h: Heap, fuel: nat, v: Value)
    requires Means(c, e, env, h, fuel) == Res(Vals([v]), h)
    ensures Exec(c, Assign(x, e), env, h, fuel) == Res(Normal, Set(h, env, x, v))
  {
    Evaluates(c, e, env, h, fuel);
  }

  /** One turn of the loop. */
  lemma SumTurn(c: Context, s: Ident, k: int, i: int, env: nat, h: Heap, fuel: nat) returns (h': Heap)
    requires s != N && env < |h| && Get(h, env, N) == Some(VInt(k)) && Get(h, env, s) == Some(VInt(i))
    ensures ExecAll(c, SumLoop(s).body, env, h, fuel) == Res(Normal, h') && env < |h'|
    ensures Get(h', env, N) == Some(VInt(k - 1)) && Get(h', env, s) == Some(VInt(i + k))
  {
    hide Get, Set, Exec, Means;
    var body := SumLoop(s).body;
    SumOf(c, s, k, i, env, h, fuel);
    AssignOf(c, s, Bin(Add, Name(s), Name(N)), env, h, fuel, VInt(i + k));
    var h1 := Set(h, env, s, VInt(i + k));
    Scopes.SetThenGet(h, env, s, VInt(i + k));
    Scopes.OtherNames(h, env, s, VInt(i + k), env, N);
    ArgumentOf(c, k, env, h1, fuel);
    AssignOf(c, N, Bin(Sub, Name(N), Lit(VInt(1))), env, h1, fuel, VInt(k - 1));
    h' := Set(h1, env, N, VInt(k - 1));
    Scopes.SetThenGet(h1, env, N, VInt(k - 1));
    Scopes.OtherNames(h1, env, N, VInt(k - 1), env, s);
    hide ExecAll;
    OneStatement(c, body, env, h, fuel);
    assert body[1..] == [Assign(N, Bin(Sub, Name(N), Lit(VInt(1))))];
    OneStatement(c, body[1..], env, h1, fuel);
    NoStatements(c, env, h', fuel);
    assert body[1..][1..] == [];
  }

  lemma NoStatements(c: Context, env: nat, h: Heap, fuel: nat)
    ensures ExecAll(c, [], env, h, fuel) == Res(Normal, h)
  {
  }

  /** One round of a loop that is not left. */
  lemma Round(c: Context, cond: Expr, body: seq<Stmt>, env: nat, h: Heap, fuel: nat, b: bool, h': Heap)
    requires fuel > 0 && Means(c, cond, env, h, fuel) == Res(Vals([VBool(b)]), h)
    requires b ==> ExecAll(c, body, env, h, fuel) == Res(Normal, h')
    ensures Loop(c, cond, [], body, [], env, h, fuel)
         == if b then Loop(c, cond, [], body, [], env, h', fuel - 1) else Res(Normal, h)
  {
    Evaluates(c, cond, env, h, fuel);
    FalseValues(c.host, VBool(b));
    NoStatements(c, env, h, fuel);
    NoStatements(c, env, h', fuel);
    hide Eval, ExecAll, Truthy;
  }

  /** The loop adds up the numbers from `k` down to one. */
  lemma {:induction false} SumsUp(c: Context, s: Ident, k: nat, i: int, env: nat, h: Heap, fuel: nat)
    requires s != N && env < |h| && Get(h, env, N) == Some(VInt(k)) && Get(h, env, s) == Some(VInt(i)) && fuel > k
    ensures var r := Exec(c, SumLoop(s), env, h, fuel);
            r.out.Normal? && Get(r.h, env, N) == Some(VInt(0)) && Get(r.h, env, s) == Some(VInt(i + k * (k + 1) / 2))
    decreases k
  {
    hide Get, ExecAll, Means, Loop;
    var cond, body := SumLoop(s).cond, SumLoop(s).body;
    SumOf(c, s, k, i, env, h, fuel);
    if k > 0 {
      var h' := SumTurn(c, s, k, i, env, h, fuel);
      Round(c, cond, body, env, h, fuel, true, h');
      SumsUp(c, s, k - 1, i + k, env, h', fuel - 1);
      assert (k - 1) * k / 2 + k == k * (k + 1) / 2;
    } else {
      Round(c, cond, body, env, h, fuel, false, h);
    }
  }

  // Loop jumps.

  predicate IsJump(o: Outcome) {
    o.Brk? || o.Cont?
  }

  /** Only a statement that holds a `pare` or `continue` of the loop around it can end in one. */
  lemma {:induction false} JumpsAreOwn(c: Context, s: Stmt, env: nat, h: Heap, fuel: nat)
    ensures IsJump(Exec(c, s, env, h, fuel).out) ==> OwnJump(s)
    decreases fuel, SizeS(s), 0
  {
    hide Eval, ExecAll, Loop, Iterate, Set, OwnJumpAny;
    match s
    case If(cond, thn, els) =>
      var r := Eval(c, cond, env, h, fuel);
      JumpsAreOwnAll(c, thn, env, r.h, fuel);
      if els.Block? { JumpsAreOwnAll(c, els.body, env, r.h, fuel); }
    case While(cond, body) =>
      NoJumps();
      LoopKeepsJumps(c, cond, [], body, [], env, h, fuel);
    case For(id, x, iterable, body) => ForKeepsJumps(c, id, x, iterable, body, env, h, fuel);
    case Try(body, name, catch, fin) =>
      JumpsAreOwnAll(c, body, env, h, fuel);
      var r := ExecAll(c, body, env, h, fuel);
      var r' := r;
      if r.out.Thr? && catch.Block? {
        r' := ExecAll(c, catch.body, env, Caught(r.h, env, name, r.out.v), fuel);
        JumpsAreOwnAll(c, catch.body, env, Caught(r.h, env, name, r.out.v), fuel);
      }
      if fin.Block? { JumpsAreOwnAll(c, fin.body, env, r'.h, fuel); }
    case _ =>
  }

  lemma NoJumps()
    ensures !OwnJumpAny([])
  {
  }

  lemma {:induction false} ForKeepsJumps(c: Context, id: nat, x: Ident, iterable: Expr, body: seq<Stmt>, env: nat,
                                         h: Heap,
                                         fuel: nat)
    ensures !IsJump(Exec(c, For(id, x, iterable, body), env, h, fuel).out)
    decreases fuel, SizeS(For(id, x, iterable, body)), -1
  {
    hide Eval, ExecAll, Loop, Iterate, Set, OwnJumpAny;
    ForSizes(id, x);
    var r := Exec(c, Assign(ForIter(id), iterable), env, h, fuel);
    var h' := Set(r.h, env, ForIdx(id), VInt(0));
    NoAssignJumps(ForHead(id, x), ForStep(id));
    LoopKeepsJumps(c, ForCond(id), [ForHead(id, x)], body, [ForStep(id)], env, h', fuel);
  }

  lemma NoAssignJumps(a: Stmt, b: Stmt)
    requires a.Assign? && b.Assign?
    ensures !OwnJumpAny([a]) && !OwnJumpAny([b])
  {
    assert [a][1..] == [] && [b][1..] == [];
  }

  lemma {:induction false} JumpsAreOwnAll(c: Context, ss: seq<Stmt>, env: nat, h: Heap, fuel: nat)
    ensures IsJump(ExecAll(c, ss, env, h, fuel).out) ==> OwnJumpAny(ss)
    decreases fuel, SizeSs(ss), 0
  {
    hide Exec, OwnJump;
    if ss != [] {
      JumpsAreOwn(c, ss[0], env, h, fuel);
      JumpsAreOwnAll(c, ss[1..], env, Exec(c, ss[0], env, h, fuel).h, fuel);
    }
  }

  /** A loop takes the jumps of its body. */
  lemma {:induction false} LoopKeepsJumps(c: Context, cond: Expr,
                                          pre: seq<Stmt>, body: seq<Stmt>, post: seq<Stmt>, env: nat,
                                          h: Heap, fuel: nat)
    requires !OwnJumpAny(pre) && !OwnJumpAny(post)
    ensures !IsJump(Loop(c, cond, pre, body, post, env, h, fuel).out)
    decreases fuel, 1 + SizeE(cond) + SizeSs(pre) + SizeSs(body) + SizeSs(post), 0
  {
    hide Eval, ExecAll, OwnJumpAny;
    if fuel > 0 {
      var r := Eval(c, cond, env, h, fuel);
      JumpsAreOwnAll(c, pre, env, r.h, fuel);
      var p := ExecAll(c, pre, env, r.h, fuel);
      var b := ExecAll(c, body, env, p.h, fuel);
      JumpsAreOwnAll(c, post, env, b.h, fuel);
      LoopKeepsJumps(c, cond, pre, body, post, env, b.h, fuel - 1);
      LoopKeepsJumps(c, cond, pre, body, post, env, ExecAll(c, post, env, b.h, fuel).h, fuel - 1);
    }
  }

  lemma {:induction false} OutsideLoops(s: Stmt)
    requires LoopsOk(s, false)
    ensures !OwnJump(s)
  {
    match s
    case If(_, thn, els) =>
      OutsideLoopsAll(thn);
      if els.Block? { OutsideLoopsAll(els.body); }
    case Try(body, _, catch, fin) =>
      OutsideLoopsAll(body);
      if catch.Block? { OutsideLoopsAll(catch.body); }
      if fin.Block? { OutsideLoopsAll(fin.body); }
    case _ =>
  }

  lemma {:induction false} OutsideLoopsAll(ss: seq<Stmt>)
    requires LoopsOkAll(ss, false)
    ensures !OwnJumpAny(ss)
  {
    if ss != [] {
      OutsideLoops(ss[0]);
      OutsideLoopsAll(ss[1..]);
    }
  }

  /** No run of an accepted body ends in a `pare` or `continue`. */
  lemma NoStrayJumps(c: Context, ss: seq<Stmt>, env: nat, h: Heap, fuel: nat)
    requires LoopsOkAll(ss, false)
    ensures !IsJump(ExecAll(c, ss, env, h, fuel).out)
  {
    JumpsAreOwnAll(c, ss, env, h, fuel);
    OutsideLoopsAll(ss);
  }

  // Exceptions.

  /** `tente: lance e; pegue x: retorne x` gives what was thrown; a variable of that name in a
      scope around is not touched. */
  lemma CaughtIsThrown(c: Context, x: Ident, v: Value, env: nat, h: Heap, fuel: nat)
    requires env < |h|
    ensures var r := Exec(c, Try([Throw(Lit(v))], Some(x), Block([Return(Some(Name(x)))]), Absent), env, h, fuel);
            r.out == Ret(v) && |r.h| == |h| && forall s :: 0 <= s < |h| && s != env ==> r.h[s] == h[s]
  {
    hide Eval, ExecAll;
    Thrown(c, v, env, h, fuel);
    ReturnsCaught(c, x, v, env, h, fuel);
  }

  lemma Thrown(c: Context, v: Value, env: nat, h: Heap, fuel: nat)
    ensures ExecAll(c, [Throw(Lit(v))], env, h, fuel) == Res(Thr(v), h)
  {
    Evaluates(c, Lit(v), env, h, fuel);
    hide Eval;
    OneStatement(c, [Throw(Lit(v))], env, h, fuel);
  }

  /** A function that throws: its caller's `pegue` gets the exception where exceptions leave
      functions, elsewhere the run ends. */
  lemma ThrownByCall(c: Context, f: Value, v: Value, x: Ident, env: nat, h: Heap, fuel: nat)
    requires f.VFunc? && f.code in c.fns && c.fns[f.code] == FnDecl([N], [Throw(Lit(v))]) && env < |h| && fuel > 0
    ensures var called := [ExprStmt(Call(Lit(f), [Lit(VInt(0))]))];
            Exec(c, Try(called, Some(x), Block([Return(Some(Name(x)))]), Absent), env, h, fuel).out
            == if c.policy.propagates then Ret(v) else Fail(Uncaught(v))
  {
    hide Eval, ExecAll, Means, Invoke;
    var called := [ExprStmt(Call(Lit(f), [Lit(VInt(0))]))];
    var inner := Inner(h, f, 0);
    CallOf(c, f, [Throw(Lit(v))], 0, h, fuel);
    Thrown(c, v, |h|, inner, fuel - 1);
    var r := Returned(c.policy, Res(Thr(v), inner));
    CallMeans(c, f, env, h, fuel);
    Evaluates(c, Call(Lit(f), [Lit(VInt(0))]), env, h, fuel);
    OneStatement(c, called, env, h, fuel);
    assert ExecAll(c, called, env, h, fuel) == r;
    ReturnsCaught(c, x, v, env, inner, fuel);
  }

  /** The variable of a `pegue` is what was caught. */
  lemma ReturnsCaught(c: Context, x: Ident, v: Value, env: nat, h: Heap, fuel: nat)
    requires env < |h|
    ensures var h' := Caught(h, env, Some(x), v);
            ExecAll(c, [Return(Some(Name(x)))], env, h', fuel) == Res(Ret(v), h')
  {
    var h' := SetLocal(h, env, x, v);
    assert Get(h', env, x) == Some(v);
    ReturnOf(c, Name(x), env, h', fuel, v, h');
    OneStatement(c, [Return(Some(Name(x)))], env, h', fuel);
  }

  lemma CallMeans(c: Context, f: Value, env: nat, h: Heap, fuel: nat)
    ensures Means(c, Call(Lit(f), [Lit(VInt(0))]), env, h, fuel) == Invoke(c, f, [VInt(0)], h, fuel)
  {
    hide Invoke;
    assert [Lit(VInt(0))][1..] == [] && [VInt(0)] + [] == [VInt(0)];
    assert MeansAll(c, [], env, h, fuel) == Res(Vals([]), h);
    assert MeansAll(c, [Lit(VInt(0))], env, h, fuel) == Res(Vals([VInt(0)]), h);
  }

  /** `finalmente` runs behind a normal end and behind an exception, and does not undo it. */
  lemma FinallyRuns(c: Context, v: Value, x: Ident, i: int, throws: bool, env: nat, h: Heap, fuel: nat)
    requires env < |h| && (c.policy.keepsNull || v != VNull)
    ensures var body := if throws then [Throw(Lit(v))] else [];
            var r := Exec(c, Try(body, None, Absent, Block([Assign(x, Lit(VInt(i)))])), env, h, fuel);
            r.out == (if throws then Thr(v) else Normal) && Get(r.h, env, x) == Some(VInt(i))
  {
    var fin := [Assign(x, Lit(VInt(i)))];
    Thrown(c, v, env, h, fuel);
    NoStatements(c, env, h, fuel);
    AssignOf(c, x, Lit(VInt(i)), env, h, fuel, VInt(i));
    OneStatement(c, fin, env, h, fuel);
    NoStatements(c, env, Set(h, env, x, VInt(i)), fuel);
    assert fin[1..] == [];
    Scopes.SetThenGet(h, env, x, VInt(i));
    hide Eval, ExecAll, Get, Set;
  }
}
