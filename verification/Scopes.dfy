/** Where names are found and where assignments land. */
module Scopes {
  import opened Syntax
  import opened Semantics

  /** A way outward through the scopes: each is the parent of the one before it. */
  predicate Path(h: Heap, path: seq<nat>) {
    && path != [] && (forall k :: 0 <= k < |path| ==> path[k] < |h|)
    && forall k :: 0 <= k < |path| - 1 ==> h[path[k]].parent == Some(path[k + 1]) && path[k + 1] < path[k]
  }

  /** The scope `path` leads to is the nearest one that binds the name. */
  predicate Nearest(h: Heap, path: seq<nat>, x: Ident) {
    && Path(h, path) && x in h[path[|path| - 1]].vals
    && forall k :: 0 <= k < |path| - 1 ==> x !in h[path[k]].vals
  }

  /** No scope outward from `env` binds the name. */
  ghost predicate Unbound(h: Heap, env: nat, x: Ident) {
    forall path :: Path(h, path) && path[0] == env ==> x !in h[path[|path| - 1]].vals
  }

  /** The heap in which only the name `x` of scope `s` is bound anew. */
  function Bound(h: Heap, s: nat, x: Ident, v: Value): Heap
    requires s < |h|
  {
    h[s := Scope(h[s].vals[x := v], h[s].parent)]
  }

  /** A name is found in the nearest scope that binds it, and assigning it changes that scope alone. */
  lemma {:induction false} LandsNearest(h: Heap, path: seq<nat>, x: Ident, v: Value)
    requires Nearest(h, path, x)
    ensures Get(h, path[0], x) == Some(h[path[|path| - 1]].vals[x])
    ensures Set(h, path[0], x, v) == Bound(h, path[|path| - 1], x, v)
    decreases |path|
  {
    if |path| > 1 {
      var outward := path[1..];
      assert forall k :: 0 <= k < |outward| ==> outward[k] == path[k + 1];
      LandsNearest(h, outward, x, v);
      assert x !in h[path[0]].vals && h[path[0]].parent == Some(path[1]);
    }
  }

  /** A name that is bound nowhere is not found, and assigning it binds it in the local scope alone. */
  lemma {:induction false} LandsLocal(h: Heap, env: nat, x: Ident, v: Value)
    requires env < |h| && Unbound(h, env, x)
    ensures Get(h, env, x) == None
    ensures Set(h, env, x, v) == Bound(h, env, x, v)
    decreases env
  {
    UnboundOut(h, env, x);
    hide Unbound;
    if Outer(h, env) { LandsLocal(h, h[env].parent.value, x, v); }
  }

  predicate Outer(h: Heap, env: nat) {
    env < |h| && h[env].parent.Some? && h[env].parent.value < env
  }

  lemma UnboundOut(h: Heap, env: nat, x: Ident)
    requires env < |h| && Unbound(h, env, x)
    ensures x !in h[env].vals && (Outer(h, env) ==> Unbound(h, h[env].parent.value, x))
  {
    assert Path(h, [env]) && [env][|[env]| - 1] == env;
    if Outer(h, env) {
      forall path | Path(h, path) && path[0] == h[env].parent.value ensures x !in h[path[|path| - 1]].vals {
        PathLonger(h, env, path);
      }
    }
  }

  lemma UnboundIn(h: Heap, env: nat, x: Ident)
    requires env < |h| && x !in h[env].vals && (Outer(h, env) ==> Unbound(h, h[env].parent.value, x))
    ensures Unbound(h, env, x)
  {
    forall path | Path(h, path) && path[0] == env ensures x !in h[path[|path| - 1]].vals {
      if |path| > 1 { PathOn(h, path); }
    }
  }

  lemma PathOn(h: Heap, path: seq<nat>)
    requires Path(h, path) && |path| > 1
    ensures h[path[0]].parent == Some(path[1]) && path[1] < path[0] && Path(h, path[1..])
    ensures path[1..][|path| - 2] == path[|path| - 1]
  {
    assert forall k :: 0 <= k < |path| - 1 ==> path[1..][k] == path[k + 1];
  }

  lemma PathLonger(h: Heap, env: nat, path: seq<nat>)
    requires Outer(h, env) && Path(h, path) && path[0] == h[env].parent.value
    ensures Path(h, [env] + path) && ([env] + path)[|path|] == path[|path| - 1]
    ensures forall x :: x !in h[env].vals && Nearest(h, path, x) ==> Nearest(h, [env] + path, x)
  {
    var longer := [env] + path;
    assert forall k :: 0 <= k < |path| ==> longer[k + 1] == path[k];
  }

  /** One of the two is the case. */
  lemma {:induction false} NearestOrNone(h: Heap, env: nat, x: Ident) returns (path: seq<nat>)
    requires env < |h|
    ensures path == [] ==> Unbound(h, env, x)
    ensures path != [] ==> Nearest(h, path, x) && path[0] == env
    decreases env
  {
    path := [];
    if x in h[env].vals {
      path := [env];
    } else if Outer(h, env) {
      path := NearestOrNone(h, h[env].parent.value, x);
      if path != [] {
        PathLonger(h, env, path);
        path := [env] + path;
      } else {
        UnboundIn(h, env, x);
      }
    } else {
      UnboundIn(h, env, x);
    }
  }

  /** An assignment from an inner scope to a name of an outer one is seen in the outer one; an
      assignment is seen where it was made; other names are not touched, wherever one looks. */
  lemma {:induction false} SetThenGet(h: Heap, env: nat, x: Ident, v: Value)
    requires env < |h|
    ensures Get(Set(h, env, x, v), env, x) == Some(v)
    ensures var p := h[env].parent;
            p.Some? && p.value < env && x !in h[env].vals && Get(h, p.value, x).Some? ==>
              Get(Set(h, env, x, v), p.value, x) == Some(v)
    decreases env
  {
    var p := h[env].parent;
    if x !in h[env].vals && p.Some? && p.value < env && Get(h, p.value, x).Some? {
      SetThenGet(h, p.value, x, v);
      SetKeepsShape(h, p.value, x, v);
      assert x !in Set(h, p.value, x, v)[env].vals;
    }
  }

  /** Parents stay, and names are bound in no scope further in. */
  lemma {:induction false} SetKeepsShape(h: Heap, env: nat, x: Ident, v: Value)
    ensures forall s :: 0 <= s < |h| ==> Set(h, env, x, v)[s].parent == h[s].parent
    ensures forall s :: env < s < |h| ==> Set(h, env, x, v)[s] == h[s]
    decreases env
  {
    if env < |h| && x !in h[env].vals && h[env].parent.Some? && h[env].parent.value < env {
      SetKeepsShape(h, h[env].parent.value, x, v);
    }
  }

  lemma {:induction false} OtherNames(h: Heap, env: nat, x: Ident, v: Value, s: nat, y: Ident)
    requires y != x
    ensures Get(Set(h, env, x, v), s, y) == Get(h, s, y)
    decreases s
  {
    hide Set;
    SetOthers(h, env, x, v, y);
    SetKeepsShape(h, env, x, v);
    if s < |h| && y !in h[s].vals && h[s].parent.Some? && h[s].parent.value < s {
      OtherNames(h, env, x, v, h[s].parent.value, y);
    }
  }

  lemma {:induction false} SetOthers(h: Heap, env: nat, x: Ident, v: Value, y: Ident)
    requires y != x
    ensures forall s :: 0 <= s < |h| ==>
                          (y in Set(h, env, x, v)[s].vals <==> y in h[s].vals)
                          && (y in h[s].vals ==> Set(h, env, x, v)[s].vals[y] == h[s].vals[y])
    decreases env
  {
    if env < |h| && x !in h[env].vals && h[env].parent.Some? && h[env].parent.value < env {
      SetOthers(h, h[env].parent.value, x, v, y);
    }
  }

  /** New scopes do not hide the old ones. */
  lemma {:induction false} GetGrown(h: Heap, more: Heap, s: nat, x: Ident)
    requires s < |h|
    ensures Get(h + more, s, x) == Get(h, s, x)
    decreases s
  {
    if x !in h[s].vals && h[s].parent.Some? && h[s].parent.value < s { GetGrown(h, more, h[s].parent.value, x); }
  }

  /** Every parameter is bound to the last argument given under its name, and nothing else is bound. */
  lemma {:induction false} Binds(params: seq<Ident>, args: seq<Value>, k: nat)
    requires |params| == |args| && k < |params| && forall j :: k < j < |params| ==> params[j] != params[k]
    ensures params[k] in Bind(params, args) && Bind(params, args)[params[k]] == args[k]
    decreases |params|
  {
    var n := |params| - 1;
    if k < n { Binds(params[..n], args[..n], k); }
  }

  lemma {:induction false} BindsOnly(params: seq<Ident>, args: seq<Value>, x: Ident)
    requires |params| == |args|
    ensures x in Bind(params, args) <==> x in params
    decreases |params|
  {
    if params != [] {
      var n := |params| - 1;
      BindsOnly(params[..n], args[..n], x);
      assert params == params[..n] + [params[n]];
    }
  }

  // A function that changes a variable of the function around it.

  function Increment(x: Ident): seq<Stmt> {
    [Assign(x, Bin(Add, Name(x), Lit(VInt(1))))]
  }

  lemma EvalIncrement(c: Context, x: Ident, i: int, env: nat, h: Heap, fuel: nat)
    requires Get(h, env, x) == Some(VInt(i))
    ensures Eval(c, Bin(Add, Name(x), Lit(VInt(1))), env, h, fuel) == Res(Vals([VInt(i + 1)]), h)
  {
    hide Get;
    var a, b := Name(x), Lit(VInt(1));
    assert Parts(a) == [] && Parts(b) == [];
    assert Eval(c, a, env, h, fuel) == Res(Vals([VInt(i)]), h);
    assert Eval(c, b, env, h, fuel) == Res(Vals([VInt(1)]), h);
    assert [a, b][1..] == [b] && [b][1..] == [];
    assert EvalAll(c, [], env, h, fuel) == Res(Vals([]), h);
    assert [VInt(1)] + [] == [VInt(1)];
    assert EvalAll(c, [b], env, h, fuel) == Res(Vals([VInt(1)]), h);
    assert [VInt(i)] + [VInt(1)] == [VInt(i), VInt(1)];
    assert EvalAll(c, [a, b], env, h, fuel) == Res(Vals([VInt(i), VInt(1)]), h);
  }

  lemma {:induction false} SetGrown(h: Heap, more: Heap, s: nat, x: Ident, v: Value)
    requires s < |h|
    ensures Set(h + more, s, x, v) == Set(h, s, x, v) + more
    decreases s
  {
    if x !in h[s].vals && h[s].parent.Some? && h[s].parent.value < s {
      GetGrown(h, more, h[s].parent.value, x);
      SetGrown(h, more, h[s].parent.value, x, v);
    }
  }

  /** In a scope of its own, an unbound name is that of the scope around. */
  lemma FromInside(h: Heap, p: nat, x: Ident, v: Value)
    requires p < |h| && Get(h, p, x).Some?
    ensures var inner := h + [Scope(map[], Some(p))];
            Get(inner, |h|, x) == Get(h, p, x)
            && Set(inner, |h|, x, v) == Set(h, p, x, v) + [Scope(map[], Some(p))]
  {
    GetGrown(h, [Scope(map[], Some(p))], p, x);
    SetGrown(h, [Scope(map[], Some(p))], p, x, v);
  }

  /** Calling it adds one to the variable around it and changes nothing else. */
  lemma Increments(c: Context, f: Value, x: Ident, i: int, h: Heap, fuel: nat)
    requires f.VFunc? && f.code in c.fns && c.fns[f.code] == FnDecl([], Increment(x)) && f.closure < |h| && fuel > 0
    requires Get(h, f.closure, x) == Some(VInt(i))
    ensures Invoke(c, f, [], h, fuel)
         == Res(Vals([VNull]), Set(h, f.closure, x, VInt(i + 1)) + [Scope(map[], Some(f.closure))])
  {
    hide Get, Set, Eval;
    var scope := Scope(map[], Some(f.closure));
    var inner, body := h + [scope], Increment(x);
    FromInside(h, f.closure, x, VInt(i + 1));
    EvalIncrement(c, x, i, |h|, inner, fuel - 1);
    assert Bind([], []) == map[];
    var after := Res(Normal, Set(inner, |h|, x, VInt(i + 1)));
    assert Exec(c, body[0], |h|, inner, fuel - 1) == after;
    assert body[1..] == [];
    assert ExecAll(c, body, |h|, inner, fuel - 1) == after;
    assert Invoke(c, f, [], h, fuel) == Returned(c.policy, ExecAll(c, body, |h|, inner, fuel - 1));
  }

  /** `inc()`, so many times. */
  function Calls(inc: Ident, n: nat): seq<Stmt> {
    if n == 0 then [] else [ExprStmt(Call(Name(inc), []))] + Calls(inc, n - 1)
  }

  lemma OneCall(c: Context, inc: Ident, f: Value, x: Ident, i: int, env: nat, h: Heap, fuel: nat)
    requires f.VFunc? && f.code in c.fns && c.fns[f.code] == FnDecl([], Increment(x)) && f.closure == env < |h|
    requires fuel > 0 && inc != x && Get(h, env, inc) == Some(f) && Get(h, env, x) == Some(VInt(i))
    ensures var r := Exec(c, ExprStmt(Call(Name(inc), [])), env, h, fuel);
            r.out.Normal? && env < |r.h| && Get(r.h, env, inc) == Some(f) && Get(r.h, env, x) == Some(VInt(i + 1))
  {
    var r := Res(Vals([VNull]), Set(h, env, x, VInt(i + 1)) + [Scope(map[], Some(env))]);
    assert Eval(c, Call(Name(inc), []), env, h, fuel) == r by {
      hide Get, Set, Invoke;
      Increments(c, f, x, i, h, fuel);
      assert [Name(inc)] + [] == [Name(inc)] && [Name(inc)][1..] == [];
      assert EvalAll(c, [], env, h, fuel) == Res(Vals([]), h);
      assert Parts(Name(inc)) == [];
      assert Eval(c, Name(inc), env, h, fuel) == Res(Vals([f]), h);
      assert [f] + [] == [f];
      assert EvalAll(c, [Name(inc)], env, h, fuel) == Res(Vals([f]), h);
      assert [f][1..] == [];
    }
    hide Get, Set, Eval;
    SetThenGet(h, env, x, VInt(i + 1));
    OtherNames(h, env, x, VInt(i + 1), env, inc);
    GetGrown(Set(h, env, x, VInt(i + 1)), [Scope(map[], Some(env))], env, x);
    GetGrown(Set(h, env, x, VInt(i + 1)), [Scope(map[], Some(env))], env, inc);
  }

  lemma {:induction false} CallsCount(c: Context, inc: Ident, f: Value, x: Ident, i: int, env: nat, h: Heap, fuel: nat,
                                      n: nat)
    requires f.VFunc? && f.code in c.fns && c.fns[f.code] == FnDecl([], Increment(x)) && f.closure == env < |h|
    requires fuel > 0 && inc != x && Get(h, env, inc) == Some(f) && Get(h, env, x) == Some(VInt(i))
    ensures ExecAll(c, Calls(inc, n) + [Return(Some(Name(x)))], env, h, fuel).out == Ret(VInt(i + n))
    decreases n
  {
    hide Get;
    var all := Calls(inc, n) + [Return(Some(Name(x)))];
    if n == 0 {
      assert all == [Return(Some(Name(x)))];
      assert Parts(Name(x)) == [] && EvalAll(c, [], env, h, fuel) == Res(Vals([]), h);
      assert Eval(c, Name(x), env, h, fuel) == Res(Vals([VInt(i)]), h);
    } else {
      OneCall(c, inc, f, x, i, env, h, fuel);
      var r := Exec(c, ExprStmt(Call(Name(inc), [])), env, h, fuel);
      assert all[0] == ExprStmt(Call(Name(inc), [])) && all[1..] == Calls(inc, n - 1) + [Return(Some(Name(x)))];
      CallsCount(c, inc, f, x, i + 1, env, r.h, fuel, n - 1);
    }
  }

  /** A counter: a function sets a variable to nought, declares a function that adds one to it, calls
      that so many times, and returns what it has counted, wherever it runs. */
  lemma Counter(c: Context, id: nat, inc: Ident, x: Ident, env: nat, h: Heap, fuel: nat, n: nat)
    requires id in c.fns && c.fns[id] == FnDecl([], Increment(x)) && inc != x && env < |h| && fuel > 0
    ensures var body := [Assign(x, Lit(VInt(0))), Func(id, inc, [], Increment(x))]
                        + (Calls(inc, n) + [Return(Some(Name(x)))]);
            ExecAll(c, body, env, h, fuel).out == Ret(VInt(n))
  {
    var rest := Calls(inc, n) + [Return(Some(Name(x)))];
    var body := [Assign(x, Lit(VInt(0))), Func(id, inc, [], Increment(x))] + rest;
    var f := VFunc(inc, id, env);
    var h1 := Set(h, env, x, VInt(0));
    var h2 := Set(h1, env, inc, f);
    SetThenGet(h, env, x, VInt(0));
    SetThenGet(h1, env, inc, f);
    OtherNames(h1, env, inc, f, env, x);
    hide Get, Set;
    CallsCount(c, inc, f, x, 0, env, h2, fuel, n);
    assert Parts(Lit(VInt(0))) == [] && EvalAll(c, [], env, h, fuel) == Res(Vals([]), h);
    assert Eval(c, Lit(VInt(0)), env, h, fuel) == Res(Vals([VInt(0)]), h);
    assert Exec(c, body[0], env, h, fuel) == Res(Normal, h1);
    assert Exec(c, body[1], env, h1, fuel) == Res(Normal, h2);
    assert body[1..][0] == body[1] && body[1..][1..] == rest;
    assert ExecAll(c, body[1..], env, h1, fuel) == ExecAll(c, rest, env, h2, fuel);
  }
}
