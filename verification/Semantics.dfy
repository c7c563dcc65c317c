/** Run-time environments and a big-step, fuel-indexed semantics of the source language. */
module Semantics {
  import opened Syntax

  // Environments: scopes are allocated once and referred to by index.

  datatype Scope = Scope(vals: map<Ident, Value>, parent: Option<nat>)

  type Heap = seq<Scope>

  function Get(h: Heap, env: nat, x: Ident): Option<Value>
    decreases env
  {
    if env >= |h| then None
    else if x in h[env].vals then Some(h[env].vals[x])
    else
      match h[env].parent
      case Some(p) => if p < env then Get(h, p, x) else None
      case None => None
  }

  /** Assignment updates the nearest scope that already binds the name, else the local one. */
  function Set(h: Heap, env: nat, x: Ident, v: Value): (h': Heap)
    ensures |h'| == |h|
    decreases env
  {
    if env >= |h| then h
    else if x in h[env].vals then SetLocal(h, env, x, v)
    else
      match h[env].parent
      case Some(p) => if p < env && Get(h, p, x).Some? then Set(h, p, x, v) else SetLocal(h, env, x, v)
      case None => SetLocal(h, env, x, v)
  }

  function SetLocal(h: Heap, env: nat, x: Ident, v: Value): (h': Heap)
    ensures |h'| == |h|
  {
    if env < |h| then h[env := h[env].(vals := h[env].vals[x := v])] else h
  }

  /** The scope of a call: parameters bound left to right, a repeated name keeps the last value. */
  function Bind(params: seq<Ident>, args: seq<Value>): map<Ident, Value>
    requires |params| == |args|
  {
    if params == [] then map[]
    else
      var n := |params| - 1;
      Bind(params[..n], args[..n])[params[n] := args[n]]
  }

  // The host: everything an operation on values may do.

  datatype OpRes = Ok(v: Value) | Raise(v: Value) | Crash

  datatype Host = Host(
    negate: Value -> OpRes,
    awaited: Value -> OpRes,
    binary: (BinOp, Value, Value) -> OpRes,
    compare: (CmpOp, Value, Value) -> OpRes,
    subscript: (Value, Value) -> OpRes,
    mapOf: seq<Value> -> OpRes,
    builtin: (string, seq<Value>) -> OpRes,
    truthy: Value -> bool)

  /** Where the two virtual machines differ in exceptions and map literals: whether a pending `nulo` survives
      `finalmente`, whether an exception leaving a frame reaches the caller's handlers, and whether
      `BUILD_MAP 0` takes the whole operand stack. */
  datatype Policy = Policy(keepsNull: bool, propagates: bool, zeroMapTakesAll: bool)

  const PYTHON_VM := Policy(false, false, true)
  const NATIVE_VM := Policy(true, true, false)

  datatype Error = Uncaught(v: Value) | Fatal

  /** A function of the program: its parameters and body. */
  datatype FnDecl = FnDecl(params: seq<Ident>, body: seq<Stmt>)

  /** What a run depends on. `iterates` says how a `para` is understood: as the loop over two
      hidden variables that the compiler makes of it, or as the visits it stands for. */
  datatype Context = Context(host: Host, policy: Policy, fns: map<nat, FnDecl>, iterates: bool)

  function Negate(w: Host, a: Value): OpRes {
    if a.VInt? then Ok(VInt(-a.i)) else w.negate(a)
  }

  function Binary(w: Host, op: BinOp, a: Value, b: Value): OpRes {
    if a.VInt? && b.VInt? && !op.Div? then
      Ok(VInt(match op case Add => a.i + b.i case Sub => a.i - b.i case _ => a.i * b.i))
    else w.binary(op, a, b)
  }

  function Compare(w: Host, op: CmpOp, a: Value, b: Value): OpRes {
    if a.VInt? && b.VInt? then
      Ok(VBool(
           match op
           case Eq => a.i == b.i
           case Ne => a.i != b.i
           case Gt => a.i > b.i
           case Ge => a.i >= b.i
           case Lt => a.i < b.i
           case Le => a.i <= b.i))
    else w.compare(op, a, b)
  }

  /** Lists accept indices from -length to length - 1, as the host language does. */
  function Subscript(w: Host, a: Value, i: Value): OpRes {
    if a.VList? && i.VInt? && 0 <= i.i < |a.items| then Ok(a.items[i.i])
    else if a.VList? && i.VInt? && -|a.items| <= i.i < 0 then Ok(a.items[|a.items| + i.i])
    else w.subscript(a, i)
  }

  function Truthy(w: Host, v: Value): bool {
    match v
    case VNull => false
    case VBool(b) => b
    case VInt(i) => i != 0
    case VText(t) => t != ""
    case VList(items) => items != []
    case _ => w.truthy(v)
  }

  // Outcomes.

  datatype Outcome =
    | Vals(vs: seq<Value>)
    | Normal
    | Brk
    | Cont
    | Ret(v: Value)
    | Thr(v: Value)
    | Fail(err: Error)
    | Timeout

  datatype Res = Res(out: Outcome, h: Heap)

  /** The outcomes an expression can have. */
  predicate ExprOutcome(o: Outcome) {
    o.Vals? || o.Thr? || o.Fail? || o.Timeout?
  }

  function Lift(r: OpRes, h: Heap): Res {
    match r
    case Ok(v) => Res(Vals([v]), h)
    case Raise(v) => Res(Thr(v), h)
    case Crash => Res(Fail(Fatal), h)
  }

  function Eval(c: Context, e: Expr, env: nat, h: Heap, fuel: nat): (r: Res)
    ensures ExprOutcome(r.out) && (r.out.Vals? ==> |r.out.vs| == 1)
    decreases fuel, SizeE(e)
  {
    var r := EvalAll(c, Parts(e), env, h, fuel);
    if r.out.Vals? then Finish(c, e, r.out.vs, env, r.h, fuel) else r
  }

  /** Evaluates a list of expressions from left to right. */
  function EvalAll(c: Context, es: seq<Expr>, env: nat, h: Heap, fuel: nat): (r: Res)
    ensures ExprOutcome(r.out) && (r.out.Vals? ==> |r.out.vs| == |es|)
    decreases fuel, SizeEs(es)
  {
    if es == [] then Res(Vals([]), h)
    else
      var r := Eval(c, es[0], env, h, fuel);
      if !r.out.Vals? then r
      else
        var rest := EvalAll(c, es[1..], env, r.h, fuel);
        if rest.out.Vals? then Res(Vals(r.out.vs + rest.out.vs), rest.h) else rest
  }

  /** The operation of an expression, given the values of its parts. */
  function Finish(c: Context, e: Expr, vs: seq<Value>, env: nat, h: Heap, fuel: nat): (r: Res)
    requires |vs| == |Parts(e)|
    ensures ExprOutcome(r.out) && (r.out.Vals? ==> |r.out.vs| == 1)
    decreases fuel, 0, 1
  {
    match e
    case Lit(v) => Res(Vals([v]), h)
    case Name(x) =>
      var v := Get(h, env, x);
      if v.Some? then Res(Vals([v.value]), h) else Res(Fail(Fatal), h)
    case Neg(_) => Lift(Negate(c.host, vs[0]), h)
    case Await(_) => Lift(c.host.awaited(vs[0]), h)
    case Bin(op, _, _) => Lift(Binary(c.host, op, vs[0], vs[1]), h)
    case Cmp(op, _, _) => Lift(Compare(c.host, op, vs[0], vs[1]), h)
    case Index(_, _) => Lift(Subscript(c.host, vs[0], vs[1]), h)
    case ListLit(_) => Res(Vals([VList(vs)]), h)
    case MapLit(_) => Lift(c.host.mapOf(vs), h)
    case Call(_, _) => Invoke(c, vs[0], vs[1..], h, fuel)
  }

  /** A call: user functions run their body in a fresh scope under their closure. */
  function Invoke(c: Context, f: Value, args: seq<Value>, h: Heap, fuel: nat): (r: Res)
    ensures ExprOutcome(r.out) && (r.out.Vals? ==> |r.out.vs| == 1)
    decreases fuel, 0, 0
  {
    match f
    case VBuiltin(name) => Lift(c.host.builtin(name, args), h)
    case VFunc(_, id, closure) =>
      if id !in c.fns || |args| != |c.fns[id].params| then Res(Fail(Fatal), h)
      else if fuel == 0 then Res(Timeout, h)
      else
        var scope := Scope(Bind(c.fns[id].params, args), Some(closure));
        Returned(c.policy, ExecAll(c, c.fns[id].body, |h|, h + [scope], fuel - 1))
    case _ => Res(Fail(Fatal), h)
  }

  /** What a finished body means to its caller. */
  function Returned(policy: Policy, r: Res): (r': Res)
    ensures ExprOutcome(r'.out) && (r'.out.Vals? ==> |r'.out.vs| == 1)
  {
    match r.out
    case Ret(v) => Res(Vals([v]), r.h)
    case Thr(v) => if policy.propagates then r else Res(Fail(Uncaught(v)), r.h)
    case Fail(_) => r
    case Timeout => r
    case _ => Res(Vals([VNull]), r.h)
  }

  function Exec(c: Context, s: Stmt, env: nat, h: Heap, fuel: nat): (r: Res)
    ensures !r.out.Vals?
    decreases fuel, SizeS(s), 0
  {
    match s
    case Func(id, name, _, _) =>
      if id in c.fns then Res(Normal, Set(h, env, name, VFunc(name, id, env))) else Res(Fail(Fatal), h)
    case Assign(x, e) =>
      var r := Eval(c, e, env, h, fuel);
      if r.out.Vals? then Res(Normal, Set(r.h, env, x, r.out.vs[0])) else r
    case ExprStmt(e) =>
      var r := Eval(c, e, env, h, fuel);
      if r.out.Vals? then Res(Normal, r.h) else r
    case Return(None) => Res(Ret(VNull), h)
    case Return(Some(e)) =>
      var r := Eval(c, e, env, h, fuel);
      if r.out.Vals? then Res(Ret(r.out.vs[0]), r.h) else r
    case Throw(e) =>
      var r := Eval(c, e, env, h, fuel);
      if r.out.Vals? then Res(Thr(r.out.vs[0]), r.h) else r
    case If(cond, thn, els) =>
      var r := Eval(c, cond, env, h, fuel);
      if !r.out.Vals? then r
      else if Truthy(c.host, r.out.vs[0]) then ExecAll(c, thn, env, r.h, fuel)
      else if els.Block? then ExecAll(c, els.body, env, r.h, fuel)
      else Res(Normal, r.h)
    case While(cond, body) => Loop(c, cond, [], body, [], env, h, fuel)
    case For(id, x, iterable, body) =>
      ForSizes(id, x);
      var r := Exec(c, Assign(ForIter(id), iterable), env, h, fuel);
      if !r.out.Normal? then r
      else
        var h' := Set(r.h, env, ForIdx(id), VInt(0));
        if c.iterates then Iterate(c, id, x, Iterable(c, iterable, env, h, fuel), 0, body, env, h', fuel)
        else Loop(c, ForCond(id), [ForHead(id, x)], body, [ForStep(id)], env, h', fuel)
    case Try(body, name, catch, fin) =>
      var r := ExecAll(c, body, env, h, fuel);
      var r' := if r.out.Thr? && catch.Block? then ExecAll(c, catch.body, env, Caught(r.h, env, name, r.out.v), fuel)
                else r;
      if !fin.Block? || !Settles(r'.out) then r'
      else Resumed(c.policy, r'.out, ExecAll(c, fin.body, env, r'.h, fuel))
    case Break => Res(Brk, h)
    case Continue => Res(Cont, h)
  }

  /** Only a normal end or an exception enters `finalmente`; `retorne` does not. */
  predicate Settles(o: Outcome) {
    o.Normal? || o.Thr?
  }

  /** A `finalmente` that ends normally raises again what was pending before it,
      except that one of the machines forgets a pending `nulo`. */
  function Resumed(policy: Policy, before: Outcome, fin: Res): (r: Res)
    requires !fin.out.Vals?
    ensures !r.out.Vals?
  {
    if fin.out.Normal? && before.Thr? && (policy.keepsNull || !before.v.VNull?) then Res(before, fin.h) else fin
  }

  /** The heap in which `pegue` starts: its name, if there is one, is bound in the local scope. */
  function Caught(h: Heap, env: nat, name: Option<Ident>, v: Value): Heap {
    if name.Some? then SetLocal(h, env, name.value, v) else h
  }

  function ExecAll(c: Context, ss: seq<Stmt>, env: nat, h: Heap, fuel: nat): (r: Res)
    ensures !r.out.Vals?
    decreases fuel, SizeSs(ss), 0
  {
    if ss == [] then Res(Normal, h)
    else
      var r := Exec(c, ss[0], env, h, fuel);
      if r.out.Normal? then ExecAll(c, ss[1..], env, r.h, fuel) else r
  }

  /** The value a `para` goes through, once its expression has one. */
  function Iterable(c: Context, e: Expr, env: nat, h: Heap, fuel: nat): Value
    decreases fuel, SizeE(e) + 1
  {
    var r := Eval(c, e, env, h, fuel);
    if r.out.Vals? then r.out.vs[0] else VNull
  }

  /** Is there an element with number `k`, as the host counts? */
  function HasNext(w: Host, v: Value, k: nat): OpRes {
    var n := w.builtin("tamanho", [v]);
    if n.Ok? then Compare(w, Lt, VInt(k), n.v) else n
  }

  /** The visits to the elements of `v` from number `k` on: bind the element, run the body. A
      normal end moves on; `continue` comes back to the same number. */
  function Iterate(c: Context, id: nat, x: Ident, v: Value, k: nat, body: seq<Stmt>, env: nat, h: Heap,
                   fuel: nat): (r: Res)
    ensures !r.out.Vals? && !r.out.Brk? && !r.out.Cont?
    decreases fuel, SizeSs(body), 1
  {
    if fuel == 0 then Res(Timeout, h)
    else
      var more := HasNext(c.host, v, k);
      if !more.Ok? then Res(if more.Raise? then Thr(more.v) else Fail(Fatal), h)
      else if !Truthy(c.host, more.v) then Res(Normal, h)
      else
        var elem := Subscript(c.host, v, VInt(k));
        if !elem.Ok? then Res(if elem.Raise? then Thr(elem.v) else Fail(Fatal), h)
        else
          var r := ExecAll(c, body, env, Set(h, env, x, elem.v), fuel);
          if r.out.Brk? then Res(Normal, r.h)
          else if r.out.Cont? then Iterate(c, id, x, v, k, body, env, r.h, fuel - 1)
          else if r.out.Normal? then Iterate(c, id, x, v, k + 1, body, env, Set(r.h, env, ForIdx(id), VInt(k + 1)),
                                             fuel - 1)
          else r
  }

  /** While `cond` holds: `pre; body; post`, where `continue` in the body goes
      back to the test without running `post`, as the compiler patches it. */
  function Loop(c: Context, cond: Expr, pre: seq<Stmt>, body: seq<Stmt>, post: seq<Stmt>, env: nat, h: Heap,
                fuel: nat): (r: Res)
    ensures !r.out.Vals?
    decreases fuel, 1 + SizeE(cond) + SizeSs(pre) + SizeSs(body) + SizeSs(post), 0
  {
    if fuel == 0 then Res(Timeout, h)
    else
      var r := Eval(c, cond, env, h, fuel);
      if !r.out.Vals? then r
      else if !Truthy(c.host, r.out.vs[0]) then Res(Normal, r.h)
      else
        var r := ExecAll(c, pre, env, r.h, fuel);
        if r.out.Normal? then Turn(c, cond, pre, body, post, env, r.h, fuel) else r
  }

  /** The body of one turn of a loop, and the turns after it. */
  function Turn(c: Context, cond: Expr, pre: seq<Stmt>, body: seq<Stmt>, post: seq<Stmt>, env: nat, h: Heap,
                fuel: nat): (r: Res)
    requires fuel > 0
    ensures !r.out.Vals?
    decreases fuel, SizeE(cond) + SizeSs(pre) + SizeSs(body) + SizeSs(post), 1
  {
    var r := ExecAll(c, body, env, h, fuel);
    if r.out.Brk? then Res(Normal, r.h)
    else if r.out.Cont? then Loop(c, cond, pre, body, post, env, r.h, fuel - 1)
    else if !r.out.Normal? then r
    else
      var r := ExecAll(c, post, env, r.h, fuel);
      if r.out.Normal? then Loop(c, cond, pre, body, post, env, r.h, fuel - 1) else r
  }
}
