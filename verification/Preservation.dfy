/** Compilation preserves meaning: the machine runs the code of a statement to
    the outcome the source semantics gives it, and runs on when that is still undecided. */
module Preservation {
  import opened Syntax
  import opened Semantics
  import B = Bytecode
  import opened Machine

  /** Conditions under which a body means the same to the machine: loop jumps
      have a loop and leave no `tente`, and, for the machine that needs it, empty map
      literals are evaluated on an empty operand stack. */
  predicate Faithful(policy: Policy, body: seq<Stmt>) {
    && LoopsOkAll(body, false)
    && NoCrossAll(body)
    && (policy.zeroMapTakesAll ==> MapsOkAll(body, true))
  }

  ghost predicate FaithfulContext(c: Context) {
    !c.iterates && forall id :: id in c.fns ==> Faithful(c.policy, c.fns[id].body)
  }

  /** The machine that runs the compiled functions of a context. */
  function VmOf(c: Context): Vm {
    Vm(c.host, c.policy, map id | id in c.fns :: B.CompFn(c.fns[id].params, c.fns[id].body))
  }

  predicate CodeAt(code: seq<B.Instr>, ip: nat, piece: seq<B.Instr>) {
    ip + |piece| <= |code| && code[ip..ip + |piece|] == piece
  }

  lemma CodeSplit(code: seq<B.Instr>, ip: nat, a: seq<B.Instr>, b: seq<B.Instr>)
    requires CodeAt(code, ip, a + b)
    ensures CodeAt(code, ip, a) && CodeAt(code, ip + |a|, b)
  {
    assert (a + b)[..|a|] == a && (a + b)[|a|..] == b;
    assert code[ip..ip + |a + b|][..|a|] == code[ip..ip + |a|];
    assert code[ip..ip + |a + b|][|a|..] == code[ip + |a|..ip + |a| + |b|];
  }

  predicate InstrAt(code: seq<B.Instr>, ip: nat, i: B.Instr) {
    ip < |code| && code[ip] == i
  }

  lemma CodeHead(code: seq<B.Instr>, ip: nat, i: B.Instr)
    requires CodeAt(code, ip, [i])
    ensures InstrAt(code, ip, i)
  {
    assert code[ip..ip + 1][0] == code[ip];
  }

  /** One instruction in front of more code. */
  lemma CodeStep(code: seq<B.Instr>, ip: nat, i: B.Instr, rest: seq<B.Instr>)
    requires CodeAt(code, ip, [i] + rest)
    ensures InstrAt(code, ip, i) && CodeAt(code, ip + 1, rest)
  {
    CodeSplit(code, ip, [i], rest);
    CodeHead(code, ip, i);
  }

  /** `g` is `f` later on: only the position and values on top of the stack may differ. */
  predicate Grown(f: Frame, g: Frame) {
    g.code == f.code && g.env == f.env && g.handlers == f.handlers && f.stack <= g.stack
  }

  /** From `start`, `n` steps realise the outcome `r` relative to the frame `f`;
      `g` is the frame reached, `clean` says no value may be left on its stack. */
  predicate Sim(m: Vm, outer: seq<Frame>, start: Config, f: Frame, r: Res, fuel: nat, n: nat, g: Frame,
                end: nat, brk: Option<nat>, cnt: Option<nat>, clean: bool)
  {
    var c := Steps(m, n, start);
    match r.out
    case Vals(vs) => c == Running(outer + [f.(ip := end, stack := f.stack + vs)], r.h)
    case Normal => Reached(outer, f, r, g, end, clean, c)
    case Brk => brk.Some? && Reached(outer, f, r, g, brk.value, clean, c)
    case Cont => cnt.Some? && Reached(outer, f, r, g, cnt.value, clean, c)
    case Ret(v) => c == ReturnTo(outer, v, r.h)
    case Thr(v) => Grown(f, g) && c == Unwind(m.policy, outer, g, r.h, v)
    case Fail(err) => c == Dead(err)
    case Timeout => n >= fuel && c.Running?
  }

  predicate Reached(outer: seq<Frame>, f: Frame, r: Res, g: Frame, ip: nat, clean: bool, c: Config) {
    Grown(f, g) && g.ip == ip && (clean ==> g.stack == f.stack) && c == Running(outer + [g], r.h)
  }

  lemma Chain(m: Vm, outer: seq<Frame>, a: nat, start: Config, mid: Config, f: Frame, r: Res, fuel: nat, fuel': nat,
              n: nat, g: Frame, end: nat, brk: Option<nat>, cnt: Option<nat>, clean: bool)
    requires Steps(m, a, start) == mid
    requires Sim(m, outer, mid, f, r, fuel', n, g, end, brk, cnt, clean)
    requires fuel <= fuel' + a
    ensures Sim(m, outer, start, f, r, fuel, a + n, g, end, brk, cnt, clean)
  {
    hide Step, Unwind;
    StepsAdd(m, a, n, start);
  }

  lemma StepAt(m: Vm, outer: seq<Frame>, f: Frame, h: Heap, i: B.Instr)
    requires InstrAt(f.code, f.ip, i)
    ensures Steps(m, 1, Running(outer + [f], h)) == Execute(m, outer, f.(ip := f.ip + 1), h, i)
  {
    var frames := outer + [f];
    assert frames[..|frames| - 1] == outer && frames[|frames| - 1] == f;
    var c := Running(frames, h);
    assert Steps(m, 1, c) == Steps(m, 0, Step(m, c));
  }

  // Expressions.

  lemma {:induction false} SimE(c: Context, e: Expr, outer: seq<Frame>, f: Frame, h: Heap, fuel: nat)
    returns (n: nat, g: Frame)
    requires FaithfulContext(c) && CodeAt(f.code, f.ip, B.CompE(e))
    requires c.policy.zeroMapTakesAll ==> MapsOk(e, f.stack == [])
    ensures Sim(VmOf(c), outer, Running(outer + [f], h), f, Eval(c, e, f.env, h, fuel), fuel, n, g,
                f.ip + |B.CompE(e)|, None, None, true)
    ensures Eval(c, e, f.env, h, fuel).out.Vals? ==> n >= 1
    decreases fuel, SizeE(e), 1
  {
    hide Step, Unwind, Finish, EvalAll, Sim, B.CompEs, CodeAt, FaithfulContext;
    var m := VmOf(c);
    var start := Running(outer + [f], h);
    var code := B.CompEs(Parts(e));
    CodeSplit(f.code, f.ip, code, [B.OpOf(e)]);
    n, g := SimEs(c, Parts(e), outer, f, h, fuel);
    var r := EvalAll(c, Parts(e), f.env, h, fuel);
    Landed(m, outer, start, f, r, fuel, n, g, f.ip + |code|, None, None, true);
    if r.out.Vals? {
      var mid := f.(ip := f.ip + |code|);
      var r' := Finish(c, e, r.out.vs, f.env, r.h, fuel);
      var n';
      n', g := SimOp(c, e, r.out.vs, outer, mid, r.h, fuel);
      assert mid.(stack := mid.stack + r.out.vs) == f.(ip := f.ip + |code|, stack := f.stack + r.out.vs);
      Chain(m, outer, n, start, Running(outer + [mid.(stack := mid.stack + r.out.vs)], r.h), mid, r', fuel, fuel, n', g,
            mid.ip + 1, None, None, true);
      n := n + n';
      Rebase(m, outer, start, f, mid, r', fuel, n, g, mid.ip + 1);
    } else {
      Anywhere(m, outer, start, f, r, fuel, n, g, f.ip + |code|, f.ip + |B.CompE(e)|);
    }
  }

  /** An expression that gives no value does not depend on where its code ends. */
  lemma Anywhere(m: Vm, outer: seq<Frame>, start: Config, f: Frame, r: Res, fuel: nat, n: nat, g: Frame, end: nat,
                 end': nat)
    requires Sim(m, outer, start, f, r, fuel, n, g, end, None, None, true) && ExprOutcome(r.out) && !r.out.Vals?
    ensures Sim(m, outer, start, f, r, fuel, n, g, end', None, None, true)
  {
    hide Step, Unwind;
  }

  lemma {:induction false} SimEs(c: Context, es: seq<Expr>, outer: seq<Frame>, f: Frame, h: Heap, fuel: nat)
    returns (n: nat, g: Frame)
    requires FaithfulContext(c) && CodeAt(f.code, f.ip, B.CompEs(es))
    requires c.policy.zeroMapTakesAll ==> MapsOkParts(es, f.stack == [])
    ensures Sim(VmOf(c), outer, Running(outer + [f], h), f, EvalAll(c, es, f.env, h, fuel), fuel, n, g,
                f.ip + |B.CompEs(es)|, None, None, true)
    decreases fuel, SizeEs(es), 0
  {
    hide Step, Unwind, Eval, Sim, B.CompE, MapsOk, FaithfulContext;
    var m := VmOf(c);
    var start := Running(outer + [f], h);
    var end := f.ip + |B.CompEs(es)|;
    if es == [] {
      n, g := 0, f;
      NoValues(m, outer, f, h, fuel);
    } else {
      var code := B.CompE(es[0]);
      CodeSplit(f.code, f.ip, code, B.CompEs(es[1..]));
      n, g := SimE(c, es[0], outer, f, h, fuel);
      var r := Eval(c, es[0], f.env, h, fuel);
      Landed(m, outer, start, f, r, fuel, n, g, f.ip + |code|, None, None, true);
      if r.out.Vals? {
        var mid := f.(ip := f.ip + |code|, stack := f.stack + r.out.vs);
        var n';
        n', g := SimEs(c, es[1..], outer, mid, r.h, fuel);
        Follow(m, outer, start, f, r, n, mid, EvalAll(c, es[1..], f.env, r.h, fuel), n', g, end, fuel);
        n := n + n';
      } else {
        Anywhere(m, outer, start, f, r, fuel, n, g, f.ip + |code|, end);
      }
    }
  }

  lemma NoValues(m: Vm, outer: seq<Frame>, f: Frame, h: Heap, fuel: nat)
    ensures Sim(m, outer, Running(outer + [f], h), f, Res(Vals([]), h), fuel, 0, f, f.ip, None, None, true)
  {
    assert f.(ip := f.ip, stack := f.stack + []) == f;
  }

  /** Two groups of expressions, one after the other. */
  lemma Follow(m: Vm, outer: seq<Frame>, start: Config, f: Frame, r: Res, n: nat, mid: Frame,
               rest: Res, n': nat, g: Frame, end: nat, fuel: nat)
    requires r.out.Vals? && mid == f.(ip := mid.ip, stack := f.stack + r.out.vs)
             && Steps(m, n, start) == Running(outer + [mid], r.h)
    requires ExprOutcome(rest.out)
             && Sim(m, outer, Running(outer + [mid], r.h), mid, rest, fuel, n', g, end, None, None, true)
    ensures Sim(m, outer, start, f, Gathered(r, rest), fuel, n + n', g, end, None, None, true)
  {
    hide Step, Unwind, Finish, Semantics.Invoke, Exec, Loop;
    StepsAdd(m, n, n', start);
    if rest.out.Vals? {
      assert mid.stack + rest.out.vs == f.stack + (r.out.vs + rest.out.vs);
    }
  }

  function Gathered(r: Res, rest: Res): Res
    requires r.out.Vals?
  {
    if rest.out.Vals? then Res(Vals(r.out.vs + rest.out.vs), rest.h) else rest
  }

  /** What an expression's result makes of the frame that evaluates it. */
  function Deliver(policy: Policy, outer: seq<Frame>, f: Frame, r: Res): Config {
    match r.out
    case Vals(vs) => Running(outer + [f.(stack := f.stack + vs)], r.h)
    case Thr(v) => Unwind(policy, outer, f, r.h, v)
    case Fail(err) => Dead(err)
    case _ => Stuck
  }

  /** Every operation but a call takes one step. */
  lemma ExecuteOp(c: Context, e: Expr, vs: seq<Value>, outer: seq<Frame>, f: Frame, h: Heap, fuel: nat)
    requires |vs| == |Parts(e)| && !e.Call?
    requires c.policy.zeroMapTakesAll && e == MapLit([]) ==> f.stack == []
    ensures Execute(VmOf(c), outer, f.(stack := f.stack + vs), h, B.OpOf(e))
         == Deliver(c.policy, outer, f, Finish(c, e, vs, f.env, h, fuel))
  {
    hide Semantics.Invoke, Unwind, Execute, Deliver, PushResult, Lift, Semantics.Negate, Semantics.Binary,
      Semantics.Compare, Semantics.Subscript, Get;
    var m := VmOf(c);
    match e
    case Lit(v) =>
      assert f.(stack := f.stack + vs) == f;
      ExecuteLoad(m, outer, f, h, v, User(""));
    case Name(x) =>
      assert f.(stack := f.stack + vs) == f;
      ExecuteLoad(m, outer, f, h, VNull, x);
    case Neg(_) =>
      ExecuteNegate(m, outer, f, vs, h);
      DeliverLifted(m, outer, f, h, Negate(m.host, vs[0]));
    case Await(_) =>
      ExecuteAwait(m, outer, f, vs, h);
      DeliverLifted(m, outer, f, h, m.host.awaited(vs[0]));
    case Bin(op, _, _) =>
      ExecuteBinary(m, outer, f, vs, h, op);
      DeliverLifted(m, outer, f, h, Binary(m.host, op, vs[0], vs[1]));
    case Cmp(op, _, _) =>
      ExecuteCompare(m, outer, f, vs, h, op);
      DeliverLifted(m, outer, f, h, Compare(m.host, op, vs[0], vs[1]));
    case Index(_, _) =>
      ExecuteSubscr(m, outer, f, vs, h);
      DeliverLifted(m, outer, f, h, Subscript(m.host, vs[0], vs[1]));
    case ListLit(_) =>
      ExecuteList(m, outer, f, vs, h, |vs|);
      DeliverLifted(m, outer, f, h, Ok(VList(vs)));
    case MapLit(entries) =>
      if entries == [] { assert e == MapLit([]); }
      ExecuteMap(m, outer, f, vs, h, |entries|);
      DeliverLifted(m, outer, f, h, m.host.mapOf(vs));
  }

  /** The result of an operation on values is pushed, raised or fatal. */
  lemma DeliverLifted(m: Vm, outer: seq<Frame>, f: Frame, h: Heap, r: OpRes)
    ensures Deliver(m.policy, outer, f, Lift(r, h)) == PushResult(m, outer, f, h, r)
    ensures r.Ok? ==> Lift(r, h) == Res(Vals([r.v]), h) && PushResult(m, outer, f, h, r) == Push(outer, f, h, r.v)
  {
    hide Unwind;
  }

  lemma ExecuteLoad(m: Vm, outer: seq<Frame>, f: Frame, h: Heap, v: Value, x: Ident)
    ensures Execute(m, outer, f, h, B.LoadConst(v)) == Running(outer + [f.(stack := f.stack + [v])], h)
    ensures Execute(m, outer, f, h, B.LoadName(x))
         == var g := Get(h, f.env, x);
            if g.Some? then Running(outer + [f.(stack := f.stack + [g.value])], h) else Dead(Fatal)
    ensures Deliver(m.policy, outer, f, Res(Vals([v]), h)) == Running(outer + [f.(stack := f.stack + [v])], h)
    ensures var g := Get(h, f.env, x);
            Deliver(m.policy, outer, f, if g.Some? then Res(Vals([g.value]), h) else Res(Fail(Fatal), h))
            == if g.Some? then Running(outer + [f.(stack := f.stack + [g.value])], h) else Dead(Fatal)
  {
    hide Unwind, Get;
  }

  lemma ExecuteNegate(m: Vm, outer: seq<Frame>, f: Frame, vs: seq<Value>, h: Heap)
    requires |vs| == 1
    ensures Execute(m, outer, f.(stack := f.stack + vs), h, B.Negate)
         == PushResult(m, outer, f, h, Negate(m.host, vs[0]))
  {
    hide Unwind;
    Operands(f, vs);
  }

  lemma ExecuteAwait(m: Vm, outer: seq<Frame>, f: Frame, vs: seq<Value>, h: Heap)
    requires |vs| == 1
    ensures Execute(m, outer, f.(stack := f.stack + vs), h, B.AwaitTop)
         == PushResult(m, outer, f, h, m.host.awaited(vs[0]))
  {
    hide Unwind;
    Operands(f, vs);
  }

  lemma ExecuteBinary(m: Vm, outer: seq<Frame>, f: Frame, vs: seq<Value>, h: Heap, op: BinOp)
    requires |vs| == 2
    ensures Execute(m, outer, f.(stack := f.stack + vs), h, B.Binary(op))
         == PushResult(m, outer, f, h, Binary(m.host, op, vs[0], vs[1]))
  {
    hide Unwind;
    Operands(f, vs);
  }

  lemma ExecuteCompare(m: Vm, outer: seq<Frame>, f: Frame, vs: seq<Value>, h: Heap, op: CmpOp)
    requires |vs| == 2
    ensures Execute(m, outer, f.(stack := f.stack + vs), h, B.CompareOp(op))
         == PushResult(m, outer, f, h, Compare(m.host, op, vs[0], vs[1]))
  {
    hide Unwind;
    Operands(f, vs);
  }

  lemma ExecuteSubscr(m: Vm, outer: seq<Frame>, f: Frame, vs: seq<Value>, h: Heap)
    requires |vs| == 2
    ensures Execute(m, outer, f.(stack := f.stack + vs), h, B.BinarySubscr)
         == PushResult(m, outer, f, h, Subscript(m.host, vs[0], vs[1]))
  {
    hide Unwind;
    Operands(f, vs);
  }

  lemma ExecuteList(m: Vm, outer: seq<Frame>, f: Frame, vs: seq<Value>, h: Heap, n: nat)
    requires |vs| == n
    ensures Execute(m, outer, f.(stack := f.stack + vs), h, B.BuildList(n)) == Push(outer, f, h, VList(vs))
  {
    hide Unwind;
    Operands(f, vs);
    var full := f.(stack := f.stack + vs);
    assert Execute(m, outer, full, h, B.BuildList(n)) == Push(outer, Drop(full, n), h, VList(Top(full, n))) by {
      hide Unwind, Push, Drop, Top;
    }
  }

  lemma ExecuteMap(m: Vm, outer: seq<Frame>, f: Frame, vs: seq<Value>, h: Heap, n: nat)
    requires |vs| == 2 * n && (m.policy.zeroMapTakesAll && n == 0 ==> f.stack == [])
    ensures Execute(m, outer, f.(stack := f.stack + vs), h, B.BuildMap(n))
         == PushResult(m, outer, f, h, m.host.mapOf(vs))
  {
    hide Unwind;
    Operands(f, vs);
  }

  lemma Operands(f: Frame, vs: seq<Value>)
    ensures var full := f.(stack := f.stack + vs);
            && |full.stack| == |f.stack| + |vs|
            && Drop(full, |vs|) == f && Top(full, |vs|) == vs
            && (vs == [] ==> full == f)
            && (|vs| >= 1 ==> full.stack[|full.stack| - 1] == vs[|vs| - 1])
            && (|vs| >= 2 ==> full.stack[|full.stack| - 2] == vs[|vs| - 2])
  {
    var full := f.(stack := f.stack + vs);
    assert full.stack[..|f.stack|] == f.stack;
  }

  /** The operation of an expression, once its parts are on the operand stack of `f`. */
  lemma {:induction false} SimOp(c: Context, e: Expr, vs: seq<Value>, outer: seq<Frame>, f: Frame, h: Heap, fuel: nat)
    returns (n: nat, g: Frame)
    requires FaithfulContext(c) && CodeAt(f.code, f.ip, [B.OpOf(e)]) && |vs| == |Parts(e)|
    requires c.policy.zeroMapTakesAll && e == MapLit([]) ==> f.stack == []
    ensures Sim(VmOf(c), outer, Running(outer + [f.(stack := f.stack + vs)], h), f,
                Finish(c, e, vs, f.env, h, fuel), fuel, n, g, f.ip + 1, None, None, true)
    ensures Finish(c, e, vs, f.env, h, fuel).out.Vals? ==> n >= 1
    decreases fuel, 0, 1
  {
    hide Step, Unwind;
    var start := Running(outer + [f.(stack := f.stack + vs)], h);
    var at := f.(ip := f.ip + 1);
    OpStep(c, e, vs, outer, f, h);
    if e.Call? {
      n, g := SimInvoke(c, vs[0], vs[1..], outer, at, h, fuel);
      ExecuteCall(c, e, vs, outer, at, h);
      n := SimCall(c, vs, outer, start, f, h, fuel, Semantics.Invoke(c, vs[0], vs[1..], h, fuel), n, g);
    } else {
      n, g := 1, at;
      ExecuteOp(c, e, vs, outer, at, h, fuel);
      Delivered(VmOf(c), outer, start, f, Finish(c, e, vs, f.env, h, fuel), fuel);
    }
  }

  lemma OpStep(c: Context, e: Expr, vs: seq<Value>, outer: seq<Frame>, f: Frame, h: Heap)
    requires CodeAt(f.code, f.ip, [B.OpOf(e)])
    ensures Steps(VmOf(c), 1, Running(outer + [f.(stack := f.stack + vs)], h))
         == Execute(VmOf(c), outer, f.(ip := f.ip + 1, stack := f.stack + vs), h, B.OpOf(e))
  {
    CodeHead(f.code, f.ip, B.OpOf(e));
    StepAt(VmOf(c), outer, f.(stack := f.stack + vs), h, B.OpOf(e));
  }

  lemma ExecuteCall(c: Context, e: Expr, vs: seq<Value>, outer: seq<Frame>, f: Frame, h: Heap)
    requires e.Call? && |vs| == |Parts(e)|
    ensures Execute(VmOf(c), outer, f.(stack := f.stack + vs), h, B.OpOf(e))
         == Machine.Invoke(VmOf(c), outer, f, h, vs[0], vs[1..])
  {
    hide Execute, Machine.Invoke;
    assert B.OpOf(e) == B.CallFn(|e.args|) && |vs| == |e.args| + 1;
    ExecuteCallFn(VmOf(c), outer, f, vs, h, |e.args|);
  }

  lemma ExecuteCallFn(m: Vm, outer: seq<Frame>, f: Frame, vs: seq<Value>, h: Heap, n: nat)
    requires |vs| == n + 1
    ensures Execute(m, outer, f.(stack := f.stack + vs), h, B.CallFn(n))
         == Machine.Invoke(m, outer, f, h, vs[0], vs[1..])
  {
    hide Unwind, Machine.Invoke, EndBlock, Push, PushResult, Negate, Binary, Compare, Subscript, ReturnTo, Drop, Top,
      Get, Set, Truthy;
    CallPops(f, vs);
  }

  lemma Delivered(m: Vm, outer: seq<Frame>, start: Config, f: Frame, r: Res, fuel: nat)
    requires ExprOutcome(r.out) && !r.out.Timeout?
    requires Steps(m, 1, start) == Deliver(m.policy, outer, f.(ip := f.ip + 1), r)
    ensures Sim(m, outer, start, f, r, fuel, 1, f.(ip := f.ip + 1), f.ip + 1, None, None, true)
  {
    hide Step, Unwind;
  }

  /** The call instruction takes one step more than the call it starts. */
  lemma SimCall(c: Context, vs: seq<Value>, outer: seq<Frame>, start: Config, f: Frame, h: Heap, fuel: nat, r: Res,
                n: nat, g: Frame)
    returns (n': nat)
    requires |vs| > 0 && start.Running?
    requires Steps(VmOf(c), 1, start) == Machine.Invoke(VmOf(c), outer, f.(ip := f.ip + 1), h, vs[0], vs[1..])
    requires r == Semantics.Invoke(c, vs[0], vs[1..], h, fuel)
    requires (r.out.Timeout? && fuel == 0)
             || Sim(VmOf(c), outer, Machine.Invoke(VmOf(c), outer, f.(ip := f.ip + 1), h, vs[0], vs[1..]),
                    f.(ip := f.ip + 1), r, Less(fuel), n, g, f.ip + 1, None, None, true)
    ensures Sim(VmOf(c), outer, start, f, r, fuel, n', g, f.ip + 1, None, None, true)
    ensures n' == 0 ==> fuel == 0 && r.out.Timeout?
  {
    hide Step, Unwind;
    var m := VmOf(c);
    if r.out.Timeout? && fuel == 0 {
      n' := 0;
    } else {
      var at := f.(ip := f.ip + 1);
      n' := 1 + n;
      Chain(m, outer, 1, start, Machine.Invoke(m, outer, at, h, vs[0], vs[1..]), at, r,
            fuel, Less(fuel), n, g, f.ip + 1, None, None, true);
      Rebase(m, outer, start, f, at, r, fuel, n', g, f.ip + 1);
    }
  }

  function Less(fuel: nat): nat {
    if fuel == 0 then 0 else fuel - 1
  }

  lemma CallPops(f: Frame, vs: seq<Value>)
    requires |vs| > 0
    ensures var full := f.(stack := f.stack + vs);
            Drop(full, |vs|) == f && full.stack[|f.stack|] == vs[0] && Top(full, |vs| - 1) == vs[1..]
  {
    var full := f.(stack := f.stack + vs);
    assert full.stack[..|f.stack|] == f.stack;
  }

  lemma Rebase(m: Vm, outer: seq<Frame>, start: Config, f: Frame, f': Frame, r: Res, fuel: nat, n: nat, g: Frame,
               end: nat)
    requires Sim(m, outer, start, f', r, fuel, n, g, end, None, None, true)
    requires f' == f.(ip := f'.ip) && ExprOutcome(r.out)
    ensures Sim(m, outer, start, f, r, fuel, n, g, end, None, None, true)
  {
    hide Step, Unwind;
  }

  /** A call, from the configuration right after the call instruction popped its operands. */
  lemma {:induction false} SimInvoke(c: Context, v: Value, args: seq<Value>, outer: seq<Frame>, f: Frame, h: Heap,
                                     fuel: nat)
    returns (n: nat, g: Frame)
    requires FaithfulContext(c)
    ensures var r := Semantics.Invoke(c, v, args, h, fuel);
            (r.out.Timeout? && fuel == 0)
            || Sim(VmOf(c), outer, Machine.Invoke(VmOf(c), outer, f, h, v, args), f, r, Less(fuel), n, g, f.ip, None,
                   None, true)
    decreases fuel, 0, 0
  {
    hide Step, Unwind, Sim, ExecAll, B.CompSs, B.LenSs, MapsOkAll, LoopsOkAll, NoCrossAll, HasTryAny, Returned;
    var m := VmOf(c);
    if v.VFunc? && v.code in c.fns && |args| == |c.fns[v.code].params| && fuel > 0 {
      var fn := c.fns[v.code];
      var body := B.CompSs(fn.body, 0, None, None);
      var inner := Frame(B.CompFn(fn.params, fn.body).code, 0, |h|, [], []);
      var h' := h + [Scope(Bind(fn.params, args), Some(v.closure))];
      assert CodeAt(inner.code, 0, body);
      n, g := SimSs(c, fn.body, None, None, outer + [f], inner, h', fuel - 1);
      assert outer + [f] + [inner] == (outer + [f]) + [inner];
      n := SimReturn(m, outer, f, Running(outer + [f] + [inner], h'), inner,
                     ExecAll(c, fn.body, |h|, h', fuel - 1), fuel - 1, n, g, !HasTryAny(fn.body));
      g := f;
    } else {
      n, g := 0, f;
      SimHostCall(c, v, args, outer, f, h, fuel);
    }
  }

  /** A call that enters no function of the program. */
  lemma SimHostCall(c: Context, v: Value, args: seq<Value>, outer: seq<Frame>, f: Frame, h: Heap, fuel: nat)
    requires !(v.VFunc? && v.code in c.fns && |args| == |c.fns[v.code].params| && fuel > 0)
    ensures var r := Semantics.Invoke(c, v, args, h, fuel);
            (r.out.Timeout? && fuel == 0)
            || Sim(VmOf(c), outer, Machine.Invoke(VmOf(c), outer, f, h, v, args), f, r, Less(fuel), 0, f, f.ip, None,
                   None, true)
  {
    hide Step, Unwind;
  }

  /** From the outcome of a body to the outcome of its call. */
  lemma SimReturn(m: Vm, outer: seq<Frame>, f: Frame, start: Config, inner: Frame, r: Res, fuel: nat, n: nat,
                  callee: Frame, clean: bool)
    returns (n': nat)
    requires !r.out.Vals? && inner.handlers == []
    requires |inner.code| >= 2 && inner.code[|inner.code| - 2..] == [B.LoadConst(VNull), B.ReturnValue]
    requires Sim(m, outer + [f], start, inner, r, fuel, n, callee, |inner.code| - 2, None, None, clean)
    ensures Sim(m, outer, start, f, Returned(m.policy, r), fuel, n', f, f.ip, None, None, true)
  {
    hide Step;
    n' := n;
    assert (outer + [f])[..|outer|] == outer;
    if r.out.Normal? {
      ReturnNull(m, outer + [f], callee, r.h);
      StepsAdd(m, n, 2, start);
      n' := n + 2;
    }
  }

  lemma ReturnNull(m: Vm, outer: seq<Frame>, f: Frame, h: Heap)
    requires InstrAt(f.code, f.ip, B.LoadConst(VNull)) && InstrAt(f.code, f.ip + 1, B.ReturnValue)
    ensures Steps(m, 2, Running(outer + [f], h)) == ReturnTo(outer, VNull, h)
  {
    StepAt(m, outer, f, h, B.LoadConst(VNull));
    var f' := f.(ip := f.ip + 1, stack := f.stack + [VNull]);
    StepAt(m, outer, f', h, B.ReturnValue);
    StepsAdd(m, 1, 1, Running(outer + [f], h));
  }

  lemma HaltNull(m: Vm, outer: seq<Frame>, f: Frame, h: Heap)
    requires InstrAt(f.code, f.ip, B.Halt)
    ensures Steps(m, 1, Running(outer + [f], h)) == ReturnTo(outer, VNull, h)
  {
    StepAt(m, outer, f, h, B.Halt);
  }

  // Statements.

  ghost predicate Ready(c: Context, f: Frame, code: seq<B.Instr>, brk: Option<nat>, cnt: Option<nat>) {
    FaithfulContext(c) && CodeAt(f.code, f.ip, code) && brk.Some? == cnt.Some?
  }

  ghost predicate Plain(s: Stmt, brk: Option<nat>) {
    LoopsOk(s, brk.Some?) && NoCross(s)
  }

  ghost predicate PlainAll(ss: seq<Stmt>, brk: Option<nat>) {
    LoopsOkAll(ss, brk.Some?) && NoCrossAll(ss)
  }

  /** `Chain` for a statement that starts in a later frame of the same activation. */
  lemma ChainFrom(m: Vm, outer: seq<Frame>, a: nat, start: Config, f: Frame, f': Frame, h': Heap, r: Res, fuel: nat,
                  fuel': nat,
                  n: nat, g: Frame, end: nat, brk: Option<nat>, cnt: Option<nat>, clean: bool, clean': bool)
    requires Steps(m, a, start) == Running(outer + [f'], h') && Grown(f, f') && !r.out.Vals?
    requires clean ==> clean' && f'.stack == f.stack
    requires Sim(m, outer, Running(outer + [f'], h'), f', r, fuel', n, g, end, brk, cnt, clean')
    requires fuel <= fuel' + a
    ensures Sim(m, outer, start, f, r, fuel, a + n, g, end, brk, cnt, clean)
  {
    hide Step, Unwind;
    StepsAdd(m, a, n, start);
  }

  /** A statement that ends normally in front of a jump. */
  lemma ThenJump(m: Vm, outer: seq<Frame>, start: Config, f: Frame, r: Res, fuel: nat, n: nat, g: Frame, end: nat,
                 brk: Option<nat>, cnt: Option<nat>, clean: bool, target: nat) returns (n': nat, g': Frame)
    requires Sim(m, outer, start, f, r, fuel, n, g, end, brk, cnt, clean) && !r.out.Vals?
    requires InstrAt(f.code, end, B.Jump(Some(target)))
    ensures Sim(m, outer, start, f, r, fuel, n', g', target, brk, cnt, clean)
    ensures n' >= n
  {
    hide Step, Unwind;
    n', g' := n, g;
    if r.out.Normal? {
      StepAt(m, outer, g, r.h, B.Jump(Some(target)));
      StepsAdd(m, n, 1, start);
      n', g' := n + 1, g.(ip := target);
      assert g.(ip := g.ip + 1).(ip := target) == g';
    }
  }

  /** An expression followed by the instruction that consumes its value. */
  lemma {:induction false} SimThen(c: Context, e: Expr, i: B.Instr, outer: seq<Frame>, f: Frame, h: Heap, fuel: nat,
                                   end: nat, brk: Option<nat>, cnt: Option<nat>, clean: bool)
    returns (n: nat, g: Frame)
    requires FaithfulContext(c) && CodeAt(f.code, f.ip, B.CompE(e)) && InstrAt(f.code, f.ip + |B.CompE(e)|, i)
    requires c.policy.zeroMapTakesAll ==> MapsOk(e, f.stack == [])
    ensures var r := Eval(c, e, f.env, h, fuel);
            if r.out.Vals? then
              n >= 2 && Steps(VmOf(c), n, Running(outer + [f], h))
                        == Execute(VmOf(c), outer, f.(ip := f.ip + |B.CompE(e)| + 1, stack := f.stack + r.out.vs), r.h,
                                   i)
            else Sim(VmOf(c), outer, Running(outer + [f], h), f, r, fuel, n, g, end, brk, cnt, clean)
    decreases fuel, SizeE(e), 2
  {
    hide Step, Unwind, Eval, Sim, Execute, B.CompE, CodeAt, MapsOk, FaithfulContext;
    var m := VmOf(c);
    var start := Running(outer + [f], h);
    n, g := SimE(c, e, outer, f, h, fuel);
    var r := Eval(c, e, f.env, h, fuel);
    Landed(m, outer, start, f, r, fuel, n, g, f.ip + |B.CompE(e)|, None, None, true);
    if r.out.Vals? {
      var mid := f.(ip := f.ip + |B.CompE(e)|, stack := f.stack + r.out.vs);
      StepAt(m, outer, mid, r.h, i);
      StepsAdd(m, n, 1, start);
      n := n + 1;
    } else {
      Elsewhere(m, outer, start, f, r, fuel, n, g, f.ip + |B.CompE(e)|, None, None, true, fuel, end, brk, cnt, clean);
    }
  }

  lemma {:induction false} SimSs(c: Context, ss: seq<Stmt>, brk: Option<nat>, cnt: Option<nat>,
                                 outer: seq<Frame>, f: Frame, h: Heap, fuel: nat)
    returns (n: nat, g: Frame)
    requires Ready(c, f, B.CompSs(ss, f.ip, brk, cnt), brk, cnt) && PlainAll(ss, brk)
    requires c.policy.zeroMapTakesAll ==> MapsOkAll(ss, f.stack == [])
    ensures Sim(VmOf(c), outer, Running(outer + [f], h), f, ExecAll(c, ss, f.env, h, fuel), fuel, n, g,
                f.ip + B.LenSs(ss), brk, cnt, !HasTryAny(ss))
    decreases fuel, SizeSs(ss), 0
  {
    hide Step, Execute, Unwind, Eval, Semantics.Invoke, Exec, Loop, B.CompS, B.LenS, B.CompE, MapsOkS, LoopsOk, NoCross,
      HasTry;
    if ss == [] {
      n, g := 0, f;
    } else {
      var m := VmOf(c);
      var start := Running(outer + [f], h);
      CodeSplit(f.code, f.ip, B.CompS(ss[0], f.ip, brk, cnt), B.CompSs(ss[1..], f.ip + B.LenS(ss[0]), brk, cnt));
      n, g := SimS(c, ss[0], brk, cnt, outer, f, h, fuel);
      var r := Exec(c, ss[0], f.env, h, fuel);
      if r.out.Normal? {
        var mid := g;
        if c.policy.zeroMapTakesAll {
          MapsMonotoneAll(ss[1..], f.stack == [] && !HasTry(ss[0]), mid.stack == []);
        }
        var n';
        n', g := SimSs(c, ss[1..], brk, cnt, outer, mid, r.h, fuel);
        ChainFrom(m, outer, n, start, f, mid, r.h, ExecAll(c, ss[1..], f.env, r.h, fuel), fuel, fuel, n', g,
                  f.ip + B.LenSs(ss), brk, cnt, !HasTryAny(ss), !HasTryAny(ss[1..]));
        n := n + n';
      }
    }
  }

  lemma {:induction false} SimS(c: Context, s: Stmt, brk: Option<nat>, cnt: Option<nat>, outer: seq<Frame>, f: Frame,
                                h: Heap, fuel: nat)
    returns (n: nat, g: Frame)
    requires Ready(c, f, B.CompS(s, f.ip, brk, cnt), brk, cnt) && Plain(s, brk)
    requires c.policy.zeroMapTakesAll ==> MapsOkS(s, f.stack == [])
    ensures Sim(VmOf(c), outer, Running(outer + [f], h), f, Exec(c, s, f.env, h, fuel), fuel, n, g,
                f.ip + B.LenS(s), brk, cnt, !HasTry(s))
    decreases fuel, SizeS(s), 4
  {
    hide Step, Unwind, Exec, Sim, B.CompS, B.LenS, LoopsOk, NoCross, HasTry, MapsOkS, FaithfulContext, CodeAt;
    match s
    case If(_, _, _) => n, g := SimIf(c, s, brk, cnt, outer, f, h, fuel);
    case While(_, _) => n, g := SimWhile(c, s, brk, cnt, outer, f, h, fuel);
    case For(_, _, _, _) => n, g := SimFor(c, s, brk, cnt, outer, f, h, fuel);
    case Try(_, _, _, _) => n, g := SimTry(c, s, brk, cnt, outer, f, h, fuel);
    case Func(_, _, _, _) => n, g := SimSimple(c, s, brk, cnt, outer, f, h, fuel);
    case Break => n, g := SimSimple(c, s, brk, cnt, outer, f, h, fuel);
    case Continue => n, g := SimSimple(c, s, brk, cnt, outer, f, h, fuel);
    case _ =>
      NoTryInside(s);
      n, g := SimConsuming(c, s, brk, cnt, outer, f, h, fuel);
  }

  lemma NoTryInside(s: Stmt)
    requires Consumes(s)
    ensures !HasTry(s)
  {
  }

  lemma {:induction false} SimWhile(c: Context, s: Stmt, brk: Option<nat>, cnt: Option<nat>,
                                    outer: seq<Frame>, f: Frame, h: Heap, fuel: nat)
    returns (n: nat, g: Frame)
    requires Ready(c, f, B.CompS(s, f.ip, brk, cnt), brk, cnt) && Plain(s, brk) && s.While?
    requires c.policy.zeroMapTakesAll ==> MapsOkS(s, f.stack == [])
    ensures Sim(VmOf(c), outer, Running(outer + [f], h), f, Exec(c, s, f.env, h, fuel), fuel, n, g,
                f.ip + B.LenS(s), brk, cnt, !HasTry(s))
    decreases fuel, SizeS(s), 0
  {
    hide Step, Unwind, Loop, Sim, MapsOk, MapsOkAll, LoopsOkAll, NoCrossAll, HasTryAny, CodeAt, B.CompLoop,
      FaithfulContext, B.CompE;
    NoStatements();
    n, g := SimLoop(c, s.cond, [], s.body, [], outer, f, h, fuel);
    Relabel(VmOf(c), outer, Running(outer + [f], h), f, Exec(c, s, f.env, h, fuel), fuel, n, g, f.ip + B.LenS(s), brk,
            cnt, !HasTry(s));
  }

  lemma NoStatements()
    ensures PlainAll([], None) && MapsOkAll([], false) && !HasTryAny([]) && B.LenSs([]) == 0 && SizeSs([]) == 0
  {
  }

  lemma {:induction false} SimSimple(c: Context, s: Stmt, brk: Option<nat>, cnt: Option<nat>,
                                     outer: seq<Frame>, f: Frame, h: Heap, fuel: nat)
    returns (n: nat, g: Frame)
    requires Ready(c, f, B.CompS(s, f.ip, brk, cnt), brk, cnt) && Plain(s, brk)
    requires c.policy.zeroMapTakesAll ==> MapsOkS(s, f.stack == [])
    requires s.Func? || s.Break? || s.Continue?
    ensures Sim(VmOf(c), outer, Running(outer + [f], h), f, Exec(c, s, f.env, h, fuel), fuel, n, g,
                f.ip + B.LenS(s), brk, cnt, !HasTry(s))
    decreases fuel, SizeS(s), 1
  {
    hide Step, Unwind, Eval;
    var m := VmOf(c);
    match s
    case Func(id, name, _, _) => n, g := SimFunc(c, s, outer, f, h, fuel, brk, cnt);
    case Break => n, g := SimJump(m, outer, f, h, brk);
    case Continue => n, g := SimJump(m, outer, f, h, cnt);
  }

  lemma {:induction false} SimConsuming(c: Context, s: Stmt, brk: Option<nat>, cnt: Option<nat>,
                                        outer: seq<Frame>, f: Frame, h: Heap, fuel: nat)
    returns (n: nat, g: Frame)
    requires Ready(c, f, B.CompS(s, f.ip, brk, cnt), brk, cnt) && Consumes(s)
    requires c.policy.zeroMapTakesAll ==> MapsOkS(s, f.stack == [])
    ensures Sim(VmOf(c), outer, Running(outer + [f], h), f, Exec(c, s, f.env, h, fuel), fuel, n, g,
                f.ip + B.LenS(s), brk, cnt, true)
    decreases fuel, SizeS(s), 0
  {
    hide Step, Unwind, Eval, Exec, Execute, Sim, B.CompE, B.CompS, MapsOk;
    ConsumingCode(s, f.ip, brk, cnt, f.stack == []);
    CodeSplit(f.code, f.ip, B.CompE(Consumed(s)), [Consumer(s)]);
    CodeHead(f.code, f.ip + |B.CompE(Consumed(s))|, Consumer(s));
    n, g := SimThen(c, Consumed(s), Consumer(s), outer, f, h, fuel, f.ip + B.LenS(s), brk, cnt, true);
    n, g := SimConsumed(c, s, outer, f, h, fuel, brk, cnt, Eval(c, Consumed(s), f.env, h, fuel), n, g);
  }

  lemma ConsumingCode(s: Stmt, base: nat, brk: Option<nat>, cnt: Option<nat>, atEmpty: bool)
    requires Consumes(s)
    ensures B.CompS(s, base, brk, cnt) == B.CompE(Consumed(s)) + [Consumer(s)]
    ensures B.LenS(s) == |B.CompE(Consumed(s))| + 1
    ensures SizeE(Consumed(s)) < SizeS(s)
    ensures MapsOkS(s, atEmpty) ==> MapsOk(Consumed(s), atEmpty)
  {
    assert B.CompE(Lit(VNull)) == [B.LoadConst(VNull)];
  }

  lemma SimJump(m: Vm, outer: seq<Frame>, f: Frame, h: Heap, t: Option<nat>) returns (n: nat, g: Frame)
    requires CodeAt(f.code, f.ip, [B.Jump(t)]) && t.Some?
    ensures n == 1 && g == f.(ip := t.value)
    ensures Steps(m, n, Running(outer + [f], h)) == Running(outer + [g], h)
  {
    CodeHead(f.code, f.ip, B.Jump(t));
    StepAt(m, outer, f, h, B.Jump(t));
    n, g := 1, f.(ip := t.value);
    assert f.(ip := f.ip + 1).(ip := t.value) == g;
  }

  lemma SimFunc(c: Context, s: Stmt, outer: seq<Frame>, f: Frame, h: Heap, fuel: nat, brk: Option<nat>,
                cnt: Option<nat>)
    returns (n: nat, g: Frame)
    requires s.Func? && CodeAt(f.code, f.ip, [B.MakeFunction(s.name, s.id), B.StoreName(s.name)])
    ensures Sim(VmOf(c), outer, Running(outer + [f], h), f, Exec(c, s, f.env, h, fuel), fuel, n, g, f.ip + 2, brk, cnt,
                true)
  {
    hide Step, Unwind;
    var m := VmOf(c);
    var i, j := B.MakeFunction(s.name, s.id), B.StoreName(s.name);
    assert [i, j] == [i] + [j];
    CodeStep(f.code, f.ip, i, [j]);
    CodeHead(f.code, f.ip + 1, j);
    StepAt(m, outer, f, h, i);
    n, g := 1, f.(ip := f.ip + 2);
    if s.id in c.fns {
      var v := VFunc(s.name, s.id, f.env);
      var mid := f.(ip := f.ip + 1, stack := f.stack + [v]);
      StepAt(m, outer, mid, h, j);
      Operands(g, [v]);
      assert mid.(ip := mid.ip + 1) == g.(stack := g.stack + [v]);
      StepsAdd(m, 1, 1, Running(outer + [f], h));
      n := 2;
    }
  }

  predicate Consumes(s: Stmt) {
    s.Assign? || s.ExprStmt? || s.Throw? || s.Return?
  }

  /** The expression these statements evaluate, and the instruction that takes its value. */
  function Consumed(s: Stmt): Expr
    requires Consumes(s)
  {
    match s
    case Return(r) => if r.Some? then r.value else Lit(VNull)
    case _ => s.e
  }

  function Consumer(s: Stmt): B.Instr
    requires Consumes(s)
  {
    match s
    case Assign(x, _) => B.StoreName(x)
    case ExprStmt(_) => B.PopTop
    case Throw(_) => B.ThrowTop
    case Return(_) => B.ReturnValue
  }

  /** What such a statement does with the value. */
  function Consume(s: Stmt, v: Value, env: nat, h: Heap): (r: Res)
    requires Consumes(s)
    ensures !r.out.Vals?
  {
    match s
    case Assign(x, _) => Res(Normal, Set(h, env, x, v))
    case ExprStmt(_) => Res(Normal, h)
    case Throw(_) => Res(Thr(v), h)
    case Return(_) => Res(Ret(v), h)
  }

  lemma ExecConsumes(c: Context, s: Stmt, env: nat, h: Heap, fuel: nat)
    requires Consumes(s)
    ensures var r := Eval(c, Consumed(s), env, h, fuel);
            Exec(c, s, env, h, fuel) == if r.out.Vals? then Consume(s, r.out.vs[0], env, r.h) else r
  {
  }

  lemma ExecuteConsumer(m: Vm, s: Stmt, outer: seq<Frame>, f: Frame, v: Value, h: Heap)
    requires Consumes(s)
    ensures var k := Execute(m, outer, f.(stack := f.stack + [v]), h, Consumer(s));
            match s
            case Assign(x, _) => k == Running(outer + [f], Set(h, f.env, x, v))
            case ExprStmt(_) => k == Running(outer + [f], h)
            case Throw(_) => k == Unwind(m.policy, outer, f, h, v)
            case Return(_) => k == ReturnTo(outer, v, h)
  {
    hide Unwind;
    Operands(f, [v]);
  }

  lemma SimConsumed(c: Context, s: Stmt, outer: seq<Frame>, f: Frame, h: Heap, fuel: nat,
                    brk: Option<nat>, cnt: Option<nat>, r: Res, n: nat, g: Frame) returns (n': nat, g': Frame)
    requires Consumes(s) && B.LenS(s) == |B.CompE(Consumed(s))| + 1 && r == Eval(c, Consumed(s), f.env, h, fuel)
    requires if r.out.Vals? then
               Steps(VmOf(c), n, Running(outer + [f], h))
               == Execute(VmOf(c), outer, f.(ip := f.ip + B.LenS(s), stack := f.stack + r.out.vs), r.h, Consumer(s))
             else Sim(VmOf(c), outer, Running(outer + [f], h), f, r, fuel, n, g, f.ip + B.LenS(s), brk, cnt, true)
    ensures Sim(VmOf(c), outer, Running(outer + [f], h), f, Exec(c, s, f.env, h, fuel), fuel, n', g',
                f.ip + B.LenS(s), brk, cnt, true)
  {
    hide Step, Unwind, Eval, Exec, Execute;
    ExecConsumes(c, s, f.env, h, fuel);
    n', g' := n, g;
    if r.out.Vals? {
      g' := f.(ip := f.ip + B.LenS(s));
      assert r.out.vs == [r.out.vs[0]];
      assert f.(ip := f.ip + B.LenS(s), stack := f.stack + r.out.vs) == g'.(stack := g'.stack + [r.out.vs[0]]);
      ExecuteConsumer(VmOf(c), s, outer, g', r.out.vs[0], r.h);
    }
  }

  lemma IfCode(cond: Expr, thn: seq<Stmt>, els: Branch, code: seq<B.Instr>, ip: nat, brk: Option<nat>, cnt: Option<nat>)
    requires CodeAt(code, ip, B.CompS(If(cond, thn, els), ip, brk, cnt))
    ensures var thenAt := ip + |B.CompE(cond)| + 1;
            var elseAt := thenAt + B.LenSs(thn) + (if els.Block? then 1 else 0);
            && CodeAt(code, ip, B.CompE(cond)) && InstrAt(code, thenAt - 1, B.JumpIfFalse(Some(elseAt)))
            && CodeAt(code, thenAt, B.CompSs(thn, thenAt, brk, cnt))
            && (els.Block? ==>
                  && InstrAt(code, elseAt - 1, B.Jump(Some(elseAt + B.LenSs(els.body))))
                  && CodeAt(code, elseAt, B.CompSs(els.body, elseAt, brk, cnt)))
  {
    hide B.CompE, B.CompSs, B.LenSs, B.CompElse, CodeAt, InstrAt;
    var thenAt := ip + |B.CompE(cond)| + 1;
    var elseAt := thenAt + B.LenSs(thn) + (if els.Block? then 1 else 0);
    var t, e := B.CompSs(thn, thenAt, brk, cnt), B.CompElse(els, thenAt + B.LenSs(thn), brk, cnt);
    var test := B.JumpIfFalse(Some(elseAt));
    CodeSplit(code, ip, B.CompE(cond), [test] + (t + e));
    CodeStep(code, thenAt - 1, test, t + e);
    CodeSplit(code, thenAt, t, e);
    if els.Block? { ElseSplit(els.body, code, elseAt - 1, brk, cnt); }
  }

  lemma ElseSplit(els: seq<Stmt>, code: seq<B.Instr>, ip: nat, brk: Option<nat>, cnt: Option<nat>)
    requires CodeAt(code, ip, B.CompElse(Block(els), ip, brk, cnt))
    ensures InstrAt(code, ip, B.Jump(Some(ip + 1 + B.LenSs(els))))
            && CodeAt(code, ip + 1, B.CompSs(els, ip + 1, brk, cnt))
  {
    hide CodeAt, InstrAt;
    CodeStep(code, ip, B.Jump(Some(ip + 1 + B.LenSs(els))), B.CompSs(els, ip + 1, brk, cnt));
  }

  lemma ExecuteTest(m: Vm, outer: seq<Frame>, f: Frame, v: Value, h: Heap, target: nat)
    ensures Execute(m, outer, f.(stack := f.stack + [v]), h, B.JumpIfFalse(Some(target)))
         == Running(outer + [if Truthy(m.host, v) then f else f.(ip := target)], h)
  {
    Operands(f, [v]);
  }

  lemma SimDone(m: Vm, outer: seq<Frame>, start: Config, f: Frame, g: Frame, h: Heap, fuel: nat, n: nat,
                brk: Option<nat>, cnt: Option<nat>, clean: bool)
    requires Steps(m, n, start) == Running(outer + [g], h) && Grown(f, g) && (clean ==> g.stack == f.stack)
    ensures Sim(m, outer, start, f, Res(Normal, h), fuel, n, g, g.ip, brk, cnt, clean)
  {
  }

  lemma {:induction false} SimIf(c: Context, s: Stmt, brk: Option<nat>, cnt: Option<nat>, outer: seq<Frame>, f: Frame,
                                 h: Heap, fuel: nat)
    returns (n: nat, g: Frame)
    requires Ready(c, f, B.CompS(s, f.ip, brk, cnt), brk, cnt) && Plain(s, brk)
    requires c.policy.zeroMapTakesAll ==> MapsOkS(s, f.stack == [])
    requires s.If?
    ensures Sim(VmOf(c), outer, Running(outer + [f], h), f, Exec(c, s, f.env, h, fuel), fuel, n, g,
                f.ip + B.LenS(s), brk, cnt, !HasTry(s))
    decreases fuel, SizeS(s), 0
  {
    hide Step, Unwind, Eval, Execute, MapsOk, Sim, B.CompE, B.CompSs, B.LenSs, B.CompS, CodeAt, InstrAt,
      MapsOkAll, LoopsOkAll, NoCrossAll, HasTryAny, ExecAll, Loop, FaithfulContext;
    var m := VmOf(c);
    var start := Running(outer + [f], h);
    var thenAt := f.ip + |B.CompE(s.cond)| + 1;
    var elseAt := thenAt + B.LenSs(s.thn) + (if s.els.Block? then 1 else 0);
    var end := f.ip + B.LenS(s);
    var clean := !HasTry(s);
    IfCode(s.cond, s.thn, s.els, f.code, f.ip, brk, cnt);
    n, g := SimThen(c, s.cond, B.JumpIfFalse(Some(elseAt)), outer, f, h, fuel, end, brk, cnt, clean);
    var r := Eval(c, s.cond, f.env, h, fuel);
    if r.out.Vals? {
      var v := r.out.vs[0];
      var yes, no := f.(ip := thenAt), f.(ip := elseAt);
      assert r.out.vs == [v] && f.(ip := thenAt, stack := f.stack + r.out.vs) == yes.(stack := yes.stack + [v]);
      ExecuteTest(m, outer, yes, v, r.h, elseAt);
      assert yes.(ip := elseAt) == no;
      if Truthy(c.host, v) {
        var r' := ExecAll(c, s.thn, f.env, r.h, fuel);
        var n';
        n', g := SimSs(c, s.thn, brk, cnt, outer, yes, r.h, fuel);
        ChainFrom(m, outer, n, start, f, yes, r.h, r', fuel, fuel, n', g, thenAt + B.LenSs(s.thn), brk, cnt, clean,
                  !HasTryAny(s.thn));
        n := n + n';
        if s.els.Block? {
          n, g := ThenJump(m, outer, start, f, r', fuel, n, g, thenAt + B.LenSs(s.thn), brk, cnt, clean, end);
        }
      } else if s.els.Block? {
        var r' := ExecAll(c, s.els.body, f.env, r.h, fuel);
        var n';
        n', g := SimSs(c, s.els.body, brk, cnt, outer, no, r.h, fuel);
        assert B.LenElse(s.els) == 1 + B.LenSs(s.els.body);
        ChainFrom(m, outer, n, start, f, no, r.h, r', fuel, fuel, n', g, end, brk, cnt, clean, !HasTryAny(s.els.body));
        n := n + n';
      } else {
        g := no;
        SimDone(m, outer, start, f, no, r.h, fuel, n, brk, cnt, clean);
      }
    }
  }

  lemma ForCode(id: nat, x: Ident, it: Expr, body: seq<Stmt>, code: seq<B.Instr>, ip: nat)
    requires CodeAt(code, ip, B.CompS(For(id, x, it, body), ip, None, None))
    ensures var loopAt := ip + |B.CompE(it)| + 3;
            && CodeAt(code, ip, B.CompS(Assign(ForIter(id), it), ip, None, None))
            && InstrAt(code, loopAt - 2, B.LoadConst(VInt(0))) && InstrAt(code, loopAt - 1, B.StoreName(ForIdx(id)))
            && CodeAt(code, loopAt, B.CompLoop(ForCond(id), [ForHead(id, x)], body, [ForStep(id)], loopAt))
            && loopAt + B.LenLoop(ForCond(id), [ForHead(id, x)], body, [ForStep(id)])
               == ip + B.LenS(For(id, x, it, body))
  {
    hide B.CompE, B.CompSs, B.LenSs, CodeAt, InstrAt, B.CompLoop;
    var loopAt := ip + |B.CompE(it)| + 3;
    B.ForLens(id, x);
    var l := B.CompLoop(ForCond(id), [ForHead(id, x)], body, [ForStep(id)], loopAt);
    var zero, store := B.LoadConst(VInt(0)), B.StoreName(ForIdx(id));
    var first := B.CompE(it) + [B.StoreName(ForIter(id))];
    assert B.CompForInit(id, it) == first + [zero, store];
    CodeSplit(code, ip, first + [zero, store], l);
    CodeSplit(code, ip, first, [zero, store]);
    assert [zero, store] == [zero] + [store];
    CodeStep(code, loopAt - 2, zero, [store]);
    CodeHead(code, loopAt - 1, store);
  }

  /** The pieces the compiler adds to a `para` loop hold no map literal, no `tente` and no jump. */
  lemma ForParts(id: nat, x: Ident, body: seq<Stmt>)
    ensures forall a :: MapsOk(ForCond(id), a)
    ensures MapsOkAll([ForHead(id, x)], false) && MapsOkAll([ForStep(id)], false)
    ensures PlainAll([ForHead(id, x)], None) && PlainAll([ForStep(id)], None)
    ensures !HasTryAny([ForHead(id, x)]) && !HasTryAny([ForStep(id)])
    ensures SizeE(ForCond(id)) + SizeSs([ForHead(id, x)]) + SizeSs([ForStep(id)]) <= 50
  {
    ForSizes(id, x);
    NamesOnly([Name(ForIter(id))], false);
    NamesOnly([Name(User("tamanho")), Name(ForIter(id))], false);
    var call := Call(Name(User("tamanho")), [Name(ForIter(id))]);
    assert Parts(call) == [Name(User("tamanho")), Name(ForIter(id))];
    assert MapsOk(call, false);
    assert MapsOkParts([call], false) by { assert [call][1..] == []; }
    forall a ensures MapsOk(ForCond(id), a) {
      assert Parts(ForCond(id))[1..] == [call];
      NamesOnly([Name(ForIdx(id))], a);
    }
    NamesOnly([Name(ForIter(id)), Name(ForIdx(id))], false);
    NamesOnly([Name(ForIdx(id)), Lit(VInt(1))], false);
  }

  lemma {:induction false} NamesOnly(es: seq<Expr>, a: bool)
    requires forall e :: e in es ==> e.Name? || e.Lit?
    ensures MapsOkParts(es, a)
    decreases |es|
  {
    if es != [] {
      assert Parts(es[0]) == [] && MapsOk(es[0], a);
      NamesOnly(es[1..], false);
    }
  }

  lemma SimZero(m: Vm, outer: seq<Frame>, f: Frame, x: Ident, h: Heap)
    requires InstrAt(f.code, f.ip, B.LoadConst(VInt(0))) && InstrAt(f.code, f.ip + 1, B.StoreName(x))
    ensures Steps(m, 2, Running(outer + [f], h)) == Running(outer + [f.(ip := f.ip + 2)], Set(h, f.env, x, VInt(0)))
  {
    hide Step, Unwind;
    StepAt(m, outer, f, h, B.LoadConst(VInt(0)));
    var g := f.(ip := f.ip + 2);
    var mid := f.(ip := f.ip + 1, stack := f.stack + [VInt(0)]);
    StepAt(m, outer, mid, h, B.StoreName(x));
    Operands(g, [VInt(0)]);
    assert mid.(ip := mid.ip + 1) == g.(stack := g.stack + [VInt(0)]);
    StepsAdd(m, 1, 1, Running(outer + [f], h));
  }

  lemma InitOutcome(c: Context, s: Stmt, env: nat, h: Heap, fuel: nat)
    requires s.Assign?
    ensures var o := Exec(c, s, env, h, fuel).out; o.Normal? || o.Thr? || o.Fail? || o.Timeout?
  {
  }

  lemma ForMeans(c: Context, s: Stmt, env: nat, h: Heap, fuel: nat)
    requires FaithfulContext(c) && s.For?
    ensures var r := Exec(c, Assign(ForIter(s.id), s.iterable), env, h, fuel);
            Exec(c, s, env, h, fuel)
            == if !r.out.Normal? then r
            else Loop(c, ForCond(s.id), [ForHead(s.id, s.x)], s.body, [ForStep(s.id)], env,
                      Set(r.h, env, ForIdx(s.id), VInt(0)), fuel)
  {
    hide Eval, Loop, Iterate, Set;
    assert s == For(s.id, s.x, s.iterable, s.body);
  }

  lemma {:induction false} SimFor(c: Context, s: Stmt, brk: Option<nat>, cnt: Option<nat>, outer: seq<Frame>, f: Frame,
                                  h: Heap, fuel: nat)
    returns (n: nat, g: Frame)
    requires Ready(c, f, B.CompS(s, f.ip, brk, cnt), brk, cnt) && Plain(s, brk)
    requires c.policy.zeroMapTakesAll ==> MapsOkS(s, f.stack == [])
    requires s.For?
    ensures Sim(VmOf(c), outer, Running(outer + [f], h), f, Exec(c, s, f.env, h, fuel), fuel, n, g,
                f.ip + B.LenS(s), brk, cnt, !HasTry(s))
    decreases fuel, SizeS(s), 0
  {
    hide Step, Unwind, Eval, Execute, MapsOk, Sim, B.CompE, B.CompSs, B.LenSs, CodeAt, InstrAt,
      MapsOkAll, LoopsOkAll, NoCrossAll, HasTryAny, ExecAll, FaithfulContext, Loop, Iterate, Set;
    ForMeans(c, s, f.env, h, fuel);
    hide Exec;
    var m := VmOf(c);
    var start := Running(outer + [f], h);
    var end := f.ip + B.LenS(s);
    var clean := !HasTryAny(s.body);
    var init := Assign(ForIter(s.id), s.iterable);
    var loopAt := f.ip + |B.CompE(s.iterable)| + 3;
    ForCode(s.id, s.x, s.iterable, s.body, f.code, f.ip);
    ForParts(s.id, s.x, s.body);
    n, g := SimConsuming(c, init, None, None, outer, f, h, fuel);
    var r := Exec(c, init, f.env, h, fuel);
    Landed(m, outer, start, f, r, fuel, n, g, loopAt - 2, None, None, true);
    if r.out.Normal? {
      SimZero(m, outer, g, ForIdx(s.id), r.h);
      var mid := g.(ip := loopAt);
      var h' := Set(r.h, f.env, ForIdx(s.id), VInt(0));
      StepsAdd(m, n, 2, start);
      var n';
      n', g := SimLoop(c, ForCond(s.id), [ForHead(s.id, s.x)], s.body, [ForStep(s.id)], outer, mid, h', fuel);
      ChainFrom(m, outer, n + 2, start, f, mid, h', Exec(c, s, f.env, h, fuel), fuel, fuel, n', g, end, None, None,
                clean, clean);
      n := n + 2 + n';
      Relabel(m, outer, start, f, Exec(c, s, f.env, h, fuel), fuel, n, g, end, brk, cnt, clean);
    } else {
      InitOutcome(c, init, f.env, h, fuel);
      Elsewhere(m, outer, start, f, r, fuel, n, g, loopAt - 2, None, None, true, fuel, end, brk, cnt, clean);
    }
  }

  // `tente`.

  /** The handler a `tente` at `ip` pushes. */
  function TryHandler(s: Stmt, ip: nat): Handler
    requires s.Try?
  {
    var afterTry := ip + B.LenSs(s.body) + 3;
    Handler(if s.catch.Block? then Some(afterTry) else None,
            if s.fin.Block? then Some(FinallyAt(s, ip)) else None, s.catchName, InTry, None)
  }

  function FinallyAt(s: Stmt, ip: nat): nat
    requires s.Try?
  {
    ip + B.LenSs(s.body) + 3 + (if s.catch.Block? then B.LenSs(s.catch.body) + 2 else 0)
  }

  /** The block of a `tente` or `pegue` that ends in front of `ip`. */
  predicate BlockCode(code: seq<B.Instr>, ip: nat, body: seq<Stmt>, i: B.Instr, end: nat, brk: Option<nat>,
                      cnt: Option<nat>) {
    var blockEnd := ip + B.LenSs(body);
    CodeAt(code, ip, B.CompSs(body, ip, brk, cnt)) && InstrAt(code, blockEnd, i)
    && InstrAt(code, blockEnd + 1, B.Jump(Some(end)))
  }

  lemma TryCode(body: seq<Stmt>, name: Option<Ident>, catch: Branch, fin: Branch, code: seq<B.Instr>, ip: nat,
                brk: Option<nat>, cnt: Option<nat>)
    requires CodeAt(code, ip, B.CompS(Try(body, name, catch, fin), ip, brk, cnt))
    ensures var s := Try(body, name, catch, fin);
            var h0 := TryHandler(s, ip);
            var end := ip + B.LenS(s);
            && InstrAt(code, ip, B.PushTry(h0.catchIp, h0.finIp, name))
            && BlockCode(code, ip + 1, body, B.EndTryBlock, end, brk, cnt)
            && (catch.Block? ==> BlockCode(code, ip + B.LenSs(body) + 3, catch.body, B.EndCatchBlock, end, brk, cnt))
            && (fin.Block? ==> FinallyCode(code, FinallyAt(s, ip), fin.body, end, brk, cnt))
  {
    hide B.CompS, B.LenS, B.CompE, B.CompSs, B.LenSs, B.CompBlock, B.CompFinally, CodeAt, InstrAt, BlockCode,
      FinallyCode;
    B.TryPieces(body, name, catch, fin, ip, brk, cnt);
    var s := Try(body, name, catch, fin);
    var catchAt := ip + B.LenSs(body) + 3;
    var finAt := catchAt + (if catch.Block? then B.LenSs(catch.body) + 2 else 0);
    var end := finAt + (if fin.Block? then B.LenSs(fin.body) + 2 else 0);
    var push := B.PushTry(if catch.Block? then Some(catchAt) else None, if fin.Block? then Some(finAt) else None, name);
    var b := B.CompBlock(body, ip + 1, B.EndTryBlock, end, brk, cnt);
    var k := if catch.Block? then B.CompBlock(catch.body, catchAt, B.EndCatchBlock, end, brk, cnt) else [];
    var q := if fin.Block? then B.CompFinally(fin.body, finAt, brk, cnt) else [];
    TrySplit(code, ip, push, b, k, q, catchAt, finAt);
    BlockSplit(code, ip + 1, body, B.EndTryBlock, end, brk, cnt);
    if catch.Block? { BlockSplit(code, catchAt, catch.body, B.EndCatchBlock, end, brk, cnt); }
    if fin.Block? { FinallySplit(code, finAt, fin.body, brk, cnt); }
  }

  lemma TrySplit(code: seq<B.Instr>, ip: nat, push: B.Instr,
                 b: seq<B.Instr>, k: seq<B.Instr>, q: seq<B.Instr>, catchAt: nat, finAt: nat)
    requires CodeAt(code, ip, [push] + (b + (k + q)))
    requires catchAt == ip + 1 + |b| && finAt == catchAt + |k|
    ensures InstrAt(code, ip, push) && CodeAt(code, ip + 1, b) && CodeAt(code, catchAt, k) && CodeAt(code, finAt, q)
  {
    hide CodeAt, InstrAt;
    CodeStep(code, ip, push, b + (k + q));
    CodeSplit(code, ip + 1, b, k + q);
    CodeSplit(code, catchAt, k, q);
  }

  lemma BlockSplit(code: seq<B.Instr>, ip: nat, body: seq<Stmt>, i: B.Instr, end: nat, brk: Option<nat>,
                   cnt: Option<nat>)
    requires CodeAt(code, ip, B.CompBlock(body, ip, i, end, brk, cnt))
    ensures BlockCode(code, ip, body, i, end, brk, cnt)
  {
    hide CodeAt, InstrAt, B.CompSs, B.LenSs;
    var j := B.Jump(Some(end));
    CodeSplit(code, ip, B.CompSs(body, ip, brk, cnt), [i, j]);
    assert [i, j] == [i] + [j];
    CodeStep(code, ip + B.LenSs(body), i, [j]);
    CodeHead(code, ip + B.LenSs(body) + 1, j);
  }

  lemma FinallySplit(code: seq<B.Instr>, ip: nat, fin: seq<Stmt>, brk: Option<nat>, cnt: Option<nat>)
    requires CodeAt(code, ip, B.CompFinally(fin, ip, brk, cnt))
    ensures FinallyCode(code, ip, fin, ip + 2 + B.LenSs(fin), brk, cnt)
  {
    hide CodeAt, InstrAt, B.CompSs, B.LenSs;
    var q := B.CompSs(fin, ip + 1, brk, cnt);
    CodeStep(code, ip, B.BeginFinally, q + [B.EndFinally]);
    CodeSplit(code, ip + 1, q, [B.EndFinally]);
    CodeHead(code, ip + 1 + |q|, B.EndFinally);
  }

  predicate FinallyCode(code: seq<B.Instr>, ip: nat, fin: seq<Stmt>, end: nat, brk: Option<nat>, cnt: Option<nat>) {
    && InstrAt(code, ip, B.BeginFinally) && CodeAt(code, ip + 1, B.CompSs(fin, ip + 1, brk, cnt))
    && InstrAt(code, ip + 1 + B.LenSs(fin), B.EndFinally) && end == ip + 2 + B.LenSs(fin)
  }

  /** Code without a loop jump of its own does not depend on the loop around it. */
  lemma {:induction false} NoJumpCode(s: Stmt, base: nat, brk: Option<nat>, cnt: Option<nat>)
    requires !OwnJump(s)
    ensures B.CompS(s, base, brk, cnt) == B.CompS(s, base, None, None)
    decreases s, 1
  {
    match s
    case If(cond, thn, els) => NoJumpIf(cond, thn, els, base, brk, cnt);
    case Try(body, name, catch, fin) => NoJumpTry(body, name, catch, fin, base, brk, cnt);
    case _ =>
  }

  lemma {:induction false} NoJumpIf(cond: Expr, thn: seq<Stmt>, els: Branch, base: nat, brk: Option<nat>,
                                    cnt: Option<nat>)
    requires !OwnJumpAny(thn) && (els.Block? ==> !OwnJumpAny(els.body))
    ensures B.CompS(If(cond, thn, els), base, brk, cnt) == B.CompS(If(cond, thn, els), base, None, None)
    decreases If(cond, thn, els), 0
  {
    hide B.CompE, B.CompSs, B.LenSs, OwnJumpAny;
    NoJumpCodeAll(thn, base + |B.CompE(cond)| + 1, brk, cnt);
    if els.Block? { NoJumpCodeAll(els.body, base + |B.CompE(cond)| + 1 + B.LenSs(thn) + 1, brk, cnt); }
  }

  lemma {:induction false} NoJumpTry(body: seq<Stmt>, name: Option<Ident>, catch: Branch, fin: Branch, base: nat,
                                     brk: Option<nat>, cnt: Option<nat>)
    requires !OwnJumpAny(body) && (catch.Block? ==> !OwnJumpAny(catch.body)) && (fin.Block? ==> !OwnJumpAny(fin.body))
    ensures B.CompS(Try(body, name, catch, fin), base, brk, cnt)
         == B.CompS(Try(body, name, catch, fin), base, None, None)
    decreases Try(body, name, catch, fin), 0
  {
    hide B.CompSs, B.LenSs, B.CompS, B.LenS, B.CompBlock, B.CompFinally, OwnJumpAny;
    B.TryPieces(body, name, catch, fin, base, brk, cnt);
    B.TryPieces(body, name, catch, fin, base, None, None);
    var catchAt := base + B.LenSs(body) + 3;
    var finAt := catchAt + (if catch.Block? then B.LenSs(catch.body) + 2 else 0);
    var end := finAt + (if fin.Block? then B.LenSs(fin.body) + 2 else 0);
    NoJumpBlock(body, base + 1, B.EndTryBlock, end, brk, cnt);
    if catch.Block? { NoJumpBlock(catch.body, catchAt, B.EndCatchBlock, end, brk, cnt); }
    if fin.Block? { NoJumpFinally(fin.body, finAt, brk, cnt); }
  }

  lemma {:induction false} NoJumpBlock(body: seq<Stmt>, base: nat, i: B.Instr, end: nat, brk: Option<nat>,
                                       cnt: Option<nat>)
    requires !OwnJumpAny(body)
    ensures B.CompBlock(body, base, i, end, brk, cnt) == B.CompBlock(body, base, i, end, None, None)
    decreases body, 1
  {
    hide B.CompSs, OwnJumpAny;
    NoJumpCodeAll(body, base, brk, cnt);
  }

  lemma {:induction false} NoJumpFinally(fin: seq<Stmt>, base: nat, brk: Option<nat>, cnt: Option<nat>)
    requires !OwnJumpAny(fin)
    ensures B.CompFinally(fin, base, brk, cnt) == B.CompFinally(fin, base, None, None)
    decreases fin, 1
  {
    hide B.CompSs, OwnJumpAny;
    NoJumpCodeAll(fin, base + 1, brk, cnt);
  }

  lemma {:induction false} NoJumpCodeAll(ss: seq<Stmt>, base: nat, brk: Option<nat>, cnt: Option<nat>)
    requires !OwnJumpAny(ss)
    ensures B.CompSs(ss, base, brk, cnt) == B.CompSs(ss, base, None, None)
    decreases ss, 0
  {
    if ss != [] {
      NoJumpCode(ss[0], base, brk, cnt);
      NoJumpCodeAll(ss[1..], base + B.LenS(ss[0]), brk, cnt);
    }
  }

  lemma {:induction false} NoJumpLoop(s: Stmt, inLoop: bool)
    requires !OwnJump(s) && LoopsOk(s, inLoop)
    ensures LoopsOk(s, false)
  {
    match s
    case If(_, thn, els) =>
      NoJumpLoops(thn, inLoop);
      if els.Block? { NoJumpLoops(els.body, inLoop); }
    case Try(body, _, catch, fin) =>
      NoJumpLoops(body, inLoop);
      if catch.Block? { NoJumpLoops(catch.body, inLoop); }
      if fin.Block? { NoJumpLoops(fin.body, inLoop); }
    case _ =>
  }

  lemma {:induction false} NoJumpLoops(ss: seq<Stmt>, inLoop: bool)
    requires !OwnJumpAny(ss) && LoopsOkAll(ss, inLoop)
    ensures LoopsOkAll(ss, false)
  {
    if ss != [] {
      NoJumpLoop(ss[0], inLoop);
      NoJumpLoops(ss[1..], inLoop);
    }
  }

  /** A handler that cannot take an exception is dropped by it. */
  lemma Dropped(policy: Policy, outer: seq<Frame>, g: Frame, hs: seq<Handler>, top: Handler, h: Heap, v: Value)
    requires g.handlers == hs + [top]
    requires top.phase.InFinally? || (top.finIp.None? && (top.phase.InTry? ==> top.catchIp.None?))
    ensures Unwind(policy, outer, g, h, v) == Unwind(policy, outer, g.(handlers := hs), h, v)
  {
    assert g.handlers[..|hs|] == hs;
  }

  /** A handler that takes an exception in `pegue` or `finalmente`. */
  lemma Taken(policy: Policy, outer: seq<Frame>, g: Frame, hs: seq<Handler>, top: Handler, h: Heap, v: Value)
    requires g.handlers == hs + [top]
    ensures top.phase.InTry? && top.catchIp.Some? ==>
              Unwind(policy, outer, g, h, v)
              == Running(outer + [g.(ip := top.catchIp.value, handlers := hs + [top.(phase := InCatch)])],
                         Caught(h, g.env, top.catchName, v))
    ensures !top.phase.InFinally? && top.finIp.Some? && (top.phase.InTry? ==> top.catchIp.None?) ==>
              Unwind(policy, outer, g, h, v)
              == Running(outer + [g.(ip := top.finIp.value,
                                  handlers := hs + [top.(phase := InFinally, pending := Some(v))])], h)
  {
    assert g.handlers[..|hs|] == hs;
  }

  lemma Pushes(m: Vm, outer: seq<Frame>, f: Frame, h: Heap, top: Handler)
    requires InstrAt(f.code, f.ip, B.PushTry(top.catchIp, top.finIp, top.catchName)) && top.phase.InTry?
             && top.pending.None?
    ensures Steps(m, 1, Running(outer + [f], h))
         == Running(outer + [f.(ip := f.ip + 1, handlers := f.handlers + [top])], h)
  {
    StepAt(m, outer, f, h, B.PushTry(top.catchIp, top.finIp, top.catchName));
  }

  /** The normal end of a `tente` or `pegue` block. */
  lemma EndsBlock(m: Vm, outer: seq<Frame>, g: Frame, hs: seq<Handler>, top: Handler, h: Heap, i: B.Instr, end: nat)
    requires g.handlers == hs + [top] && InstrAt(g.code, g.ip, i) && InstrAt(g.code, g.ip + 1, B.Jump(Some(end)))
    requires (i.EndTryBlock? && top.phase.InTry?) || (i.EndCatchBlock? && top.phase.InCatch?)
    ensures top.finIp.Some? ==>
              Steps(m, 1, Running(outer + [g], h))
              == Running(outer + [g.(ip := top.finIp.value, handlers := hs + [top.(phase := InFinally)])], h)
    ensures top.finIp.None? ==>
              Steps(m, 2, Running(outer + [g], h)) == Running(outer + [g.(ip := end, handlers := hs)], h)
  {
    hide Step, Unwind;
    StepAt(m, outer, g, h, i);
    assert g.handlers[..|hs|] == hs;
    if top.finIp.None? {
      var mid := g.(ip := g.ip + 1, handlers := hs);
      StepAt(m, outer, mid, h, B.Jump(Some(end)));
      assert mid.(ip := mid.ip + 1).(ip := end) == g.(ip := end, handlers := hs);
      StepsAdd(m, 1, 1, Running(outer + [g], h));
    }
  }

  /** `Sim` for a `tente`, except that a loop jump out of it leaves the handler `t` on those of `f`. */
  predicate Leaves(m: Vm, outer: seq<Frame>, start: Config, f: Frame, t: Handler, r: Res, fuel: nat, n: nat, g: Frame,
                   end: nat, brk: Option<nat>, cnt: Option<nat>)
  {
    if r.out.Brk? || r.out.Cont? then
      var to := if r.out.Brk? then brk else cnt;
      && to.Some? && g.ip == to.value && Grown(f, g.(handlers := f.handlers)) && g.handlers == f.handlers + [t]
      && Steps(m, n, start) == Running(outer + [g], r.h)
    else Sim(m, outer, start, f, r, fuel, n, g, end, None, None, false)
  }

  lemma ChainLeaves(m: Vm, outer: seq<Frame>, a: nat, start: Config, mid: Config, f: Frame, t: Handler, r: Res,
                    fuel: nat, n: nat, g: Frame,
                    end: nat, brk: Option<nat>, cnt: Option<nat>)
    requires Steps(m, a, start) == mid && Leaves(m, outer, mid, f, t, r, fuel, n, g, end, brk, cnt)
    ensures Leaves(m, outer, start, f, t, r, fuel, a + n, g, end, brk, cnt)
  {
    hide Step, Unwind;
    StepsAdd(m, a, n, start);
  }

  /** `finalmente`, entered with an exception pending or not. */
  lemma {:induction false} SimFinally(c: Context, fin: seq<Stmt>, outer: seq<Frame>, f: Frame, k: Frame, top: Handler,
                                      before: Outcome,
                                      h: Heap, fuel: nat, end: nat, brk: Option<nat>, cnt: Option<nat>)
    returns (n: nat, g: Frame)
    requires FaithfulContext(c) && FinallyCode(k.code, k.ip, fin, end, brk, cnt) && PlainAll(fin, brk)
             && brk.Some? == cnt.Some?
    requires c.policy.zeroMapTakesAll ==> MapsOkAll(fin, false)
    requires Grown(f, k.(handlers := f.handlers)) && k.handlers == f.handlers + [top] && top.phase.InFinally?
    requires before == (if top.pending.Some? then Thr(top.pending.value) else Normal)
    ensures Leaves(VmOf(c), outer, Running(outer + [k], h), f, top,
                   Resumed(c.policy, before, ExecAll(c, fin, f.env, h, fuel)), fuel, n, g,
                   end, brk, cnt)
    decreases fuel, SizeSs(fin), 1
  {
    hide Step, Unwind, Execute, B.CompSs, B.LenSs, CodeAt, InstrAt, MapsOkAll, LoopsOkAll, NoCrossAll, HasTryAny,
      ExecAll, FaithfulContext;
    var m := VmOf(c);
    var start := Running(outer + [k], h);
    var inner := k.(ip := k.ip + 1);
    var bodyEnd := inner.ip + B.LenSs(fin);
    Begins(m, outer, k, f.handlers, top, h);
    if c.policy.zeroMapTakesAll { MapsMonotoneAll(fin, false, inner.stack == []); }
    n, g := SimSs(c, fin, brk, cnt, outer, inner, h, fuel);
    var r := ExecAll(c, fin, f.env, h, fuel);
    Chain(m, outer, 1, start, Running(outer + [inner], h), inner, r, fuel, fuel, n, g, bodyEnd, brk, cnt,
          !HasTryAny(fin));
    n := 1 + n;
    if r.out.Normal? {
      Ends(m, outer, g, f.handlers, top, r.h);
      StepsAdd(m, n, 1, start);
      n, g := n + 1, g.(ip := g.ip + 1, handlers := f.handlers);
    } else if r.out.Thr? {
      Dropped(m.policy, outer, g, f.handlers, top, r.h, r.out.v);
      g := g.(handlers := f.handlers);
    }
  }

  lemma Begins(m: Vm, outer: seq<Frame>, k: Frame, hs: seq<Handler>, top: Handler, h: Heap)
    requires k.handlers == hs + [top] && top.phase.InFinally? && InstrAt(k.code, k.ip, B.BeginFinally)
    ensures Steps(m, 1, Running(outer + [k], h)) == Running(outer + [k.(ip := k.ip + 1)], h)
  {
    hide Step, Unwind;
    StepAt(m, outer, k, h, B.BeginFinally);
    assert k.handlers[..|hs|] == hs && top.(phase := InFinally) == top;
  }

  lemma Ends(m: Vm, outer: seq<Frame>, k: Frame, hs: seq<Handler>, top: Handler, h: Heap)
    requires k.handlers == hs + [top] && InstrAt(k.code, k.ip, B.EndFinally)
    ensures var popped := k.(ip := k.ip + 1, handlers := hs);
            Steps(m, 1, Running(outer + [k], h))
            == if top.pending.Some? && (m.policy.keepsNull || !top.pending.value.VNull?) then
              Unwind(m.policy, outer, popped, h, top.pending.value)
            else Running(outer + [popped], h)
  {
    hide Step, Unwind;
    StepAt(m, outer, k, h, B.EndFinally);
    assert k.handlers[..|hs|] == hs;
  }

  /** What becomes of the handler `top` of a block that ended with `o`. */
  function HandlerAfter(s: Stmt, top: Handler, o: Outcome): Handler
    requires s.Try?
  {
    if s.fin.Block? && Settles(o) then top.(phase := InFinally, pending := if o.Thr? then Some(o.v) else None) else top
  }

  /** After the block `tente` or `pegue` whose handler is `top`: the rest of the statement. */
  lemma {:induction false} SimSettle(c: Context, s: Stmt, outer: seq<Frame>, f: Frame, top: Handler, start: Config,
                                     inner: Frame, r: Res,
                                     fuel: nat, n: nat, g: Frame, blockEnd: nat, clean: bool, brk: Option<nat>,
                                     cnt: Option<nat>, i: B.Instr)
    returns (n': nat, g': Frame)
    requires FaithfulContext(c) && s.Try? && !r.out.Vals? && brk.Some? == cnt.Some?
    requires inner == f.(ip := inner.ip, handlers := f.handlers + [top])
    requires Sim(VmOf(c), outer, start, inner, r, fuel, n, g, blockEnd, brk, cnt, clean)
    requires InstrAt(f.code, blockEnd, i) && InstrAt(f.code, blockEnd + 1, B.Jump(Some(f.ip + B.LenS(s))))
    requires (i.EndTryBlock? && top.phase.InTry?) || (i.EndCatchBlock? && top.phase.InCatch?)
    requires r.out.Thr? && top.phase.InTry? ==> s.catch.Absent?
    requires top == TryHandler(s, f.ip).(phase := top.phase)
    requires s.fin.Block? ==>
               FinallyCode(f.code, FinallyAt(s, f.ip), s.fin.body, f.ip + B.LenS(s), brk, cnt)
               && PlainAll(s.fin.body, brk)
    requires s.fin.Block? && c.policy.zeroMapTakesAll ==> MapsOkAll(s.fin.body, false)
    ensures Leaves(VmOf(c), outer, start, f, HandlerAfter(s, top, r.out),
                   if !s.fin.Block? || !Settles(r.out) then r
                   else Resumed(c.policy, r.out, ExecAll(c, s.fin.body, f.env, r.h, fuel)),
                   fuel, n', g', f.ip + B.LenS(s), brk, cnt)
    decreases fuel, SizeS(s), 0
  {
    hide Step, Unwind, Execute, B.CompSs, B.LenSs, B.LenS, CodeAt, InstrAt, MapsOkAll, LoopsOkAll, NoCrossAll,
      HasTryAny, ExecAll, FaithfulContext, FinallyCode, Resumed;
    var m := VmOf(c);
    var end := f.ip + B.LenS(s);
    n', g' := n, g;
    if r.out.Normal? {
      EndsBlock(m, outer, g, f.handlers, top, r.h, i, end);
      if s.fin.Block? {
        StepsAdd(m, n, 1, start);
        n', g' := SimEnter(c, s, outer, f, start, g, top.(phase := InFinally), r.out, r.h, fuel, n + 1, brk, cnt);
      } else {
        StepsAdd(m, n, 2, start);
        n', g' := n + 2, g.(ip := end, handlers := f.handlers);
      }
    } else if r.out.Thr? {
      if s.fin.Block? {
        Taken(m.policy, outer, g, f.handlers, top, r.h, r.out.v);
        n', g' := SimEnter(c, s, outer, f, start, g, top.(phase := InFinally, pending := Some(r.out.v)), r.out, r.h,
                           fuel, n, brk, cnt);
      } else {
        Dropped(m.policy, outer, g, f.handlers, top, r.h, r.out.v);
        g' := g.(handlers := f.handlers);
      }
    }
  }

  lemma {:induction false} SimEnter(c: Context, s: Stmt, outer: seq<Frame>, f: Frame, start: Config, g: Frame,
                                    top: Handler, before: Outcome,
                                    h: Heap, fuel: nat, n: nat, brk: Option<nat>, cnt: Option<nat>)
    returns (n': nat, g': Frame)
    requires FaithfulContext(c) && s.Try? && s.fin.Block? && brk.Some? == cnt.Some?
    requires FinallyCode(f.code, FinallyAt(s, f.ip), s.fin.body, f.ip + B.LenS(s), brk, cnt)
             && PlainAll(s.fin.body, brk)
    requires c.policy.zeroMapTakesAll ==> MapsOkAll(s.fin.body, false)
    requires Grown(f, g.(handlers := f.handlers)) && top.phase.InFinally?
    requires before == (if top.pending.Some? then Thr(top.pending.value) else Normal)
    requires Steps(VmOf(c), n, start)
          == Running(outer + [g.(ip := FinallyAt(s, f.ip), handlers := f.handlers + [top])], h)
    ensures Leaves(VmOf(c), outer, start, f, top, Resumed(c.policy, before, ExecAll(c, s.fin.body, f.env, h, fuel)),
                   fuel, n', g',
                   f.ip + B.LenS(s), brk, cnt)
    decreases fuel, SizeSs(s.fin.body), 2
  {
    hide Step, Unwind, Sim, Leaves, B.CompSs, B.LenSs, B.LenS, MapsOkAll, LoopsOkAll, NoCrossAll, ExecAll,
      FaithfulContext, FinallyCode, Resumed, FinallyAt;
    var k := g.(ip := FinallyAt(s, f.ip), handlers := f.handlers + [top]);
    assert k.(handlers := f.handlers) == g.(handlers := f.handlers).(ip := k.ip);
    n', g' := SimFinally(c, s.fin.body, outer, f, k, top, before, h, fuel, f.ip + B.LenS(s), brk, cnt);
    ChainLeaves(VmOf(c), outer, n, start, Running(outer + [k], h), f, top,
                Resumed(c.policy, before, ExecAll(c, s.fin.body, f.env, h, fuel)),
                fuel, n', g', f.ip + B.LenS(s), brk, cnt);
    n' := n + n';
  }

  lemma Threw(m: Vm, outer: seq<Frame>, start: Config, f: Frame, r: Res, fuel: nat, n: nat, g: Frame, end: nat,
              clean: bool,
              brk: Option<nat>, cnt: Option<nat>)
    requires Sim(m, outer, start, f, r, fuel, n, g, end, brk, cnt, clean) && r.out.Thr?
    ensures Grown(f, g) && Steps(m, n, start) == Unwind(m.policy, outer, g, r.h, r.out.v)
  {
    hide Step, Unwind;
  }

  /** A `tente` whose parts, each on its own, are plain in the loop around it; jumps may leave it. */
  ghost predicate TryReady(c: Context, s: Stmt, f: Frame, brk: Option<nat>, cnt: Option<nat>) {
    && s.Try? && Ready(c, f, B.CompS(s, f.ip, brk, cnt), brk, cnt)
    && PlainAll(s.body, brk) && (s.catch.Block? ==> PlainAll(s.catch.body, brk))
    && (s.fin.Block? ==> PlainAll(s.fin.body, brk))
    && (c.policy.zeroMapTakesAll ==> MapsOkS(s, f.stack == []))
  }

  /** The handler a loop jump out of a `tente` leaves behind. */
  function LeftBehind(c: Context, s: Stmt, ip: nat, env: nat, h: Heap, fuel: nat): Handler
    requires s.Try?
  {
    var r := ExecAll(c, s.body, env, h, fuel);
    if r.out.Thr? && s.catch.Block? then
      HandlerAfter(s, TryHandler(s, ip).(phase := InCatch),
                   ExecAll(c, s.catch.body, env, Caught(r.h, env, s.catchName, r.out.v), fuel).out)
    else HandlerAfter(s, TryHandler(s, ip), r.out)
  }

  /** An exception of the `tente` block that goes to `pegue`. */
  lemma {:induction false} SimCatch(c: Context, s: Stmt, brk: Option<nat>, cnt: Option<nat>,
                                    outer: seq<Frame>, f: Frame, h: Heap, fuel: nat, n: nat, g: Frame)
    returns (n': nat, g': Frame)
    requires TryReady(c, s, f, brk, cnt) && s.catch.Block?
    requires ExecAll(c, s.body, f.env, h, fuel).out.Thr?
    requires Sim(VmOf(c), outer, Running(outer + [f], h),
                 f.(ip := f.ip + 1, handlers := f.handlers + [TryHandler(s, f.ip)]),
                 ExecAll(c, s.body, f.env, h, fuel), fuel, n, g, f.ip + 1 + B.LenSs(s.body), brk, cnt,
                 !HasTryAny(s.body))
    ensures Leaves(VmOf(c), outer, Running(outer + [f], h), f, LeftBehind(c, s, f.ip, f.env, h, fuel),
                   Exec(c, s, f.env, h, fuel), fuel, n', g',
                   f.ip + B.LenS(s), brk, cnt)
    decreases fuel, SizeS(s), 1
  {
    hide Step, Unwind, Eval, Execute, MapsOk, Sim, Leaves, B.CompE, B.CompSs, B.LenSs, CodeAt, InstrAt,
      MapsOkAll, LoopsOkAll, NoCrossAll, HasTryAny, ExecAll, FaithfulContext, FinallyCode, Resumed, HandlerAfter;
    var m := VmOf(c);
    var start := Running(outer + [f], h);
    var r := ExecAll(c, s.body, f.env, h, fuel);
    var h0 := TryHandler(s, f.ip);
    var catchAt := f.ip + B.LenSs(s.body) + 3;
    var bound := Caught(r.h, f.env, s.catchName, r.out.v);
    TryCode(s.body, s.catchName, s.catch, s.fin, f.code, f.ip, brk, cnt);
    Threw(m, outer, start, f.(ip := f.ip + 1, handlers := f.handlers + [h0]), r, fuel, n, g, f.ip + 1 + B.LenSs(s.body),
          !HasTryAny(s.body), brk, cnt);
    Taken(m.policy, outer, g, f.handlers, h0, r.h, r.out.v);
    var k := g.(ip := catchAt, handlers := f.handlers + [h0.(phase := InCatch)]);
    var inner := f.(ip := catchAt, handlers := f.handlers + [h0.(phase := InCatch)]);
    if c.policy.zeroMapTakesAll { MapsMonotoneAll(s.catch.body, false, k.stack == []); }
    var r' := ExecAll(c, s.catch.body, f.env, bound, fuel);
    n', g' := SimSs(c, s.catch.body, brk, cnt, outer, k, bound, fuel);
    ChainFrom(m, outer, n, start, inner, k, bound, r', fuel, fuel, n', g', catchAt + B.LenSs(s.catch.body), brk, cnt,
              false, !HasTryAny(s.catch.body));
    n', g' := SimSettle(c, s, outer, f, h0.(phase := InCatch), start, inner, r', fuel, n + n', g',
                        catchAt + B.LenSs(s.catch.body), false, brk, cnt, B.EndCatchBlock);
  }

  /** A `tente`, which a loop jump may leave: the jump goes to its target, with a handler too many. */
  lemma {:induction false} SimTryIn(c: Context, s: Stmt, brk: Option<nat>, cnt: Option<nat>,
                                    outer: seq<Frame>, f: Frame, h: Heap, fuel: nat)
    returns (n: nat, g: Frame)
    requires TryReady(c, s, f, brk, cnt)
    ensures Leaves(VmOf(c), outer, Running(outer + [f], h), f, LeftBehind(c, s, f.ip, f.env, h, fuel),
                   Exec(c, s, f.env, h, fuel), fuel, n, g,
                   f.ip + B.LenS(s), brk, cnt)
    decreases fuel, SizeS(s), 2
  {
    hide Step, Unwind, Eval, Execute, MapsOk, Sim, Leaves, B.CompE, B.CompSs, B.LenSs, CodeAt, InstrAt,
      MapsOkAll, LoopsOkAll, NoCrossAll, HasTryAny, ExecAll, FaithfulContext, HandlerAfter;
    var m := VmOf(c);
    var start := Running(outer + [f], h);
    TryCode(s.body, s.catchName, s.catch, s.fin, f.code, f.ip, brk, cnt);
    var h0 := TryHandler(s, f.ip);
    var inner := f.(ip := f.ip + 1, handlers := f.handlers + [h0]);
    Pushes(m, outer, f, h, h0);
    var r := ExecAll(c, s.body, f.env, h, fuel);
    var bodyEnd := inner.ip + B.LenSs(s.body);
    n, g := SimSs(c, s.body, brk, cnt, outer, inner, h, fuel);
    Chain(m, outer, 1, start, Running(outer + [inner], h), inner, r, fuel, fuel, n, g, bodyEnd, brk, cnt,
          !HasTryAny(s.body));
    n := 1 + n;
    if r.out.Thr? && s.catch.Block? {
      n, g := SimCatch(c, s, brk, cnt, outer, f, h, fuel, n, g);
    } else {
      n, g := SimSettle(c, s, outer, f, h0, start, inner, r, fuel, n, g, bodyEnd, !HasTryAny(s.body), brk, cnt,
                        B.EndTryBlock);
    }
  }

  lemma {:induction false} SimTry(c: Context, s: Stmt, brk: Option<nat>, cnt: Option<nat>, outer: seq<Frame>, f: Frame,
                                  h: Heap, fuel: nat)
    returns (n: nat, g: Frame)
    requires Ready(c, f, B.CompS(s, f.ip, brk, cnt), brk, cnt) && Plain(s, brk)
    requires c.policy.zeroMapTakesAll ==> MapsOkS(s, f.stack == [])
    requires s.Try?
    ensures Sim(VmOf(c), outer, Running(outer + [f], h), f, Exec(c, s, f.env, h, fuel), fuel, n, g,
                f.ip + B.LenS(s), brk, cnt, !HasTry(s))
    decreases fuel, SizeS(s), 3
  {
    hide Step, Unwind, Exec, Sim, B.CompS, B.LenS, CodeAt, MapsOkS, LoopsOkAll, NoCrossAll, FaithfulContext, OwnJumpAny,
      LeftBehind;
    NoJumpCode(s, f.ip, brk, cnt);
    NoJumpLoops(s.body, brk.Some?);
    if s.catch.Block? { NoJumpLoops(s.catch.body, brk.Some?); }
    if s.fin.Block? { NoJumpLoops(s.fin.body, brk.Some?); }
    n, g := SimTryIn(c, s, None, None, outer, f, h, fuel);
    Relabel(VmOf(c), outer, Running(outer + [f], h), f, Exec(c, s, f.env, h, fuel), fuel, n, g, f.ip + B.LenS(s), brk,
            cnt, false);
  }

  /** A loop ends every jump that could leave it, so its surroundings do not matter. */
  lemma Relabel(m: Vm, outer: seq<Frame>, start: Config, f: Frame, r: Res, fuel: nat, n: nat, g: Frame,
                end: nat, brk: Option<nat>, cnt: Option<nat>, clean: bool)
    requires Sim(m, outer, start, f, r, fuel, n, g, end, None, None, clean)
    ensures Sim(m, outer, start, f, r, fuel, n, g, end, brk, cnt, clean)
  {
    hide Step, Unwind;
  }

  /** Where a simulated run that stays in its activation has landed. */
  lemma Landed(m: Vm, outer: seq<Frame>, start: Config, f: Frame, r: Res, fuel: nat, n: nat, g: Frame,
               end: nat, brk: Option<nat>, cnt: Option<nat>, clean: bool)
    requires Sim(m, outer, start, f, r, fuel, n, g, end, brk, cnt, clean)
    ensures r.out.Vals? ==> Steps(m, n, start) == Running(outer + [f.(ip := end, stack := f.stack + r.out.vs)], r.h)
    ensures r.out.Normal? ==> Reached(outer, f, r, g, end, clean, Steps(m, n, start))
    ensures r.out.Brk? ==> brk.Some? && Reached(outer, f, r, g, brk.value, clean, Steps(m, n, start))
    ensures r.out.Cont? ==> cnt.Some? && Reached(outer, f, r, g, cnt.value, clean, Steps(m, n, start))
  {
    hide Step, Unwind;
  }

  /** Outcomes that leave the activation, or the fuel, do not depend on where statements end. */
  lemma Elsewhere(m: Vm, outer: seq<Frame>, start: Config, f: Frame, r: Res, fuel: nat, n: nat, g: Frame,
                  end: nat, brk: Option<nat>, cnt: Option<nat>, clean: bool,
                  fuel': nat, end': nat, brk': Option<nat>, cnt': Option<nat>, clean': bool)
    requires Sim(m, outer, start, f, r, fuel, n, g, end, brk, cnt, clean) && fuel' <= fuel
    requires r.out.Ret? || r.out.Thr? || r.out.Fail? || r.out.Timeout?
    ensures Sim(m, outer, start, f, r, fuel', n, g, end', brk', cnt', clean')
  {
    hide Step, Unwind;
  }

  lemma LoopCode(cond: Expr, pre: seq<Stmt>, body: seq<Stmt>, post: seq<Stmt>, code: seq<B.Instr>, ip: nat)
    requires CodeAt(code, ip, B.CompLoop(cond, pre, body, post, ip))
    ensures var exit := ip + B.LenLoop(cond, pre, body, post);
            var preAt := ip + |B.CompE(cond)| + 1;
            var bodyAt := preAt + B.LenSs(pre);
            var postAt := bodyAt + B.LenSs(body);
            && CodeAt(code, ip, B.CompE(cond)) && InstrAt(code, preAt - 1, B.JumpIfFalse(Some(exit)))
            && CodeAt(code, preAt, B.CompSs(pre, preAt, None, None))
            && CodeAt(code, bodyAt, B.CompSs(body, bodyAt, Some(exit), Some(ip)))
            && CodeAt(code, postAt, B.CompSs(post, postAt, None, None))
            && InstrAt(code, postAt + B.LenSs(post), B.Jump(Some(ip)))
  {
    hide B.CompE, B.CompSs, B.LenSs, CodeAt, InstrAt;
    var exit := ip + B.LenLoop(cond, pre, body, post);
    var preAt := ip + |B.CompE(cond)| + 1;
    var bodyAt := preAt + B.LenSs(pre);
    var postAt := bodyAt + B.LenSs(body);
    var p, b, q := B.CompSs(pre, preAt, None, None), B.CompSs(body, bodyAt, Some(exit), Some(ip)),
                   B.CompSs(post, postAt, None, None);
    var test, back := B.JumpIfFalse(Some(exit)), [B.Jump(Some(ip))];
    CodeSplit(code, ip, B.CompE(cond), [test] + (p + (b + (q + back))));
    CodeStep(code, preAt - 1, test, p + (b + (q + back)));
    CodeSplit(code, preAt, p, b + (q + back));
    CodeSplit(code, bodyAt, b, q + back);
    CodeSplit(code, postAt, q, back);
    CodeHead(code, postAt + B.LenSs(post), back[0]);
  }

  /** What the parts of a loop must satisfy for the frame `f` that runs it. */
  ghost predicate LoopReady(c: Context, cond: Expr, pre: seq<Stmt>, body: seq<Stmt>, post: seq<Stmt>, f: Frame,
                            at: nat) {
    && FaithfulContext(c) && CodeAt(f.code, at, B.CompLoop(cond, pre, body, post, at))
    && PlainAll(pre, None) && PlainAll(body, Some(0)) && PlainAll(post, None) && !HasTryAny(pre) && !HasTryAny(post)
    && (c.policy.zeroMapTakesAll ==>
          var a := f.stack == [] && !HasTryAny(body);
          MapsOk(cond, a) && MapsOkAll(pre, false) && MapsOkAll(body, a) && MapsOkAll(post, false))
  }

  lemma {:induction false} SimLoop(c: Context, cond: Expr, pre: seq<Stmt>, body: seq<Stmt>, post: seq<Stmt>,
                                   outer: seq<Frame>, f: Frame, h: Heap, fuel: nat)
    returns (n: nat, g: Frame)
    requires LoopReady(c, cond, pre, body, post, f, f.ip)
    ensures Sim(VmOf(c), outer, Running(outer + [f], h), f, Loop(c, cond, pre, body, post, f.env, h, fuel), fuel, n, g,
                f.ip + B.LenLoop(cond, pre, body, post), None, None, !HasTryAny(body))
    decreases fuel, 1 + SizeE(cond) + SizeSs(pre) + SizeSs(body) + SizeSs(post), 0
  {
    hide Step, Unwind, Eval, Execute, MapsOk, Sim, B.CompE, B.CompSs, B.LenSs, CodeAt, InstrAt,
      MapsOkAll, LoopsOkAll, NoCrossAll, HasTryAny, ExecAll, Turn, FaithfulContext;
    var m := VmOf(c);
    var start := Running(outer + [f], h);
    var end := f.ip + B.LenLoop(cond, pre, body, post);
    var clean := !HasTryAny(body);
    if fuel == 0 {
      n, g := 0, f;
      OutOfFuel(m, outer, start, f, h, end, clean);
    } else {
      LoopCode(cond, pre, body, post, f.code, f.ip);
      if c.policy.zeroMapTakesAll { MapsMonotone(cond, f.stack == [] && clean, f.stack == []); }
      n, g := SimThen(c, cond, B.JumpIfFalse(Some(end)), outer, f, h, fuel, end, None, None, clean);
      var r := Eval(c, cond, f.env, h, fuel);
      if r.out.Vals? {
        var v := r.out.vs[0];
        var yes := f.(ip := f.ip + |B.CompE(cond)| + 1);
        assert r.out.vs == [v] && f.(ip := yes.ip, stack := f.stack + r.out.vs) == yes.(stack := yes.stack + [v]);
        ExecuteTest(m, outer, yes, v, r.h, end);
        if Truthy(c.host, v) {
          n, g := SimPre(c, cond, pre, body, post, outer, f, start, n, yes, r.h, fuel);
        } else {
          g := f.(ip := end);
          assert yes.(ip := end) == g;
          SimDone(m, outer, start, f, g, r.h, fuel, n, None, None, clean);
        }
      }
    }
  }

  /** A turn whose test has held, from its first statement on. */
  lemma {:induction false} SimPre(c: Context, cond: Expr,
                                  pre: seq<Stmt>, body: seq<Stmt>, post: seq<Stmt>, outer: seq<Frame>, f: Frame,
                                  start: Config, before: nat, yes: Frame, h: Heap, fuel: nat)
    returns (n: nat, g: Frame)
    requires fuel > 0 && LoopReady(c, cond, pre, body, post, f, f.ip)
    requires yes == f.(ip := f.ip + |B.CompE(cond)| + 1) && before > 0
             && Steps(VmOf(c), before, start) == Running(outer + [yes], h)
    ensures var r := ExecAll(c, pre, f.env, h, fuel);
            Sim(VmOf(c), outer, start, f, if r.out.Normal? then Turn(c, cond, pre, body, post, f.env, r.h, fuel) else r,
                fuel, n, g,
                f.ip + B.LenLoop(cond, pre, body, post), None, None, !HasTryAny(body))
    decreases fuel, SizeE(cond) + SizeSs(pre) + SizeSs(body) + SizeSs(post), 2
  {
    hide Step, Unwind, Eval, Execute, MapsOk, Sim, B.CompE, B.CompSs, B.LenSs, CodeAt, InstrAt,
      MapsOkAll, LoopsOkAll, NoCrossAll, HasTryAny, ExecAll, Turn, FaithfulContext, Steps;
    var m := VmOf(c);
    var end := f.ip + B.LenLoop(cond, pre, body, post);
    var clean := !HasTryAny(body);
    LoopCode(cond, pre, body, post, f.code, f.ip);
    var n', r := 0, ExecAll(c, pre, f.env, h, fuel);
    if c.policy.zeroMapTakesAll { MapsMonotoneAll(pre, false, yes.stack == []); }
    n', g := SimSs(c, pre, None, None, outer, yes, h, fuel);
    ChainFrom(m, outer, before, start, f, yes, h, r, fuel, fuel, n', g, yes.ip + B.LenSs(pre), None, None, true,
              !HasTryAny(pre));
    n := before + n';
    Landed(m, outer, start, f, r, fuel, n, g, yes.ip + B.LenSs(pre), None, None, true);
    if r.out.Normal? {
      var mid := g;
      n', g := SimTurn(c, cond, pre, body, post, outer, f.ip, mid, r.h, fuel);
      ChainFrom(m, outer, n, start, f, mid, r.h, Turn(c, cond, pre, body, post, f.env, r.h, fuel), fuel, fuel - 1, n',
                g,
                end, None, None, clean, clean);
      n := n + n';
    } else {
      Elsewhere(m, outer, start, f, r, fuel, n, g, yes.ip + B.LenSs(pre), None, None, true, fuel, end, None, None,
                clean);
    }
  }

  lemma OutOfFuel(m: Vm, outer: seq<Frame>, start: Config, f: Frame, h: Heap, end: nat, clean: bool)
    requires start.Running?
    ensures Sim(m, outer, start, f, Res(Timeout, h), 0, 0, f, end, None, None, clean)
  {
  }

  lemma {:induction false} SimTurn(c: Context, cond: Expr, pre: seq<Stmt>, body: seq<Stmt>, post: seq<Stmt>,
                                   outer: seq<Frame>, at: nat, f: Frame, h: Heap, fuel: nat)
    returns (n: nat, g: Frame)
    requires fuel > 0 && LoopReady(c, cond, pre, body, post, f, at) && f.ip == at + |B.CompE(cond)| + 1 + B.LenSs(pre)
    ensures Sim(VmOf(c), outer, Running(outer + [f], h), f, Turn(c, cond, pre, body, post, f.env, h, fuel), fuel - 1, n,
                g,
                at + B.LenLoop(cond, pre, body, post), None, None, !HasTryAny(body))
    decreases fuel, SizeE(cond) + SizeSs(pre) + SizeSs(body) + SizeSs(post), 1
  {
    hide Step, Unwind, Eval, Execute, MapsOk, Sim, B.CompE, B.CompSs, B.LenSs, CodeAt, InstrAt,
      MapsOkAll, LoopsOkAll, NoCrossAll, HasTryAny, ExecAll, FaithfulContext, Loop;
    var m := VmOf(c);
    var start := Running(outer + [f], h);
    var end := at + B.LenLoop(cond, pre, body, post);
    var clean := !HasTryAny(body);
    var postAt := f.ip + B.LenSs(body);
    LoopCode(cond, pre, body, post, f.code, at);
    if c.policy.zeroMapTakesAll { MapsMonotoneAll(body, f.stack == [] && clean, f.stack == []); }
    n, g := SimSs(c, body, Some(end), Some(at), outer, f, h, fuel);
    var r := ExecAll(c, body, f.env, h, fuel);
    Landed(m, outer, start, f, r, fuel, n, g, postAt, Some(end), Some(at), clean);
    if r.out.Brk? {
      SimDone(m, outer, start, f, g, r.h, fuel - 1, n, None, None, clean);
    } else if r.out.Cont? {
      n, g := SimAgain(c, cond, pre, body, post, outer, at, f, g, start, r.h, fuel, n);
    } else if r.out.Normal? {
      var mid := g;
      var r' := ExecAll(c, post, f.env, r.h, fuel);
      if c.policy.zeroMapTakesAll { MapsMonotoneAll(post, false, mid.stack == []); }
      var n';
      n', g := SimSs(c, post, None, None, outer, mid, r.h, fuel);
      ChainFrom(m, outer, n, start, f, mid, r.h, r', fuel, fuel, n', g, postAt + B.LenSs(post), None, None, clean,
                true);
      n := n + n';
      if r'.out.Normal? {
        n, g := ThenJump(m, outer, start, f, r', fuel, n, g, postAt + B.LenSs(post), None, None, clean, at);
        Landed(m, outer, start, f, r', fuel, n, g, at, None, None, clean);
        n, g := SimAgain(c, cond, pre, body, post, outer, at, f, g, start, r'.h, fuel, n);
      } else {
        Landed(m, outer, start, f, r', fuel, n, g, postAt + B.LenSs(post), None, None, clean);
        Elsewhere(m, outer, start, f, r', fuel, n, g, postAt + B.LenSs(post), None, None, clean, fuel - 1, end, None,
                  None, clean);
      }
    } else {
      Elsewhere(m, outer, start, f, r, fuel, n, g, postAt, Some(end), Some(at), clean, fuel - 1, end, None, None,
                clean);
    }
  }

  /** The next turn: the frame is back at the test. */
  lemma {:induction false} SimAgain(c: Context, cond: Expr, pre: seq<Stmt>, body: seq<Stmt>, post: seq<Stmt>,
                                    outer: seq<Frame>, at: nat, f: Frame, f': Frame, start: Config, h: Heap, fuel: nat,
                                    n: nat)
    returns (n': nat, g: Frame)
    requires fuel > 0 && LoopReady(c, cond, pre, body, post, f, at)
    requires Grown(f, f') && f'.ip == at && (!HasTryAny(body) ==> f'.stack == f.stack)
    requires Steps(VmOf(c), n, start) == Running(outer + [f'], h)
    ensures Sim(VmOf(c), outer, start, f, Loop(c, cond, pre, body, post, f.env, h, fuel - 1), fuel - 1, n', g,
                at + B.LenLoop(cond, pre, body, post), None, None, !HasTryAny(body))
    decreases fuel, SizeE(cond) + SizeSs(pre) + SizeSs(body) + SizeSs(post), 0
  {
    hide Step, Unwind, Sim, MapsOk, MapsOkAll, LoopsOkAll, NoCrossAll, HasTryAny, FaithfulContext, CodeAt, B.CompLoop,
      B.LenLoop, Loop;
    n', g := SimLoop(c, cond, pre, body, post, outer, f', h, fuel - 1);
    ChainFrom(VmOf(c), outer, n, start, f, f', h, Loop(c, cond, pre, body, post, f.env, h, fuel - 1), fuel - 1,
              fuel - 1, n', g,
              at + B.LenLoop(cond, pre, body, post), None, None, !HasTryAny(body), !HasTryAny(body));
    n' := n + n';
  }

  // What is safe on an unknown stack is safe on an empty one.

  lemma {:induction false} MapsMonotone(e: Expr, a: bool, b: bool)
    requires MapsOk(e, a) && (a ==> b)
    ensures MapsOk(e, b)
    decreases SizeE(e)
  {
    var es := Parts(e);
    if es != [] { MapsMonotone(es[0], a, b); }
  }

  lemma {:induction false} MapsMonotoneS(s: Stmt, a: bool, b: bool)
    requires MapsOkS(s, a) && (a ==> b)
    ensures MapsOkS(s, b)
  {
    match s
    case Assign(_, e) => MapsMonotone(e, a, b);
    case ExprStmt(e) => MapsMonotone(e, a, b);
    case Throw(e) => MapsMonotone(e, a, b);
    case Return(r) => if r.Some? { MapsMonotone(r.value, a, b); }
    case If(cond, thn, els) =>
      MapsMonotone(cond, a, b);
      MapsMonotoneAll(thn, a, b);
      if els.Block? { MapsMonotoneAll(els.body, a, b); }
    case While(cond, body) =>
      MapsMonotone(cond, a && !HasTryAny(body), b && !HasTryAny(body));
      MapsMonotoneAll(body, a && !HasTryAny(body), b && !HasTryAny(body));
    case For(_, _, it, body) =>
      MapsMonotone(it, a, b);
      MapsMonotoneAll(body, a && !HasTryAny(body), b && !HasTryAny(body));
    case Try(body, _, _, _) => MapsMonotoneAll(body, a, b);
    case _ =>
  }

  lemma {:induction false} MapsMonotoneAll(ss: seq<Stmt>, a: bool, b: bool)
    requires MapsOkAll(ss, a) && (a ==> b)
    ensures MapsOkAll(ss, b)
  {
    if ss != [] {
      MapsMonotoneS(ss[0], a, b);
      MapsMonotoneAll(ss[1..], a && !HasTry(ss[0]), b && !HasTry(ss[0]));
    }
  }
}
