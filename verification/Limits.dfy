/** Where the virtual machines and the compiler do less than the language says, and
    exactly when. */
module Limits {
  import opened Syntax
  import S = Semantics
  import opened Bytecode
  import opened Machine
  import P = Preservation

  /** `BUILD_MAP 0` builds an empty map on top of the operand stack, unless the machine
      takes the whole stack for it and the stack is not empty. */
  lemma EmptyMapExact(m: Vm, outer: seq<Frame>, f: Frame, h: S.Heap)
    requires m.host.mapOf([]).Ok?
    ensures Execute(m, outer, f, h, BuildMap(0)) == Push(outer, f, h, m.host.mapOf([]).v)
       <==> !m.policy.zeroMapTakesAll || f.stack == []
  {
    hide Unwind;
    var want := Push(outer, f, h, m.host.mapOf([]).v);
    if !m.policy.zeroMapTakesAll || f.stack == [] {
      assert Top(f, 0) == [] && f.stack[..|f.stack|] == f.stack;
      assert Drop(f, 0) == f;
    } else if |f.stack| % 2 == 0 {
      TakesAll(m, outer, f, h);
    }
  }

  lemma TakesAll(m: Vm, outer: seq<Frame>, f: Frame, h: S.Heap)
    requires m.host.mapOf([]).Ok? && m.policy.zeroMapTakesAll && f.stack != [] && |f.stack| % 2 == 0
    ensures Execute(m, outer, f, h, BuildMap(0)) != Push(outer, f, h, m.host.mapOf([]).v)
  {
    hide Unwind;
    var n := |f.stack|;
    var bare := Drop(f, n);
    assert bare.stack == [] && Top(f, n) == f.stack;
    var r := m.host.mapOf(f.stack);
    assert Execute(m, outer, f, h, BuildMap(0)) == PushResult(m, outer, bare, h, r);
    var got := PushResult(m, outer, bare, h, r);
    var want := Push(outer, f, h, m.host.mapOf([]).v);
    assert want.frames[|outer|].stack == f.stack + [m.host.mapOf([]).v];
    if r.Ok? {
      assert got.frames[|outer|].stack == [] + [r.v];
    } else if r.Raise? {
      UnwindShrinks(m.policy, outer, bare, h, r.v);
    }
  }

  /** Unwinding leaves no more frames than there were, and the operand stack of the top
      one is as it was when its frame was left. */
  lemma {:induction false} UnwindShrinks(policy: S.Policy, outer: seq<Frame>, f: Frame, h: S.Heap, v: Value)
    ensures var r := Unwind(policy, outer, f, h, v);
            r.Running? ==>
              |r.frames| <= |outer| + 1
              && (|r.frames| == |outer| + 1 ==> r.frames[|outer|].stack == f.stack)
    decreases |outer|
  {
    HandleKeepsStack(f, h, v);
    if HandleThrow(f, h, v).None? && policy.propagates && outer != [] {
      UnwindShrinks(policy, outer[..|outer| - 1], outer[|outer| - 1], h, v);
    }
  }

  lemma {:induction false} HandleKeepsStack(f: Frame, h: S.Heap, v: Value)
    ensures HandleThrow(f, h, v).Some? ==> HandleThrow(f, h, v).value.0.stack == f.stack
    decreases |f.handlers|
  {
    if f.handlers != [] { HandleKeepsStack(f.(handlers := f.handlers[..|f.handlers| - 1]), h, v); }
  }

  // The code of a `tente` at work, wherever it stands.

  /** The machine raises again what was pending when `finalmente` ends normally, unless it
      forgets a pending `nulo` and that is what was pending; then it goes on after the `tente`. */
  lemma PendingExact(c: S.Context, s: Stmt, brk: Option<nat>, cnt: Option<nat>, outer: seq<Frame>, f: Frame, h: S.Heap,
                     fuel: nat)
    returns (n: nat, g: Frame)
    requires P.TryReady(c, s, f, brk, cnt) && s.catch.Absent? && s.fin.Block?
             && S.ExecAll(c, s.body, f.env, h, fuel).out.Thr?
    requires S.ExecAll(c, s.fin.body, f.env, S.ExecAll(c, s.body, f.env, h, fuel).h, fuel).out.Normal?
    ensures var r := S.ExecAll(c, s.body, f.env, h, fuel);
            var h' := S.ExecAll(c, s.fin.body, f.env, r.h, fuel).h;
            && P.Grown(f, g)
            && var end := Steps(P.VmOf(c), n, Running(outer + [f], h));
            if c.policy.keepsNull || r.out.v != VNull then end == Unwind(c.policy, outer, g, h', r.out.v)
            else end == Running(outer + [g], h') && g.ip == f.ip + LenS(s)
  {
    hide S.ExecAll, Steps, Unwind, LenS, P.LeftBehind;
    TryMeans(c, s, f.env, h, fuel);
    hide S.Exec;
    n, g := P.SimTryIn(c, s, brk, cnt, outer, f, h, fuel);
  }

  /** A `retorne` in the block of a `tente` or in its `pegue` ends the frame: the caller gets the
      value with the heap as that part left it, and `finalmente` has not run. */
  lemma ReturnSkipsFinally(c: S.Context, s: Stmt, brk: Option<nat>, cnt: Option<nat>, outer: seq<Frame>, f: Frame,
                           h: S.Heap, fuel: nat)
    returns (n: nat)
    requires P.TryReady(c, s, f, brk, cnt) && Protected(c, s, f.env, h, fuel).out.Ret?
    ensures var r := Protected(c, s, f.env, h, fuel);
            Steps(P.VmOf(c), n, Running(outer + [f], h)) == ReturnTo(outer, r.out.v, r.h)
  {
    hide S.ExecAll, Steps, Unwind, LenS, P.LeftBehind;
    var g;
    TryMeans(c, s, f.env, h, fuel);
    hide S.Exec;
    n, g := P.SimTryIn(c, s, brk, cnt, outer, f, h, fuel);
  }

  /** The block of a `tente`, and its `pegue` if that takes an exception of the block. */
  function Protected(c: S.Context, s: Stmt, env: nat, h: S.Heap, fuel: nat): S.Res
    requires s.Try?
  {
    var r := S.ExecAll(c, s.body, env, h, fuel);
    if r.out.Thr? && s.catch.Block? then S.ExecAll(c, s.catch.body, env, S.Caught(r.h, env, s.catchName, r.out.v), fuel)
    else r
  }

  lemma TryMeans(c: S.Context, s: Stmt, env: nat, h: S.Heap, fuel: nat)
    requires s.Try?
    ensures var p := Protected(c, s, env, h, fuel);
            S.Exec(c, s, env, h, fuel)
            == if !s.fin.Block? || !S.Settles(p.out) then p
            else S.Resumed(c.policy, p.out, S.ExecAll(c, s.fin.body, env, p.h, fuel))
  {
    hide S.ExecAll;
    assert s == Try(s.body, s.catchName, s.catch, s.fin);
  }

  predicate IsJump(o: S.Outcome) {
    o.Brk? || o.Cont?
  }

  /** The part of a `tente` that ends in a `pare` or `continue` of the loop around it, if one does. */
  function JumpingPart(c: S.Context, s: Stmt, env: nat, h: S.Heap, fuel: nat): Option<Phase>
    requires s.Try?
  {
    var r, p := S.ExecAll(c, s.body, env, h, fuel), Protected(c, s, env, h, fuel);
    if IsJump(r.out) then Some(InTry)
    else if IsJump(p.out) then Some(InCatch)
    else if s.fin.Block? && S.Settles(p.out) && IsJump(S.ExecAll(c, s.fin.body, env, p.h, fuel).out)
    then Some(InFinally)
    else None
  }

  /** A `tente` whose run stays in its frame: the frame leaves it with the handlers it came with
      exactly when no part of it ends in a `pare` or `continue` of the loop around it. Otherwise the
      machine is at the target of the jump with one more handler, in the phase of that part. */
  lemma JumpLeavesHandler(c: S.Context, s: Stmt, brk: nat, cnt: nat, outer: seq<Frame>, f: Frame, h: S.Heap, fuel: nat)
    returns (n: nat, g: Frame)
    requires P.TryReady(c, s, f, Some(brk), Some(cnt))
    requires S.Exec(c, s, f.env, h, fuel).out.Normal? || IsJump(S.Exec(c, s, f.env, h, fuel).out)
    ensures var r := S.Exec(c, s, f.env, h, fuel);
            var part := JumpingPart(c, s, f.env, h, fuel);
            && Steps(P.VmOf(c), n, Running(outer + [f], h)) == Running(outer + [g], r.h)
            && (IsJump(r.out) <==> part.Some?)
            && g.ip == (if r.out.Brk? then brk else if r.out.Cont? then cnt else f.ip + LenS(s))
            && (g.handlers == f.handlers <==> part.None?)
            && (part.Some? ==>
                  exists t: Handler ::
                    g.handlers == f.handlers + [t] && t.phase == part.value && t.catchName == s.catchName)
  {
    hide S.ExecAll, Steps, Unwind, LenS;
    TryMeans(c, s, f.env, h, fuel);
    hide S.Exec;
    n, g := P.SimTryIn(c, s, Some(brk), Some(cnt), outer, f, h, fuel);
  }

  /** It happens: a block that starts with `pare`. */
  lemma BreaksAtOnce(c: S.Context, rest: seq<Stmt>, name: Option<Ident>, catch: Branch, fin: Branch, env: nat,
                     h: S.Heap, fuel: nat)
    ensures JumpingPart(c, Try([Break] + rest, name, catch, fin), env, h, fuel) == Some(InTry)
  {
    assert S.Exec(c, Break, env, h, fuel) == S.Res(S.Brk, h);
    assert ([Break] + rest)[0] == Break;
    assert S.ExecAll(c, [Break] + rest, env, h, fuel) == S.Res(S.Brk, h);
    hide S.ExecAll;
  }
}
