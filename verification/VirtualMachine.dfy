/** The virtual machine as it is written: a fetch loop that changes its frame in
    place and calls itself for a user function, against the machine of small steps. */
module VirtualMachine {
  import opened Syntax
  import opened Bytecode
  import opened Machine
  import S = Semantics

  /** What one instruction tells the fetch loop to do. */
  datatype Signal = Go | Raised(v: Value) | Left(v: Value) | Died(err: S.Error) | Broken | NoFuel

  /** How a frame ends. `Threw` is an exception handed to the caller's frame. */
  datatype Exit = Returned(v: Value) | Threw(v: Value) | Killed(err: S.Error) | Corrupt | OutOfFuel

  /** The configuration a signal stands for, below any caller. */
  function AfterSignal(m: Vm, outer: seq<Frame>, f: Frame, h: S.Heap, s: Signal): Config {
    match s
    case Go => Running(outer + [f], h)
    case Raised(v) => Unwind(m.policy, outer, f, h, v)
    case Left(v) => ReturnTo(outer, v, h)
    case Died(err) => Dead(err)
    case Broken => Stuck
    case NoFuel => Running(outer + [f], h)
  }

  function AfterExit(m: Vm, outer: seq<Frame>, h: S.Heap, r: Exit): Config
    requires !r.OutOfFuel?
  {
    match r
    case Returned(v) => ReturnTo(outer, v, h)
    case Threw(v) =>
      if outer == [] then Dead(S.Uncaught(v)) else Unwind(m.policy, outer[..|outer| - 1], outer[|outer| - 1], h, v)
    case Killed(err) => Dead(err)
    case Corrupt => Stuck
  }

  /** `n` steps of the machine take a frame with this state, below any caller, to its end. */
  ghost predicate Runs(m: Vm, f: Frame, h: S.Heap, fuel: nat, r: Exit, h': S.Heap, n: nat) {
    forall outer ::
      var end := Steps(m, n, Running(outer + [f], h));
      if r.OutOfFuel? then end.Running? && n >= fuel else end == AfterExit(m, outer, h', r)
  }

  /** `n` steps of the machine do what one instruction of the interpreter does. */
  ghost predicate Does(m: Vm, f: Frame, h: S.Heap, fuel: nat, s: Signal, f': Frame, h': S.Heap, n: nat) {
    forall outer ::
      var end := Steps(m, n, Running(outer + [f], h));
      if s.NoFuel? then end.Running? && n > fuel else end == AfterSignal(m, outer, f', h', s)
  }

  class FrameState {
    const code: seq<Instr>
    const env: nat
    var ip: nat
    var stack: seq<Value>
    var handlers: seq<Handler>

    constructor (code: seq<Instr>, env: nat)
      ensures this.code == code && this.env == env && ip == 0 && stack == [] && handlers == []
    {
      this.code, this.env, ip, stack, handlers := code, env, 0, [], [];
    }

    function AsFrame(): Frame
      reads this
    {
      Frame(code, ip, env, stack, handlers)
    }

    method Push(v: Value)
      modifies this`stack
      ensures stack == old(stack) + [v]
    {
      stack := stack + [v];
    }

    method Pop() returns (v: Value)
      requires stack != []
      modifies this`stack
      ensures old(stack) == stack + [v]
    {
      v := stack[|stack| - 1];
      stack := stack[..|stack| - 1];
    }

    method EndBlock(phase: Phase) returns (s: Signal)
      modifies this`ip, this`handlers
      ensures var k := |old(handlers)|;
              if k == 0 || old(handlers)[k - 1].phase != phase then s.Broken? && AsFrame() == old(AsFrame())
              else s.Go? && AsFrame() == Machine.EndBlock(old(AsFrame()))
    {
      if handlers == [] { return Broken; }
      var k := |handlers| - 1;
      var handler := handlers[k];
      if handler.phase != phase { return Broken; }
      s := Go;
      if handler.finIp.Some? {
        handlers := handlers[k := handler.(phase := InFinally)];
        ip := handler.finIp.value;
      } else {
        handlers := handlers[..k];
      }
    }

    method BeginFinally() returns (s: Signal)
      modifies this`handlers
      ensures var k := |old(handlers)|;
              if k == 0 then s.Broken? && handlers == []
              else s.Go? && handlers == old(handlers)[..k - 1] + [old(handlers)[k - 1].(phase := InFinally)]
    {
      if handlers == [] { return Broken; }
      var k := |handlers| - 1;
      handlers := handlers[k := handlers[k].(phase := InFinally)];
      s := Go;
    }

    method EndFinally(policy: S.Policy) returns (s: Signal)
      modifies this`handlers
      ensures var k := |old(handlers)|;
              if k == 0 then s.Broken? && handlers == []
              else
                && handlers == old(handlers)[..k - 1]
                && var p := old(handlers)[k - 1].pending;
                s == if p.Some? && (policy.keepsNull || !p.value.VNull?) then Raised(p.value) else Go
    {
      if handlers == [] { return Broken; }
      var k := |handlers| - 1;
      var handler := handlers[k];
      handlers := handlers[..k];
      s := Go;
      if handler.pending.Some? && (policy.keepsNull || !handler.pending.value.VNull?) {
        s := Raised(handler.pending.value);
      }
    }

    /** Unwinds the handlers until one takes the exception. */
    method HandleException(h: S.Heap, v: Value) returns (taken: bool, h': S.Heap)
      modifies this`ip, this`handlers
      ensures taken <==> HandleThrow(old(AsFrame()), h, v).Some?
      ensures taken ==> (AsFrame(), h') == HandleThrow(old(AsFrame()), h, v).value
      ensures !taken ==> h' == h
    {
      h' := h;
      while handlers != []
        invariant HandleThrow(AsFrame(), h, v) == HandleThrow(old(AsFrame()), h, v)
        invariant AsFrame() == old(AsFrame()).(handlers := handlers)
        decreases |handlers|
      {
        var k := |handlers| - 1;
        var handler := handlers[k];
        ghost var hs := handlers;
        if handler.phase.InTry? && handler.catchIp.Some? {
          handlers := handlers[k := handler.(phase := InCatch)];
          h' := S.Caught(h, env, handler.catchName, v);
          ip := handler.catchIp.value;
          assert handlers == hs[..k] + [handler.(phase := InCatch)];
          return true, h';
        }
        if !handler.phase.InFinally? && handler.finIp.Some? {
          handlers := handlers[k := handler.(phase := InFinally, pending := Some(v))];
          ip := handler.finIp.value;
          assert handlers == hs[..k] + [handler.(phase := InFinally, pending := Some(v))];
          return true, h;
        }
        handlers := handlers[..k];
      }
      taken := false;
    }
  }

  function OfResult(r: S.OpRes): Signal {
    match r
    case Ok(_) => Go
    case Raise(v) => Raised(v)
    case Crash => Died(S.Fatal)
  }

  /** Pushes the value of an operation, if it has one. */
  method PushResult(f: FrameState, r: S.OpRes) returns (s: Signal)
    modifies f`stack
    ensures s == OfResult(r)
    ensures f.stack == if r.Ok? then old(f.stack) + [r.v] else old(f.stack)
  {
    s := OfResult(r);
    if r.Ok? { f.Push(r.v); }
  }

  predicate IsOperator(i: Instr) {
    i.Negate? || i.AwaitTop? || i.Binary? || i.CompareOp? || i.BinarySubscr?
  }

  predicate IsTry(i: Instr) {
    i.PushTry? || i.EndTryBlock? || i.EndCatchBlock? || i.BeginFinally? || i.EndFinally?
  }

  /** An operation on the top of the operand stack. */
  method ExecuteOperator(m: Vm, f: FrameState, h: S.Heap, i: Instr) returns (s: Signal)
    requires IsOperator(i) && |f.stack| >= Needs(i)
    modifies f`stack
    ensures !s.NoFuel?
    ensures forall outer :: Execute(m, outer, old(f.AsFrame()), h, i) == AfterSignal(m, outer, f.AsFrame(), h, s)
  {
    hide Execute, AfterSignal;
    if i.Negate? || i.AwaitTop? { s := ExecuteUnary(m, f, h, i); } else { s := ExecuteBinary(m, f, h, i); }
  }

  method ExecuteUnary(m: Vm, f: FrameState, h: S.Heap, i: Instr) returns (s: Signal)
    requires (i.Negate? || i.AwaitTop?) && |f.stack| >= Needs(i)
    modifies f`stack
    ensures !s.NoFuel?
    ensures forall outer :: Execute(m, outer, old(f.AsFrame()), h, i) == AfterSignal(m, outer, f.AsFrame(), h, s)
  {
    hide Unwind, S.Negate, S.Binary, S.Compare, S.Subscript, Machine.Invoke, Machine.EndBlock, ReturnTo, S.Truthy,
      S.Get, S.Set, Top;
    ghost var was := f.AsFrame();
    if i.Negate? {
      var a := f.Pop();
      assert f.AsFrame() == Drop(was, 1);
      s := PushResult(f, S.Negate(m.host, a));
    } else {
      var a := VNull;
      if f.stack != [] {
        a := f.Pop();
        assert f.AsFrame() == Drop(was, 1);
      }
      s := PushResult(f, m.host.awaited(a));
    }
  }

  method ExecuteBinary(m: Vm, f: FrameState, h: S.Heap, i: Instr) returns (s: Signal)
    requires (i.Binary? || i.CompareOp? || i.BinarySubscr?) && |f.stack| >= Needs(i)
    modifies f`stack
    ensures !s.NoFuel?
    ensures forall outer :: Execute(m, outer, old(f.AsFrame()), h, i) == AfterSignal(m, outer, f.AsFrame(), h, s)
  {
    hide Unwind, S.Negate, S.Binary, S.Compare, S.Subscript, Machine.Invoke, Machine.EndBlock, ReturnTo, S.Truthy,
      S.Get, S.Set, Top;
    ghost var was := f.AsFrame();
    var b := f.Pop();
    var a := f.Pop();
    assert f.AsFrame() == Drop(was, 2);
    s := PushResult(f, if i.Binary? then S.Binary(m.host, i.bop, a, b) else if i.CompareOp?
                    then S.Compare(m.host, i.cop, a, b)
                    else S.Subscript(m.host, a, b));
  }

  /** `BUILD_LIST` and `BUILD_MAP`. */
  method ExecuteBuild(m: Vm, f: FrameState, h: S.Heap, i: Instr) returns (s: Signal)
    requires (i.BuildList? || i.BuildMap?) && |f.stack| >= Needs(i)
    modifies f`stack
    ensures !s.NoFuel?
    ensures forall outer :: Execute(m, outer, old(f.AsFrame()), h, i) == AfterSignal(m, outer, f.AsFrame(), h, s)
  {
    hide Unwind;
    s := Go;
    ghost var was := f.AsFrame();
    match i {
      case BuildList(c) =>
        var items := f.stack[|f.stack| - c..];
        f.stack := f.stack[..|f.stack| - c];
        assert f.AsFrame() == Drop(was, c);
        f.Push(VList(items));
      case BuildMap(c) =>
        var taken := if c == 0 && m.policy.zeroMapTakesAll then |f.stack| else 2 * c;
        if taken % 2 == 1 { return Broken; }
        var entries := f.stack[|f.stack| - taken..];
        f.stack := f.stack[..|f.stack| - taken];
        assert f.AsFrame() == Drop(was, taken);
        s := PushResult(f, m.host.mapOf(entries));
    }
  }

  /** An instruction on the stack of try-handlers. */
  method ExecuteTry(m: Vm, f: FrameState, h: S.Heap, i: Instr) returns (s: Signal)
    requires IsTry(i)
    modifies f`ip, f`handlers
    ensures !s.NoFuel?
    ensures forall outer :: Execute(m, outer, old(f.AsFrame()), h, i) == AfterSignal(m, outer, f.AsFrame(), h, s)
  {
    hide Unwind;
    s := Go;
    match i {
      case PushTry(c, fin, name) => f.handlers := f.handlers + [Handler(c, fin, name, InTry, None)];
      case EndTryBlock => s := f.EndBlock(InTry);
      case EndCatchBlock => s := f.EndBlock(InCatch);
      case BeginFinally => s := f.BeginFinally();
      case EndFinally => s := f.EndFinally(m.policy);
    }
  }

  /** One instruction other than a call. The frame is already past it. */
  method ExecuteOne(m: Vm, f: FrameState, h: S.Heap, i: Instr) returns (s: Signal, h': S.Heap)
    requires !i.CallFn?
    modifies f
    ensures !s.NoFuel?
    ensures forall outer :: Execute(m, outer, old(f.AsFrame()), h, i) == AfterSignal(m, outer, f.AsFrame(), h', s)
  {
    hide Unwind, S.Truthy, S.Get, S.Set;
    h' := h;
    s := Go;
    if |f.stack| < Needs(i) { return Broken, h; }
    if IsTry(i) {
      s := ExecuteTry(m, f, h, i);
      return;
    }
    if IsOperator(i) {
      s := ExecuteOperator(m, f, h, i);
      return;
    }
    match i {
      case BuildList(_) => s := ExecuteBuild(m, f, h, i);
      case BuildMap(_) => s := ExecuteBuild(m, f, h, i);
      case LoadConst(v) => f.Push(v);
      case LoadName(x) =>
        var v := S.Get(h, f.env, x);
        if v.None? { return Died(S.Fatal), h; }
        f.Push(v.value);
      case StoreName(x) =>
        var v := f.Pop();
        h' := S.Set(h, f.env, x, v);
      case PopTop => var _ := f.Pop();
      case MakeFunction(x, id) =>
        if id !in m.fns { return Died(S.Fatal), h; }
        f.Push(VFunc(x, id, f.env));
      case ThrowTop =>
        var v := VNull;
        if f.stack != [] { v := f.Pop(); }
        s := Raised(v);
      case Jump(t) =>
        if t.None? { return Broken, h; }
        f.ip := t.value;
      case JumpIfFalse(t) =>
        var v := f.Pop();
        if !S.Truthy(m.host, v) {
          if t.None? { return Broken, h; }
          f.ip := t.value;
        }
      case ReturnValue => s := Left(if f.stack == [] then VNull else f.stack[|f.stack| - 1]);
      case Halt => s := Left(VNull);
    }
  }

  function OfExit(r: Exit): Signal {
    match r
    case Returned(_) => Go
    case Threw(v) => Raised(v)
    case Killed(err) => Died(err)
    case Corrupt => Broken
    case OutOfFuel => NoFuel
  }

  /** A call: built-ins answer at once, user functions run in a frame of their own. */
  method Call(m: Vm, f: FrameState, h: S.Heap, c: nat, fuel: nat, ghost was: Frame)
    returns (s: Signal, h': S.Heap, ghost n: nat)
    requires was.ip < |was.code| && was.code[was.ip] == CallFn(c) && f.AsFrame() == was.(ip := was.ip + 1)
    modifies f
    ensures Does(m, was, h, fuel, s, f.AsFrame(), h', n) && n > 0
    decreases fuel, 2
  {
    hide Unwind, Does, Steps, Execute, Machine.Invoke;
    h', n := h, 1;
    ghost var now := f.AsFrame();
    if |f.stack| < c + 1 {
      s := Broken;
      TooShort(m, was, h, c, fuel);
      return;
    }
    var args := f.stack[|f.stack| - c..];
    f.stack := f.stack[..|f.stack| - c];
    var callee := f.Pop();
    assert f.AsFrame() == Drop(now, c + 1);
    s, h', n := CallValue(m, f, h, callee, args, fuel, was);
  }

  lemma TooShort(m: Vm, was: Frame, h: S.Heap, c: nat, fuel: nat)
    requires was.ip < |was.code| && was.code[was.ip] == CallFn(c) && |was.stack| < c + 1
    ensures forall f: Frame :: Does(m, was, h, fuel, Broken, f, h, 1)
  {
    forall outer ensures Steps(m, 1, Running(outer + [was], h)) == Stuck {
      OneStep(m, outer, was, h);
    }
  }

  /** The call itself, once callee and arguments are off the operand stack. */
  method CallValue(m: Vm, f: FrameState, h: S.Heap, callee: Value, args: seq<Value>, fuel: nat, ghost was: Frame)
    returns (s: Signal, h': S.Heap, ghost n: nat)
    requires was.ip < |was.code| && was.code[was.ip] == CallFn(|args|) && |was.stack| > |args|
    requires f.AsFrame() == Drop(was.(ip := was.ip + 1), |args| + 1)
    requires callee == was.stack[|was.stack| - |args| - 1] && args == was.stack[|was.stack| - |args|..]
    modifies f
    ensures Does(m, was, h, fuel, s, f.AsFrame(), h', n) && n > 0
    decreases fuel, 1
  {
    hide Unwind, Does, Steps, Execute;
    h', n := h, 1;
    ghost var f0 := f.AsFrame();
    Invoked(m, was, f0, h, callee, args);
    match callee {
      case VBuiltin(name) =>
        var r := m.host.builtin(name, args);
        s := PushResult(f, r);
        FromInvoke(m, was, f0, h, callee, args, fuel, s, f.AsFrame());
      case VFunc(_, id, closure) =>
        if id !in m.fns || |args| != |m.fns[id].params| {
          s := Died(S.Fatal);
          FromInvoke(m, was, f0, h, callee, args, fuel, s, f.AsFrame());
          return;
        }
        var scope := S.Scope(S.Bind(m.fns[id].params, args), Some(closure));
        var inner := new FrameState(m.fns[id].code, |h|);
        var r;
        ghost var k;
        ghost var start := inner.AsFrame();
        r, h', k := RunFrame(m, inner, h + [scope], fuel);
        n := 1 + k;
        s := OfExit(r);
        if r.Returned? { f.Push(r.v); }
        CallReturns(m, was, f0, start, h, h + [scope], fuel, r, h', k);
      case _ =>
        s := Died(S.Fatal);
        FromInvoke(m, was, f0, h, callee, args, fuel, s, f.AsFrame());
    }
  }

  lemma Invoked(m: Vm, was: Frame, f: Frame, h: S.Heap, callee: Value, args: seq<Value>)
    requires was.ip < |was.code| && was.code[was.ip] == CallFn(|args|) && |was.stack| > |args|
    requires f == Drop(was.(ip := was.ip + 1), |args| + 1)
    requires callee == was.stack[|was.stack| - |args| - 1] && args == was.stack[|was.stack| - |args|..]
    ensures forall outer :: Steps(m, 1, Running(outer + [was], h)) == Machine.Invoke(m, outer, f, h, callee, args)
  {
    hide Unwind, Machine.Invoke;
    forall outer ensures Steps(m, 1, Running(outer + [was], h)) == Machine.Invoke(m, outer, f, h, callee, args) {
      OneStep(m, outer, was, h);
    }
  }

  /** A call that is over in one step. */
  lemma FromInvoke(m: Vm, was: Frame, f: Frame, h: S.Heap, callee: Value, args: seq<Value>, fuel: nat, s: Signal,
                   f': Frame)
    requires forall outer :: Steps(m, 1, Running(outer + [was], h)) == Machine.Invoke(m, outer, f, h, callee, args)
    requires callee.VFunc? ==> callee.code !in m.fns || |args| != |m.fns[callee.code].params|
    requires s == if callee.VBuiltin? then OfResult(m.host.builtin(callee.builtin, args)) else Died(S.Fatal)
    requires f' == if callee.VBuiltin? && m.host.builtin(callee.builtin, args).Ok?
                   then f.(stack := f.stack + [m.host.builtin(callee.builtin, args).v]) else f
    ensures Does(m, was, h, fuel, s, f', h, 1)
  {
    hide Unwind, Steps;
  }

  lemma OneStep(m: Vm, outer: seq<Frame>, f: Frame, h: S.Heap)
    requires f.ip < |f.code|
    ensures Steps(m, 1, Running(outer + [f], h)) == Execute(m, outer, f.(ip := f.ip + 1), h, f.code[f.ip])
  {
    var frames := outer + [f];
    assert frames[..|frames| - 1] == outer && frames[|frames| - 1] == f;
    assert Steps(m, 1, Running(frames, h)) == Steps(m, 0, Step(m, Running(frames, h)));
  }

  /** The steps of the callee, seen from the caller's frame. */
  lemma CallReturns(m: Vm, was: Frame, f: Frame, inner: Frame, h: S.Heap, h1: S.Heap, fuel: nat, r: Exit, h': S.Heap,
                    k: nat)
    requires forall outer :: Steps(m, 1, Running(outer + [was], h)) == Running(outer + [f] + [inner], h1)
    requires Runs(m, inner, h1, fuel, r, h', k)
    ensures var s := OfExit(r);
            Does(m, was, h, fuel, s, if r.Returned? then f.(stack := f.stack + [r.v]) else f, h', 1 + k)
  {
    var s := OfExit(r);
    var f' := if r.Returned? then f.(stack := f.stack + [r.v]) else f;
    forall outer ensures var end := Steps(m, 1 + k, Running(outer + [was], h));
                         if s.NoFuel? then end.Running? && 1 + k > fuel else end == AfterSignal(m, outer, f', h', s)
    {
      StepsAdd(m, 1, k, Running(outer + [was], h));
      var o := outer + [f];
      assert o[..|o| - 1] == outer && o[|o| - 1] == f;
    }
  }

  /** The end of a frame that no handler saves from an exception. */
  function Escaped(policy: S.Policy, v: Value): Exit {
    if policy.propagates then Threw(v) else Killed(S.Uncaught(v))
  }

  /** The fetch loop. */
  method RunFrame(m: Vm, f: FrameState, h: S.Heap, fuel: nat) returns (r: Exit, h': S.Heap, ghost n: nat)
    modifies f
    ensures Runs(m, old(f.AsFrame()), h, fuel, r, h', n)
    decreases fuel, 0
  {
    hide Unwind, Steps, Execute, HandleThrow, Does, Runs, Reached, AfterSignal;
    h', n := h, 0;
    var left: nat := fuel;
    ghost var f0 := f.AsFrame();
    NoSteps(m, f0, h);
    while f.ip < |f.code|
      invariant Reached(m, f0, h, n, f.AsFrame(), h')
      invariant fuel <= left + n
      decreases left
    {
      if left == 0 {
        StillRunning(m, f0, h, n, f.AsFrame(), h', fuel);
        return OutOfFuel, h', n;
      }
      left := left - 1;
      ghost var was := f.AsFrame();
      ghost var before := h';
      var instr := f.code[f.ip];
      f.ip := f.ip + 1;
      var s;
      ghost var k := 1;
      if instr.CallFn? {
        s, h', k := Call(m, f, h', instr.argc, left, was);
      } else {
        s, h' := ExecuteOne(m, f, h', instr);
        Once(m, was, before, instr, left, s, f.AsFrame(), h');
      }
      Chain(m, f0, h, n, was, before, left, s, f.AsFrame(), h', k, fuel);
      n := n + k;
      match s {
        case Go =>
        case Raised(v) =>
          var taken;
          taken, h' := f.HandleException(h', v);
          if !taken { return Escaped(m.policy, v), h', n; }
        case Left(v) => return Returned(v), h', n;
        case Died(err) => return Killed(err), h', n;
        case Broken => return Corrupt, h', n;
        case NoFuel => return OutOfFuel, h', n;
      }
    }
    FallsOff(m, f0, h, n, f.AsFrame(), h', fuel);
    r, n := Returned(VNull), n + 1;
  }

  /** `n` steps bring the frame `f0` to `f`, below any caller. */
  ghost predicate Reached(m: Vm, f0: Frame, h0: S.Heap, n: nat, f: Frame, h: S.Heap) {
    forall outer :: Steps(m, n, Running(outer + [f0], h0)) == Running(outer + [f], h)
  }

  lemma NoSteps(m: Vm, f: Frame, h: S.Heap)
    ensures Reached(m, f, h, 0, f, h)
  {
  }

  lemma StillRunning(m: Vm, f0: Frame, h0: S.Heap, n: nat, f: Frame, h: S.Heap, fuel: nat)
    requires Reached(m, f0, h0, n, f, h) && n >= fuel
    ensures Runs(m, f0, h0, fuel, OutOfFuel, h, n)
  {
    hide Steps;
  }

  lemma Once(m: Vm, was: Frame, h: S.Heap, i: Instr, fuel: nat, s: Signal, f: Frame, h': S.Heap)
    requires was.ip < |was.code| && was.code[was.ip] == i && !s.NoFuel?
    requires forall outer :: Execute(m, outer, was.(ip := was.ip + 1), h, i) == AfterSignal(m, outer, f, h', s)
    ensures Does(m, was, h, fuel, s, f, h', 1)
  {
    hide Execute, Steps, AfterSignal;
    forall outer ensures Steps(m, 1, Running(outer + [was], h)) == AfterSignal(m, outer, f, h', s) {
      OneStep(m, outer, was, h);
    }
  }

  /** One more instruction after the steps that brought the frame this far. */
  lemma Chain(m: Vm, f0: Frame, h0: S.Heap, n: nat, was: Frame, h: S.Heap, left: nat, s: Signal, f: Frame, h': S.Heap,
              k: nat, fuel: nat)
    requires Reached(m, f0, h0, n, was, h) && Does(m, was, h, left, s, f, h', k) && fuel <= left + 1 + n
    ensures s.Go? ==> Reached(m, f0, h0, n + k, f, h')
    ensures s.Raised? && HandleThrow(f, h', s.v).Some? ==>
              Reached(m, f0, h0, n + k, HandleThrow(f, h', s.v).value.0, HandleThrow(f, h', s.v).value.1)
    ensures s.Raised? && HandleThrow(f, h', s.v).None? ==> Runs(m, f0, h0, fuel, Escaped(m.policy, s.v), h', n + k)
    ensures s.Left? ==> Runs(m, f0, h0, fuel, Returned(s.v), h', n + k)
    ensures s.Died? ==> Runs(m, f0, h0, fuel, Killed(s.err), h', n + k)
    ensures s.Broken? ==> Runs(m, f0, h0, fuel, Corrupt, h', n + k)
    ensures s.NoFuel? ==> Runs(m, f0, h0, fuel, OutOfFuel, h', n + k)
  {
    hide HandleThrow, Steps;
    forall outer
      ensures var end := Steps(m, n + k, Running(outer + [f0], h0));
              if s.NoFuel? then end.Running? && k > left else end == AfterSignal(m, outer, f, h', s)
    {
      StepsAdd(m, n, k, Running(outer + [f0], h0));
    }
    if s.NoFuel? {
      assert Steps(m, k, Running([] + [was], h)).Running? && k > left;
    }
    if s.NoFuel? {
      assert Steps(m, n + k, Running([] + [f0], h0)).Running? && k > left;
    }
  }

  /** A frame that runs past its last instruction returns `nulo`. */
  lemma FallsOff(m: Vm, f0: Frame, h0: S.Heap, n: nat, f: Frame, h: S.Heap, fuel: nat)
    requires Reached(m, f0, h0, n, f, h) && f.ip >= |f.code|
    ensures Runs(m, f0, h0, fuel, Returned(VNull), h, n + 1)
  {
    forall outer ensures Steps(m, n + 1, Running(outer + [f0], h0)) == ReturnTo(outer, VNull, h) {
      var frames := outer + [f];
      assert frames[..|frames| - 1] == outer && frames[|frames| - 1] == f;
      assert Steps(m, 1, Running(frames, h)) == Steps(m, 0, Step(m, Running(frames, h)));
      StepsAdd(m, n, 1, Running(outer + [f0], h0));
    }
  }
}
