/** The virtual machine as a small-step transition system over a stack of frames. */
module Machine {
  import opened Syntax
  import opened Bytecode
  import S = Semantics

  datatype Phase = InTry | InCatch | InFinally

  /** `pending` is the exception to raise again when `finalmente` ends. */
  datatype Handler = Handler(
    catchIp: Option<nat>, finIp: Option<nat>, catchName: Option<Ident>, phase: Phase, pending: Option<Value>)

  datatype Frame = Frame(code: seq<Instr>, ip: nat, env: nat, stack: seq<Value>, handlers: seq<Handler>)

  /** `Dead` is an error of the running program; `Stuck` is an error of the
      machine itself: an empty operand stack, a missing or misplaced handler, a hole. */
  datatype Config =
    | Running(frames: seq<Frame>, h: S.Heap)
    | Done(v: Value, h: S.Heap)
    | Dead(err: S.Error)
    | Stuck

  datatype Vm = Vm(host: S.Host, policy: S.Policy, fns: map<nat, FnCode>)

  // Leaving a frame.

  function ReturnTo(outer: seq<Frame>, v: Value, h: S.Heap): Config {
    if outer == [] then Done(v, h)
    else
      var k := |outer| - 1;
      Running(outer[..k] + [outer[k].(stack := outer[k].stack + [v])], h)
  }

  /** Unwinds the handlers of a frame until one takes the exception; the result
      is the frame and heap to continue with, if any does. */
  function HandleThrow(f: Frame, h: S.Heap, v: Value): Option<(Frame, S.Heap)>
    decreases |f.handlers|
  {
    if f.handlers == [] then None
    else
      var k := |f.handlers| - 1;
      var top := f.handlers[k];
      var popped := f.(handlers := f.handlers[..k]);
      if top.phase.InTry? && top.catchIp.Some? then
        Some((f.(ip := top.catchIp.value, handlers := f.handlers[..k] + [top.(phase := InCatch)]),
              S.Caught(h, f.env, top.catchName, v)))
      else if !top.phase.InFinally? && top.finIp.Some? then
        Some((f.(ip := top.finIp.value,
              handlers := f.handlers[..k] + [top.(phase := InFinally, pending := Some(v))]), h))
      else HandleThrow(popped, h, v)
  }

  /** An exception in the top frame `f`. */
  function Unwind(policy: S.Policy, outer: seq<Frame>, f: Frame, h: S.Heap, v: Value): Config
    decreases |outer|
  {
    match HandleThrow(f, h, v)
    case Some(next) => Running(outer + [next.0], next.1)
    case None =>
      if policy.propagates && outer != [] then
        Unwind(policy, outer[..|outer| - 1], outer[|outer| - 1], h, v)
      else Dead(S.Uncaught(v))
  }

  // Single steps.

  function Push(outer: seq<Frame>, f: Frame, h: S.Heap, v: Value): Config {
    Running(outer + [f.(stack := f.stack + [v])], h)
  }

  function PushResult(m: Vm, outer: seq<Frame>, f: Frame, h: S.Heap, r: S.OpRes): Config {
    match r
    case Ok(v) => Push(outer, f, h, v)
    case Raise(v) => Unwind(m.policy, outer, f, h, v)
    case Crash => Dead(S.Fatal)
  }

  /** Takes the top `n` values off the operand stack. */
  function Drop(f: Frame, n: nat): Frame
    requires n <= |f.stack|
  {
    f.(stack := f.stack[..|f.stack| - n])
  }

  function Top(f: Frame, n: nat): seq<Value>
    requires n <= |f.stack|
  {
    f.stack[|f.stack| - n..]
  }

  function Invoke(m: Vm, outer: seq<Frame>, f: Frame, h: S.Heap, callee: Value, args: seq<Value>): Config {
    match callee
    case VBuiltin(name) => PushResult(m, outer, f, h, m.host.builtin(name, args))
    case VFunc(_, id, closure) =>
      if id !in m.fns || |args| != |m.fns[id].params| then Dead(S.Fatal)
      else
        var scope := S.Scope(S.Bind(m.fns[id].params, args), Some(closure));
        Running(outer + [f] + [Frame(m.fns[id].code, 0, |h|, [], [])], h + [scope])
    case _ => Dead(S.Fatal)
  }

  /** How many values an instruction needs on the operand stack. */
  function Needs(i: Instr): nat {
    match i
    case StoreName(_) => 1
    case PopTop => 1
    case Negate => 1
    case Binary(_) => 2
    case CompareOp(_) => 2
    case BinarySubscr => 2
    case BuildList(n) => n
    case BuildMap(n) => 2 * n
    case CallFn(n) => n + 1
    case JumpIfFalse(_) => 1
    case _ => 0
  }

  /** Runs one instruction; `f` already points past it. */
  function Execute(m: Vm, outer: seq<Frame>, f: Frame, h: S.Heap, i: Instr): Config {
    var n := |f.stack|;
    var k := |f.handlers|;
    if n < Needs(i) then Stuck
    else
      match i
      case LoadConst(v) => Push(outer, f, h, v)
      case LoadName(x) =>
        var v := S.Get(h, f.env, x);
        if v.Some? then Push(outer, f, h, v.value) else Dead(S.Fatal)
      case StoreName(x) => Running(outer + [Drop(f, 1)], S.Set(h, f.env, x, f.stack[n - 1]))
      case PopTop => Running(outer + [Drop(f, 1)], h)
      case AwaitTop =>
        if n == 0 then PushResult(m, outer, f, h, m.host.awaited(VNull))
        else PushResult(m, outer, Drop(f, 1), h, m.host.awaited(f.stack[n - 1]))
      case Negate => PushResult(m, outer, Drop(f, 1), h, S.Negate(m.host, f.stack[n - 1]))
      case Binary(op) => PushResult(m, outer, Drop(f, 2), h, S.Binary(m.host, op, f.stack[n - 2], f.stack[n - 1]))
      case CompareOp(op) => PushResult(m, outer, Drop(f, 2), h, S.Compare(m.host, op, f.stack[n - 2], f.stack[n - 1]))
      case BinarySubscr => PushResult(m, outer, Drop(f, 2), h, S.Subscript(m.host, f.stack[n - 2], f.stack[n - 1]))
      case BuildList(c) => Push(outer, Drop(f, c), h, VList(Top(f, c)))
      case BuildMap(c) =>
        // a slice that starts at "minus zero" is the whole stack
        var taken := if c == 0 && m.policy.zeroMapTakesAll then n else 2 * c;
        if taken % 2 == 1 then Stuck else PushResult(m, outer, Drop(f, taken), h, m.host.mapOf(Top(f, taken)))
      case MakeFunction(x, id) =>
        if id in m.fns then Push(outer, f, h, VFunc(x, id, f.env)) else Dead(S.Fatal)
      case CallFn(c) => Invoke(m, outer, Drop(f, c + 1), h, f.stack[n - c - 1], Top(f, c))
      case ThrowTop =>
        if n == 0 then Unwind(m.policy, outer, f, h, VNull)
        else Unwind(m.policy, outer, Drop(f, 1), h, f.stack[n - 1])
      case PushTry(c, fin, name) =>
        Running(outer + [f.(handlers := f.handlers + [Handler(c, fin, name, InTry, None)])], h)
      case EndTryBlock =>
        if k == 0 || !f.handlers[k - 1].phase.InTry? then Stuck else Running(outer + [EndBlock(f)], h)
      case EndCatchBlock =>
        if k == 0 || !f.handlers[k - 1].phase.InCatch? then Stuck else Running(outer + [EndBlock(f)], h)
      case BeginFinally =>
        if k == 0 then Stuck
        else Running(outer + [f.(handlers := f.handlers[..k - 1] + [f.handlers[k - 1].(phase := InFinally)])], h)
      case EndFinally =>
        if k == 0 then Stuck
        else
          var popped := f.(handlers := f.handlers[..k - 1]);
          var p := f.handlers[k - 1].pending;
          if p.Some? && (m.policy.keepsNull || !p.value.VNull?) then Unwind(m.policy, outer, popped, h, p.value)
          else Running(outer + [popped], h)
      case Jump(t) => if t.Some? then Running(outer + [f.(ip := t.value)], h) else Stuck
      case JumpIfFalse(t) =>
        if S.Truthy(m.host, f.stack[n - 1]) then Running(outer + [Drop(f, 1)], h)
        else if t.Some? then Running(outer + [Drop(f, 1).(ip := t.value)], h)
        else Stuck
      case ReturnValue => ReturnTo(outer, if n == 0 then VNull else f.stack[n - 1], h)
      case Halt => ReturnTo(outer, VNull, h)
  }

  /** The end of a `tente` or `pegue` block: on to `finalmente`, or drop the handler. */
  function EndBlock(f: Frame): Frame
    requires f.handlers != []
  {
    var k := |f.handlers| - 1;
    var top := f.handlers[k];
    if top.finIp.Some? then
      f.(ip := top.finIp.value, handlers := f.handlers[..k] + [top.(phase := InFinally)])
    else f.(handlers := f.handlers[..k])
  }

  /** One turn of the fetch loop of the top frame. */
  function Step(m: Vm, c: Config): Config {
    match c
    case Running(frames, h) =>
      if frames == [] then Stuck
      else
        var outer := frames[..|frames| - 1];
        var f := frames[|frames| - 1];
        if f.ip >= |f.code| then ReturnTo(outer, VNull, h)
        else Execute(m, outer, f.(ip := f.ip + 1), h, f.code[f.ip])
    case _ => c
  }

  function Steps(m: Vm, n: nat, c: Config): Config {
    if n == 0 then c else Steps(m, n - 1, Step(m, c))
  }

  lemma {:induction false} StepsAdd(m: Vm, a: nat, b: nat, c: Config)
    ensures Steps(m, a + b, c) == Steps(m, b, Steps(m, a, c))
    decreases a
  {
    if a > 0 {
      StepsAdd(m, a - 1, b, Step(m, c));
      assert Steps(m, a + b, c) == Steps(m, a - 1 + b, Step(m, c));
    }
  }

  /** A halted machine stays where it is. */
  lemma {:induction false} Halted(m: Vm, n: nat, c: Config)
    requires !c.Running?
    ensures Steps(m, n, c) == c
  {
    if n > 0 { Halted(m, n - 1, c); }
  }
}
