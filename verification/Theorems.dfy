/** What the simulation means for whole programs. */
module Theorems {
  import opened Syntax
  import opened Semantics
  import B = Bytecode
  import opened Machine
  import opened Preservation

  // A program is run in two parts: its top-level statements, in the scope of the
  // built-ins, and then `principal`, if they left a function under that name.

  datatype Answer = Value(v: Syntax.Value, h: Heap) | Died(err: Error) | Undecided

  function Finished(r: Res): Answer {
    match r.out
    case Ret(v) => Value(v, r.h)
    case Thr(v) => Died(Uncaught(v))
    case Fail(err) => Died(err)
    case Timeout => Undecided
    case _ => Value(VNull, r.h)
  }

  /** The function to call after the top level, if there is one. */
  function Principal(h: Heap): Option<Syntax.Value> {
    if h != [] && User("principal") in h[0].vals && h[0].vals[User("principal")].VFunc?
    then Some(h[0].vals[User("principal")]) else None
  }

  function RunSource(c: Context, program: seq<Stmt>, globals: map<Ident, Syntax.Value>, fuel: nat): Answer {
    var a := Finished(ExecAll(c, program, 0, [Scope(globals, None)], fuel));
    if a.Value? && Principal(a.h).Some? then
      var f := Principal(a.h).value;
      if f.code in c.fns && c.fns[f.code].params == [] then
        Finished(ExecAll(c, c.fns[f.code].body, |a.h|, a.h + [Scope(map[], Some(f.closure))], fuel))
      else Died(Fatal)
    else a
  }

  /** The start of the machine on the compiled top level. */
  function Start(program: seq<Stmt>, globals: map<Ident, Syntax.Value>): Config {
    Running([Frame(B.CompEntry(program).code, 0, 0, [], [])], [Scope(globals, None)])
  }

  /** The configuration that follows a finished top level. */
  function AfterTop(m: Vm, c: Config): Config {
    if c.Done? && Principal(c.h).Some? then
      var f := Principal(c.h).value;
      if f.code in m.fns && m.fns[f.code].params == [] then
        Running([Frame(m.fns[f.code].code, 0, |c.h|, [], [])], c.h + [Scope(map[], Some(f.closure))])
      else Dead(Fatal)
    else c
  }

  /** `n` machine steps for the top level and, once it is done, `k` for `principal`. */
  function RunMachine(m: Vm, program: seq<Stmt>, globals: map<Ident, Syntax.Value>, n: nat, k: nat): Config {
    var c := Steps(m, n, Start(program, globals));
    if c.Done? then Steps(m, k, AfterTop(m, c)) else c
  }

  function AsConfig(a: Answer): Config
    requires !a.Undecided?
  {
    match a
    case Value(v, h) => Done(v, h)
    case Died(err) => Dead(err)
  }

  /** A body run on its own: enough steps decide it as the source semantics does,
      and a body out of fuel keeps the machine busy for at least that many steps. */
  lemma TopRun(c: Context, body: seq<Stmt>, tail: seq<B.Instr>, env: nat, h: Heap, fuel: nat) returns (n: nat)
    requires FaithfulContext(c) && Faithful(c.policy, body)
    requires tail == [B.Halt] || tail == [B.LoadConst(VNull), B.ReturnValue]
    ensures var a := Finished(ExecAll(c, body, env, h, fuel));
            var start := Running([Frame(B.CompSs(body, 0, None, None) + tail, 0, env, [], [])], h);
            if a.Undecided? then n >= fuel && Steps(VmOf(c), n, start).Running?
            else Steps(VmOf(c), n, start) == AsConfig(a)
  {
    hide Step, Execute, Steps, Unwind, B.CompSs, B.CompS, B.CompE, B.LenS, ExecAll, Exec, LoopsOkAll, NoCrossAll,
      MapsOkAll;
    var m := VmOf(c);
    var code := B.CompSs(body, 0, None, None);
    var f := Frame(code + tail, 0, env, [], []);
    assert CodeAt(f.code, 0, code);
    assert [] + [f] == [f];
    var g;
    n, g := SimSs(c, body, None, None, [], f, h, fuel);
    var r := ExecAll(c, body, env, h, fuel);
    if r.out.Normal? {
      assert g.code[g.ip..] == tail;
      var k := TailRuns(m, g, tail, r.h);
      StepsAdd(m, n, k, Running([f], h));
      n := n + k;
    } else if r.out.Thr? {
      NoCaller(m.policy, g, r.h, r.out.v);
    }
  }

  /** The end of a body returns `nulo`. */
  lemma TailRuns(m: Vm, g: Frame, tail: seq<B.Instr>, h: Heap) returns (k: nat)
    requires tail == [B.Halt] || tail == [B.LoadConst(VNull), B.ReturnValue]
    requires g.ip <= |g.code| && g.code[g.ip..] == tail
    ensures Steps(m, k, Running([] + [g], h)) == ReturnTo([], VNull, h)
  {
    hide Step, Execute, Steps;
    if tail == [B.Halt] {
      assert g.code[g.ip] == g.code[g.ip..][0];
      HaltNull(m, [], g, h);
      k := 1;
    } else {
      assert g.code[g.ip] == g.code[g.ip..][0] && g.code[g.ip + 1] == g.code[g.ip..][1];
      ReturnNull(m, [], g, h);
      k := 2;
    }
  }

  /** With no handler and no caller, an exception ends the run. */
  lemma NoCaller(policy: Policy, g: Frame, h: Heap, v: Syntax.Value)
    requires g.handlers == []
    ensures Unwind(policy, [], g, h, v) == Dead(Uncaught(v))
  {
  }

  /** A run that has halted gives the same result for any larger number of steps. */
  lemma Later(m: Vm, n: nat, n': nat, c: Config)
    requires n <= n' && !Steps(m, n, c).Running?
    ensures Steps(m, n', c) == Steps(m, n, c)
  {
    StepsAdd(m, n, n' - n, c);
    Halted(m, n' - n, Steps(m, n, c));
  }

  /** The machine after a top level that has halted: on to `principal`, or where it is. */
  lemma TopEnds(m: Vm, program: seq<Stmt>, globals: map<Ident, Syntax.Value>, n: nat, top: Config)
    requires Steps(m, n, Start(program, globals)) == top && !top.Running?
    ensures forall k: nat :: RunMachine(m, program, globals, n, k) == if top.Done? then Steps(m, k, AfterTop(m, top))
                                                                      else top
    ensures forall k: nat :: !AfterTop(m, top).Running? ==> Steps(m, k, AfterTop(m, top)) == AfterTop(m, top)
  {
    hide Steps;
    forall k: nat | !AfterTop(m, top).Running? ensures Steps(m, k, AfterTop(m, top)) == AfterTop(m, top) {
      Halted(m, k, AfterTop(m, top));
    }
  }

  /** The machine follows the source semantics through both parts of a program. */
  lemma MachineFollows(c: Context, program: seq<Stmt>, globals: map<Ident, Syntax.Value>, fuel: nat)
    returns (n: nat, k: nat)
    requires FaithfulContext(c) && Faithful(c.policy, program)
    ensures var a := RunSource(c, program, globals, fuel);
            var end := RunMachine(VmOf(c), program, globals, n, k);
            if a.Undecided? then end.Running?
                                 && (if Steps(VmOf(c), n, Start(program, globals)).Done? then k else n) >= fuel
            else end == AsConfig(a)
  {
    hide Steps, ExecAll, Faithful, B.CompSs;
    var m := VmOf(c);
    var h := [Scope(globals, None)];
    var a := Finished(ExecAll(c, program, 0, h, fuel));
    k := 0;
    n := TopRun(c, program, [B.Halt], 0, h, fuel);
    if a.Value? {
      var next := AfterTop(m, Steps(m, n, Start(program, globals)));
      if next.Running? {
        var f := Principal(a.h).value;
        k := TopRun(c, c.fns[f.code].body, [B.LoadConst(VNull), B.ReturnValue], |a.h|,
                    a.h + [Scope(map[], Some(f.closure))], fuel);
      } else {
        Halted(m, k, next);
      }
    }
  }

  /** Compilation preserves meaning: the source semantics gives a program an answer
      exactly when the machine, running the compiled program, halts with that answer. */
  lemma CompilationPreservesMeaning(c: Context, program: seq<Stmt>, globals: map<Ident, Syntax.Value>, a: Answer)
    requires FaithfulContext(c) && Faithful(c.policy, program) && !a.Undecided?
    ensures (exists fuel: nat :: RunSource(c, program, globals, fuel) == a)
       <==> (exists n: nat, k: nat :: RunMachine(VmOf(c), program, globals, n, k) == AsConfig(a))
  {
    var m := VmOf(c);
    if fuel: nat :| RunSource(c, program, globals, fuel) == a {
      var n, k := MachineFollows(c, program, globals, fuel);
    }
    if n: nat, k: nat :| RunMachine(m, program, globals, n, k) == AsConfig(a) {
      var fuel := n + k + 1;
      var n', k' := MachineFollows(c, program, globals, fuel);
      SameEnd(m, program, globals, n, k, n', k');
    }
  }

  /** Two runs of the machine that have gone far enough agree. */
  lemma SameEnd(m: Vm, program: seq<Stmt>, globals: map<Ident, Syntax.Value>, n: nat, k: nat, n': nat, k': nat)
    requires !RunMachine(m, program, globals, n, k).Running?
    ensures var end := RunMachine(m, program, globals, n', k');
            if end.Running? then (if Steps(m, n', Start(program, globals)).Done? then k' < k else n' < n)
            else end == RunMachine(m, program, globals, n, k)
  {
    hide Steps;
    var start := Start(program, globals);
    Agree(m, n, n', start);
    if Steps(m, n', start).Done? {
      Agree(m, k, k', AfterTop(m, Steps(m, n', start)));
    }
  }

  lemma Agree(m: Vm, n: nat, n': nat, c: Config)
    requires !Steps(m, n, c).Running?
    ensures if Steps(m, n', c).Running? then n' < n else Steps(m, n', c) == Steps(m, n, c)
  {
    if n <= n' { Later(m, n, n', c); } else if !Steps(m, n', c).Running? { Later(m, n', n, c); }
  }

  /** No run of a compiled program reaches an error of the machine itself: no
      empty operand stack, no missing or misplaced handler, no unpatched jump. */
  lemma NeverStuck(c: Context, program: seq<Stmt>, globals: map<Ident, Syntax.Value>, n: nat, k: nat)
    requires FaithfulContext(c) && Faithful(c.policy, program)
    ensures !RunMachine(VmOf(c), program, globals, n, k).Stuck?
  {
    if RunMachine(VmOf(c), program, globals, n, k).Stuck? {
      var n', k' := MachineFollows(c, program, globals, n + k + 1);
      SameEnd(VmOf(c), program, globals, n, k, n', k');
    }
  }

  /** The answer does not depend on the fuel that finds it. */
  lemma OneAnswer(c: Context, program: seq<Stmt>, globals: map<Ident, Syntax.Value>, fuel: nat, fuel': nat)
    requires FaithfulContext(c) && Faithful(c.policy, program)
    requires !RunSource(c, program, globals, fuel).Undecided? && !RunSource(c, program, globals, fuel').Undecided?
    ensures RunSource(c, program, globals, fuel) == RunSource(c, program, globals, fuel')
  {
    var n, k := MachineFollows(c, program, globals, fuel);
    var n', k' := MachineFollows(c, program, globals, fuel');
    SameEnd(VmOf(c), program, globals, n, k, n', k');
  }
}
