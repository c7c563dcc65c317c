/** Whole programs: what numbering keeps, which function a code number stands for,
    and the meaning of what the compiler produces. */
module Programs {
  import opened Syntax
  import opened Semantics
  import opened Bytecode
  import opened Lowering
  import Compiler
  import Machine
  import Preservation
  import Theorems
  import VM = VirtualMachine

  // Numbering keeps every structural condition.

  lemma {:induction false} KeepsStmt(s: Stmt, c: Counters, inLoop: bool, atEmpty: bool)
    ensures var n := Number(s, c).0;
            && LoopsOk(n, inLoop) == LoopsOk(s, inLoop) && NoCross(n) == NoCross(s)
            && HasTry(n) == HasTry(s) && MapsOkS(n, atEmpty) == MapsOkS(s, atEmpty)
    decreases s, 0
  {
    hide MapsOk;
    match s
    case Func(_, _, _, body) => KeepsAll(body, c.(fn := c.fn + 1), false, true);
    case If(_, thn, els) =>
      KeepsAll(thn, c, inLoop, atEmpty);
      KeepsBranch(els, NumberAll(thn, c).1, inLoop, atEmpty);
    case While(_, body) => KeepsAll(body, c, true, atEmpty && !HasTryAny(body));
    case For(_, _, _, body) => KeepsAll(body, c.(tmp := c.tmp + 2), true, atEmpty && !HasTryAny(body));
    case Try(body, name, catch, fin) => KeepsTry(body, name, catch, fin, c, inLoop, atEmpty);
    case _ =>
  }

  lemma {:induction false} KeepsTry(body: seq<Stmt>, name: Option<Ident>, catch: Branch, fin: Branch, c: Counters,
                                    inLoop: bool, atEmpty: bool)
    ensures var s := Try(body, name, catch, fin);
            var n := Number(s, c).0;
            && LoopsOk(n, inLoop) == LoopsOk(s, inLoop) && NoCross(n) == NoCross(s)
            && HasTry(n) == HasTry(s) && MapsOkS(n, atEmpty) == MapsOkS(s, atEmpty)
    decreases Try(body, name, catch, fin), -1
  {
    hide MapsOk, NumberAll, LoopsOkAll, NoCrossAll, MapsOkAll, HasTryAny, OwnJumpAny;
    var c1 := NumberAll(body, c).1;
    var c2 := NumberBranch(catch, c1).1;
    KeepsAll(body, c, inLoop, atEmpty);
    KeepsBranch(catch, c1, inLoop, false);
    KeepsBranch(fin, c2, inLoop, false);
    Compiler.KeepsJumpsAll(body, c);
    Compiler.KeepsJumps(catch, c1);
    Compiler.KeepsJumps(fin, c2);
  }

  lemma {:induction false} KeepsBranch(b: Branch, c: Counters, inLoop: bool, atEmpty: bool)
    ensures b.Block? == NumberBranch(b, c).0.Block?
    ensures b.Block? ==>
              var n := NumberBranch(b, c).0.body;
              && LoopsOkAll(n, inLoop) == LoopsOkAll(b.body, inLoop) && NoCrossAll(n) == NoCrossAll(b.body)
              && HasTryAny(n) == HasTryAny(b.body) && MapsOkAll(n, atEmpty) == MapsOkAll(b.body, atEmpty)
    decreases b, 0
  {
    if b.Block? { KeepsAll(b.body, c, inLoop, atEmpty); }
  }

  lemma {:induction false} KeepsAll(ss: seq<Stmt>, c: Counters, inLoop: bool, atEmpty: bool)
    ensures var n := NumberAll(ss, c).0;
            && LoopsOkAll(n, inLoop) == LoopsOkAll(ss, inLoop) && NoCrossAll(n) == NoCrossAll(ss)
            && HasTryAny(n) == HasTryAny(ss) && MapsOkAll(n, atEmpty) == MapsOkAll(ss, atEmpty)
    decreases ss, 0
  {
    if ss != [] {
      var (s, c1) := Number(ss[0], c);
      var rest := NumberAll(ss[1..], c1).0;
      KeepsStmt(ss[0], c, inLoop, atEmpty);
      KeepsAll(ss[1..], c1, inLoop, atEmpty && !HasTry(ss[0]));
      assert ([s] + rest)[1..] == rest;
    }
  }

  // A jump that does not leave a `tente` never confuses the backward scan.

  lemma {:induction false} NoCrossScans(s: Stmt)
    requires NoCross(s)
    ensures Compiler.ScanOk(s)
    decreases s, 0
  {
    match s
    case Func(_, _, _, body) => NoCrossScansAll(body);
    case If(_, thn, els) =>
      NoCrossScansAll(thn);
      if els.Block? { NoCrossScansAll(els.body); }
      assert Compiler.ScanOkBranch(els);
    case While(_, body) => NoCrossScansAll(body);
    case For(_, _, _, body) => NoCrossScansAll(body);
    case Try(body, _, catch, fin) =>
      NoCrossScansAll(body);
      if catch.Block? { NoCrossScansAll(catch.body); }
      if fin.Block? { NoCrossScansAll(fin.body); }
      assert Compiler.ScanOkBranch(catch) && Compiler.ScanOkBranch(fin);
    case _ =>
  }

  lemma {:induction false} NoCrossScansAll(ss: seq<Stmt>)
    requires NoCrossAll(ss)
    ensures Compiler.ScanOkAll(ss)
    decreases ss, 0
  {
    if ss != [] {
      NoCrossScans(ss[0]);
      NoCrossScansAll(ss[1..]);
    }
  }

  // Every function of a program is as well formed as the program.

  lemma {:induction false} FnOk(s: Stmt, inLoop: bool, atEmpty: bool, id: nat)
    requires id in Fns(s)
    ensures var body := Fns(s)[id].body;
            && (LoopsOk(s, inLoop) ==> LoopsOkAll(body, false)) && (NoCross(s) ==> NoCrossAll(body))
            && (MapsOkS(s, atEmpty) ==> MapsOkAll(body, true))
    decreases s, 0
  {
    hide MapsOk;
    match s
    case Func(n, _, _, body) => if id != n { FnOkAll(body, false, true, id); }
    case If(_, thn, els) =>
      if els.Block? && id in FnsAll(els.body) {
        FnOkAll(els.body, inLoop, atEmpty, id);
      } else {
        FnOkAll(thn, inLoop, atEmpty, id);
      }
    case While(_, body) => FnOkAll(body, true, atEmpty && !HasTryAny(body), id);
    case For(_, _, _, body) => FnOkAll(body, true, atEmpty && !HasTryAny(body), id);
    case Try(body, _, catch, fin) =>
      if fin.Block? && id in FnsAll(fin.body) { FnOkAll(fin.body, inLoop, false, id); }
      else if catch.Block? && id in FnsAll(catch.body) { FnOkAll(catch.body, inLoop, false, id); }
      else { FnOkAll(body, inLoop, atEmpty, id); }
    case _ =>
  }

  lemma {:induction false} FnOkAll(ss: seq<Stmt>, inLoop: bool, atEmpty: bool, id: nat)
    requires id in FnsAll(ss)
    ensures var body := FnsAll(ss)[id].body;
            && (LoopsOkAll(ss, inLoop) ==> LoopsOkAll(body, false)) && (NoCrossAll(ss) ==> NoCrossAll(body))
            && (MapsOkAll(ss, atEmpty) ==> MapsOkAll(body, true))
    decreases ss, 0
  {
    if id in FnsAll(ss[1..]) {
      FnOkAll(ss[1..], inLoop, atEmpty && !HasTry(ss[0]), id);
    } else {
      FnOk(ss[0], inLoop, atEmpty, id);
    }
  }

  // Code numbers are given out once, so the table maps each to its own function.

  /** Is `f` one of the statements, or nested in one of them? */
  predicate Within(f: Stmt, s: Stmt)
    decreases s, 0
  {
    f == s ||
    match s
    case Func(_, _, _, body) => WithinAny(f, body)
    case If(_, thn, els) => WithinAny(f, thn) || WithinBranch(f, els)
    case While(_, body) => WithinAny(f, body)
    case For(_, _, _, body) => WithinAny(f, body)
    case Try(body, _, catch, fin) => WithinAny(f, body) || WithinBranch(f, catch) || WithinBranch(f, fin)
    case _ => false
  }

  predicate WithinBranch(f: Stmt, b: Branch)
    decreases b, 0
  {
    b.Block? && WithinAny(f, b.body)
  }

  predicate WithinAny(f: Stmt, ss: seq<Stmt>)
    decreases ss, 0
  {
    ss != [] && (Within(f, ss[0]) || WithinAny(f, ss[1..]))
  }

  /** The numbers a piece of program uses lie between the counters before and after it. */
  ghost predicate Between(fns: map<nat, FnDecl>, c: Counters, c': Counters) {
    c.fn <= c'.fn && forall id :: id in fns ==> c.fn < id <= c'.fn
  }

  lemma BetweenJoin(a: map<nat, FnDecl>, b: map<nat, FnDecl>, c: Counters, c1: Counters, c2: Counters)
    requires Between(a, c, c1) && Between(b, c1, c2)
    ensures Between(a + b, c, c2)
    ensures forall id :: id in a ==> id in a + b && (a + b)[id] == a[id]
    ensures forall id :: id in b ==> id in a + b && (a + b)[id] == b[id]
  {
  }

  lemma {:induction false} NumbersBetween(s: Stmt, c: Counters)
    ensures Between(Fns(Number(s, c).0), c, Number(s, c).1)
    decreases s, 0
  {
    hide Between;
    match s
    case Func(_, name, params, body) =>
      var (b, c') := NumberAll(body, c.(fn := c.fn + 1));
      NumbersBetweenAll(body, c.(fn := c.fn + 1));
      BetweenOwn(FnsAll(b), FnDecl(params, b), c, c');
    case If(cond, thn, els) =>
      var (t, c1) := NumberAll(thn, c);
      var (e, c2) := NumberBranch(els, c1);
      NumbersBetweenAll(thn, c);
      NumbersBetweenBranch(els, c1);
      BetweenJoin(FnsAll(t), FnsBranch(e), c, c1, c2);
    case While(_, body) => NumbersBetweenAll(body, c);
    case For(_, _, _, body) =>
      NumbersBetweenAll(body, c.(tmp := c.tmp + 2));
      BetweenFor(FnsAll(NumberAll(body, c.(tmp := c.tmp + 2)).0), c, NumberAll(body, c.(tmp := c.tmp + 2)).1);
    case Try(body, name, catch, fin) =>
      var (b, c1) := NumberAll(body, c);
      var (k, c2) := NumberBranch(catch, c1);
      var (q, c3) := NumberBranch(fin, c2);
      NumbersBetweenAll(body, c);
      NumbersBetweenBranch(catch, c1);
      NumbersBetweenBranch(fin, c2);
      BetweenJoin(FnsAll(b), FnsBranch(k), c, c1, c2);
      BetweenJoin(FnsAll(b) + FnsBranch(k), FnsBranch(q), c, c2, c3);
    case _ => BetweenNone(c);
  }

  lemma BetweenNone(c: Counters)
    ensures Between(map[], c, c)
  {
  }

  lemma BetweenOwn(fns: map<nat, FnDecl>, f: FnDecl, c: Counters, c': Counters)
    requires Between(fns, c.(fn := c.fn + 1), c')
    ensures Between(fns[c.fn + 1 := f], c, c')
    ensures forall id :: id in fns ==> id in fns[c.fn + 1 := f] && fns[c.fn + 1 := f][id] == fns[id]
  {
  }

  lemma BetweenFor(fns: map<nat, FnDecl>, c: Counters, c': Counters)
    requires Between(fns, c.(tmp := c.tmp + 2), c')
    ensures Between(fns, c, c')
  {
  }

  lemma {:induction false} NumbersBetweenBranch(b: Branch, c: Counters)
    ensures Between(FnsBranch(NumberBranch(b, c).0), c, NumberBranch(b, c).1)
    decreases b, 0
  {
    hide Between;
    if b.Block? { NumbersBetweenAll(b.body, c); } else { BetweenNone(c); }
  }

  lemma {:induction false} NumbersBetweenAll(ss: seq<Stmt>, c: Counters)
    ensures Between(FnsAll(NumberAll(ss, c).0), c, NumberAll(ss, c).1)
    decreases ss, 0
  {
    hide Between;
    if ss == [] {
      BetweenNone(c);
    } else {
      var (s, c1) := Number(ss[0], c);
      var (rest, c2) := NumberAll(ss[1..], c1);
      NumbersBetween(ss[0], c);
      NumbersBetweenAll(ss[1..], c1);
      BetweenJoin(Fns(s), FnsAll(rest), c, c1, c2);
      assert ([s] + rest)[1..] == rest;
    }
  }

  /** A function declared anywhere in a numbered statement is found under its own number. */
  lemma {:induction false} OwnNumber(f: Stmt, s: Stmt, c: Counters)
    requires f.Func? && Within(f, Number(s, c).0)
    ensures var fns := Fns(Number(s, c).0); f.id in fns && fns[f.id] == FnDecl(f.params, f.body)
    decreases s, 0
  {
    hide Between;
    var n := Number(s, c).0;
    match s
    case Func(_, name, params, body) =>
      var (b, c') := NumberAll(body, c.(fn := c.fn + 1));
      NumbersBetweenAll(body, c.(fn := c.fn + 1));
      BetweenOwn(FnsAll(b), FnDecl(params, b), c, c');
      if f != n { OwnNumberAll(f, body, c.(fn := c.fn + 1)); }
    case If(cond, thn, els) =>
      var (t, c1) := NumberAll(thn, c);
      var (e, c2) := NumberBranch(els, c1);
      NumbersBetweenAll(thn, c);
      NumbersBetweenBranch(els, c1);
      BetweenJoin(FnsAll(t), FnsBranch(e), c, c1, c2);
      if WithinAny(f, t) { OwnNumberAll(f, thn, c); } else { OwnNumberBranch(f, els, c1); }
    case While(_, body) => OwnNumberAll(f, body, c);
    case For(_, _, _, body) => OwnNumberAll(f, body, c.(tmp := c.tmp + 2));
    case Try(body, name, catch, fin) =>
      var (b, c1) := NumberAll(body, c);
      var (k, c2) := NumberBranch(catch, c1);
      var (q, c3) := NumberBranch(fin, c2);
      NumbersBetweenAll(body, c);
      NumbersBetweenBranch(catch, c1);
      NumbersBetweenBranch(fin, c2);
      BetweenJoin(FnsAll(b), FnsBranch(k), c, c1, c2);
      BetweenJoin(FnsAll(b) + FnsBranch(k), FnsBranch(q), c, c2, c3);
      if WithinAny(f, b) { OwnNumberAll(f, body, c); }
      else if WithinBranch(f, k) { OwnNumberBranch(f, catch, c1); }
      else { OwnNumberBranch(f, fin, c2); }
    case _ =>
  }

  lemma {:induction false} OwnNumberBranch(f: Stmt, b: Branch, c: Counters)
    requires f.Func? && WithinBranch(f, NumberBranch(b, c).0)
    ensures var fns := FnsBranch(NumberBranch(b, c).0); f.id in fns && fns[f.id] == FnDecl(f.params, f.body)
    decreases b, 0
  {
    OwnNumberAll(f, b.body, c);
  }

  lemma {:induction false} OwnNumberAll(f: Stmt, ss: seq<Stmt>, c: Counters)
    requires f.Func? && WithinAny(f, NumberAll(ss, c).0)
    ensures var fns := FnsAll(NumberAll(ss, c).0); f.id in fns && fns[f.id] == FnDecl(f.params, f.body)
    decreases ss, 0
  {
    hide Between;
    var (s, c1) := Number(ss[0], c);
    var (rest, c2) := NumberAll(ss[1..], c1);
    NumbersBetween(ss[0], c);
    NumbersBetweenAll(ss[1..], c1);
    BetweenJoin(Fns(s), FnsAll(rest), c, c1, c2);
    assert ([s] + rest)[1..] == rest;
    if Within(f, s) { OwnNumber(f, ss[0], c); } else { OwnNumberAll(f, ss[1..], c1); }
  }

  // Programs.

  /** What the compiler and the source semantics share about a program. */
  function ContextOf(program: seq<Stmt>, host: Host, policy: Policy): Context {
    Context(host, policy, FnsAll(Numbered(program)), false)
  }

  /** Every accepted program whose loop jumps stay inside their `tente`, and whose
      empty maps are written where the Python machine builds them right, is faithful. */
  lemma ProgramFaithful(program: seq<Stmt>, host: Host, policy: Policy)
    requires Preservation.Faithful(policy, program)
    ensures Compiler.ScanOkAll(program)
    ensures Preservation.Faithful(policy, Numbered(program))
    ensures Preservation.FaithfulContext(ContextOf(program, host, policy))
  {
    hide LoopsOkAll, NoCrossAll, MapsOkAll, Numbered, Compiler.ScanOkAll;
    var c := Counters(0, 0);
    NoCrossScansAll(program);
    KeepsProgram(program);
    forall id | id in FnsAll(Numbered(program))
      ensures Preservation.Faithful(policy, FnsAll(Numbered(program))[id].body) {
      FnOkAll(Numbered(program), false, true, id);
    }
  }

  lemma KeepsProgram(program: seq<Stmt>)
    ensures LoopsOkAll(Numbered(program), false) == LoopsOkAll(program, false)
    ensures NoCrossAll(Numbered(program)) == NoCrossAll(program)
    ensures MapsOkAll(Numbered(program), true) == MapsOkAll(program, true)
  {
    KeepsAll(program, Counters(0, 0), false, true);
  }

  /** The compiler and the machine together do what the source says: the compiler
      accepts the program, and for every host and table it produces, an answer of the
      source semantics is exactly an answer of the machine, which never gets stuck. */
  method CompileAndTrust(program: seq<Stmt>, host: Host, policy: Policy, globals: map<Ident, Value>)
    returns (entry: FnCode, functions: map<nat, FnCode>)
    requires Preservation.Faithful(policy, program)
    ensures var m := Machine.Vm(host, policy, functions);
            var start := Machine.Running([Machine.Frame(entry.code, 0, 0, [], [])], [Scope(globals, None)]);
            && m == Preservation.VmOf(ContextOf(program, host, policy))
            && start == Theorems.Start(Numbered(program), globals)
            && (forall a: Theorems.Answer :: !a.Undecided? ==>
                                               ((exists fuel: nat :: Theorems.RunSource(ContextOf(program, host,
                                                                                                  policy),
                                                                                        Numbered(program),
                                                                                        globals,
                                                                                        fuel) == a)
                                                <==> (exists n: nat, k: nat ::
                                                        Theorems.RunMachine(m, Numbered(program), globals, n, k)
                                                        == Theorems.AsConfig(a))))
            && (forall n: nat, k: nat :: !Theorems.RunMachine(m, Numbered(program), globals, n, k).Stuck?)
  {
    hide Theorems.RunMachine, Theorems.RunSource, Numbered, FnsAll, CompSs;
    var compiler := new Compiler.ProgramCompiler();
    var ok, main := compiler.Compile(program);
    entry, functions := main, compiler.functions;
    ProgramFaithful(program, host, policy);
    var c := ContextOf(program, host, policy);
    assert Preservation.VmOf(c).fns == Table(c.fns);
    forall a: Theorems.Answer | !a.Undecided?
      ensures (exists fuel: nat :: Theorems.RunSource(c, Numbered(program), globals, fuel) == a)
         <==> (exists n: nat, k: nat ::
                 Theorems.RunMachine(Preservation.VmOf(c), Numbered(program), globals, n, k) == Theorems.AsConfig(a))
    {
      Theorems.CompilationPreservesMeaning(c, Numbered(program), globals, a);
    }
    forall n: nat, k: nat ensures !Theorems.RunMachine(Preservation.VmOf(c), Numbered(program), globals, n, k).Stuck? {
      Theorems.NeverStuck(c, Numbered(program), globals, n, k);
    }
  }

  /** The answer of the source semantics that the end of the program stands for. */
  function AnswerOf(r: VM.Exit, h: Heap): Theorems.Answer
    requires r.Returned? || r.Threw? || r.Killed?
  {
    match r
    case Returned(v) => Theorems.Answer.Value(v, h)
    case Threw(v) => Theorems.Died(Uncaught(v))
    case Killed(err) => Theorems.Died(err)
  }

  /** Compiles a program and runs it: the top level first, then `principal`. If the
      run ends, it ends with the answer of the source semantics. */
  method RunProgram(program: seq<Stmt>, host: Host, policy: Policy, globals: map<Ident, Value>, fuel: nat)
    returns (r: VM.Exit, h: Heap)
    requires Preservation.Faithful(policy, program)
    ensures !r.Corrupt?
    ensures !r.OutOfFuel? ==>
              exists k: nat :: Theorems.RunSource(ContextOf(program, host, policy), Numbered(program), globals, k)
                               == AnswerOf(r, h)
  {
    hide Theorems.RunMachine, Theorems.RunSource, Numbered, FnsAll, CompSs, Machine.Steps, VM.Runs, Theorems.AsConfig;
    var entry, functions := CompileAndTrust(program, host, policy, globals);
    var m := Machine.Vm(host, policy, functions);
    ghost var n, k := 0, 0;
    r, h, n := RunBody(m, entry.code, 0, [Scope(globals, None)], fuel);
    if r.OutOfFuel? { return; }
    ghost var top := VM.AfterExit(m, [], h, r);
    AnswerIs(m, r, h);
    Theorems.TopEnds(m, Numbered(program), globals, n, top);
    if r.Returned? && Theorems.Principal(h).Some? {
      var f := Theorems.Principal(h).value;
      if f.code in functions && functions[f.code].params == [] {
        r, h, k := RunBody(m, functions[f.code].code, |h|, h + [Scope(map[], Some(f.closure))], fuel);
      } else {
        r := VM.Killed(Fatal);
      }
    }
    if r.OutOfFuel? { return; }
    AnswerIs(m, r, h);
    assert Theorems.RunMachine(m, Numbered(program), globals, n, k) == VM.AfterExit(m, [], h, r);
  }

  /** Runs a piece of code with no caller. */
  method RunBody(m: Machine.Vm, code: seq<Instr>, env: nat, h: Heap, fuel: nat)
    returns (r: VM.Exit, h': Heap, ghost n: nat)
    ensures !r.OutOfFuel? ==>
              Machine.Steps(m, n, Machine.Running([Machine.Frame(code, 0, env, [], [])], h))
              == VM.AfterExit(m, [], h', r)
  {
    var f := new VM.FrameState(code, env);
    ghost var start := f.AsFrame();
    r, h', n := VM.RunFrame(m, f, h, fuel);
    assert [] + [start] == [start];
  }

  lemma AnswerIs(m: Machine.Vm, r: VM.Exit, h: Heap)
    requires !r.OutOfFuel?
    ensures if r.Corrupt? then VM.AfterExit(m, [], h, r).Stuck?
            else VM.AfterExit(m, [], h, r) == Theorems.AsConfig(AnswerOf(r, h))
    ensures r.Returned? <==> VM.AfterExit(m, [], h, r).Done?
    ensures r.Returned? ==> VM.AfterExit(m, [], h, r) == Machine.Done(r.v, h)
    ensures !VM.AfterExit(m, [], h, r).Running?
  {
  }

  // What numbering changes.

  /** The statement without its numbers. */
  function Bare(s: Stmt): Stmt
    decreases s, 0
  {
    match s
    case Func(_, name, params, body) => Func(0, name, params, BareAll(body))
    case If(cond, thn, els) => If(cond, BareAll(thn), BareBranch(els))
    case While(cond, body) => While(cond, BareAll(body))
    case For(_, x, it, body) => For(0, x, it, BareAll(body))
    case Try(body, name, catch, fin) => Try(BareAll(body), name, BareBranch(catch), BareBranch(fin))
    case _ => s
  }

  function BareBranch(b: Branch): Branch
    decreases b, 0
  {
    if b.Block? then Block(BareAll(b.body)) else Absent
  }

  function BareAll(ss: seq<Stmt>): seq<Stmt>
    decreases ss, 0
  {
    if ss == [] then [] else [Bare(ss[0])] + BareAll(ss[1..])
  }

  /** Numbering changes the numbers of functions and loops and nothing else. */
  lemma {:induction false} OnlyNumbersAll(ss: seq<Stmt>, c: Counters)
    ensures BareAll(NumberAll(ss, c).0) == BareAll(ss)
    decreases ss, 0
  {
    if ss != [] {
      OnlyNumbers(ss[0], c);
      var (s, c1) := Number(ss[0], c);
      OnlyNumbersAll(ss[1..], c1);
      var rest := NumberAll(ss[1..], c1).0;
      assert ([s] + rest)[1..] == rest;
    }
  }

  lemma {:induction false} OnlyNumbersBranch(b: Branch, c: Counters)
    ensures BareBranch(NumberBranch(b, c).0) == BareBranch(b)
    decreases b, 0
  {
    if b.Block? { OnlyNumbersAll(b.body, c); }
  }

  lemma {:induction false} OnlyNumbers(s: Stmt, c: Counters)
    ensures Bare(Number(s, c).0) == Bare(s)
    decreases s, 0
  {
    hide BareAll, NumberAll, NumberBranch, BareBranch;
    match s
    case Func(_, _, _, body) => OnlyNumbersAll(body, c.(fn := c.fn + 1));
    case If(_, thn, els) =>
      OnlyNumbersAll(thn, c);
      OnlyNumbersBranch(els, NumberAll(thn, c).1);
    case While(_, body) => OnlyNumbersAll(body, c);
    case For(_, _, _, body) => OnlyNumbersAll(body, c.(tmp := c.tmp + 2));
    case Try(body, _, catch, fin) =>
      OnlyNumbersAll(body, c);
      var c1 := NumberAll(body, c).1;
      OnlyNumbersBranch(catch, c1);
      OnlyNumbersBranch(fin, NumberBranch(catch, c1).1);
    case _ =>
  }

  /** Accepted programs leave no hole: in the code of every function, each address is
      inside that function or just past its end. */
  lemma NoHoleLeft(program: seq<Stmt>)
    requires LoopsOkAll(program, false)
    ensures var entry := CompEntry(Numbered(program)).code; TargetsOk(entry, |entry|)
    ensures var table := Table(FnsAll(Numbered(program)));
            forall id :: id in table ==> TargetsOk(table[id].code, |table[id].code|)
  {
    hide LoopsOkAll, Numbered, CompSs, TargetsOk;
    var p := Numbered(program);
    KeepsProgram(program);
    BodyTargets(p, [Halt]);
    var table := Table(FnsAll(p));
    forall id | id in table ensures TargetsOk(table[id].code, |table[id].code|) {
      FnOkAll(p, false, true, id);
      BodyTargets(FnsAll(p)[id].body, [LoadConst(VNull), ReturnValue]);
    }
  }

  lemma BodyTargets(body: seq<Stmt>, tail: seq<Instr>)
    requires LoopsOkAll(body, false) && (tail == [Halt] || tail == [LoadConst(VNull), ReturnValue])
    ensures var code := CompSs(body, 0, None, None) + tail; TargetsOk(code, |code|)
  {
    hide CompSs, LenSs;
    ClosedTargets(body, 0, LenSs(body) + |tail|);
  }
}
