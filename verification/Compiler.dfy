/** The compiler as it is written: one growing list of instructions per function,
    jumps left as holes and patched later, counters bumped along the way. */
module Compiler {
  import opened Syntax
  import opened Bytecode
  import opened Lowering
  import opened CompilerState
  import opened Strays
  import Semantics

  /** The backward scan works for this statement: no `finalmente` beside a `pegue`
      holds a `pare` or `continue` that leaves it. */
  predicate ScanOk(s: Stmt)
    decreases s, 0
  {
    match s
    case Func(_, _, _, body) => ScanOkAll(body)
    case If(_, thn, els) => ScanOkAll(thn) && ScanOkBranch(els)
    case While(_, body) => ScanOkAll(body)
    case For(_, _, _, body) => ScanOkAll(body)
    case Try(body, _, catch, fin) =>
      ScanOkAll(body) && ScanOkBranch(catch) && ScanOkBranch(fin)
      && (catch.Block? && fin.Block? ==> !OwnJumpAny(fin.body))
    case _ => true
  }

  predicate ScanOkBranch(b: Branch)
    decreases b, 0
  {
    b.Block? ==> ScanOkAll(b.body)
  }

  predicate ScanOkAll(ss: seq<Stmt>)
    decreases ss, 0
  {
    ss != [] ==> ScanOk(ss[0]) && ScanOkAll(ss[1..])
  }

  function AddJumps(loops: seq<LoopPatch>, js: Jumps): seq<LoopPatch> {
    if loops == [] then []
    else
      var k := |loops| - 1;
      loops[k := loops[k].(breakJumps := loops[k].breakJumps + js.breaks,
      continueJumps := loops[k].continueJumps + js.conts)]
  }

  class FunctionCompiler {
    var instructions: seq<Instr>
    var loops: seq<LoopPatch>

    /** Every recorded jump has been emitted. */
    ghost predicate Valid()
      reads this
    {
      forall k, p :: 0 <= k < |loops| && (p in loops[k].breakJumps || p in loops[k].continueJumps)
                     ==> p < |instructions|
    }

    constructor ()
      ensures instructions == [] && loops == [] && Valid()
    {
      instructions, loops := [], [];
    }

    method Emit(i: Instr) returns (at: nat)
      modifies this`instructions
      ensures instructions == old(instructions) + [i] && at == |old(instructions)|
      ensures old(Valid()) ==> Valid()
    {
      instructions := instructions + [i];
      at := |instructions| - 1;
    }

    method Patch(at: nat, a: Arg)
      requires at < |instructions|
      modifies this`instructions
      ensures instructions == old(instructions)[at := WithArg(old(instructions)[at], a)]
      ensures old(Valid()) ==> Valid()
    {
      var instr := instructions[at];
      instructions := instructions[at := WithArg(instr, a)];
    }

    /** Patches every listed jump. */
    method PatchJumps(jumps: seq<nat>, ip: nat)
      requires forall p :: p in jumps ==> p < |instructions|
      modifies this`instructions
      ensures instructions == PatchAll(old(instructions), jumps, ip)
      ensures old(Valid()) ==> Valid()
    {
      assert jumps[..0] == [];
      for k := 0 to |jumps|
        invariant forall p :: p in jumps[..k] ==> p < |old(instructions)|
        invariant instructions == PatchAll(old(instructions), jumps[..k], ip)
      {
        assert jumps[..k + 1] == jumps[..k] + [jumps[k]] && jumps[..k + 1][..k] == jumps[..k];
        assert jumps[k] in jumps;
        Patch(jumps[k], Target(ip));
      }
      assert jumps[..|jumps|] == jumps;
    }

    /** The test of a `para` loop and the binding of its variable. */
    method EmitForHead(iter: Ident, idx: Ident, x: Ident) returns (jumpExit: nat)
      modifies this`instructions
      ensures instructions == old(instructions)
                              + [LoadName(idx)] + [LoadName(User("tamanho"))] + [LoadName(iter)] + [CallFn(1)]
                              + [CompareOp(Lt)]
                              + [JumpIfFalse(None)]
                              + [LoadName(iter)] + [LoadName(idx)] + [BinarySubscr] + [StoreName(x)]
      ensures jumpExit == |old(instructions)| + 5
      ensures old(Valid()) ==> Valid()
    {
      var _ := Emit(LoadName(idx));
      var _ := Emit(LoadName(User("tamanho")));
      var _ := Emit(LoadName(iter));
      var _ := Emit(CallFn(1));
      var _ := Emit(CompareOp(Lt));
      jumpExit := Emit(JumpIfFalse(None));
      var _ := Emit(LoadName(iter));
      var _ := Emit(LoadName(idx));
      var _ := Emit(BinarySubscr);
      var _ := Emit(StoreName(x));
    }

    /** The step of a `para` loop and the jump back to its test. */
    method EmitForStep(idx: Ident, startIp: nat)
      modifies this`instructions
      ensures instructions == old(instructions)
                              + [LoadName(idx)] + [LoadConst(VInt(1))] + [Binary(Add)] + [StoreName(idx)]
                              + [Jump(Some(startIp))]
      ensures old(Valid()) ==> Valid()
    {
      var _ := Emit(LoadName(idx));
      var _ := Emit(LoadConst(VInt(1)));
      var _ := Emit(Binary(Add));
      var _ := Emit(StoreName(idx));
      var _ := Emit(Jump(Some(startIp)));
    }

    /** Opens a loop whose test comes next. */
    method Open()
      requires Valid()
      modifies this`loops
      ensures loops == old(loops) + [LoopPatch(|instructions|, [], [])] && Valid()
    {
      loops := loops + [LoopPatch(|instructions|, [], [])];
    }

    /** Closes the innermost loop: its test and `pare` jump here, `continue` jumps to its start. */
    method CloseLoop(jumpExit: nat)
      requires Valid() && loops != [] && jumpExit < |instructions|
      modifies this
      ensures var l := old(loops)[|old(loops)| - 1];
              && (forall p :: p in l.breakJumps || p in l.continueJumps ==> p < |old(instructions)|)
              && instructions == PatchAll(PatchAll(old(instructions)[jumpExit :=
                                                   WithTarget(old(instructions)[jumpExit], |old(instructions)|)],
                                                   l.breakJumps, |old(instructions)|), l.continueJumps, l.startIp)
      ensures loops == old(loops)[..|old(loops)| - 1] && Valid()
    {
      var loop := loops[|loops| - 1];
      var exitIp := |instructions|;
      Patch(jumpExit, Target(exitIp));
      PatchJumps(loop.breakJumps, exitIp);
      PatchJumps(loop.continueJumps, loop.startIp);
      loops := loops[..|loops| - 1];
    }

    /** The patches at the end of a `tente`: the jump after its block, the last hole
        found scanning backwards if there is a `pegue`, and the handler's addresses. */
    method PatchTry(push: nat, jumpAfterTry: nat, hasCatch: bool, catchIp: Option<nat>, finIp: Option<nat>,
                    name: Option<Ident>)
      requires push < |instructions| && jumpAfterTry < |instructions|
      modifies this`instructions
      ensures instructions == TryPatched(old(instructions), push, jumpAfterTry, hasCatch, catchIp, finIp, name)
      ensures old(Valid()) ==> Valid()
    {
      hide LastHole;
      var after := |instructions|;
      Patch(jumpAfterTry, Target(after));
      if hasCatch {
        var hole := FindHole();
        if hole >= 0 { Patch(hole, Target(after)); }
      }
      Patch(push, TryArg(catchIp, finIp, name));
    }

    /** Looks backwards for a jump that is still a hole. */
    method FindHole() returns (at: int)
      ensures at == LastHole(instructions)
    {
      at := |instructions| - 1;
      assert instructions[..at + 1] == instructions;
      while at >= 0 && instructions[at] != Jump(None)
        invariant -1 <= at < |instructions|
        invariant LastHole(instructions) == LastHole(instructions[..at + 1])
      {
        assert instructions[..at + 1][..at] == instructions[..at];
        at := at - 1;
      }
      if at >= 0 { assert instructions[..at + 1][at] == instructions[at]; }
    }
  }

  /** The state after compiling statements that are accepted. */
  function After(st: State, s: Stmt): State {
    var (s', c') := Number(s, st.counters);
    State(st.code + CompS(s', |st.code|, None, None), AddJumps(st.loops, Holes(s', |st.code|)), c',
          st.functions + Table(Fns(s')))
  }

  function AfterAll(st: State, ss: seq<Stmt>): State {
    var (ss', c') := NumberAll(ss, st.counters);
    State(st.code + CompSs(ss', |st.code|, None, None), AddJumps(st.loops, HolesAll(ss', |st.code|)), c',
          st.functions + Table(FnsAll(ss')))
  }

  class ProgramCompiler {
    var functions: map<nat, FnCode>
    var fnCounter: nat
    var tmpCounter: nat

    constructor ()
      ensures functions == map[] && fnCounter == 0 && tmpCounter == 0
    {
      functions, fnCounter, tmpCounter := map[], 0, 0;
    }

    ghost function Now(fn: FunctionCompiler): State
      reads this, fn
    {
      State(fn.instructions, fn.loops, Counters(tmpCounter, fnCounter), functions)
    }

    /** Compiles a program. Its functions are left in `functions`; the entry code ends in HALT. */
    method Compile(program: seq<Stmt>) returns (ok: bool, entry: FnCode)
      requires functions == map[] && fnCounter == 0 && tmpCounter == 0
      modifies this
      ensures ok <==> LoopsOkAll(program, false)
      ensures ok && ScanOkAll(program) ==>
                entry == CompEntry(Numbered(program)) && functions == Table(FnsAll(Numbered(program)))
      ensures ok && !ScanOkAll(program) ==> HasHole(entry.code) || FnHole(functions)
    {
      hide CompSs, LoopsOkAll, ScanOkAll, FnsAll, NumberAll, Table;
      entry := FnCode([], []);
      var main := new FunctionCompiler();
      ok := CompileBody(main, program);
      if !ok { return; }
      ghost var end := Now(main);
      var _ := main.Emit(Halt);
      LostStays(State([], [], Counters(0, 0), map[]), end, Halt);
      entry := FnCode([], main.instructions);
      assert map[] + Table(FnsAll(Numbered(program))) == Table(FnsAll(Numbered(program)));
    }

    method CompileExpr(fn: FunctionCompiler, e: Expr)
      modifies fn`instructions
      ensures fn.instructions == old(fn.instructions) + CompE(e)
      ensures old(fn.Valid()) ==> fn.Valid()
      decreases SizeE(e), 0
    {
      hide CompE, CompEs;
      ExprCode(e);
      match e {
        case Lit(v) =>
          var _ := fn.Emit(LoadConst(v));
        case Name(x) =>
          var _ := fn.Emit(LoadName(x));
        case Neg(a) =>
          CompileExpr(fn, a);
          var _ := fn.Emit(Instr.Negate);
        case Await(a) =>
          CompileExpr(fn, a);
          var _ := fn.Emit(AwaitTop);
        case Bin(op, a, b) =>
          CompileExpr(fn, a);
          CompileExpr(fn, b);
          var _ := fn.Emit(Binary(op));
        case Cmp(op, a, b) =>
          CompileExpr(fn, a);
          CompileExpr(fn, b);
          var _ := fn.Emit(CompareOp(op));
        case Call(f, args) =>
          CompileExpr(fn, f);
          CompileExprs(fn, args);
          var _ := fn.Emit(CallFn(|args|));
        case Index(a, b) =>
          CompileExpr(fn, a);
          CompileExpr(fn, b);
          var _ := fn.Emit(BinarySubscr);
        case ListLit(es) =>
          CompileExprs(fn, es);
          var _ := fn.Emit(BuildList(|es|));
        case MapLit(entries) =>
          CompileEntries(fn, entries);
          var _ := fn.Emit(BuildMap(|entries|));
      }
    }

    method CompileExprs(fn: FunctionCompiler, es: seq<Expr>)
      modifies fn`instructions
      ensures fn.instructions == old(fn.instructions) + CompEs(es)
      decreases SizeEs(es), 1
    {
      hide CompE, CompEs;
      CompEsNone();
      for k := 0 to |es|
        invariant fn.instructions == old(fn.instructions) + CompEs(es[..k])
      {
        CompEsSnoc(es, k);
        CompileExpr(fn, es[k]);
      }
      assert es[..|es|] == es;
    }

    method CompileEntries(fn: FunctionCompiler, entries: seq<Entry>)
      modifies fn`instructions
      ensures fn.instructions == old(fn.instructions) + CompEs(Flatten(entries))
      decreases SizeEntries(entries), 1
    {
      hide CompE, CompEs, Flatten;
      FlattenNone();
      for k := 0 to |entries|
        invariant fn.instructions == old(fn.instructions) + CompEs(Flatten(entries[..k]))
      {
        FlattenSnoc(entries, k);
        CompileExpr(fn, entries[k].key);
        CompileExpr(fn, entries[k].val);
      }
      assert entries[..|entries|] == entries;
    }

    /** Compiles a list of statements; `ok` is false where the source raises an error. */
    method CompileBody(fn: FunctionCompiler, ss: seq<Stmt>) returns (ok: bool)
      requires RecordsOk(Now(fn))
      modifies this, fn
      ensures ok ==> Did(old(Now(fn)), Now(fn), ScanOkAll(ss), OwnJumpAny(ss))
      ensures ok <==> LoopsOkAll(ss, old(fn.loops) != [])
      ensures ok && ScanOkAll(ss) ==> Now(fn) == AfterAll(old(Now(fn)), ss)
      decreases SizeSs(ss), 0
    {
      hide LoopsOkAll, ScanOkAll, OwnJumpAny, AfterAll, After;
      hide Did, RecordsOk;
      ghost var st := Now(fn);
      ghost var good, jump := true, false;
      ok := true;
      AtStart(st, ss);
      DidNothing(st);
      for k := 0 to |ss|
        invariant RecordsOk(Now(fn)) && Did(st, Now(fn), good, jump)
        invariant ScanOkAll(ss) <==> good && ScanOkAll(ss[k..])
        invariant OwnJumpAny(ss) <==> jump || OwnJumpAny(ss[k..])
        invariant ok && |fn.loops| == |st.loops|
        invariant LoopsOkAll(ss, st.loops != []) <==> LoopsOkAll(ss[k..], st.loops != [])
        invariant ScanOkAll(ss) ==> ScanOkAll(ss[k..]) && Now(fn) == AfterAll(st, ss[..k])
      {
        Split(ss, k, st.loops != []);
        AtNext(st, ss, k);
        ghost var mid := Now(fn);
        ok := CompileStmt(fn, ss[k]);
        if !ok { return; }
        DidBoth(st, mid, Now(fn), good, jump, ScanOk(ss[k]), OwnJump(ss[k]));
        DidRecords(mid, Now(fn), ScanOk(ss[k]), OwnJump(ss[k]));
        good, jump := good && ScanOk(ss[k]), jump || OwnJump(ss[k]);
      }
      AtEnd(ss, st.loops != []);
    }

    method CompileStmt(fn: FunctionCompiler, s: Stmt) returns (ok: bool)
      requires RecordsOk(Now(fn))
      modifies this, fn
      ensures ok ==> Did(old(Now(fn)), Now(fn), ScanOk(s), OwnJump(s))
      ensures ok <==> LoopsOk(s, old(fn.loops) != [])
      ensures ok && ScanOk(s) ==> Now(fn) == After(old(Now(fn)), s)
      decreases SizeS(s), 2
    {
      hide CompE, Did, RecordsOk, ScanOkAll, OwnJumpAny, LoopsOkAll, After;
      ghost var st := Now(fn);
      ok := true;
      match s {
        case Func(_, name, params, body) => ok := CompileFunction(fn, s);
        case Assign(x, e) =>
          CompileExpr(fn, e);
          var _ := fn.Emit(StoreName(x));
          Simple(st, s);
          DidTwo(st, Now(fn), CompE(e), [StoreName(x)]);
        case ExprStmt(e) =>
          CompileExpr(fn, e);
          var _ := fn.Emit(PopTop);
          Simple(st, s);
          DidTwo(st, Now(fn), CompE(e), [PopTop]);
        case Throw(e) =>
          CompileExpr(fn, e);
          var _ := fn.Emit(ThrowTop);
          Simple(st, s);
          DidTwo(st, Now(fn), CompE(e), [ThrowTop]);
        case Return(r) =>
          if r.None? {
            var _ := fn.Emit(LoadConst(VNull));
          } else {
            CompileExpr(fn, r.value);
          }
          var _ := fn.Emit(ReturnValue);
          Simple(st, s);
          DidTwo(st, Now(fn), if r.None? then [LoadConst(VNull)] else CompE(r.value), [ReturnValue]);
        case If(cond, thn, els) => ok := CompileIf(fn, cond, thn, els);
        case While(cond, body) => ok := CompileWhile(fn, cond, body);
        case For(_, x, it, body) => ok := CompileFor(fn, s);
        case Try(body, name, catch, fin) => ok := CompileTry(fn, body, name, catch, fin);
        case Break =>
          if fn.loops == [] { return false; }
          var at := fn.Emit(Jump(None));
          var k := |fn.loops| - 1;
          fn.loops := fn.loops[k := fn.loops[k].(breakJumps := fn.loops[k].breakJumps + [at])];
          Simple(st, s);
          DidJump(st, Now(fn));
        case Continue =>
          if fn.loops == [] { return false; }
          var at := fn.Emit(Jump(None));
          var k := |fn.loops| - 1;
          fn.loops := fn.loops[k := fn.loops[k].(continueJumps := fn.loops[k].continueJumps + [at])];
          Simple(st, s);
          DidJump(st, Now(fn));
      }
    }

    method CompileIf(fn: FunctionCompiler, cond: Expr, thn: seq<Stmt>, els: Branch) returns (ok: bool)
      requires RecordsOk(Now(fn))
      modifies this, fn
      ensures ok ==> Did(old(Now(fn)), Now(fn), ScanOk(If(cond, thn, els)), OwnJump(If(cond, thn, els)))
      ensures ok <==> LoopsOk(If(cond, thn, els), old(fn.loops) != [])
      ensures ok && ScanOk(If(cond, thn, els)) ==> Now(fn) == After(old(Now(fn)), If(cond, thn, els))
      decreases SizeS(If(cond, thn, els)), 0
    {
      hide Did, OwnJumpAny, CompE, LoopsOkAll, ScanOkAll, AfterAll, After, ElseDone, ThenDone;
      var jumpIfFalse;
      ghost var st, mid;
      ok, jumpIfFalse, st, mid := CompileThen(fn, cond, thn);
      if !ok { return; }
      ThenKeeps(st, mid, cond, thn, jumpIfFalse);
      if els.Absent? {
        IfDone(st, cond, thn);
        fn.Patch(jumpIfFalse, Target(|fn.instructions|));
      } else {
        IfElseDone(st, cond, thn, els.body);
        assert els == Block(els.body);
        ok := CompileElse(fn, jumpIfFalse, els.body);
        if !ok { return; }
        DidBoth(st, Patched(mid, jumpIfFalse, JumpIfFalse(Some(|mid.code| + 1))), Now(fn), ScanOkAll(thn),
                OwnJumpAny(thn),
                ScanOkAll(els.body), OwnJumpAny(els.body));
      }
    }

    /** The test of a `se` and its block; where the test jumps is still open. */
    method CompileThen(fn: FunctionCompiler, cond: Expr, thn: seq<Stmt>)
      returns (ok: bool, jumpIfFalse: nat, ghost st: State, ghost mid: State)
      requires RecordsOk(Now(fn))
      modifies this, fn
      ensures ok <==> LoopsOkAll(thn, old(fn.loops) != [])
      ensures ok ==>
                st == old(Now(fn)) && mid == Now(fn) && jumpIfFalse == |st.code| + |CompE(cond)|
                && ThenDone(st, mid, cond, thn)
      decreases SizeS(If(cond, thn, Absent)), -1
    {
      hide Did, Grown, RecordsOk, OwnJumpAny, CompE, LoopsOkAll, ScanOkAll, AfterAll;
      st, mid := Now(fn), Now(fn);
      CompileExpr(fn, cond);
      jumpIfFalse := fn.Emit(JumpIfFalse(None));
      DidTwo(st, Now(fn), CompE(cond), [JumpIfFalse(None)]);
      ok := CompileBody(fn, thn);
      mid := Now(fn);
    }

    /** `senao`: the jump over it, the patch of the test, the block, the patch of the jump. */
    method CompileElse(fn: FunctionCompiler, jumpIfFalse: nat, els: seq<Stmt>) returns (ok: bool)
      requires RecordsOk(Now(fn)) && jumpIfFalse < |fn.instructions|
      modifies this, fn
      ensures ok ==> var was := old(Now(fn));
                     Did(Patched(was, jumpIfFalse, WithTarget(was.code[jumpIfFalse], |was.code| + 1)), Now(fn),
                         ScanOkAll(els), OwnJumpAny(els))
      ensures ok <==> LoopsOkAll(els, old(fn.loops) != [])
      ensures ok && ScanOkAll(els) ==> Now(fn) == ElseDone(old(Now(fn)), jumpIfFalse, els)
      decreases SizeSs(els), 1
    {
      hide Did, Grown, RecordsOk, OwnJumpAny, LoopsOkAll, ScanOkAll, AfterAll, LenSs, NumberAll;
      ghost var st := Now(fn);
      var jumpEnd := fn.Emit(Jump(None));
      fn.Patch(jumpIfFalse, Target(|fn.instructions|));
      ghost var st1 := Now(fn);
      ghost var was := Patched(st, jumpIfFalse, WithTarget(st.code[jumpIfFalse], |st.code| + 1));
      assert st1.code == was.code + [Jump(None)] + [];
      PatchedRecords(st, jumpIfFalse, was);
      DidTwo(was, st1, [Jump(None)], []);
      ok := CompileBody(fn, els);
      if !ok { return; }
      ghost var mid := Now(fn);
      StillThere(st1, mid, jumpEnd, ScanOkAll(els), OwnJumpAny(els));
      Longer(st1, els);
      assert AfterAll(st1, els).code[jumpEnd] == AfterAll(st1, els).code[..|st1.code|][jumpEnd] == Jump(None);
      fn.Patch(jumpEnd, Target(|fn.instructions|));
      DidPatched(was, st1, mid, jumpEnd, Jump(Some(|mid.code|)), ScanOkAll(els), OwnJumpAny(els));
    }

    method CompileWhile(fn: FunctionCompiler, cond: Expr, body: seq<Stmt>) returns (ok: bool)
      requires RecordsOk(Now(fn))
      modifies this, fn
      ensures ok ==> Did(old(Now(fn)), Now(fn), ScanOk(While(cond, body)), false)
      ensures ok <==> LoopsOk(While(cond, body), old(fn.loops) != [])
      ensures ok && ScanOk(While(cond, body)) ==> Now(fn) == After(old(Now(fn)), While(cond, body))
      decreases SizeS(While(cond, body)), 0
    {
      hide Did, Grown, RecordsOk, OwnJumpAny, CompE, LoopsOkAll, ScanOkAll, AfterAll, After, Closed, Closable, PatchAll,
        WhileStart;
      ghost var st := Now(fn);
      var start, jumpExit := OpenWhile(fn, cond);
      WhileOpened(st, cond);
      ok := CompileBody(fn, body);
      if !ok { return; }
      ghost var mid := Now(fn);
      var _ := fn.Emit(Jump(Some(start)));
      ghost var end := Now(fn);
      WhileFinish(st, cond, body, mid);
      fn.CloseLoop(jumpExit);
      ClosedIs(end, Now(fn), jumpExit);
    }

    /** The test of an `enquanto`, up to where its body begins. */
    method OpenWhile(fn: FunctionCompiler, cond: Expr) returns (start: nat, jumpExit: nat)
      requires RecordsOk(Now(fn))
      modifies fn
      ensures Now(fn) == WhileStart(old(Now(fn)), cond)
      ensures start == |old(fn.instructions)| && jumpExit == start + |CompE(cond)|
      decreases SizeE(cond), 2
    {
      hide CompE, RecordsOk;
      start := |fn.instructions|;
      RecordsValid(Now(fn));
      fn.Open();
      CompileExpr(fn, cond);
      jumpExit := fn.Emit(JumpIfFalse(None));
    }

    /** Two fresh temporaries. */
    method AllocateTmps() returns (iter: Ident, idx: Ident)
      modifies this`tmpCounter
      ensures tmpCounter == old(tmpCounter) + 2
      ensures iter == ForIter(old(tmpCounter) + 1) && idx == ForIdx(old(tmpCounter) + 1)
    {
      tmpCounter := tmpCounter + 1;
      iter := ForIter(tmpCounter);
      tmpCounter := tmpCounter + 1;
      idx := ForIdx(tmpCounter - 1);
    }

    method CompileForInit(fn: FunctionCompiler, it: Expr, iter: Ident, idx: Ident) returns (startIp: nat)
      modifies fn`instructions
      ensures fn.instructions == old(fn.instructions) + CompE(it) + [StoreName(iter)] + [LoadConst(VInt(0))]
                                 + [StoreName(idx)]
      ensures startIp == |fn.instructions|
      ensures old(fn.Valid()) ==> fn.Valid()
      decreases SizeE(it), 1
    {
      CompileExpr(fn, it);
      var _ := fn.Emit(StoreName(iter));
      var _ := fn.Emit(LoadConst(VInt(0)));
      var _ := fn.Emit(StoreName(idx));
      startIp := |fn.instructions|;
    }

    /** The start of a `para` loop, up to where its body begins. */
    method OpenFor(fn: FunctionCompiler, s: Stmt) returns (start: nat, jumpExit: nat, idx: Ident)
      requires s.For? && RecordsOk(Now(fn))
      modifies this`tmpCounter, fn
      ensures Now(fn) == ForStart(old(Now(fn)), s)
      ensures start == |old(fn.instructions)| + |CompE(s.iterable)| + 3 && jumpExit == start + 5
              && idx == ForIdx(old(tmpCounter) + 1)
      decreases SizeE(s.iterable), 2
    {
      hide CompE, RecordsOk;
      RecordsValid(Now(fn));
      var iter;
      iter, idx := AllocateTmps();
      start := CompileForInit(fn, s.iterable, iter, idx);
      fn.Open();
      jumpExit := fn.EmitForHead(iter, idx, s.x);
    }

    method CompileFor(fn: FunctionCompiler, s: Stmt) returns (ok: bool)
      requires s.For?
      requires RecordsOk(Now(fn))
      modifies this, fn
      ensures ok ==> Did(old(Now(fn)), Now(fn), ScanOk(s), false)
      ensures ok <==> LoopsOk(s, old(fn.loops) != [])
      ensures ok && ScanOk(s) ==> Now(fn) == After(old(Now(fn)), s)
      decreases SizeS(s), 0
    {
      hide Did, Grown, RecordsOk, OwnJumpAny, CompE, LoopsOkAll, ScanOkAll, AfterAll, After, ForStart, ForEnd, Closed,
        Closable, PatchAll;
      ghost var st := Now(fn);
      var start, jumpExit, idx := OpenFor(fn, s);
      ForOpened(st, s);
      ok := CompileBody(fn, s.body);
      if !ok { return; }
      ghost var mid := Now(fn);
      fn.EmitForStep(idx, start);
      ghost var end := Now(fn);
      EndIsForEnd(mid, end, st.counters.tmp + 1, start);
      ForFinish(st, s, mid);
      fn.CloseLoop(jumpExit);
      ClosedIs(end, Now(fn), jumpExit);
    }

    method CompileTry(fn: FunctionCompiler, body: seq<Stmt>, name: Option<Ident>, catch: Branch, fin: Branch)
      returns (ok: bool)
      requires RecordsOk(Now(fn))
      modifies this, fn
      ensures ok ==> Did(old(Now(fn)), Now(fn), ScanOk(Try(body, name, catch, fin)),
                         OwnJump(Try(body, name, catch, fin)))
      ensures ok <==> LoopsOk(Try(body, name, catch, fin), old(fn.loops) != [])
      ensures ok && ScanOk(Try(body, name, catch, fin)) ==> Now(fn) == After(old(Now(fn)), Try(body, name, catch, fin))
      decreases SizeS(Try(body, name, catch, fin)), 1
    {
      hide Did, OwnJumpAny, TryPatched, CompE, CompSs, CompS, LoopsOkAll, ScanOkAll, AfterAll, After, NumberAll,
        LastHole;
      hide Guarded, Finally, RawTry, WithJump, StagesOk, BlocksDone;
      var push, jumpAfterTry, catchIp, finIp;
      ghost var stages;
      ok, push, jumpAfterTry, catchIp, finIp, stages := CompileBlocks(fn, body, name, catch, fin);
      if !ok { return; }
      StagesGrown(stages, name, catch.Block?);
      PartsDid(stages, body, catch, fin);
      fn.PatchTry(push, jumpAfterTry, catch.Block?, catchIp, finIp, name);
      if ScanOk(Try(body, name, catch, fin)) { TryFinish(stages, body, name, catch, fin); }
      DidTry(stages, Now(fn), name, catch.Block?, catchIp, finIp, ScanOkAll(body), OwnJumpAny(body),
             ScanOkBranch(catch), catch.Block? && OwnJumpAny(catch.body), ScanOkBranch(fin),
             fin.Block? && OwnJumpAny(fin.body));
    }

    /** The blocks of a `tente` before anything in them is patched. */
    method CompileBlocks(fn: FunctionCompiler, body: seq<Stmt>, name: Option<Ident>, catch: Branch, fin: Branch)
      returns (ok: bool, push: nat, jumpAfterTry: nat, catchIp: Option<nat>, finIp: Option<nat>, ghost stages: Stages)
      requires RecordsOk(Now(fn))
      modifies this, fn
      ensures ok <==> LoopsOk(Try(body, name, catch, fin), old(fn.loops) != [])
      ensures ok ==>
                stages.a == old(Now(fn)) && stages.m3 == Now(fn) && StagesOk(stages, name, catch.Block?)
                && BlocksDone(stages, body, catch, fin)
      ensures ok ==> push == |stages.a.code| && jumpAfterTry + 1 == |stages.m1.code| == |stages.b1.code| + 2
      ensures ok ==> catchIp == if catch.Block? then Some(|stages.m1.code|) else None
      ensures ok ==> finIp == if fin.Block? then Some(|stages.m2.code|) else None
      decreases SizeS(Try(body, name, catch, fin)), 0
    {
      hide Did, Grown, RecordsOk, OwnJumpAny, LoopsOkAll, ScanOkAll, AfterAll, Guarded, Finally, WithJump, StagesOk;
      finIp := None;
      ok, push, jumpAfterTry, catchIp, stages := CompileProtected(fn, body, name, catch);
      if !ok { return; }
      DidNothing(stages.m2);
      if fin.Block? {
        finIp := Some(|fn.instructions|);
        ok := CompileFinally(fn, fin.body);
        if !ok { return; }
      }
      StagesMore(stages, Now(fn), name, catch.Block?, ScanOkBranch(fin), fin.Block? && OwnJumpAny(fin.body));
      stages := stages.(m3 := Now(fn));
    }

    /** The block of a `tente` and its `pegue`. */
    method CompileProtected(fn: FunctionCompiler, body: seq<Stmt>, name: Option<Ident>, catch: Branch)
      returns (ok: bool, push: nat, jumpAfterTry: nat, catchIp: Option<nat>, ghost s: Stages)
      requires RecordsOk(Now(fn))
      modifies this, fn
      ensures ok <==> LoopsOk(Try(body, name, catch, Absent), old(fn.loops) != [])
      ensures ok ==>
                s.a == old(Now(fn)) && s.m3 == s.m2 == Now(fn) && RecordsOk(Now(fn))
                && |Now(fn).loops| == |s.a.loops|
      ensures ok ==> StagesOk(s, name, catch.Block?) && BlocksDone(s, body, catch, Absent)
      ensures ok ==> push == |s.a.code| && jumpAfterTry + 1 == |s.m1.code| == |s.b1.code| + 2
      ensures ok ==> catchIp == if catch.Block? then Some(|s.m1.code|) else None
      decreases SizeS(Try(body, name, catch, Absent)), -1
    {
      hide Did, Grown, RecordsOk, OwnJumpAny, LoopsOkAll, ScanOkAll, AfterAll, Guarded, Finally, WithJump;
      ghost var st := Now(fn);
      jumpAfterTry, catchIp := 0, None;
      s := Stages(st, st, st, st, st, st, st);
      push := fn.Emit(PushTry(None, None, name));
      ghost var m0 := Now(fn);
      DidTwo(st, m0, [PushTry(None, None, name)], []);
      ghost var b1;
      ok, jumpAfterTry, b1 := CompileGuarded(fn, body, EndTryBlock);
      if !ok { return; }
      ghost var m1, b2 := Now(fn), Now(fn);
      JumpDone(m0, b1, EndTryBlock, ScanOkAll(body), OwnJumpAny(body));
      DidNothing(m1);
      if catch.Block? {
        catchIp := Some(|fn.instructions|);
        var jumpAfterCatch;
        ok, jumpAfterCatch, b2 := CompileGuarded(fn, catch.body, EndCatchBlock);
        if !ok { return; }
        JumpDone(m1, b2, EndCatchBlock, ScanOkAll(catch.body), OwnJumpAny(catch.body));
      }
      DidNothing(Now(fn));
      DidRecords(Now(fn), Now(fn), true, false);
      s := Stages(st, m0, b1, m1, b2, Now(fn), Now(fn));
      StagesDone(s, name, catch.Block?);
    }

    /** The block of a `tente` or `pegue`, its end marker and the jump after it. */
    method CompileGuarded(fn: FunctionCompiler, body: seq<Stmt>, i: Instr)
      returns (ok: bool, jump: nat, ghost mid: State)
      requires RecordsOk(Now(fn))
      modifies this, fn
      ensures ok ==> Did(old(Now(fn)), mid, ScanOkAll(body), OwnJumpAny(body)) && Now(fn) == WithJump(mid, i)
      ensures ok ==> jump + 1 == |fn.instructions|
      ensures ok <==> LoopsOkAll(body, old(fn.loops) != [])
      ensures ok && ScanOkAll(body) ==> Now(fn) == Guarded(old(Now(fn)), body, i)
      decreases SizeSs(body), 1
    {
      hide Did, RecordsOk, OwnJumpAny, LoopsOkAll, ScanOkAll, AfterAll;
      jump, mid := 0, Now(fn);
      ok := CompileBody(fn, body);
      if !ok { return; }
      mid := Now(fn);
      var _ := fn.Emit(i);
      jump := fn.Emit(Jump(None));
    }

    method CompileFinally(fn: FunctionCompiler, fin: seq<Stmt>) returns (ok: bool)
      requires RecordsOk(Now(fn))
      modifies this, fn
      ensures ok ==> Did(old(Now(fn)), Now(fn), ScanOkAll(fin), OwnJumpAny(fin))
      ensures ok <==> LoopsOkAll(fin, old(fn.loops) != [])
      ensures ok && ScanOkAll(fin) ==> Now(fn) == Finally(old(Now(fn)), fin)
      decreases SizeSs(fin), 1
    {
      hide Did, RecordsOk, OwnJumpAny, LoopsOkAll, ScanOkAll, AfterAll;
      ghost var st := Now(fn);
      var _ := fn.Emit(BeginFinally);
      ghost var st1 := Now(fn);
      DidTwo(st, st1, [BeginFinally], []);
      ok := CompileBody(fn, fin);
      if !ok { return; }
      ghost var mid := Now(fn);
      DidBoth(st, st1, mid, true, false, ScanOkAll(fin), OwnJumpAny(fin));
      var _ := fn.Emit(EndFinally);
      DidBefore(st, mid, Now(fn), [EndFinally], ScanOkAll(fin), OwnJumpAny(fin));
    }

    method CompileFunction(fn: FunctionCompiler, s: Stmt) returns (ok: bool)
      requires s.Func?
      requires RecordsOk(Now(fn))
      modifies this, fn
      ensures ok ==> Did(old(Now(fn)), Now(fn), ScanOk(s), false)
      ensures ok <==> LoopsOk(s, old(fn.loops) != [])
      ensures ok && ScanOk(s) ==> Now(fn) == After(old(Now(fn)), s)
      decreases SizeS(s), 0
    {
      hide Did, RecordsOk, OwnJumpAny, CompE, CompSs, CompS, LoopsOkAll, ScanOkAll, AfterAll, After, NumberAll;
      ghost var st := Now(fn);
      FuncDone(st, s);
      fnCounter := fnCounter + 1;
      var id := fnCounter;
      var inner := new FunctionCompiler();
      ghost var i0 := Now(inner);
      FreshFunction(st, i0);
      ok := CompileBody(inner, s.body);
      if !ok { return; }
      ghost var i1 := Now(inner);
      var _ := inner.Emit(LoadConst(VNull));
      var _ := inner.Emit(ReturnValue);
      functions := functions[id := FnCode(s.params, inner.instructions)];
      var _ := fn.Emit(MakeFunction(s.name, id));
      var _ := fn.Emit(StoreName(s.name));
      assert fn.instructions == st.code + ([MakeFunction(s.name, id)] + [StoreName(s.name)]);
      assert inner.instructions == i1.code + ([LoadConst(VNull)] + [ReturnValue]);
      DidFunction(st, i0, i1, Now(fn), [MakeFunction(s.name, id)] + [StoreName(s.name)], s.params,
                  [LoadConst(VNull)] + [ReturnValue],
                  ScanOkAll(s.body), OwnJumpAny(s.body));
    }
  }

  /** From `a` to `b` the test of a `se` and its block were compiled. */
  ghost predicate ThenDone(a: State, b: State, cond: Expr, thn: seq<Stmt>) {
    var m := a.(code := a.code + CompE(cond) + [JumpIfFalse(None)]);
    && Grown(a, m) && Did(m, b, ScanOkAll(thn), OwnJumpAny(thn)) && (ScanOkAll(thn) ==> b == AfterAll(m, thn))
  }

  lemma ThenKeeps(a: State, b: State, cond: Expr, thn: seq<Stmt>, at: nat)
    requires ThenDone(a, b, cond, thn) && at == |a.code| + |CompE(cond)|
    ensures at < |b.code| && b.code[at] == JumpIfFalse(None) && |b.loops| == |a.loops| && RecordsOk(b)
    ensures forall t: Option<nat> :: Did(a, Patched(b, at, JumpIfFalse(t)), ScanOkAll(thn), OwnJumpAny(thn))
    ensures ScanOkAll(thn) ==> b == AfterAll(a.(code := a.code + CompE(cond) + [JumpIfFalse(None)]), thn)
  {
    hide Did, Grown, OwnJumpAny, ScanOkAll, AfterAll, CompE, RecordsOk, Patched;
    var m := a.(code := a.code + CompE(cond) + [JumpIfFalse(None)]);
    assert m.code[at] == JumpIfFalse(None);
    StillThere(m, b, at, ScanOkAll(thn), OwnJumpAny(thn));
    forall t: Option<nat> ensures Did(a, Patched(b, at, JumpIfFalse(t)), ScanOkAll(thn), OwnJumpAny(thn)) {
      DidPatched(a, m, b, at, JumpIfFalse(t), ScanOkAll(thn), OwnJumpAny(thn));
    }
  }

  /** The state after `senao`, from the state after the block of `se`. */
  function ElseDone(st: State, jif: nat, els: seq<Stmt>): State
    requires jif < |st.code|
  {
    var st1 := Patched(Emitted(st, Jump(None)), jif, WithTarget(st.code[jif], |st.code| + 1));
    var st2 := AfterAll(st1, els);
    Longer(st1, els);
    Patched(st2, |st.code|, Jump(Some(|st2.code|)))
  }

  lemma Longer(st: State, ss: seq<Stmt>)
    ensures |AfterAll(st, ss).code| == |st.code| + LenSs(NumberAll(ss, st.counters).0)
    ensures AfterAll(st, ss).code[..|st.code|] == st.code
  {
  }

  lemma IfDone(st: State, cond: Expr, thn: seq<Stmt>)
    ensures var jif := |st.code| + |CompE(cond)|;
            var st1 := AfterAll(st.(code := st.code + CompE(cond) + [JumpIfFalse(None)]), thn);
            && jif < |st1.code|
            && After(st, If(cond, thn, Absent)) == Patched(st1, jif, JumpIfFalse(Some(|st1.code|)))
  {
    hide CompE, CompSs, LenSs, HolesAll, NumberAll, FnsAll, Table;
    var base := |st.code|;
    var at := base + |CompE(cond)| + 1;
    var (t, c1) := NumberAll(thn, st.counters);
    var tc := CompSs(t, at, None, None);
    JoinNone(HolesAll(t, at));
    assert (st.code + CompE(cond) + [JumpIfFalse(None)] + tc)[at - 1 := JumpIfFalse(Some(at + LenSs(t)))]
        == st.code + (CompE(cond) + ([JumpIfFalse(Some(at + LenSs(t)))] + (tc + [])));
    assert Fns(If(cond, t, Absent)) == FnsAll(t) + map[] == FnsAll(t);
    assert Holes(If(cond, t, Absent), base) == Join(HolesAll(t, at), NONE);
    assert Number(If(cond, thn, Absent), st.counters) == (If(cond, t, Absent), c1);
    assert CompS(If(cond, t, Absent), base, None, None)
        == CompE(cond) + ([JumpIfFalse(Some(at + LenSs(t)))] + (tc + []));
  }

  lemma IfElseDone(st: State, cond: Expr, thn: seq<Stmt>, els: seq<Stmt>)
    ensures var jif := |st.code| + |CompE(cond)|;
            var st1 := AfterAll(st.(code := st.code + CompE(cond) + [JumpIfFalse(None)]), thn);
            jif < |st1.code| && After(st, If(cond, thn, Block(els))) == ElseDone(st1, jif, els)
  {
    hide CompE, CompSs, CompS, LenSs, LenS, HolesAll, Holes, NumberAll, Number, FnsAll, Fns, Table, ElseDone, AddJumps,
      After;
    var at := |st.code| + |CompE(cond)| + 1;
    var (t, c1) := NumberAll(thn, st.counters);
    var (e, c2) := NumberAll(els, c1);
    var elseAt := at + LenSs(t) + 1;
    var tc, ec := CompSs(t, at, None, None), CompSs(e, elseAt, None, None);
    var st1 := AfterAll(st.(code := st.code + CompE(cond) + [JumpIfFalse(None)]), thn);
    assert st1.code == st.code + CompE(cond) + [JumpIfFalse(None)] + tc && st1.counters == c1;
    IfElseAfter(st, cond, thn, els, at, elseAt);
    ElseState(st1, at - 1, els);
    IfCode(st.code, CompE(cond), tc, ec, elseAt + LenSs(e));
  }

  lemma IfElseAfter(st: State, cond: Expr, thn: seq<Stmt>, els: seq<Stmt>, at: nat, elseAt: nat)
    requires at == |st.code| + |CompE(cond)| + 1 && elseAt == at + LenSs(NumberAll(thn, st.counters).0) + 1
    ensures var (t, c1) := NumberAll(thn, st.counters);
            var (e, c2) := NumberAll(els, c1);
            After(st, If(cond, thn, Block(els)))
            == State(st.code + (CompE(cond) + ([JumpIfFalse(Some(elseAt))]
                                               + (CompSs(t, at, None, None) + ([Jump(Some(elseAt + LenSs(e)))]
                                                                               + CompSs(e, elseAt, None, None))))),
                     AddJumps(AddJumps(st.loops, HolesAll(t, at)), HolesAll(e, elseAt)), c2,
                     st.functions + Table(FnsAll(t)) + Table(FnsAll(e)))
  {
    hide CompE, CompSs, CompS, LenSs, LenS, HolesAll, Holes, NumberAll, Number, FnsAll, Fns, Table, AddJumps;
      var (t, c1) := NumberAll(thn, st.counters);
    var (e, c2) := NumberAll(els, c1);
    AddTwice(st.loops, HolesAll(t, at), HolesAll(e, elseAt));
    TableJoin(FnsAll(t), FnsAll(e));
    assert st.functions + Table(FnsAll(t)) + Table(FnsAll(e)) == st.functions + (Table(FnsAll(t)) + Table(FnsAll(e)));
    IfElseParts(cond, t, e, |st.code|);
    NumberIfElse(cond, thn, els, st.counters);
  }

  lemma NumberIfElse(cond: Expr, thn: seq<Stmt>, els: seq<Stmt>, c: Counters)
    ensures var (t, c1) := NumberAll(thn, c);
            var (e, c2) := NumberAll(els, c1);
            Number(If(cond, thn, Block(els)), c) == (If(cond, t, Block(e)), c2)
  {
    hide NumberAll;
  }

  lemma IfElseParts(cond: Expr, t: seq<Stmt>, e: seq<Stmt>, base: nat)
    ensures var s := If(cond, t, Block(e));
            var at := base + |CompE(cond)| + 1;
            var elseAt := at + LenSs(t) + 1;
            && Fns(s) == FnsAll(t) + FnsAll(e)
            && Holes(s, base) == Join(HolesAll(t, at), HolesAll(e, elseAt))
            && CompS(s, base, None, None)
               == CompE(cond) + ([JumpIfFalse(Some(elseAt))]
                                 + (CompSs(t, at, None, None) + ([Jump(Some(elseAt + LenSs(e)))]
                                                                 + CompSs(e, elseAt, None, None))))
  {
    hide CompE, CompSs, LenSs, HolesAll, FnsAll;
    assert LenElse(Block(e)) == 1 + LenSs(e);
  }

  lemma ElseState(st: State, jif: nat, els: seq<Stmt>)
    requires jif < |st.code|
    ensures var (e, c') := NumberAll(els, st.counters);
            var jend := |st.code|;
            && ElseDone(st, jif, els) ==
               State(((st.code + [Jump(None)])[jif := WithTarget(st.code[jif], jend + 1)]
                      + CompSs(e, jend + 1, None, None))
                     [jend := Jump(Some(jend + 1 + LenSs(e)))],
                     AddJumps(st.loops, HolesAll(e, jend + 1)), c', st.functions + Table(FnsAll(e)))
  {
    hide CompSs, LenSs, HolesAll, NumberAll, FnsAll, Table;
  }

  lemma IfCode(a: seq<Instr>, cc: seq<Instr>, t: seq<Instr>, e: seq<Instr>, end: nat)
    ensures var jif := |a| + |cc|;
            var jend := jif + 1 + |t|;
            ((a + cc + [JumpIfFalse(None)] + t + [Jump(None)])[jif := JumpIfFalse(Some(jend + 1))] + e)[jend :=
            Jump(Some(end))]
            == a + (cc + ([JumpIfFalse(Some(jend + 1))] + (t + ([Jump(Some(end))] + e))))
  {
  }

  /** The state in which the body of a loop is compiled. */
  function InLoop(st: State, cond: Expr, pre: seq<Stmt>): State {
    State(st.code + CompE(cond) + [JumpIfFalse(None)] + CompSs(pre, |st.code| + |CompE(cond)| + 1, None, None),
          st.loops + [LoopPatch(|st.code|, [], [])], st.counters, st.functions)
  }

  function LoopTail(st: State, post: seq<Stmt>, start: nat): State {
    st.(code := st.code + CompSs(post, |st.code|, None, None) + [Jump(Some(start))])
  }

  lemma LoopDone(st: State, cond: Expr, pre: seq<Stmt>, body: seq<Stmt>, post: seq<Stmt>)
    ensures var (b, c') := NumberAll(body, st.counters);
            var base := |st.code|;
            var st2 := LoopTail(AfterAll(InLoop(st, cond, pre), body), post, base);
            && Closable(st2, base + |CompE(cond)|)
            && Closed(st2, base + |CompE(cond)|)
               == State(st.code + CompLoop(cond, pre, b, post, base), st.loops, c', st.functions + Table(FnsAll(b)))
  {
    hide CompE, CompSs, LenSs, HolesAll, NumberAll, FnsAll, Table, PatchAll, CompLoop;
      var (b, c') := NumberAll(body, st.counters);
    var base := |st.code|;
    var bodyAt := base + |CompE(cond)| + 1 + LenSs(pre);
    var st2 := LoopTail(AfterAll(InLoop(st, cond, pre), body), post, base);
    LoopPatched(st.code, cond, pre, b, post, base, bodyAt, base + LenLoop(cond, pre, b, post));
    var raw := RawLoop(st.code, cond, pre, b, post);
    assert st2.code == raw && raw[base + |CompE(cond)|] == JumpIfFalse(None);
    var js := HolesAll(b, bodyAt);
    assert [] + js.breaks == js.breaks && [] + js.conts == js.conts;
    assert st2.loops == st.loops + [LoopPatch(base, js.breaks, js.conts)];
    assert st2.loops[..|st.loops|] == st.loops;
  }

  /** The state in which the body of an `enquanto` is compiled. */
  function WhileStart(st: State, cond: Expr): State {
    State(st.code + CompE(cond) + [JumpIfFalse(None)], st.loops + [LoopPatch(|st.code|, [], [])], st.counters,
          st.functions)
  }

  lemma WhileDone(st: State, cond: Expr, body: seq<Stmt>)
    ensures var st2 := Emitted(AfterAll(WhileStart(st, cond), body), Jump(Some(|st.code|)));
            Closable(st2, |st.code| + |CompE(cond)|)
            && After(st, While(cond, body)) == Closed(st2, |st.code| + |CompE(cond)|)
  {
    hide CompE, LenSs, NumberAll, FnsAll, Table, PatchAll, AfterAll, Closed, Closable, CompLoop;
    LoopDone(st, cond, [], body, []);
    var st0 := WhileStart(st, cond);
    assert InLoop(st, cond, []) == st0 by { assert st0.code + [] == st0.code; }
    var st1 := AfterAll(st0, body);
    assert LoopTail(st1, [], |st.code|) == Emitted(st1, Jump(Some(|st.code|))) by { assert st1.code + [] == st1.code; }
    AddNone(st.loops);
  }

  lemma WhileOpened(st: State, cond: Expr)
    ensures var b := WhileStart(st, cond);
            && |st.code| + |CompE(cond)| < |b.code| && b.code == st.code + b.code[|st.code|..]
            && b.loops == st.loops + [LoopPatch(|st.code|, [], [])] && b.functions == st.functions
            && b.counters == st.counters
    ensures RecordsOk(st) ==> RecordsOk(WhileStart(st, cond))
  {
    hide CompE;
    var b := WhileStart(st, cond);
    assert b.code == st.code + (CompE(cond) + [JumpIfFalse(None)]);
    if RecordsOk(st) { OpenedLoop(st, b, CompE(cond) + [JumpIfFalse(None)], |st.code|); }
  }

  /** Closing the innermost loop of `end` ends what started in `st`; with `good` scans, in `after`. */
  ghost predicate Finishes(st: State, end: State, jexit: nat, good: bool, after: State) {
    && Closable(end, jexit) && jexit < |end.code| && Recorded(end) && |end.loops| == |st.loops| + 1
    && Did(st, Closed(end, jexit), good, false) && (good ==> after == Closed(end, jexit))
  }

  /** The end of an `enquanto`, whether or not the scans in its body were good. */
  lemma WhileFinish(st: State, cond: Expr, body: seq<Stmt>, mid: State)
    requires RecordsOk(st) && Did(WhileStart(st, cond), mid, ScanOkAll(body), OwnJumpAny(body))
    requires ScanOkAll(body) ==> mid == AfterAll(WhileStart(st, cond), body)
    ensures Finishes(st, Emitted(mid, Jump(Some(|st.code|))), |st.code| + |CompE(cond)|, ScanOkAll(body),
                     After(st, While(cond, body)))
  {
    hide Did, RecordsOk, OwnJumpAny, CompE, ScanOkAll, AfterAll, After, WhileStart, PatchAll, Closable, Closed;
    var st1 := WhileStart(st, cond);
    WhileOpened(st, cond);
    OpenedLoop(st, st1, st1.code[|st.code|..], |st.code|);
    DidRecords(st1, mid, ScanOkAll(body), OwnJumpAny(body));
    MoreRecords(mid, Emitted(mid, Jump(Some(|st.code|))));
    DidLoop(st, st1, mid, [Jump(Some(|st.code|))], |st.code| + |CompE(cond)|, ScanOkAll(body), OwnJumpAny(body));
    WhileDone(st, cond, body);
  }

  /** The state in which the body of a `para` loop is compiled. */
  function ForStart(st: State, s: Stmt): State
    requires s.For?
  {
    var id := st.counters.tmp + 1;
    var init := st.code + CompE(s.iterable) + [StoreName(ForIter(id))] + [LoadConst(VInt(0))] + [StoreName(ForIdx(id))];
    State(init + [LoadName(ForIdx(id))] + [LoadName(User("tamanho"))] + [LoadName(ForIter(id))] + [CallFn(1)]
          + [CompareOp(Lt)]
          + [JumpIfFalse(None)] + [LoadName(ForIter(id))] + [LoadName(ForIdx(id))] + [BinarySubscr] + [StoreName(s.x)],
          st.loops + [LoopPatch(|init|, [], [])], st.counters.(tmp := st.counters.tmp + 2), st.functions)
  }

  function ForEnd(st: State, id: nat, start: nat): State {
    st.(code := st.code + [LoadName(ForIdx(id))] + [LoadConst(VInt(1))] + [Binary(Add)] + [StoreName(ForIdx(id))]
    + [Jump(Some(start))])
  }

  /** The state when the hidden variables of a `para` loop are set. */
  function ForInit(st: State, s: Stmt): State
    requires s.For?
  {
    State(st.code + CompForInit(st.counters.tmp + 1, s.iterable), st.loops, st.counters.(tmp := st.counters.tmp + 2),
          st.functions)
  }

  lemma ForStartIs(st: State, s: Stmt)
    requires s.For?
    ensures var id := st.counters.tmp + 1;
            ForStart(st, s) == InLoop(ForInit(st, s), ForCond(id), [ForHead(id, s.x)])
  {
    hide CompE, CompSs, LenSs;
    var id := st.counters.tmp + 1;
    ForPieces(id, s.x);
    var init := st.code + CompE(s.iterable) + [StoreName(ForIter(id))] + [LoadConst(VInt(0))] + [StoreName(ForIdx(id))];
    assert init == ForInit(st, s).code;
    AppendForHead(init, id, s.x);
  }

  lemma AppendForHead(a: seq<Instr>, id: nat, x: Ident)
    ensures a + [LoadName(ForIdx(id))] + [LoadName(User("tamanho"))] + [LoadName(ForIter(id))] + [CallFn(1)]
            + [CompareOp(Lt)]
            + [JumpIfFalse(None)] + [LoadName(ForIter(id))] + [LoadName(ForIdx(id))] + [BinarySubscr] + [StoreName(x)]
         == a + [LoadName(ForIdx(id)), LoadName(User("tamanho")), LoadName(ForIter(id)), CallFn(1), CompareOp(Lt)]
            + [JumpIfFalse(None)] + [LoadName(ForIter(id)), LoadName(ForIdx(id)), BinarySubscr, StoreName(x)]
  {
  }

  lemma ForEndIs(st: State, id: nat, x: Ident, start: nat)
    ensures LoopTail(st, [ForStep(id)], start) == ForEnd(st, id, start)
  {
    hide CompE, CompSs, LenSs;
    ForPieces(id, x);
  }

  lemma ForOpened(st: State, s: Stmt)
    requires s.For?
    ensures var b := ForStart(st, s);
            && |st.code| + |CompE(s.iterable)| + 3 + 5 < |b.code| && b.code == st.code + b.code[|st.code|..]
            && b.loops == st.loops + [LoopPatch(|st.code| + |CompE(s.iterable)| + 3, [], [])]
            && b.functions == st.functions && b.counters.fn == st.counters.fn
    ensures RecordsOk(st) ==> RecordsOk(ForStart(st, s))
  {
    hide CompE;
    var id := st.counters.tmp + 1;
    var more := CompE(s.iterable)
    + ([StoreName(ForIter(id)), LoadConst(VInt(0)), StoreName(ForIdx(id)), LoadName(ForIdx(id)),
        LoadName(User("tamanho"))]
       + [LoadName(ForIter(id)), CallFn(1), CompareOp(Lt), JumpIfFalse(None), LoadName(ForIter(id)),
          LoadName(ForIdx(id)), BinarySubscr,
          StoreName(s.x)]);
    assert ForStart(st, s).code == st.code + more;
    if RecordsOk(st) { OpenedLoop(st, ForStart(st, s), more, |st.code| + |CompE(s.iterable)| + 3); }
  }

  lemma ForStepAdds(st: State, id: nat, start: nat)
    ensures var e := ForEnd(st, id, start);
            |e.code| > |st.code| && e.code == st.code + e.code[|st.code|..] && e == st.(code := e.code)
  {
    var more := [LoadName(ForIdx(id)), LoadConst(VInt(1)), Binary(Add), StoreName(ForIdx(id)), Jump(Some(start))];
    assert ForEnd(st, id, start).code == st.code + more;
  }

  lemma EndIsForEnd(st: State, e: State, id: nat, start: nat)
    requires e == st.(code := st.code + [LoadName(ForIdx(id))] + [LoadConst(VInt(1))] + [Binary(Add)]
                  + [StoreName(ForIdx(id))] + [Jump(Some(start))])
    ensures e == ForEnd(st, id, start)
  {
  }

  /** What closing a loop makes of a state. */
  lemma ClosedIs(end: State, now: State, jexit: nat)
    requires Closable(end, jexit)
    requires var l := end.loops[|end.loops| - 1];
             && (forall p :: p in l.breakJumps || p in l.continueJumps ==> p < |end.code|)
             && now == end.(code := PatchAll(PatchAll(end.code[jexit := WithTarget(end.code[jexit], |end.code|)],
                                                      l.breakJumps, |end.code|),
                                             l.continueJumps, l.startIp),
                       loops := end.loops[..|end.loops| - 1])
    ensures now == Closed(end, jexit)
  {
    hide PatchAll;
  }

  /** The end of a `para`, whether or not the scans in its body were good. */
  lemma ForFinish(st: State, s: Stmt, mid: State)
    requires s.For? && RecordsOk(st) && Did(ForStart(st, s), mid, ScanOkAll(s.body), OwnJumpAny(s.body))
    requires ScanOkAll(s.body) ==> mid == AfterAll(ForStart(st, s), s.body)
    ensures Finishes(st, ForEnd(mid, st.counters.tmp + 1, |st.code| + |CompE(s.iterable)| + 3),
                     |st.code| + |CompE(s.iterable)| + 8,
                     ScanOkAll(s.body), After(st, s))
  {
    hide Did, RecordsOk, OwnJumpAny, CompE, ScanOkAll, AfterAll, After, ForStart, ForEnd, PatchAll, Closable, Closed;
    var start, id := |st.code| + |CompE(s.iterable)| + 3, st.counters.tmp + 1;
    var st1, end := ForStart(st, s), ForEnd(mid, id, start);
    ForOpened(st, s);
    ForStepAdds(mid, id, start);
    OpenedLoop(st, st1, st1.code[|st.code|..], start);
    DidRecords(st1, mid, ScanOkAll(s.body), OwnJumpAny(s.body));
    MoreRecords(mid, end);
    DidLoop(st, st1, mid, end.code[|mid.code|..], start + 5, ScanOkAll(s.body), OwnJumpAny(s.body));
    ForDone(st, s);
  }

  lemma ForDone(st: State, s: Stmt)
    requires s.For?
    ensures var start := |st.code| + |CompE(s.iterable)| + 3;
            var st2 := ForEnd(AfterAll(ForStart(st, s), s.body), st.counters.tmp + 1, start);
            Closable(st2, start + 5) && After(st, s) == Closed(st2, start + 5)
  {
    hide CompE, CompSs, LenSs, NumberAll, FnsAll, Table, PatchAll, AfterAll, Closed, Closable, CompLoop, ForStart,
      ForEnd, InLoop, LoopTail;
    var id := st.counters.tmp + 1;
    var st0 := ForInit(st, s);
    var start := |st0.code|;
    ForStartIs(st, s);
    ForEndIs(AfterAll(ForStart(st, s), s.body), id, s.x, start);
    ForPieces(id, s.x);
    LoopDone(st0, ForCond(id), [ForHead(id, s.x)], s.body, [ForStep(id)]);
    ForAfter(st, s);
  }

  lemma ForAfter(st: State, s: Stmt)
    requires s.For?
    ensures var id := st.counters.tmp + 1;
            var st0 := ForInit(st, s);
            var (b, c') := NumberAll(s.body, st0.counters);
            After(st, s) == State(st0.code + CompLoop(ForCond(id), [ForHead(id, s.x)], b, [ForStep(id)], |st0.code|),
                                  st.loops, c',
                                  st.functions + Table(FnsAll(b)))
  {
    hide CompE, CompSs, LenSs, NumberAll, FnsAll, Table, CompLoop;
    var id := st.counters.tmp + 1;
    var st0 := ForInit(st, s);
    var (b, c') := NumberAll(s.body, st0.counters);
    var loop := CompLoop(ForCond(id), [ForHead(id, s.x)], b, [ForStep(id)], |st0.code|);
    assert st.code + CompForInit(id, s.iterable) + loop == st.code + (CompForInit(id, s.iterable) + loop);
    assert Number(s, st.counters) == (For(id, s.x, s.iterable, b), c');
    AddNone(st.loops);
  }

  lemma FuncDone(st: State, s: Stmt)
    requires s.Func?
    ensures var id := st.counters.fn + 1;
            var inner := AfterAll(State([], [], st.counters.(fn := id), st.functions), s.body);
            After(st, s) == State(st.code + [MakeFunction(s.name, id)] + [StoreName(s.name)], st.loops, inner.counters,
                                  inner.functions[id := FnCode(s.params,
                                                               inner.code + [LoadConst(VNull)] + [ReturnValue])])
  {
    hide After, AfterAll, NumberAll, FnsAll, Table, CompSs, CompFn;
    var id := st.counters.fn + 1;
    var b := NumberAll(s.body, st.counters.(fn := id)).0;
    FuncAfter(st, s);
    InnerAfter(st.counters.(fn := id), st.functions, s.body);
    TableWith(st.functions, FnsAll(b), id, s.params, b);
    assert st.code + [MakeFunction(s.name, id), StoreName(s.name)]
        == st.code + [MakeFunction(s.name, id)] + [StoreName(s.name)];
  }

  lemma FuncAfter(st: State, s: Stmt)
    requires s.Func?
    ensures var id := st.counters.fn + 1;
            var (b, c') := NumberAll(s.body, st.counters.(fn := id));
            After(st, s) == State(st.code + [MakeFunction(s.name, id), StoreName(s.name)], st.loops, c',
                                  st.functions + Table(FnsAll(b)[id := Semantics.FnDecl(s.params, b)]))
  {
    hide NumberAll, FnsAll, Table, AddJumps;
    AddNone(st.loops);
  }

  lemma InnerAfter(c: Counters, fs: map<nat, FnCode>, body: seq<Stmt>)
    ensures var (b, c') := NumberAll(body, c);
            AfterAll(State([], [], c, fs), body) == State(CompSs(b, 0, None, None), [], c', fs + Table(FnsAll(b)))
  {
    hide NumberAll, FnsAll, Table, CompSs, HolesAll;
    var b := NumberAll(body, c).0;
    assert [] + CompSs(b, 0, None, None) == CompSs(b, 0, None, None);
  }

  lemma TableWith(fs: map<nat, FnCode>, fns: map<nat, Semantics.FnDecl>, id: nat, params: seq<Ident>, b: seq<Stmt>)
    ensures fs + Table(fns[id := Semantics.FnDecl(params, b)])
         == (fs + Table(fns))[id := FnCode(params, CompSs(b, 0, None, None) + [LoadConst(VNull)] + [ReturnValue])]
  {
    hide CompSs;
    var code := CompSs(b, 0, None, None);
    assert code + [LoadConst(VNull)] + [ReturnValue] == CompFn(params, b).code;
    assert Table(fns[id := Semantics.FnDecl(params, b)]) == Table(fns)[id := CompFn(params, b)];
  }

  function Guarded(st: State, body: seq<Stmt>, i: Instr): State {
    Emitted(Emitted(AfterAll(st, body), i), Jump(None))
  }

  function Finally(st: State, fin: seq<Stmt>): State {
    Emitted(AfterAll(Emitted(st, BeginFinally), fin), EndFinally)
  }

  /** The code of a `tente` before its holes are patched. */
  function RawTry(st: State, body: seq<Stmt>, name: Option<Ident>, catch: Branch, fin: Branch): State {
    var st1 := Guarded(Emitted(st, PushTry(None, None, name)), body, EndTryBlock);
    var st2 := if catch.Block? then Guarded(st1, catch.body, EndCatchBlock) else st1;
    if fin.Block? then Finally(st2, fin.body) else st2
  }

  /** The code of a block before the jump after it is patched. */
  function RawBlock(body: seq<Stmt>, base: nat, i: Instr): seq<Instr> {
    CompSs(body, base, None, None) + [i] + [Jump(None)]
  }

  function RawCatch(catch: Branch, base: nat): seq<Instr> {
    if catch.Block? then RawBlock(catch.body, base, EndCatchBlock) else []
  }

  function FinallyCode(fin: Branch, base: nat): seq<Instr> {
    if fin.Block? then CompFinally(fin.body, base, None, None) else []
  }

  /** The code of `pegue`, if there is one. */
  function DoneCatch(catch: Branch, base: nat, end: nat): seq<Instr> {
    if catch.Block? then CompBlock(catch.body, base, EndCatchBlock, end, None, None) else []
  }

  function LenFinally(fin: Branch): nat {
    if fin.Block? then LenSs(fin.body) + 2 else 0
  }

  function LenCatch(catch: Branch): nat {
    if catch.Block? then LenSs(catch.body) + 2 else 0
  }

  lemma BlockPatched(a: seq<Instr>, body: seq<Stmt>, i: Instr, end: nat, b: seq<Instr>)
    ensures var at := |a| + LenSs(body) + 1;
            (a + (RawBlock(body, |a|, i) + b))[at := Jump(Some(end))]
            == a + (CompBlock(body, |a|, i, end, None, None) + b)
    ensures (a + (RawBlock(body, |a|, i) + b))[|a| + LenSs(body) + 1] == Jump(None)
  {
    hide CompSs;
    var at := |a| + LenSs(body) + 1;
    var c := CompSs(body, |a|, None, None);
    assert a + (RawBlock(body, |a|, i) + b) == (a + c + [i]) + [Jump(None)] + b;
    assert a + (CompBlock(body, |a|, i, end, None, None) + b) == (a + c + [i]) + [Jump(Some(end))] + b;
  }

  /** The scan of a `tente` with `pegue`, once the jump after its block is patched. */
  lemma HoleFound(a: seq<Instr>, c: seq<Instr>, fin: Branch, before: seq<Instr>, q: seq<Instr>)
    requires fin.Block? ==> !OwnJumpAny(fin.body)
    requires before == a + c + [EndCatchBlock] && q == FinallyCode(fin, |before| + 1)
    ensures LastHole(a + ((c + [EndCatchBlock] + [Jump(None)]) + q)) == |before|
  {
    hide *;
    ScanFinally(before, fin);
    assert a + ((c + [EndCatchBlock] + [Jump(None)]) + q) == (before + [Jump(None)]) + q by {
      Regroup(a, c, EndCatchBlock, Jump(None), q);
    }
  }

  lemma ScanFinally(before: seq<Instr>, fin: Branch)
    requires fin.Block? ==> !OwnJumpAny(fin.body)
    ensures LastHole((before + [Jump(None)]) + FinallyCode(fin, |before| + 1)) == |before|
  {
    hide LastHole, OwnJumpAny, OwnJump;
    match fin
    case Absent => LastIsHole(before);
    case Block(body) => ScanFindsItsJump(before, body);
  }

  lemma Regroup(a: seq<Instr>, c: seq<Instr>, i: Instr, j: Instr, q: seq<Instr>)
    ensures a + ((c + [i] + [j]) + q) == (a + c + [i]) + [j] + q
  {
  }

  lemma LastIsHole(before: seq<Instr>)
    ensures LastHole((before + [Jump(None)]) + []) == |before|
  {
    assert (before + [Jump(None)]) + [] == before + [Jump(None)];
  }

  /** The patched code of a `tente` is its code. */
  lemma TryCode(a: seq<Instr>, body: seq<Stmt>, name: Option<Ident>, catch: Branch, fin: Branch)
    requires catch.Block? && fin.Block? ==> !OwnJumpAny(fin.body)
    ensures var base := |a|;
            var catchAt := base + LenSs(body) + 3;
            var finAt := catchAt + LenCatch(catch);
            var raw := (a + [PushTry(None, None, name)])
                       + (RawBlock(body, base + 1, EndTryBlock) + (RawCatch(catch, catchAt) + FinallyCode(fin, finAt)));
            && catchAt - 1 < |raw|
            && TryPatched(raw, base, catchAt - 1, catch.Block?, if catch.Block? then Some(catchAt) else None,
                          if fin.Block? then Some(finAt) else None, name)
               == a + CompS(Try(body, name, catch, fin), base, None, None)
  {
    hide CompSs, CompS, CompE, LenSs, LenS, LastHole, CompBlock, RawBlock, FinallyCode, TryPatched, OwnJumpAny,
      LenFinally, DoneCatch;
    var base := |a|;
    var catchAt := base + LenSs(body) + 3;
    var finAt := catchAt + LenCatch(catch);
    var q := FinallyCode(fin, finAt);
    var push := PushTry(if catch.Block? then Some(catchAt) else None, if fin.Block? then Some(finAt) else None, name);
    var front := a + [PushTry(None, None, name)];
    var rb, k := RawBlock(body, base + 1, EndTryBlock), RawCatch(catch, catchAt);
    TryLengths(body, catch, fin, base);
    var end := finAt + LenFinally(fin);
    var b := CompBlock(body, base + 1, EndTryBlock, end, None, None);
    var k' := DoneCatch(catch, catchAt, end);
    var raw, once, twice := front + (rb + (k + q)), front + (b + (k + q)), front + (b + (k' + q));
    assert |raw| == end;
    assert raw[catchAt - 1] == Jump(None) && once == raw[catchAt - 1 := Jump(Some(end))] by {
      BlockPatched(front, body, EndTryBlock, end, k + q);
    }
    assert if catch.Block? then LastHole(once) == finAt - 1 && 0 <= finAt - 1 < |once| && once[finAt - 1] == Jump(None)
                                && twice == once[finAt - 1 := Jump(Some(end))] else twice == once by {
      SecondPatch(front, b, catch, fin, catchAt, end);
    }
    hide LenCatch, RawCatch, WithArg, WithTarget;
    assert CompS(Try(body, name, catch, fin), base, None, None) == [push] + (b + (k' + q)) by {
      TryParts(body, name, catch, fin, base);
    }
    ThreePatches(a, name, push, rb, b, k + q, k' + q, catchAt, catch.Block?, finAt - 1);
  }

  /** The patch of the jump after `pegue`, if there is one. */
  lemma SecondPatch(front: seq<Instr>, b: seq<Instr>, catch: Branch, fin: Branch, catchAt: nat, end: nat)
    requires catch.Block? && fin.Block? ==> !OwnJumpAny(fin.body)
    requires |front| + |b| == catchAt
    ensures var finAt := catchAt + LenCatch(catch);
            var q := FinallyCode(fin, finAt);
            var k' := DoneCatch(catch, catchAt, end);
            var once := front + (b + (RawCatch(catch, catchAt) + q));
            if catch.Block? then
              LastHole(once) == finAt - 1 < |once| && once[finAt - 1] == Jump(None)
              && once[finAt - 1 := Jump(Some(end))] == front + (b + (k' + q))
            else once == front + (b + (k' + q))
  {
    hide CompSs, CompS, LenSs, LastHole, CompBlock, RawBlock, FinallyCode, OwnJumpAny;
    if catch.Block? {
      var q := FinallyCode(fin, catchAt + LenCatch(catch));
      CatchPatched(front + b, catch.body, fin, end, catchAt + LenCatch(catch) - 1, q);
      Regroup3(front, b, RawCatch(catch, catchAt) + q);
      Regroup3(front, b, CompBlock(catch.body, catchAt, EndCatchBlock, end, None, None) + q);
    }
  }

  /** The three patches of a `tente`, given what each of them finds. */
  lemma ThreePatches(a: seq<Instr>, name: Option<Ident>, push: Instr,
                     rb: seq<Instr>, b: seq<Instr>, x: seq<Instr>, y: seq<Instr>,
                     catchAt: nat, hasCatch: bool, hole: int)
    requires push.PushTry? && push.catchName == name
    requires var raw := (a + [PushTry(None, None, name)]) + (rb + x);
             var once := (a + [PushTry(None, None, name)]) + (b + x);
             var twice := (a + [PushTry(None, None, name)]) + (b + y);
             && |a| < catchAt <= |raw| && raw[catchAt - 1] == Jump(None)
             && once == raw[catchAt - 1 := Jump(Some(|raw|))]
             && (if hasCatch then LastHole(once) == hole && 0 <= hole < |once| && once[hole] == Jump(None)
                                  && twice == once[hole := Jump(Some(|raw|))]
                 else twice == once)
    ensures TryPatched((a + [PushTry(None, None, name)]) + (rb + x), |a|, catchAt - 1, hasCatch, push.catchIp,
                       push.finIp, name)
         == a + ([push] + (b + y))
  {
    hide LastHole;
    PushPatched(a, PushTry(None, None, name), push, b + y);
  }

  lemma TryLengths(body: seq<Stmt>, catch: Branch, fin: Branch, base: nat)
    ensures var catchAt := base + LenSs(body) + 3;
            var finAt := catchAt + LenCatch(catch);
            && |RawBlock(body, base + 1, EndTryBlock)| == LenSs(body) + 2
            && |RawCatch(catch, catchAt)| == LenCatch(catch)
            && |FinallyCode(fin, finAt)| == LenFinally(fin)
  {
    hide CompSs, LenSs;
  }

  lemma Regroup3(front: seq<Instr>, b: seq<Instr>, x: seq<Instr>)
    ensures front + (b + x) == (front + b) + x
  {
  }

  /** The scan and the patch of the jump after `pegue`. */
  lemma CatchPatched(a: seq<Instr>, catch: seq<Stmt>, fin: Branch, end: nat, at: nat, q: seq<Instr>)
    requires fin.Block? ==> !OwnJumpAny(fin.body)
    requires at == |a| + LenSs(catch) + 1 && q == FinallyCode(fin, at + 1)
    ensures var once := a + (RawBlock(catch, |a|, EndCatchBlock) + q);
            && LastHole(once) == at < |once| && once[at] == Jump(None)
            && once[at := Jump(Some(end))] == a + (CompBlock(catch, |a|, EndCatchBlock, end, None, None) + q)
  {
    hide CompSs, CompS, CompE, LenS, LenSs, LastHole, CompBlock, RawBlock, FinallyCode, OwnJumpAny;
    RawLen(catch, |a|, EndCatchBlock);
    BlockPatched(a, catch, EndCatchBlock, end, q);
    CatchHole(a, catch, fin, at, q);
  }

  lemma CatchHole(a: seq<Instr>, catch: seq<Stmt>, fin: Branch, at: nat, q: seq<Instr>)
    requires fin.Block? ==> !OwnJumpAny(fin.body)
    requires at == |a| + LenSs(catch) + 1 && q == FinallyCode(fin, at + 1)
    ensures LastHole(a + (RawBlock(catch, |a|, EndCatchBlock) + q)) == at
  {
    hide CompSs, CompS, CompE, LenS, LenSs, LastHole, FinallyCode, OwnJumpAny;
    var c := CompSs(catch, |a|, None, None);
    HoleFound(a, c, fin, a + c + [EndCatchBlock], q);
  }

  lemma PushPatched(a: seq<Instr>, push0: Instr, push: Instr, rest: seq<Instr>)
    ensures ((a + [push0]) + rest)[|a|] == push0
    ensures ((a + [push0]) + rest)[|a| := push] == a + ([push] + rest)
  {
  }

  lemma TryParts(body: seq<Stmt>, name: Option<Ident>, catch: Branch, fin: Branch, base: nat)
    ensures var catchAt := base + LenSs(body) + 3;
            var finAt := catchAt + LenCatch(catch);
            var end := finAt + LenFinally(fin);
            var push := PushTry(if catch.Block? then Some(catchAt) else None, if fin.Block? then Some(finAt) else None,
                                name);
            CompS(Try(body, name, catch, fin), base, None, None)
            == [push] + (CompBlock(body, base + 1, EndTryBlock, end, None, None)
                         + (DoneCatch(catch, catchAt, end)
                            + FinallyCode(fin, finAt)))
  {
    hide CompSs, LenSs, CompBlock, CompFinally;
  }

  lemma RawLen(body: seq<Stmt>, base: nat, i: Instr)
    ensures |RawBlock(body, base, i)| == LenSs(body) + 2
  {
  }

  lemma GuardedIs(st: State, body: seq<Stmt>, i: Instr)
    ensures var (b, c') := NumberAll(body, st.counters);
            Guarded(st, body, i) == State(st.code + RawBlock(b, |st.code|, i),
                                          AddJumps(st.loops, HolesAll(b, |st.code|)), c',
                                          st.functions + Table(FnsAll(b)))
  {
    hide CompSs, LenSs, HolesAll, NumberAll, FnsAll, Table, AddJumps;
    var b := NumberAll(body, st.counters).0;
    assert st.code + CompSs(b, |st.code|, None, None) + [i] + [Jump(None)]
        == st.code + (CompSs(b, |st.code|, None, None) + [i] + [Jump(None)]);
  }

  lemma CatchIs(st: State, catch: Branch)
    ensures var (k, c') := NumberBranch(catch, st.counters);
            (if catch.Block? then Guarded(st, catch.body, EndCatchBlock) else st)
            == State(st.code + RawCatch(k, |st.code|), AddJumps(st.loops, HolesBranch(k, |st.code|)), c',
                     st.functions + Table(FnsBranch(k)))
  {
    hide RawBlock, Guarded, HolesAll, NumberAll, FnsAll, AddJumps;
    if catch.Block? { GuardedIs(st, catch.body, EndCatchBlock); } else { Unchanged(st); }
  }

  lemma FinallyIs(st: State, fin: Branch)
    ensures var (q, c') := NumberBranch(fin, st.counters);
            (if fin.Block? then Finally(st, fin.body) else st)
            == State(st.code + FinallyCode(q, |st.code|), AddJumps(st.loops, HolesBranch(q, |st.code| + 1)), c',
                     st.functions + Table(FnsBranch(q)))
  {
    hide CompSs, LenSs, HolesAll, NumberAll, FnsAll, AddJumps, Table;
    if fin.Block? {
      var q := CompSs(NumberAll(fin.body, st.counters).0, |st.code| + 1, None, None);
      assert st.code + [BeginFinally] + q + [EndFinally] == st.code + ([BeginFinally] + (q + [EndFinally]));
    } else {
      Unchanged(st);
    }
  }

  lemma Unchanged(st: State)
    ensures State(st.code + [], AddJumps(st.loops, NONE), st.counters, st.functions + Table(map[])) == st
  {
    hide AddJumps;
    AddNone(st.loops);
    assert Table(map[]) == map[] && st.functions + map[] == st.functions && st.code + [] == st.code;
  }

  /** The state before the patches of a `tente`, spelled out. */
  lemma RawTryIs(st: State, body: seq<Stmt>, name: Option<Ident>, catch: Branch, fin: Branch)
    ensures var base := |st.code|;
            var (b, c1) := NumberAll(body, st.counters);
            var (k, c2) := NumberBranch(catch, c1);
            var (q, c3) := NumberBranch(fin, c2);
            var catchAt := base + LenSs(b) + 3;
            var finAt := catchAt + LenCatch(k);
            var st1 := Guarded(Emitted(st, PushTry(None, None, name)), body, EndTryBlock);
            var st2 := if catch.Block? then Guarded(st1, catch.body, EndCatchBlock) else st1;
            && |st1.code| == catchAt && |st2.code| == finAt
            && RawTry(st, body, name, catch, fin) ==
               State((st.code + [PushTry(None, None, name)])
                     + (RawBlock(b, base + 1, EndTryBlock) + (RawCatch(k, catchAt) + FinallyCode(q, finAt))),
                     AddJumps(st.loops, Holes(Try(b, name, k, q), base)), c3,
                     st.functions + Table(Fns(Try(b, name, k, q))))
  {
    hide CompSs, CompS, CompE, LenSs, LenS, HolesAll, HolesBranch, NumberAll, NumberBranch, FnsAll, FnsBranch, AddJumps,
      Table;
    hide Guarded, Finally, RawBlock, RawCatch, FinallyCode, LenCatch;
    var base := |st.code|;
    var (b, c1) := NumberAll(body, st.counters);
    var (k, c2) := NumberBranch(catch, c1);
    var (q, c3) := NumberBranch(fin, c2);
    var catchAt := base + LenSs(b) + 3;
    var finAt := catchAt + LenCatch(k);
    var st0 := Emitted(st, PushTry(None, None, name));
    var st1 := Guarded(st0, body, EndTryBlock);
    var st2 := if catch.Block? then Guarded(st1, catch.body, EndCatchBlock) else st1;
    TryLengths(b, k, q, base);
    GuardedIs(st0, body, EndTryBlock);
    CatchIs(st1, catch);
    FinallyIs(st2, fin);
    JoinThree(st0.code, RawBlock(b, base + 1, EndTryBlock), RawCatch(k, catchAt), FinallyCode(q, finAt));
    AddTwice(st.loops, HolesAll(b, base + 1), HolesBranch(k, catchAt));
    AddTwice(st.loops, Join(HolesAll(b, base + 1), HolesBranch(k, catchAt)), HolesBranch(q, finAt + 1));
    TablesJoin(st.functions, FnsAll(b), FnsBranch(k), FnsBranch(q));
    TryHolesAndFns(b, name, k, q, base);
  }

  lemma JoinThree(front: seq<Instr>, b: seq<Instr>, k: seq<Instr>, q: seq<Instr>)
    ensures ((front + b) + k) + q == front + (b + (k + q))
  {
  }

  lemma TablesJoin(fs: map<nat, FnCode>, a: map<nat, Semantics.FnDecl>, b: map<nat, Semantics.FnDecl>,
                   c: map<nat, Semantics.FnDecl>)
    ensures fs + Table(a) + Table(b) + Table(c) == fs + Table(a + b + c)
  {
    TableJoin(a, b);
    TableJoin(a + b, c);
    hide Table;
    assert fs + Table(a) + Table(b) == fs + (Table(a) + Table(b));
    assert (fs + Table(a + b)) + Table(c) == fs + (Table(a + b) + Table(c));
  }

  lemma TryHolesAndFns(body: seq<Stmt>, name: Option<Ident>, catch: Branch, fin: Branch, base: nat)
    ensures var s := Try(body, name, catch, fin);
            var catchAt := base + LenSs(body) + 3;
            var finAt := catchAt + LenCatch(catch);
            && Holes(s, base) == Join(Join(HolesAll(body, base + 1), HolesBranch(catch, catchAt)),
                                      HolesBranch(fin, finAt + 1))
            && Fns(s) == FnsAll(body) + FnsBranch(catch) + FnsBranch(fin)
  {
    hide LenSs, LenS, HolesAll, HolesBranch, FnsAll, FnsBranch;
  }

  /** Numbering does not touch loop jumps. */
  lemma {:induction false} KeepsJumps(b: Branch, c: Counters)
    ensures b.Block? <==> NumberBranch(b, c).0.Block?
    ensures b.Block? ==> OwnJumpAny(NumberBranch(b, c).0.body) == OwnJumpAny(b.body)
    decreases b, 0
  {
    if b.Block? { KeepsJumpsAll(b.body, c); }
  }

  lemma {:induction false} KeepsJumpsAll(ss: seq<Stmt>, c: Counters)
    ensures OwnJumpAny(NumberAll(ss, c).0) == OwnJumpAny(ss)
    decreases ss, 0
  {
    if ss != [] {
      var (s, c1) := Number(ss[0], c);
      var (rest, c2) := NumberAll(ss[1..], c1);
      KeepsJumpsStmt(ss[0], c);
      KeepsJumpsAll(ss[1..], c1);
      assert ([s] + rest)[1..] == rest;
    }
  }

  lemma {:induction false} KeepsJumpsStmt(s: Stmt, c: Counters)
    ensures OwnJump(Number(s, c).0) == OwnJump(s)
    decreases s, 0
  {
    match s
    case If(_, thn, els) =>
      KeepsJumpsAll(thn, c);
      KeepsJumps(els, NumberAll(thn, c).1);
    case Try(body, _, catch, fin) =>
      var c1 := NumberAll(body, c).1;
      KeepsJumpsAll(body, c);
      KeepsJumps(catch, c1);
      KeepsJumps(fin, NumberBranch(catch, c1).1);
    case _ =>
  }

  lemma TryDone(st: State, body: seq<Stmt>, name: Option<Ident>, catch: Branch, fin: Branch)
    requires catch.Block? && fin.Block? ==> !OwnJumpAny(fin.body)
    ensures var raw := RawTry(st, body, name, catch, fin);
            var push := |st.code|;
            var st1 := Guarded(Emitted(st, PushTry(None, None, name)), body, EndTryBlock);
            var st2 := if catch.Block? then Guarded(st1, catch.body, EndCatchBlock) else st1;
            var catchIp := if catch.Block? then Some(|st1.code|) else None;
            var finIp := if fin.Block? then Some(|st2.code|) else None;
            && push < |raw.code| && |st1.code| - 1 < |raw.code|
            && After(st, Try(body, name, catch, fin))
               == raw.(code := TryPatched(raw.code, push, |st1.code| - 1, catch.Block?, catchIp, finIp, name))
  {
    hide CompSs, CompS, LenSs, NumberAll, FnsAll, Fns, Table, Holes, HolesAll, LastHole, AfterAll, RawTry, TryPatched,
      RawBlock, FinallyCode, RawCatch, Guarded, LenCatch, OwnJumpAny;
    var base := |st.code|;
    var (b, c1) := NumberAll(body, st.counters);
    var (k, c2) := NumberBranch(catch, c1);
    var (q, c3) := NumberBranch(fin, c2);
    KeepsJumps(fin, c2);
    RawTryIs(st, body, name, catch, fin);
    TryCode(st.code, b, name, k, q);
    assert Number(Try(body, name, catch, fin), st.counters) == (Try(b, name, k, q), c3);
  }

  /** What compiling its blocks does to the stages of a `tente`. */
  ghost predicate BlocksDone(s: Stages, body: seq<Stmt>, catch: Branch, fin: Branch) {
    && Did(s.m0, s.b1, ScanOkAll(body), OwnJumpAny(body))
    && Did(s.m1, s.b2, ScanOkBranch(catch), catch.Block? && OwnJumpAny(catch.body))
    && Did(s.m2, s.m3, ScanOkBranch(fin), fin.Block? && OwnJumpAny(fin.body))
    && (ScanOkAll(body) ==> s.m1 == Guarded(s.m0, body, EndTryBlock))
    && (if catch.Block? then ScanOkAll(catch.body)
                             ==> s.m2 == Guarded(s.m1, catch.body, EndCatchBlock) else s.m2 == s.m1)
    && (if fin.Block? then ScanOkAll(fin.body) ==> s.m3 == Finally(s.m2, fin.body) else s.m3 == s.m2)
  }

  lemma PartsDid(s: Stages, body: seq<Stmt>, catch: Branch, fin: Branch)
    requires BlocksDone(s, body, catch, fin)
    ensures Did(s.m0, s.b1, ScanOkAll(body), OwnJumpAny(body))
    ensures Did(s.m1, s.b2, ScanOkBranch(catch), catch.Block? && OwnJumpAny(catch.body))
    ensures Did(s.m2, s.m3, ScanOkBranch(fin), fin.Block? && OwnJumpAny(fin.body))
  {
    hide Did, OwnJumpAny, ScanOkAll;
  }

  /** The stages of a `tente` whose scan is good, and what they end with. */
  lemma TryFinish(s: Stages, body: seq<Stmt>, name: Option<Ident>, catch: Branch, fin: Branch)
    requires ScanOk(Try(body, name, catch, fin)) && BlocksDone(s, body, catch, fin)
             && s.m0 == Emitted(s.a, PushTry(None, None, name))
    ensures |s.a.code| < |s.m3.code| && 0 < |s.m1.code| <= |s.m3.code|
    ensures After(s.a, Try(body, name, catch, fin))
         == s.m3.(code := TryPatched(s.m3.code, |s.a.code|, |s.m1.code| - 1, catch.Block?,
                                     if catch.Block? then Some(|s.m1.code|) else None,
                                     if fin.Block? then Some(|s.m2.code|) else None, name))
  {
    hide After, TryPatched, AfterAll, OwnJumpAny, Did, Guarded, Finally, ScanOkAll;
    TryDone(s.a, body, name, catch, fin);
    RawTryStages(s.a, body, name, catch, fin);
  }

  lemma RawTryStages(a: State, body: seq<Stmt>, name: Option<Ident>, catch: Branch, fin: Branch)
    ensures var st1 := Guarded(Emitted(a, PushTry(None, None, name)), body, EndTryBlock);
            var st2 := if catch.Block? then Guarded(st1, catch.body, EndCatchBlock) else st1;
            && RawTry(a, body, name, catch, fin) == (if fin.Block? then Finally(st2, fin.body) else st2)
            && |a.code| < |st1.code| <= |st2.code| <= |RawTry(a, body, name, catch, fin).code|
  {
    hide AfterAll;
    var st0 := Emitted(a, PushTry(None, None, name));
    var st1 := Guarded(st0, body, EndTryBlock);
    Longer(st0, body);
    if catch.Block? { Longer(st1, catch.body); }
    var st2 := if catch.Block? then Guarded(st1, catch.body, EndCatchBlock) else st1;
    if fin.Block? { Longer(Emitted(st2, BeginFinally), fin.body); }
  }

  /** Statements without a block. */
  lemma Simple(st: State, s: Stmt)
    requires s.Assign? || s.ExprStmt? || s.Throw? || s.Return? || ((s.Break? || s.Continue?) && st.loops != [])
    ensures var at := |st.code|;
            var k := |st.loops| - 1;
            var r := After(st, s);
            && (s.Assign? ==> r == st.(code := st.code + CompE(s.e) + [StoreName(s.x)]))
            && (s.ExprStmt? ==> r == st.(code := st.code + CompE(s.e) + [PopTop]))
            && (s.Throw? ==> r == st.(code := st.code + CompE(s.e) + [ThrowTop]))
            && (s.Return? ==>
                  r == st.(code := st.code + (if s.result.Some? then CompE(s.result.value) else [LoadConst(VNull)])
                  + [ReturnValue]))
            && (s.Break? ==>
                  r == st.(code := st.code + [Jump(None)],
                  loops := st.loops[k := st.loops[k].(breakJumps := st.loops[k].breakJumps + [at])]))
            && (s.Continue? ==>
                  r == st.(code := st.code + [Jump(None)],
                  loops := st.loops[k := st.loops[k].(continueJumps := st.loops[k].continueJumps + [at])]))
  {
    hide CompE;
    AddNone(st.loops);
    assert Table(map[]) == map[] && st.functions + map[] == st.functions;
    match s
    case Break => assert st.loops[|st.loops| - 1].continueJumps + [] == st.loops[|st.loops| - 1].continueJumps;
    case Continue => assert st.loops[|st.loops| - 1].breakJumps + [] == st.loops[|st.loops| - 1].breakJumps;
    case _ =>
  }

  /** The code of each kind of expression, piece by piece. */
  lemma ExprCode(e: Expr)
    ensures match e
            case Lit(v) => CompE(e) == [LoadConst(v)]
            case Name(x) => CompE(e) == [LoadName(x)]
            case Neg(a) => CompE(e) == CompE(a) + [Instr.Negate]
            case Await(a) => CompE(e) == CompE(a) + [AwaitTop]
            case Bin(op, a, b) => CompE(e) == CompE(a) + CompE(b) + [Binary(op)]
            case Cmp(op, a, b) => CompE(e) == CompE(a) + CompE(b) + [CompareOp(op)]
            case Call(f, args) => CompE(e) == CompE(f) + CompEs(args) + [CallFn(|args|)]
            case Index(a, b) => CompE(e) == CompE(a) + CompE(b) + [BinarySubscr]
            case ListLit(es) => CompE(e) == CompEs(es) + [BuildList(|es|)]
            case MapLit(entries) => CompE(e) == CompEs(Flatten(entries)) + [BuildMap(|entries|)]
  {
    match e
    case Neg(a) => CompEsOne(a);
    case Await(a) => CompEsOne(a);
    case Bin(_, a, b) => CompPair(a, b);
    case Cmp(_, a, b) => CompPair(a, b);
    case Index(a, b) => CompPair(a, b);
    case Call(f, args) =>
      CompEsJoin([f], args);
      CompEsOne(f);
    case _ =>
  }

  lemma AddNone(loops: seq<LoopPatch>)
    ensures AddJumps(loops, NONE) == loops
  {
    if loops != [] {
      var k := |loops| - 1;
      assert loops[k].breakJumps + [] == loops[k].breakJumps && loops[k].continueJumps + [] == loops[k].continueJumps;
    }
  }

  lemma AtStart(st: State, ss: seq<Stmt>)
    ensures ss[0..] == ss && AfterAll(st, ss[..0]) == st
  {
    AddNone(st.loops);
    assert ss[..0] == [] && Table(map[]) == map[];
    assert st.code + [] == st.code && st.functions + map[] == st.functions;
  }

  lemma AtEnd(ss: seq<Stmt>, inLoop: bool)
    ensures ss[..|ss|] == ss && LoopsOkAll(ss[|ss|..], inLoop) && ScanOkAll(ss[|ss|..]) && !OwnJumpAny(ss[|ss|..])
  {
  }

  lemma Split(ss: seq<Stmt>, k: nat, inLoop: bool)
    requires k < |ss|
    ensures LoopsOkAll(ss[k..], inLoop) <==> LoopsOk(ss[k], inLoop) && LoopsOkAll(ss[k + 1..], inLoop)
    ensures ScanOkAll(ss[k..]) <==> ScanOk(ss[k]) && ScanOkAll(ss[k + 1..])
    ensures OwnJumpAny(ss[k..]) <==> OwnJump(ss[k]) || OwnJumpAny(ss[k + 1..])
    ensures SizeS(ss[k]) < SizeSs(ss)
  {
    assert ss[k..][1..] == ss[k + 1..];
    StmtSizeAt(ss, k);
  }

  lemma {:induction false} StmtSizeAt(ss: seq<Stmt>, k: nat)
    requires k < |ss|
    ensures SizeS(ss[k]) < SizeSs(ss)
  {
    if k > 0 { StmtSizeAt(ss[1..], k - 1); }
  }

  lemma AtNext(st: State, ss: seq<Stmt>, k: nat)
    requires k < |ss|
    ensures AfterAll(st, ss[..k + 1]) == After(AfterAll(st, ss[..k]), ss[k])
  {
    hide CompSs, CompS, CompE, LenSs, LenS, HolesAll, Holes, FnsAll, Fns, Number, NumberAll, Table, AddJumps, Join;
    var n := NumberAll(ss, st.counters).0;
    PrefixNumbers(ss, st.counters, k);
    PrefixNumbers(ss, st.counters, k + 1);
    NumberedAt(ss, st.counters, k);
    SnocCode(n, k, |st.code|);
    SnocHoles(n, k, |st.code|);
    SnocFns(n, k);
    TableJoin(FnsAll(n[..k]), Fns(n[k]));
    AddTwice(st.loops, HolesAll(n[..k], |st.code|), Holes(n[k], |st.code| + LenSs(n[..k])));
    assert st.functions + Table(FnsAll(n[..k])) + Table(Fns(n[k]))
        == st.functions + (Table(FnsAll(n[..k])) + Table(Fns(n[k])));
  }

  lemma AddTwice(loops: seq<LoopPatch>, a: Jumps, b: Jumps)
    ensures AddJumps(AddJumps(loops, a), b) == AddJumps(loops, Join(a, b))
  {
    if loops != [] {
      var k := |loops| - 1;
      assert loops[k].breakJumps + a.breaks + b.breaks == loops[k].breakJumps + (a.breaks + b.breaks);
      assert loops[k].continueJumps + a.conts + b.conts == loops[k].continueJumps + (a.conts + b.conts);
    }
  }

  lemma {:induction false} PrefixNumbers(ss: seq<Stmt>, c: Counters, k: nat)
    requires k <= |ss|
    ensures NumberAll(ss[..k], c).0 == NumberAll(ss, c).0[..k]
    decreases k
  {
    if k > 0 {
      assert ss[..k][1..] == ss[1..][..k - 1];
      PrefixNumbers(ss[1..], Number(ss[0], c).1, k - 1);
    }
  }
}
