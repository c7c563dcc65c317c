/** The structural part of semantic validation: where `retorne`, `pare` and `continue`
    may stand. What it accepts is what the compiler can compile. */
module Validation {
  import opened Syntax
  import opened Bytecode
  import opened Lowering
  import Compiler
  import Strays
  import Programs

  datatype Problem = ReturnOutside | BreakOutside | ContinueOutside

  datatype Scope = Scope(inFunction: bool, loopDepth: nat)

  /** Every `retorne` stands in a function. */
  predicate ReturnsOk(s: Stmt, inFunction: bool)
    decreases s, 0
  {
    match s
    case Func(_, _, _, body) => ReturnsOkAll(body, true)
    case If(_, t, els) => ReturnsOkAll(t, inFunction) && ReturnsOkBranch(els, inFunction)
    case While(_, body) => ReturnsOkAll(body, inFunction)
    case For(_, _, _, body) => ReturnsOkAll(body, inFunction)
    case Try(body, _, catch, fin) =>
      ReturnsOkAll(body, inFunction) && ReturnsOkBranch(catch, inFunction) && ReturnsOkBranch(fin, inFunction)
    case Return(_) => inFunction
    case _ => true
  }

  predicate ReturnsOkBranch(b: Branch, inFunction: bool)
    decreases b, 0
  {
    b.Block? ==> ReturnsOkAll(b.body, inFunction)
  }

  predicate ReturnsOkAll(ss: seq<Stmt>, inFunction: bool)
    decreases ss, 0
  {
    ss != [] ==> ReturnsOk(ss[0], inFunction) && ReturnsOkAll(ss[1..], inFunction)
  }

  predicate Fine(s: Stmt, c: Scope) {
    LoopsOk(s, c.loopDepth > 0) && ReturnsOk(s, c.inFunction)
  }

  predicate FineAll(ss: seq<Stmt>, c: Scope) {
    LoopsOkAll(ss, c.loopDepth > 0) && ReturnsOkAll(ss, c.inFunction)
  }

  /** Somewhere in the statement this problem is found. */
  predicate Has(s: Stmt, c: Scope, p: Problem)
    decreases s, 0
  {
    match s
    case Func(_, _, _, body) => HasAny(body, Scope(true, 0), p)
    case If(_, t, els) => HasAny(t, c, p) || (els.Block? && HasAny(els.body, c, p))
    case While(_, body) => HasAny(body, c.(loopDepth := c.loopDepth + 1), p)
    case For(_, _, _, body) => HasAny(body, c.(loopDepth := c.loopDepth + 1), p)
    case Try(body, _, catch, fin) =>
      HasAny(body, c, p) || (catch.Block? && HasAny(catch.body, c, p)) || (fin.Block? && HasAny(fin.body, c, p))
    case Return(_) => p.ReturnOutside? && !c.inFunction
    case Break => p.BreakOutside? && c.loopDepth == 0
    case Continue => p.ContinueOutside? && c.loopDepth == 0
    case _ => false
  }

  predicate HasAny(ss: seq<Stmt>, c: Scope, p: Problem)
    decreases ss, 0
  {
    ss != [] && (Has(ss[0], c, p) || HasAny(ss[1..], c, p))
  }

  /** What has none of the problems is fine. */
  lemma {:induction false} FineHasNone(s: Stmt, c: Scope)
    ensures LoopsOk(s, c.loopDepth > 0) <==> !Has(s, c, BreakOutside) && !Has(s, c, ContinueOutside)
    ensures ReturnsOk(s, c.inFunction) <==> !Has(s, c, ReturnOutside)
    decreases s, 0
  {
    hide HasAny, LoopsOkAll, ReturnsOkAll;
    match s
    case Func(_, _, _, body) => FineHasNoneAll(body, Scope(true, 0));
    case If(_, t, els) =>
      FineHasNoneAll(t, c);
      if els.Block? { FineHasNoneAll(els.body, c); }
    case While(_, body) => FineHasNoneAll(body, c.(loopDepth := c.loopDepth + 1));
    case For(_, _, _, body) => FineHasNoneAll(body, c.(loopDepth := c.loopDepth + 1));
    case Try(body, _, catch, fin) =>
      FineHasNoneAll(body, c);
      if catch.Block? { FineHasNoneAll(catch.body, c); }
      if fin.Block? { FineHasNoneAll(fin.body, c); }
    case _ =>
  }

  lemma {:induction false} FineHasNoneAll(ss: seq<Stmt>, c: Scope)
    ensures LoopsOkAll(ss, c.loopDepth > 0) <==> !HasAny(ss, c, BreakOutside) && !HasAny(ss, c, ContinueOutside)
    ensures ReturnsOkAll(ss, c.inFunction) <==> !HasAny(ss, c, ReturnOutside)
    decreases ss, 0
  {
    if ss != [] {
      FineHasNone(ss[0], c);
      FineHasNoneAll(ss[1..], c);
      hide Has, LoopsOk, ReturnsOk;
    }
  }

  lemma HasSplit(ss: seq<Stmt>, k: nat, c: Scope, p: Problem)
    requires k < |ss|
    ensures HasAny(ss[k..], c, p) <==> Has(ss[k], c, p) || HasAny(ss[k + 1..], c, p)
  {
    hide Has;
    assert ss[k..][1..] == ss[k + 1..];
  }

  lemma FineSplit(ss: seq<Stmt>, k: nat, c: Scope)
    requires k < |ss|
    ensures FineAll(ss[k..], c) <==> Fine(ss[k], c) && FineAll(ss[k + 1..], c)
    ensures SizeS(ss[k]) < SizeSs(ss)
  {
    assert ss[k..][1..] == ss[k + 1..];
    Compiler.StmtSizeAt(ss, k);
  }

  /** The first problem of a statement, if there is one. */
  method ValidateStmt(s: Stmt, c: Scope) returns (r: Option<Problem>)
    ensures r.None? <==> Fine(s, c)
    ensures r.Some? ==> Has(s, c, r.value)
    decreases SizeS(s), 0
  {
    hide LoopsOkAll, ReturnsOkAll, HasAny;
    match s {
      case Func(_, _, _, body) => r := ValidateAll(body, Scope(true, 0));
      case If(_, thn, els) =>
        assert ReturnsOkBranch(els, c.inFunction) <==> (els.Block? ==> ReturnsOkAll(els.body, c.inFunction));
        r := ValidateAll(thn, c);
        if r.None? && els.Block? { r := ValidateAll(els.body, c); }
      case While(_, body) => r := ValidateAll(body, c.(loopDepth := c.loopDepth + 1));
      case For(_, _, _, body) => r := ValidateAll(body, c.(loopDepth := c.loopDepth + 1));
      case Try(body, _, catch, fin) =>
        assert ReturnsOkBranch(catch, c.inFunction) <==> (catch.Block? ==> ReturnsOkAll(catch.body, c.inFunction));
        assert ReturnsOkBranch(fin, c.inFunction) <==> (fin.Block? ==> ReturnsOkAll(fin.body, c.inFunction));
        r := ValidateAll(body, c);
        if r.None? && catch.Block? { r := ValidateAll(catch.body, c); }
        if r.None? && fin.Block? { r := ValidateAll(fin.body, c); }
      case Return(_) => r := if c.inFunction then None else Some(ReturnOutside);
      case Break => r := if c.loopDepth == 0 then Some(BreakOutside) else None;
      case Continue => r := if c.loopDepth == 0 then Some(ContinueOutside) else None;
      case _ => r := None;
    }
  }

  method ValidateAll(ss: seq<Stmt>, c: Scope) returns (r: Option<Problem>)
    ensures r.None? <==> FineAll(ss, c)
    ensures r.Some? ==> HasAny(ss, c, r.value)
    decreases SizeSs(ss), 1
  {
    hide FineAll, HasAny, Has;
    assert ss[0..] == ss;
    for k := 0 to |ss|
      invariant FineAll(ss, c) <==> FineAll(ss[k..], c)
      invariant forall p :: HasAny(ss[k..], c, p) ==> HasAny(ss, c, p)
    {
      FineSplit(ss, k, c);
      forall p ensures HasAny(ss[k..], c, p) <==> Has(ss[k], c, p) || HasAny(ss[k + 1..], c, p) {
        HasSplit(ss, k, c, p);
      }
      r := ValidateStmt(ss[k], c);
      if r.Some? { return; }
    }
    assert ss[|ss|..] == [];
    FineNone(c);
    r := None;
  }

  lemma FineNone(c: Scope)
    ensures FineAll([], c)
  {
  }

  datatype Compiled = Program(entry: FnCode, functions: map<nat, FnCode>) | Rejected(problem: Problem) | CompilerFailed

  /** No jump in the code of the program or of its functions is a hole, and every address lies inside. */
  predicate AllPatched(entry: FnCode, functions: map<nat, FnCode>) {
    TargetsOk(entry.code, |entry.code|)
    && forall id :: id in functions ==> TargetsOk(functions[id].code, |functions[id].code|)
  }

  lemma HolesShow(entry: FnCode, functions: map<nat, FnCode>)
    requires HasHole(entry.code) || Strays.FnHole(functions)
    ensures !AllPatched(entry, functions)
  {
    if k :| 0 <= k < |entry.code| && entry.code[k] == Jump(None) {
      assert !TargetOk(entry.code[k], |entry.code|);
    } else {
      var id: nat, p: nat :| id in functions && Strays.Hole(functions[id].code, p);
      assert !TargetOk(functions[id].code[p], |functions[id].code|);
    }
  }

  /** Validates and compiles: what validation accepts the compiler never refuses. Everything is
      patched exactly when no loop jump stands in a `finalmente` beside a `pegue`, and the
      result is then the code of the numbered program. */
  method CompileSource(program: seq<Stmt>) returns (r: Compiled)
    ensures !r.CompilerFailed?
    ensures r.Program? <==> FineAll(program, Scope(false, 0))
    ensures r.Rejected? ==> HasAny(program, Scope(false, 0), r.problem)
    ensures r.Program? && Compiler.ScanOkAll(program) ==>
              r == Program(CompEntry(Numbered(program)), Table(FnsAll(Numbered(program))))
    ensures r.Program? ==> (AllPatched(r.entry, r.functions) <==> Compiler.ScanOkAll(program))
  {
    hide Compiler.ScanOkAll, LoopsOkAll, ReturnsOkAll, Numbered, FnsAll, Table, CompSs, HasHole, Strays.FnHole,
      TargetsOk;
    var problem := ValidateAll(program, Scope(false, 0));
    if problem.Some? { return Rejected(problem.value); }
    var compiler := new Compiler.ProgramCompiler();
    var ok, entry := compiler.Compile(program);
    r := if ok then Program(entry, compiler.functions) else CompilerFailed;
    if Compiler.ScanOkAll(program) { Programs.NoHoleLeft(program); } else { HolesShow(entry, compiler.functions); }
  }
}
