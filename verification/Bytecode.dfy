/** The instruction set, and the code of every construct as a function of its position. */
module Bytecode {
  import opened Syntax

  datatype Instr =
    | LoadConst(v: Value)
    | LoadName(x: Ident)
    | StoreName(x: Ident)
    | PopTop
    | Negate
    | AwaitTop
    | Binary(bop: BinOp)
    | CompareOp(cop: CmpOp)
    | BinarySubscr
    | BuildList(count: nat)
    | BuildMap(count: nat)
    | MakeFunction(x: Ident, code: nat)
    | CallFn(argc: nat)
    | ThrowTop
    | PushTry(catchIp: Option<nat>, finIp: Option<nat>, catchName: Option<Ident>)
    | EndTryBlock
    | EndCatchBlock
    | BeginFinally
    | EndFinally
    | Jump(target: Option<nat>)  // None is a hole still to be patched
    | JumpIfFalse(target: Option<nat>)
    | ReturnValue
    | Halt

  datatype FnCode = FnCode(params: seq<Ident>, code: seq<Instr>)

  /** The instruction an expression ends with. */
  function OpOf(e: Expr): Instr {
    match e
    case Lit(v) => LoadConst(v)
    case Name(x) => LoadName(x)
    case Neg(_) => Negate
    case Await(_) => AwaitTop
    case Bin(op, _, _) => Binary(op)
    case Cmp(op, _, _) => CompareOp(op)
    case Call(_, args) => CallFn(|args|)
    case Index(_, _) => BinarySubscr
    case ListLit(es) => BuildList(|es|)
    case MapLit(entries) => BuildMap(|entries|)
  }

  function CompE(e: Expr): (code: seq<Instr>)
    ensures |code| > 0
    decreases SizeE(e)
  {
    CompEs(Parts(e)) + [OpOf(e)]
  }

  function CompEs(es: seq<Expr>): seq<Instr>
    decreases SizeEs(es)
  {
    if es == [] then [] else CompE(es[0]) + CompEs(es[1..])
  }

  /** The length of a statement's code, wherever it is placed. */
  function LenS(s: Stmt): nat {
    match s
    case Func(_, _, _, _) => 2
    case Assign(_, e) => |CompE(e)| + 1
    case ExprStmt(e) => |CompE(e)| + 1
    case Return(r) => (if r.Some? then |CompE(r.value)| else 1) + 1
    case Throw(e) => |CompE(e)| + 1
    case If(c, t, els) => |CompE(c)| + 1 + LenSs(t) + LenElse(els)
    case While(c, body) => |CompE(c)| + LenSs(body) + 2
    case For(id, x, it, body) =>
      |CompE(it)| + 3 + |CompE(ForCond(id))| + LenSs(body) + 2
      + |CompE(ForHead(id, x).e)| + 1 + |CompE(ForStep(id).e)| + 1
    case Try(body, _, catch, fin) =>
      LenSs(body) + 3 + (if catch.Block? then LenSs(catch.body) + 2 else 0)
      + (if fin.Block? then LenSs(fin.body) + 2 else 0)
    case Break => 1
    case Continue => 1
  }

  function LenElse(els: Branch): nat {
    if els.Block? then 1 + LenSs(els.body) else 0
  }

  function LenSs(ss: seq<Stmt>): nat {
    if ss == [] then 0 else LenS(ss[0]) + LenSs(ss[1..])
  }

  /** The code of a statement that starts at `base`, where `pare` jumps to
      `brk` and `continue` to `cnt` (a hole when there is no target yet). */
  function CompS(s: Stmt, base: nat, brk: Option<nat>, cnt: Option<nat>): (code: seq<Instr>)
    ensures |code| == LenS(s)
    decreases SizeS(s), 0
  {
    match s
    case Func(id, name, _, _) => [MakeFunction(name, id), StoreName(name)]
    case Assign(x, e) => CompE(e) + [StoreName(x)]
    case ExprStmt(e) => CompE(e) + [PopTop]
    case Return(r) => (if r.Some? then CompE(r.value) else [LoadConst(VNull)]) + [ReturnValue]
    case Throw(e) => CompE(e) + [ThrowTop]
    case If(c, thn, els) =>
      var at := base + |CompE(c)| + 1;
      var elseAt := at + LenSs(thn);
      CompE(c) + ([JumpIfFalse(Some(elseAt + (if els.Block? then 1 else 0)))]
                  + (CompSs(thn, at, brk, cnt) + CompElse(els, elseAt, brk, cnt)))
    case While(c, body) => CompLoop(c, [], body, [], base)
    case For(id, x, it, body) =>
      ForLens(id, x);
      CompForInit(id, it) + CompLoop(ForCond(id), [ForHead(id, x)], body, [ForStep(id)], base + |CompE(it)| + 3)
    case Try(body, name, catch, fin) =>
      var afterTry := base + LenSs(body) + 3;
      var afterCatch := afterTry + (if catch.Block? then LenSs(catch.body) + 2 else 0);
      var end := base + LenS(s);
      [PushTry(if catch.Block? then Some(afterTry) else None, if fin.Block? then Some(afterCatch) else None, name)]
      + (CompBlock(body, base + 1, EndTryBlock, end, brk, cnt)
         + ((if catch.Block? then CompBlock(catch.body, afterTry, EndCatchBlock, end, brk, cnt) else [])
            + (if fin.Block? then CompFinally(fin.body, afterCatch, brk, cnt) else [])))
    case Break => [Jump(brk)]
    case Continue => [Jump(cnt)]
  }

  function CompSs(ss: seq<Stmt>, base: nat, brk: Option<nat>, cnt: Option<nat>): (code: seq<Instr>)
    ensures |code| == LenSs(ss)
    decreases SizeSs(ss), 0
  {
    if ss == [] then [] else CompS(ss[0], base, brk, cnt) + CompSs(ss[1..], base + LenS(ss[0]), brk, cnt)
  }

  /** The jump over `senao` and its block, if there is one. */
  function CompElse(els: Branch, base: nat, brk: Option<nat>, cnt: Option<nat>): (code: seq<Instr>)
    ensures |code| == LenElse(els)
    decreases (if els.Block? then SizeSs(els.body) else 0), 1
  {
    if els.Block? then [Jump(Some(base + LenElse(els)))] + CompSs(els.body, base + 1, brk, cnt) else []
  }

  /** The block of a `tente` or `pegue`, its end marker and the jump past the statement. */
  function CompBlock(body: seq<Stmt>, base: nat, i: Instr, end: nat, brk: Option<nat>,
                     cnt: Option<nat>): (code: seq<Instr>)
    ensures |code| == LenSs(body) + 2
    decreases SizeSs(body), 1
  {
    CompSs(body, base, brk, cnt) + [i, Jump(Some(end))]
  }

  function CompFinally(fin: seq<Stmt>, base: nat, brk: Option<nat>, cnt: Option<nat>): (code: seq<Instr>)
    ensures |code| == LenSs(fin) + 2
    decreases SizeSs(fin), 1
  {
    [BeginFinally] + (CompSs(fin, base + 1, brk, cnt) + [EndFinally])
  }

  /** `L: cond; JUMP_IF_FALSE exit; pre; body; post; JUMP L; exit:` */
  function CompLoop(cond: Expr, pre: seq<Stmt>, body: seq<Stmt>, post: seq<Stmt>, base: nat): (code: seq<Instr>)
    ensures |code| == LenLoop(cond, pre, body, post)
    decreases 1 + SizeE(cond) + SizeSs(pre) + SizeSs(body) + SizeSs(post), 0
  {
    var exit := base + LenLoop(cond, pre, body, post);
    var at := base + |CompE(cond)| + 1;
    CompE(cond) + ([JumpIfFalse(Some(exit))] + (CompSs(pre, at, None, None)
                                                + (CompSs(body, at + LenSs(pre), Some(exit), Some(base))
                                                   + (CompSs(post, at + LenSs(pre) + LenSs(body), None, None)
                                                      + [Jump(Some(base))]))))
  }

  function LenLoop(cond: Expr, pre: seq<Stmt>, body: seq<Stmt>, post: seq<Stmt>): nat {
    |CompE(cond)| + LenSs(pre) + LenSs(body) + LenSs(post) + 2
  }

  /** Stores the iterable and a zero index in the loop's hidden variables. */
  function CompForInit(id: nat, it: Expr): seq<Instr> {
    CompE(it) + [StoreName(ForIter(id)), LoadConst(VInt(0)), StoreName(ForIdx(id))]
  }

  function CompFn(params: seq<Ident>, body: seq<Stmt>): FnCode {
    FnCode(params, CompSs(body, 0, None, None) + [LoadConst(VNull), ReturnValue])
  }

  function CompEntry(program: seq<Stmt>): FnCode {
    FnCode([], CompSs(program, 0, None, None) + [Halt])
  }

  /** The code of a `tente`, piece by piece. */
  lemma TryPieces(body: seq<Stmt>, name: Option<Ident>, catch: Branch, fin: Branch, base: nat, brk: Option<nat>,
                  cnt: Option<nat>)
    ensures var catchAt := base + LenSs(body) + 3;
            var finAt := catchAt + (if catch.Block? then LenSs(catch.body) + 2 else 0);
            var end := finAt + (if fin.Block? then LenSs(fin.body) + 2 else 0);
            && LenS(Try(body, name, catch, fin)) == end - base
            && CompS(Try(body, name, catch, fin), base, brk, cnt)
               == [PushTry(if catch.Block? then Some(catchAt) else None, if fin.Block? then Some(finAt) else None,
                           name)]
                  + (CompBlock(body, base + 1, EndTryBlock, end, brk, cnt)
                     + ((if catch.Block? then CompBlock(catch.body, catchAt, EndCatchBlock, end, brk, cnt) else [])
                        + (if fin.Block? then CompFinally(fin.body, finAt, brk, cnt) else [])))
  {
    hide CompSs, LenSs, CompBlock, CompFinally, CompE;
  }

  lemma ForLens(id: nat, x: Ident)
    ensures LenSs([ForHead(id, x)]) == |CompE(ForHead(id, x).e)| + 1
    ensures LenSs([ForStep(id)]) == |CompE(ForStep(id).e)| + 1
    ensures SizeE(ForCond(id)) + SizeSs([ForHead(id, x)]) + SizeSs([ForStep(id)]) <= 50
  {
    assert [ForHead(id, x)][1..] == [] && [ForStep(id)][1..] == [];
    ForSizes(id, x);
  }
}
