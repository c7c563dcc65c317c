/** Abstract syntax of the language, its run-time values and the sizes used for recursion. */
module Syntax {

  datatype Option<+T> = None | Some(value: T)

  /** A name is either written by the user or is one of the two hidden
      variables the compiler allocates for a `para` loop. */
  datatype Ident = User(text: string) | ForIter(n: nat) | ForIdx(n: nat)

  datatype Value =
    | VNull
    | VBool(b: bool)
    | VInt(i: int)
    | VText(t: string)
    | VList(items: seq<Value>)
    | VFunc(name: Ident, code: nat, closure: nat)
    | VBuiltin(builtin: string)
    | VOpaque(tag: nat, inside: seq<Value>)  // any other host value, such as a float or a map, and what it holds

  datatype BinOp = Add | Sub | Mul | Div

  datatype CmpOp = Eq | Ne | Gt | Ge | Lt | Le

  datatype Expr =
    | Lit(v: Value)
    | Name(x: Ident)
    | Neg(operand: Expr)
    | Await(operand: Expr)
    | Bin(bop: BinOp, left: Expr, right: Expr)
    | Cmp(cop: CmpOp, left: Expr, right: Expr)
    | Call(callee: Expr, args: seq<Expr>)
    | Index(target: Expr, index: Expr)
    | ListLit(elements: seq<Expr>)
    | MapLit(entries: seq<Entry>)

  datatype Entry = Entry(key: Expr, val: Expr)

  datatype Stmt =
    | Func(id: nat, name: Ident, params: seq<Ident>, body: seq<Stmt>)
    | Assign(x: Ident, e: Expr)
    | ExprStmt(e: Expr)
    | Return(result: Option<Expr>)
    | Throw(e: Expr)
    | If(cond: Expr, thn: seq<Stmt>, els: Branch)
    | While(cond: Expr, body: seq<Stmt>)
    | For(id: nat, x: Ident, iterable: Expr, body: seq<Stmt>)
    | Try(body: seq<Stmt>, catchName: Option<Ident>, catch: Branch, fin: Branch)
    | Break
    | Continue

  /** An optional block: the `senao` of a `se`, the `pegue` or `finalmente` of a `tente`. */
  datatype Branch = Absent | Block(body: seq<Stmt>)

  /** The keys and values of a map literal in evaluation order. */
  function Flatten(entries: seq<Entry>): (es: seq<Expr>)
    ensures |es| == 2 * |entries|
    ensures SizeEs(es) == SizeEntries(entries)
  {
    if entries == [] then []
    else
      var rest := Flatten(entries[1..]);
      var es := Pair(entries[0].key, entries[0].val) + rest;
      assert es[1..][0] == entries[0].val && es[1..][1..] == rest;
      es
  }

  function SizeE(e: Expr): nat {
    match e
    case Lit(_) => 1
    case Name(_) => 1
    case Neg(a) => 3 + SizeE(a)
    case Await(a) => 3 + SizeE(a)
    case Bin(_, a, b) => 3 + SizeE(a) + SizeE(b)
    case Cmp(_, a, b) => 3 + SizeE(a) + SizeE(b)
    case Call(f, args) => 3 + SizeE(f) + SizeEs(args)
    case Index(a, b) => 3 + SizeE(a) + SizeE(b)
    case ListLit(es) => 3 + SizeEs(es)
    case MapLit(entries) => 3 + SizeEntries(entries)
  }

  function SizeEs(es: seq<Expr>): nat {
    if es == [] then 0 else 1 + SizeE(es[0]) + SizeEs(es[1..])
  }

  function SizeEntries(entries: seq<Entry>): nat {
    if entries == [] then 0
    else SizeEntry(entries[0]) + SizeEntries(entries[1..])
  }

  function SizeEntry(entry: Entry): nat {
    2 + SizeE(entry.key) + SizeE(entry.val)
  }

  function SizeS(s: Stmt): nat {
    match s
    case Func(_, _, _, body) => 1 + SizeSs(body)
    case Assign(_, e) => 1 + SizeE(e)
    case ExprStmt(e) => 1 + SizeE(e)
    case Return(r) => 2 + (if r.Some? then SizeE(r.value) else 0)
    case Throw(e) => 1 + SizeE(e)
    case If(c, t, els) => 1 + SizeE(c) + SizeSs(t) + (if els.Block? then SizeSs(els.body) else 0)
    case While(c, body) => 2 + SizeE(c) + SizeSs(body)
    case For(_, _, it, body) => 64 + SizeE(it) + SizeSs(body)
    case Try(body, _, catch, fin) =>
      1 + SizeSs(body) + (if catch.Block? then SizeSs(catch.body) else 0)
      + (if fin.Block? then SizeSs(fin.body) else 0)
    case Break => 1
    case Continue => 1
  }

  function SizeSs(ss: seq<Stmt>): nat {
    if ss == [] then 0 else 1 + SizeS(ss[0]) + SizeSs(ss[1..])
  }

  function Pair(a: Expr, b: Expr): (es: seq<Expr>)
    ensures es == [a, b] && SizeEs(es) == 2 + SizeE(a) + SizeE(b)
  {
    var es := [a, b];
    assert es[1..] == [b] && SizeEs([b]) == 1 + SizeE(b);
    es
  }

  /** The sub-expressions an expression evaluates, left to right, before its own operation. */
  function Parts(e: Expr): (es: seq<Expr>)
    ensures SizeEs(es) < SizeE(e)
  {
    match e
    case Lit(_) => []
    case Name(_) => []
    case Neg(a) => [a]
    case Await(a) => [a]
    case Bin(_, a, b) => Pair(a, b)
    case Cmp(_, a, b) => Pair(a, b)
    case Call(f, args) => assert ([f] + args)[1..] == args; [f] + args
    case Index(a, b) => Pair(a, b)
    case ListLit(es) => es
    case MapLit(entries) => Flatten(entries)
  }

  // The pieces a `para` loop is lowered to.

  /** `__for_idx < tamanho(__for_iter)` */
  function ForCond(id: nat): Expr {
    Cmp(Lt, Name(ForIdx(id)), Call(Name(User("tamanho")), [Name(ForIter(id))]))
  }

  /** `x = __for_iter[__for_idx]` */
  function ForHead(id: nat, x: Ident): Stmt {
    Assign(x, Index(Name(ForIter(id)), Name(ForIdx(id))))
  }

  /** `__for_idx = __for_idx + 1` */
  function ForStep(id: nat): Stmt {
    Assign(ForIdx(id), Bin(Add, Name(ForIdx(id)), Lit(VInt(1))))
  }

  lemma ForSizes(id: nat, x: Ident)
    ensures SizeE(ForCond(id)) + SizeSs([ForHead(id, x)]) + SizeSs([ForStep(id)]) <= 50
  {
    var it := [Name(ForIter(id))];
    assert it[1..] == [] && SizeEs(it) == 2;
    assert SizeE(Call(Name(User("tamanho")), it)) == 6;
    assert SizeE(Index(Name(ForIter(id)), Name(ForIdx(id)))) == 5;
    assert SizeE(Bin(Add, Name(ForIdx(id)), Lit(VInt(1)))) == 5;
    assert SizeSs([ForHead(id, x)]) == 1 + SizeS(ForHead(id, x));
    assert SizeSs([ForStep(id)]) == 1 + SizeS(ForStep(id));
  }

  // Structural conditions on statements.

  /** What the semantic validation checks about loops: `pare` and `continue`
      occur under a loop of the same function. */
  predicate LoopsOk(s: Stmt, inLoop: bool) {
    match s
    case Func(_, _, _, body) => LoopsOkAll(body, false)
    case If(_, t, els) => LoopsOkAll(t, inLoop) && (els.Block? ==> LoopsOkAll(els.body, inLoop))
    case While(_, body) => LoopsOkAll(body, true)
    case For(_, _, _, body) => LoopsOkAll(body, true)
    case Try(body, _, catch, fin) =>
      LoopsOkAll(body, inLoop) && (catch.Block? ==> LoopsOkAll(catch.body, inLoop))
      && (fin.Block? ==> LoopsOkAll(fin.body, inLoop))
    case Break => inLoop
    case Continue => inLoop
    case _ => true
  }

  predicate LoopsOkAll(ss: seq<Stmt>, inLoop: bool) {
    ss != [] ==> LoopsOk(ss[0], inLoop) && LoopsOkAll(ss[1..], inLoop)
  }

  /** Does the statement hold a `pare` or `continue` that leaves it? */
  predicate OwnJump(s: Stmt) {
    match s
    case If(_, t, els) => OwnJumpAny(t) || (els.Block? && OwnJumpAny(els.body))
    case Try(body, _, catch, fin) =>
      OwnJumpAny(body) || (catch.Block? && OwnJumpAny(catch.body)) || (fin.Block? && OwnJumpAny(fin.body))
    case Break => true
    case Continue => true
    case _ => false
  }

  predicate OwnJumpAny(ss: seq<Stmt>) {
    ss != [] && (OwnJump(ss[0]) || OwnJumpAny(ss[1..]))
  }

  /** No `pare` or `continue` leaves an enclosing `tente`. */
  predicate NoCross(s: Stmt) {
    match s
    case Func(_, _, _, body) => NoCrossAll(body)
    case If(_, t, els) => NoCrossAll(t) && (els.Block? ==> NoCrossAll(els.body))
    case While(_, body) => NoCrossAll(body)
    case For(_, _, _, body) => NoCrossAll(body)
    case Try(body, _, catch, fin) =>
      NoCrossAll(body) && !OwnJumpAny(body)
      && (catch.Block? ==> NoCrossAll(catch.body) && !OwnJumpAny(catch.body))
      && (fin.Block? ==> NoCrossAll(fin.body) && !OwnJumpAny(fin.body))
    case _ => true
  }

  predicate NoCrossAll(ss: seq<Stmt>) {
    ss != [] ==> NoCross(ss[0]) && NoCrossAll(ss[1..])
  }

  predicate HasTry(s: Stmt) {
    match s
    case If(_, t, els) => HasTryAny(t) || (els.Block? && HasTryAny(els.body))
    case While(_, body) => HasTryAny(body)
    case For(_, _, _, body) => HasTryAny(body)
    case Try(_, _, _, _) => true
    case _ => false
  }

  predicate HasTryAny(ss: seq<Stmt>) {
    ss != [] && (HasTry(ss[0]) || HasTryAny(ss[1..]))
  }

  /** Every empty map literal is evaluated while the operand stack is empty.
      `atEmpty` says whether the stack is known to be empty at the start. */
  predicate MapsOk(e: Expr, atEmpty: bool)
    decreases SizeE(e)
  {
    (e.MapLit? && e.entries == [] ==> atEmpty) && MapsOkParts(Parts(e), atEmpty)
  }

  predicate MapsOkParts(es: seq<Expr>, atEmpty: bool)
    decreases SizeEs(es)
  {
    es != [] ==> MapsOk(es[0], atEmpty) && MapsOkParts(es[1..], false)
  }

  predicate MapsOkS(s: Stmt, atEmpty: bool) {
    match s
    case Func(_, _, _, body) => MapsOkAll(body, true)
    case Assign(_, e) => MapsOk(e, atEmpty)
    case ExprStmt(e) => MapsOk(e, atEmpty)
    case Return(r) => r.Some? ==> MapsOk(r.value, atEmpty)
    case Throw(e) => MapsOk(e, atEmpty)
    case If(c, t, els) => MapsOk(c, atEmpty) && MapsOkAll(t, atEmpty) && (els.Block? ==> MapsOkAll(els.body, atEmpty))
    case While(c, body) =>
      var a := atEmpty && !HasTryAny(body);
      MapsOk(c, a) && MapsOkAll(body, a)
    case For(_, _, it, body) => MapsOk(it, atEmpty) && MapsOkAll(body, atEmpty && !HasTryAny(body))
    case Try(body, _, catch, fin) =>
      MapsOkAll(body, atEmpty) && (catch.Block? ==> MapsOkAll(catch.body, false))
      && (fin.Block? ==> MapsOkAll(fin.body, false))
    case _ => true
  }

  predicate MapsOkAll(ss: seq<Stmt>, atEmpty: bool) {
    ss != [] ==> MapsOkS(ss[0], atEmpty) && MapsOkAll(ss[1..], atEmpty && !HasTry(ss[0]))
  }
}
