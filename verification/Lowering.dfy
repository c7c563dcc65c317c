/** Facts about the code of statements that the backpatching compiler relies on:
    numbering, the places of loop jumps, holes and jump targets. */
module Lowering {
  import opened Syntax
  import opened Bytecode
  import Semantics

  // Numbering: every `para` takes two temporaries and every function one code
  // number, in the order the compiler meets them. `For.id` n stands for the
  // variables `__for_iter_n` and `__for_idx_(n+1)`.

  datatype Counters = Counters(tmp: nat, fn: nat)

  function Number(s: Stmt, c: Counters): (Stmt, Counters)
    decreases s, 0
  {
    match s
    case Func(_, name, params, body) =>
      var (b, c') := NumberAll(body, c.(fn := c.fn + 1));
      (Func(c.fn + 1, name, params, b), c')
    case If(cond, thn, els) =>
      var (t, c1) := NumberAll(thn, c);
      var (e, c2) := NumberBranch(els, c1);
      (If(cond, t, e), c2)
    case While(cond, body) =>
      var (b, c') := NumberAll(body, c);
      (While(cond, b), c')
    case For(_, x, it, body) =>
      var (b, c') := NumberAll(body, c.(tmp := c.tmp + 2));
      (For(c.tmp + 1, x, it, b), c')
    case Try(body, name, catch, fin) =>
      var (b, c1) := NumberAll(body, c);
      var (k, c2) := NumberBranch(catch, c1);
      var (q, c3) := NumberBranch(fin, c2);
      (Try(b, name, k, q), c3)
    case _ => (s, c)
  }

  /** A program with its loops and functions numbered. */
  function Numbered(program: seq<Stmt>): seq<Stmt> {
    NumberAll(program, Counters(0, 0)).0
  }

  function NumberBranch(b: Branch, c: Counters): (Branch, Counters)
    decreases b, 0
  {
    match b
    case Absent => (Absent, c)
    case Block(body) => var (ss, c') := NumberAll(body, c); (Block(ss), c')
  }

  function NumberAll(ss: seq<Stmt>, c: Counters): (r: (seq<Stmt>, Counters))
    ensures |r.0| == |ss|
    decreases ss, 0
  {
    if ss == [] then ([], c)
    else
      var (s, c1) := Number(ss[0], c);
      var (rest, c2) := NumberAll(ss[1..], c1);
      ([s] + rest, c2)
  }

  /** The functions declared anywhere in a statement, by code number. */
  function Fns(s: Stmt): map<nat, Semantics.FnDecl>
    decreases s, 0
  {
    match s
    case Func(id, _, params, body) => FnsAll(body)[id := Semantics.FnDecl(params, body)]
    case If(_, thn, els) => FnsAll(thn) + FnsBranch(els)
    case While(_, body) => FnsAll(body)
    case For(_, _, _, body) => FnsAll(body)
    case Try(body, _, catch, fin) => FnsAll(body) + FnsBranch(catch) + FnsBranch(fin)
    case _ => map[]
  }

  function FnsBranch(b: Branch): map<nat, Semantics.FnDecl>
    decreases b, 0
  {
    if b.Block? then FnsAll(b.body) else map[]
  }

  function FnsAll(ss: seq<Stmt>): map<nat, Semantics.FnDecl>
    decreases ss, 0
  {
    if ss == [] then map[] else Fns(ss[0]) + FnsAll(ss[1..])
  }

  /** The compiled form of a table of functions. */
  function Table(fns: map<nat, Semantics.FnDecl>): map<nat, FnCode> {
    map id | id in fns :: CompFn(fns[id].params, fns[id].body)
  }

  // The positions of the jumps a statement leaves for its loop to patch.

  datatype Jumps = Jumps(breaks: seq<nat>, conts: seq<nat>)

  function Join(a: Jumps, b: Jumps): Jumps {
    Jumps(a.breaks + b.breaks, a.conts + b.conts)
  }

  const NONE := Jumps([], [])

  function Holes(s: Stmt, base: nat): Jumps
    decreases s, 0
  {
    match s
    case If(c, thn, els) =>
      var at := base + |CompE(c)| + 1;
      Join(HolesAll(thn, at), HolesBranch(els, at + LenSs(thn) + 1))
    case Try(body, _, catch, fin) =>
      var catchAt := base + LenSs(body) + 3;
      var finAt := catchAt + (if catch.Block? then LenSs(catch.body) + 2 else 0);
      Join(Join(HolesAll(body, base + 1), HolesBranch(catch, catchAt)), HolesBranch(fin, finAt + 1))
    case Break => Jumps([base], [])
    case Continue => Jumps([], [base])
    case _ => NONE
  }

  function HolesBranch(b: Branch, base: nat): Jumps
    decreases b, 0
  {
    if b.Block? then HolesAll(b.body, base) else NONE
  }

  function HolesAll(ss: seq<Stmt>, base: nat): Jumps
    decreases ss, 0
  {
    if ss == [] then NONE else Join(Holes(ss[0], base), HolesAll(ss[1..], base + LenS(ss[0])))
  }

  // Patching.

  /** The instruction with its jump target filled in. */
  function WithTarget(i: Instr, t: nat): Instr {
    match i
    case Jump(_) => Jump(Some(t))
    case JumpIfFalse(_) => JumpIfFalse(Some(t))
    case _ => i
  }

  function PatchAll(code: seq<Instr>, at: seq<nat>, t: nat): (r: seq<Instr>)
    requires forall p :: p in at ==> p < |code|
    ensures |r| == |code|
  {
    if at == [] then code
    else
      var n := |at| - 1;
      assert forall p :: p in at[..n] ==> p in at;
      assert at[n] in at;
      var code' := PatchAll(code, at[..n], t);
      code'[at[n] := WithTarget(code'[at[n]], t)]
  }

  /** Patching changes exactly the listed positions. */
  lemma {:induction false} PatchedAt(code: seq<Instr>, at: seq<nat>, t: nat, p: nat)
    requires forall q :: q in at ==> q < |code|
    requires p < |code|
    ensures PatchAll(code, at, t)[p] == if p in at then WithTarget(code[p], t) else code[p]
  {
    if at != [] {
      var n := |at| - 1;
      assert at == at[..n] + [at[n]];
      assert forall q :: q in at[..n] ==> q in at;
      PatchedAt(code, at[..n], t, p);
    }
  }

  /** How the code of a statement depends on the loop around it: only at its holes. */
  ghost predicate Filled(hole: seq<Instr>, full: seq<Instr>, js: Jumps, base: nat, brk: Option<nat>, cnt: Option<nat>) {
    && |hole| == |full|
    && (forall p :: p in js.breaks ==> base <= p < base + |hole| && hole[p - base] == Jump(None))
    && (forall p :: p in js.conts ==> base <= p < base + |hole| && hole[p - base] == Jump(None) && p !in js.breaks)
    && forall k :: 0 <= k < |hole| ==>
                     full[k] == if base + k in js.breaks then Jump(brk) else if base + k in js.conts then Jump(cnt)
                     else hole[k]
  }

  lemma FilledJoin(a: seq<Instr>, a': seq<Instr>, ja: Jumps, b: seq<Instr>, b': seq<Instr>, jb: Jumps, base: nat,
                   brk: Option<nat>, cnt: Option<nat>)
    requires Filled(a, a', ja, base, brk, cnt) && Filled(b, b', jb, base + |a|, brk, cnt)
    ensures Filled(a + b, a' + b', Join(ja, jb), base, brk, cnt)
  {
    var hole, full, js := a + b, a' + b', Join(ja, jb);
    forall k | 0 <= k < |hole|
      ensures full[k] == if base + k in js.breaks then Jump(brk) else if base + k in js.conts then Jump(cnt)
                         else hole[k]
    {
      if k < |a| {
        assert base + k !in jb.breaks && base + k !in jb.conts;
        assert full[k] == a'[k];
      } else {
        assert base + k !in ja.breaks && base + k !in ja.conts;
        var j := k - |a|;
        assert base + k == base + |a| + j && full[k] == b'[j] && hole[k] == b[j];
      }
    }
  }

  /** Code that does not depend on the loop at all. */
  lemma FilledSame(code: seq<Instr>, base: nat, brk: Option<nat>, cnt: Option<nat>)
    ensures Filled(code, code, NONE, base, brk, cnt)
  {
  }

  lemma {:induction false} FilledStmt(s: Stmt, base: nat, brk: Option<nat>, cnt: Option<nat>)
    ensures Filled(CompS(s, base, None, None), CompS(s, base, brk, cnt), Holes(s, base), base, brk, cnt)
    decreases s, 2
  {
    hide Filled, CompS, Holes;
    match s
    case If(c, thn, els) => FilledIf(c, thn, els, base, brk, cnt);
    case Try(body, name, catch, fin) => FilledTry(body, name, catch, fin, base, brk, cnt);
    case Break => FilledJump(s, base, brk, cnt);
    case Continue => FilledJump(s, base, brk, cnt);
    case _ =>
      SameCode(s, base, brk, cnt);
      FilledSame(CompS(s, base, None, None), base, brk, cnt);
  }

  lemma FilledJump(s: Stmt, base: nat, brk: Option<nat>, cnt: Option<nat>)
    requires s.Break? || s.Continue?
    ensures Filled(CompS(s, base, None, None), CompS(s, base, brk, cnt), Holes(s, base), base, brk, cnt)
  {
  }

  lemma SameCode(s: Stmt, base: nat, brk: Option<nat>, cnt: Option<nat>)
    requires !s.If? && !s.Try? && !s.Break? && !s.Continue?
    ensures CompS(s, base, None, None) == CompS(s, base, brk, cnt) && Holes(s, base) == NONE
  {
    hide CompE, CompLoop, CompForInit;
  }

  lemma {:induction false} FilledAll(ss: seq<Stmt>, base: nat, brk: Option<nat>, cnt: Option<nat>)
    ensures Filled(CompSs(ss, base, None, None), CompSs(ss, base, brk, cnt), HolesAll(ss, base), base, brk, cnt)
    decreases ss, 0
  {
    hide Filled, CompS, CompE, LenS, Holes, Join;
    if ss == [] {
      FilledSame([], base, brk, cnt);
    } else {
      FilledStmt(ss[0], base, brk, cnt);
      FilledAll(ss[1..], base + LenS(ss[0]), brk, cnt);
      FilledJoin(CompS(ss[0], base, None, None), CompS(ss[0], base, brk, cnt), Holes(ss[0], base),
                 CompSs(ss[1..], base + LenS(ss[0]), None, None), CompSs(ss[1..], base + LenS(ss[0]), brk, cnt),
                 HolesAll(ss[1..], base + LenS(ss[0])), base, brk, cnt);
    }
  }

  lemma {:induction false} FilledIf(c: Expr, thn: seq<Stmt>, els: Branch, base: nat, brk: Option<nat>, cnt: Option<nat>)
    ensures var s := If(c, thn, els);
            Filled(CompS(s, base, None, None), CompS(s, base, brk, cnt), Holes(s, base), base, brk, cnt)
    decreases If(c, thn, els), 0
  {
    hide Filled, CompE, CompSs, LenSs, HolesAll, CompElse, HolesBranch;
    var at := base + |CompE(c)| + 1;
    var test := JumpIfFalse(Some(at + LenSs(thn) + (if els.Block? then 1 else 0)));
    var t, t' := CompSs(thn, at, None, None), CompSs(thn, at, brk, cnt);
    var e, e' := CompElse(els, at + LenSs(thn), None, None), CompElse(els, at + LenSs(thn), brk, cnt);
    var js := Join(HolesAll(thn, at), HolesBranch(els, at + LenSs(thn) + 1));
    FilledAll(thn, at, brk, cnt);
    FilledElse(els, at + LenSs(thn), brk, cnt);
    FilledJoin(t, t', HolesAll(thn, at), e, e', HolesBranch(els, at + LenSs(thn) + 1), at, brk, cnt);
    FilledAfter(CompE(c), test, t + e, t' + e', js, base, brk, cnt);
  }

  /** Fixed code and an instruction in front of code with holes. */
  lemma FilledAfter(cc: seq<Instr>, test: Instr, b: seq<Instr>, b': seq<Instr>, js: Jumps, base: nat, brk: Option<nat>,
                    cnt: Option<nat>)
    requires Filled(b, b', js, base + |cc| + 1, brk, cnt)
    ensures Filled(cc + ([test] + b), cc + ([test] + b'), js, base, brk, cnt)
  {
    hide Filled;
    JoinNone(js);
    FilledSame([test], base + |cc|, brk, cnt);
    FilledSame(cc, base, brk, cnt);
    FilledJoin([test], [test], NONE, b, b', js, base + |cc|, brk, cnt);
    FilledJoin(cc, cc, NONE, [test] + b, [test] + b', js, base, brk, cnt);
  }

  lemma JoinNone(js: Jumps)
    ensures Join(NONE, js) == js && Join(js, NONE) == js
  {
  }

  lemma {:induction false} FilledElse(els: Branch, base: nat, brk: Option<nat>, cnt: Option<nat>)
    ensures Filled(CompElse(els, base, None, None), CompElse(els, base, brk, cnt), HolesBranch(els, base + 1), base,
                   brk, cnt)
    decreases els, 0
  {
    hide Filled, CompSs, CompS, CompE, LenSs, LenS, HolesAll, Join;
    if els.Block? {
      var j := [Jump(Some(base + LenElse(els)))];
      FilledAll(els.body, base + 1, brk, cnt);
      FilledSame(j, base, brk, cnt);
      JoinNone(HolesAll(els.body, base + 1));
      FilledJoin(j, j, NONE, CompSs(els.body, base + 1, None, None), CompSs(els.body, base + 1, brk, cnt),
                 HolesAll(els.body, base + 1), base, brk, cnt);
    } else {
      FilledSame([], base, brk, cnt);
    }
  }

  lemma {:induction false} FilledBlock(body: seq<Stmt>, base: nat, i: Instr, end: nat, brk: Option<nat>,
                                       cnt: Option<nat>)
    ensures Filled(CompBlock(body, base, i, end, None, None), CompBlock(body, base, i, end, brk, cnt),
                   HolesAll(body, base), base, brk, cnt)
    decreases body, 1
  {
    hide Filled, CompSs, CompS, CompE, LenSs, LenS, HolesAll, Join;
    var tail := [i, Jump(Some(end))];
    FilledAll(body, base, brk, cnt);
    FilledSame(tail, base + LenSs(body), brk, cnt);
    JoinNone(HolesAll(body, base));
    FilledJoin(CompSs(body, base, None, None), CompSs(body, base, brk, cnt), HolesAll(body, base), tail, tail, NONE,
               base, brk, cnt);
  }

  lemma {:induction false} FilledFinally(fin: seq<Stmt>, base: nat, brk: Option<nat>, cnt: Option<nat>)
    ensures Filled(CompFinally(fin, base, None, None), CompFinally(fin, base, brk, cnt), HolesAll(fin, base + 1), base,
                   brk, cnt)
    decreases fin, 1
  {
    hide Filled, CompSs, CompS, CompE, LenSs, LenS, HolesAll, Join;
    var q, q' := CompSs(fin, base + 1, None, None), CompSs(fin, base + 1, brk, cnt);
    FilledAll(fin, base + 1, brk, cnt);
    FilledSame([EndFinally], base + 1 + LenSs(fin), brk, cnt);
    FilledSame([BeginFinally], base, brk, cnt);
    JoinNone(HolesAll(fin, base + 1));
    FilledJoin(q, q', HolesAll(fin, base + 1), [EndFinally], [EndFinally], NONE, base + 1, brk, cnt);
    FilledJoin([BeginFinally], [BeginFinally], NONE, q + [EndFinally], q' + [EndFinally], HolesAll(fin, base + 1), base,
               brk, cnt);
  }

  lemma {:induction false} FilledTry(body: seq<Stmt>, name: Option<Ident>, catch: Branch, fin: Branch, base: nat,
                                     brk: Option<nat>, cnt: Option<nat>)
    ensures var s := Try(body, name, catch, fin);
            Filled(CompS(s, base, None, None), CompS(s, base, brk, cnt), Holes(s, base), base, brk, cnt)
    decreases Try(body, name, catch, fin), 1
  {
    hide Filled, CompSs, CompS, CompE, LenSs, LenS, HolesAll, HolesBranch, Holes, Join, TryTail;
    var catchAt := base + LenSs(body) + 3;
    var finAt := catchAt + (if catch.Block? then LenSs(catch.body) + 2 else 0);
    var end := base + LenS(Try(body, name, catch, fin));
    var push := [PushTry(if catch.Block? then Some(catchAt) else None, if fin.Block? then Some(finAt) else None, name)];
    var b, b' := CompBlock(body, base + 1, EndTryBlock, end, None, None),
                 CompBlock(body, base + 1, EndTryBlock, end, brk, cnt);
    var x, x' := TryTail(catch, fin, catchAt, end, None, None), TryTail(catch, fin, catchAt, end, brk, cnt);
    var jb, jx := HolesAll(body, base + 1), Join(HolesBranch(catch, catchAt), HolesBranch(fin, finAt + 1));
    FilledBlock(body, base + 1, EndTryBlock, end, brk, cnt);
    FilledTail(body, name, catch, fin, catchAt, end, brk, cnt);
    FilledSame(push, base, brk, cnt);
    FilledJoin(b, b', jb, x, x', jx, base + 1, brk, cnt);
    JoinNone(Join(jb, jx));
    FilledJoin(push, push, NONE, b + x, b' + x', Join(jb, jx), base, brk, cnt);
    TryShape(body, name, catch, fin, base, None, None);
    TryShape(body, name, catch, fin, base, brk, cnt);
    JoinAssoc(jb, HolesBranch(catch, catchAt), HolesBranch(fin, finAt + 1));
  }

  lemma JoinAssoc(a: Jumps, b: Jumps, c: Jumps)
    ensures Join(a, Join(b, c)) == Join(Join(a, b), c)
  {
  }

  /** The code of `pegue` and `finalmente`, those that are there. */
  function TryTail(catch: Branch, fin: Branch, catchAt: nat, end: nat, brk: Option<nat>, cnt: Option<nat>): seq<Instr> {
    var finAt := catchAt + (if catch.Block? then LenSs(catch.body) + 2 else 0);
    (if catch.Block? then CompBlock(catch.body, catchAt, EndCatchBlock, end, brk, cnt) else [])
    + (if fin.Block? then CompFinally(fin.body, finAt, brk, cnt) else [])
  }

  lemma TryShape(body: seq<Stmt>, name: Option<Ident>, catch: Branch, fin: Branch, base: nat, brk: Option<nat>,
                 cnt: Option<nat>)
    ensures var s := Try(body, name, catch, fin);
            var catchAt := base + LenSs(body) + 3;
            var finAt := catchAt + (if catch.Block? then LenSs(catch.body) + 2 else 0);
            var end := base + LenS(s);
            var push := PushTry(if catch.Block? then Some(catchAt) else None, if fin.Block? then Some(finAt) else None,
                                name);
            && CompS(s, base, brk, cnt)
               == [push] + (CompBlock(body, base + 1, EndTryBlock, end, brk, cnt)
                            + TryTail(catch, fin, catchAt, end, brk, cnt))
            && Holes(s, base) == Join(Join(HolesAll(body, base + 1), HolesBranch(catch, catchAt)),
                                      HolesBranch(fin, finAt + 1))
  {
    hide CompSs, CompE, LenSs, LenS, HolesAll, HolesBranch, CompBlock, CompFinally, Join;
  }

  lemma {:induction false} FilledTail(body: seq<Stmt>, name: Option<Ident>, catch: Branch, fin: Branch, catchAt: nat,
                                      end: nat, brk: Option<nat>, cnt: Option<nat>)
    ensures var finAt := catchAt + (if catch.Block? then LenSs(catch.body) + 2 else 0);
            Filled(TryTail(catch, fin, catchAt, end, None, None), TryTail(catch, fin, catchAt, end, brk, cnt),
                   Join(HolesBranch(catch, catchAt), HolesBranch(fin, finAt + 1)), catchAt, brk, cnt)
    decreases Try(body, name, catch, fin), 0
  {
    hide Filled, CompSs, CompS, CompE, LenSs, LenS, HolesAll, CompBlock, CompFinally, Join;
    var finAt := catchAt + (if catch.Block? then LenSs(catch.body) + 2 else 0);
    var k := if catch.Block? then CompBlock(catch.body, catchAt, EndCatchBlock, end, None, None) else [];
    var k' := if catch.Block? then CompBlock(catch.body, catchAt, EndCatchBlock, end, brk, cnt) else [];
    var q := if fin.Block? then CompFinally(fin.body, finAt, None, None) else [];
    var q' := if fin.Block? then CompFinally(fin.body, finAt, brk, cnt) else [];
    if catch.Block? {
      FilledBlock(catch.body, catchAt, EndCatchBlock, end, brk, cnt);
    } else {
      FilledSame([], catchAt, brk, cnt);
    }
    if fin.Block? { FilledFinally(fin.body, finAt, brk, cnt); } else { FilledSame([], finAt, brk, cnt); }
    FilledJoin(k, k', HolesBranch(catch, catchAt), q, q', HolesBranch(fin, finAt + 1), catchAt, brk, cnt);
  }

  // Loop jumps and holes.

  lemma {:induction false} OwnJumpHasHole(s: Stmt, base: nat)
    ensures OwnJump(s) <==> Holes(s, base) != NONE
    decreases s, 0
  {
    hide LenSs, LenS, CompE, OwnJumpAny, HolesAll;
    match s
    case If(c, thn, els) =>
      var at := base + |CompE(c)| + 1;
      OwnJumpHasHoles(thn, at);
      BranchHasHoles(els, at + LenSs(thn) + 1);
      JoinEmpty(HolesAll(thn, at), HolesBranch(els, at + LenSs(thn) + 1));
    case Try(body, _, catch, fin) =>
      var catchAt := base + LenSs(body) + 3;
      var finAt := catchAt + (if catch.Block? then LenSs(catch.body) + 2 else 0);
      OwnJumpHasHoles(body, base + 1);
      BranchHasHoles(catch, catchAt);
      BranchHasHoles(fin, finAt + 1);
      JoinEmpty(HolesAll(body, base + 1), HolesBranch(catch, catchAt));
      JoinEmpty(Join(HolesAll(body, base + 1), HolesBranch(catch, catchAt)), HolesBranch(fin, finAt + 1));
    case _ =>
  }

  lemma {:induction false} BranchHasHoles(b: Branch, base: nat)
    ensures (b.Block? && OwnJumpAny(b.body)) <==> HolesBranch(b, base) != NONE
    decreases b, 0
  {
    if b.Block? { OwnJumpHasHoles(b.body, base); }
  }

  lemma JoinEmpty(a: Jumps, b: Jumps)
    ensures Join(a, b) == NONE <==> a == NONE && b == NONE
  {
    assert |a.breaks + b.breaks| == |a.breaks| + |b.breaks| && |a.conts + b.conts| == |a.conts| + |b.conts|;
  }

  lemma {:induction false} OwnJumpHasHoles(ss: seq<Stmt>, base: nat)
    ensures OwnJumpAny(ss) <==> HolesAll(ss, base) != NONE
    decreases ss, 0
  {
    if ss != [] {
      OwnJumpHasHole(ss[0], base);
      OwnJumpHasHoles(ss[1..], base + LenS(ss[0]));
    }
  }

  lemma {:induction false} OutsideLoops(s: Stmt)
    requires LoopsOk(s, false)
    ensures !OwnJump(s)
    decreases s, 0
  {
    match s
    case If(_, thn, els) =>
      OutsideLoopsAll(thn);
      if els.Block? { OutsideLoopsAll(els.body); }
    case Try(body, _, catch, fin) =>
      OutsideLoopsAll(body);
      if catch.Block? { OutsideLoopsAll(catch.body); }
      if fin.Block? { OutsideLoopsAll(fin.body); }
    case _ =>
  }

  lemma {:induction false} OutsideLoopsAll(ss: seq<Stmt>)
    requires LoopsOkAll(ss, false)
    ensures !OwnJumpAny(ss)
    decreases ss, 0
  {
    if ss != [] {
      OutsideLoops(ss[0]);
      OutsideLoopsAll(ss[1..]);
    }
  }

  /** Every jump is patched and every address an instruction names is at most `n`. */
  predicate TargetOk(i: Instr, n: nat) {
    match i
    case Jump(t) => t.Some? && t.value <= n
    case JumpIfFalse(t) => t.Some? && t.value <= n
    case PushTry(c, f, _) => (c.Some? ==> c.value <= n) && (f.Some? ==> f.value <= n)
    case _ => true
  }

  predicate TargetsOk(code: seq<Instr>, n: nat) {
    forall k :: 0 <= k < |code| ==> TargetOk(code[k], n)
  }

  lemma TargetsJoin(a: seq<Instr>, b: seq<Instr>, n: nat)
    requires TargetsOk(a, n) && TargetsOk(b, n)
    ensures TargetsOk(a + b, n)
  {
  }

  lemma {:induction false} ExprTargets(e: Expr, n: nat)
    ensures TargetsOk(CompE(e), n)
    decreases SizeE(e)
  {
    ExprsTargets(Parts(e), n);
    TargetsJoin(CompEs(Parts(e)), [OpOf(e)], n);
  }

  lemma {:induction false} ExprsTargets(es: seq<Expr>, n: nat)
    ensures TargetsOk(CompEs(es), n)
    decreases SizeEs(es)
  {
    if es != [] {
      ExprTargets(es[0], n);
      ExprsTargets(es[1..], n);
      TargetsJoin(CompE(es[0]), CompEs(es[1..]), n);
    }
  }

  lemma {:induction false} StmtTargets(s: Stmt, base: nat, b: nat, c: nat, n: nat)
    requires b <= n && c <= n && base + LenS(s) <= n
    ensures TargetsOk(CompS(s, base, Some(b), Some(c)), n)
    decreases SizeS(s), 1
  {
    hide CompE, CompS, LenS, TargetsOk;
    match s
    case If(cond, thn, els) => IfTargets(cond, thn, els, base, b, c, n);
    case While(cond, body) => WhileTargets(cond, body, base, b, c, n);
    case For(id, x, it, body) => ForTargets(id, x, it, body, base, b, c, n);
    case Try(body, name, catch, fin) => TryTargets(body, name, catch, fin, base, b, c, n);
    case _ => SimpleTargets(s, base, b, c, n);
  }

  lemma SimpleTargets(s: Stmt, base: nat, b: nat, c: nat, n: nat)
    requires !s.If? && !s.While? && !s.For? && !s.Try? && b <= n && c <= n
    ensures TargetsOk(CompS(s, base, Some(b), Some(c)), n)
  {
    hide CompE, LenS;
    match s
    case Assign(x, e) => ExprTargets(e, n);
    case ExprStmt(e) => ExprTargets(e, n);
    case Throw(e) => ExprTargets(e, n);
    case Return(r) => if r.Some? { ExprTargets(r.value, n); }
    case _ =>
  }

  lemma {:induction false} WhileTargets(cond: Expr, body: seq<Stmt>, base: nat, b: nat, c: nat, n: nat)
    requires base + LenS(While(cond, body)) <= n
    ensures TargetsOk(CompS(While(cond, body), base, Some(b), Some(c)), n)
    decreases SizeS(While(cond, body)), 0
  {
    hide CompE, CompSs, CompLoop, TargetsOk;
    assert LoopsOkAll([], false) && LenSs([]) == 0 && SizeSs([]) == 0;
    LoopTargets(cond, [], body, [], base, n);
  }

  lemma {:induction false} StmtsTargets(ss: seq<Stmt>, base: nat, b: nat, c: nat, n: nat)
    requires b <= n && c <= n && base + LenSs(ss) <= n
    ensures TargetsOk(CompSs(ss, base, Some(b), Some(c)), n)
    decreases SizeSs(ss), 0
  {
    hide TargetsOk;
    if ss == [] {
      assert TargetsOk([], n) by { NoTargets(n); }
    } else {
      StmtTargets(ss[0], base, b, c, n);
      StmtsTargets(ss[1..], base + LenS(ss[0]), b, c, n);
      TargetsJoin(CompS(ss[0], base, Some(b), Some(c)), CompSs(ss[1..], base + LenS(ss[0]), Some(b), Some(c)), n);
    }
  }

  lemma NoTargets(n: nat)
    ensures TargetsOk([], n)
  {
  }

  lemma {:induction false} IfTargets(cond: Expr, thn: seq<Stmt>, els: Branch, base: nat, b: nat, c: nat, n: nat)
    requires b <= n && c <= n && base + LenS(If(cond, thn, els)) <= n
    ensures TargetsOk(CompS(If(cond, thn, els), base, Some(b), Some(c)), n)
    decreases SizeS(If(cond, thn, els)), 0
  {
    hide CompE, CompSs, LenSs;
    var at := base + |CompE(cond)| + 1;
    var elseAt := at + LenSs(thn);
    ExprTargets(cond, n);
    StmtsTargets(thn, at, b, c, n);
    if els.Block? { StmtsTargets(els.body, elseAt + 1, b, c, n); }
    assert TargetsOk(CompElse(els, elseAt, Some(b), Some(c)), n);
  }

  lemma {:induction false} LoopTargets(cond: Expr, pre: seq<Stmt>, body: seq<Stmt>, post: seq<Stmt>, base: nat, n: nat)
    requires base + LenLoop(cond, pre, body, post) <= n && LoopsOkAll(pre, false) && LoopsOkAll(post, false)
    ensures TargetsOk(CompLoop(cond, pre, body, post, base), n)
    decreases 1 + SizeE(cond) + SizeSs(pre) + SizeSs(body) + SizeSs(post), 0
  {
    hide CompE, CompSs, LenSs;
    var exit := base + LenLoop(cond, pre, body, post);
    var at := base + |CompE(cond)| + 1;
    ExprTargets(cond, n);
    ClosedTargets(pre, at, n);
    StmtsTargets(body, at + LenSs(pre), exit, base, n);
    ClosedTargets(post, at + LenSs(pre) + LenSs(body), n);
  }

  /** Statements whose loop jumps all stay inside have no hole, wherever they are. */
  lemma {:induction false} ClosedTargets(ss: seq<Stmt>, base: nat, n: nat)
    requires LoopsOkAll(ss, false) && base + LenSs(ss) <= n
    ensures TargetsOk(CompSs(ss, base, None, None), n)
    decreases SizeSs(ss), 1
  {
    hide CompSs, LenSs, TargetsOk, HolesAll, Filled, OwnJumpAny;
    OutsideLoopsAll(ss);
    OwnJumpHasHoles(ss, base);
    FilledAll(ss, base, Some(0), Some(0));
    StmtsTargets(ss, base, 0, 0, n);
    FilledNowhere(CompSs(ss, base, None, None), CompSs(ss, base, Some(0), Some(0)), HolesAll(ss, base), base, Some(0),
                  Some(0));
  }

  lemma FilledNowhere(hole: seq<Instr>, full: seq<Instr>, js: Jumps, base: nat, brk: Option<nat>, cnt: Option<nat>)
    requires Filled(hole, full, js, base, brk, cnt) && js.breaks == [] && js.conts == []
    ensures hole == full
  {
  }

  lemma {:induction false} ForTargets(id: nat, x: Ident, it: Expr, body: seq<Stmt>, base: nat, b: nat, c: nat, n: nat)
    requires base + LenS(For(id, x, it, body)) <= n
    ensures TargetsOk(CompS(For(id, x, it, body), base, Some(b), Some(c)), n)
    decreases SizeS(For(id, x, it, body)), 0
  {
    hide CompE, CompSs, LenSs, CompLoop, TargetsOk, CompForInit;
    ForLens(id, x);
    PlainPieces(id, x);
    LoopTargets(ForCond(id), [ForHead(id, x)], body, [ForStep(id)], base + |CompE(it)| + 3, n);
    InitTargets(id, it, n);
    TargetsJoin(CompForInit(id, it),
                CompLoop(ForCond(id), [ForHead(id, x)], body, [ForStep(id)], base + |CompE(it)| + 3), n);
  }

  lemma PlainPieces(id: nat, x: Ident)
    ensures LoopsOkAll([ForHead(id, x)], false) && LoopsOkAll([ForStep(id)], false)
  {
    assert [ForHead(id, x)][1..] == [] && [ForStep(id)][1..] == [];
  }

  lemma InitTargets(id: nat, it: Expr, n: nat)
    ensures TargetsOk(CompForInit(id, it), n)
  {
    hide CompE;
    ExprTargets(it, n);
  }

  lemma {:induction false} TryTargets(body: seq<Stmt>, name: Option<Ident>, catch: Branch, fin: Branch, base: nat,
                                      b: nat, c: nat, n: nat)
    requires b <= n && c <= n && base + LenS(Try(body, name, catch, fin)) <= n
    ensures TargetsOk(CompS(Try(body, name, catch, fin), base, Some(b), Some(c)), n)
    decreases SizeS(Try(body, name, catch, fin)), 0
  {
    hide CompSs, LenSs, CompBlock, CompFinally, TargetsOk;
    var catchAt := base + LenSs(body) + 3;
    var finAt := catchAt + (if catch.Block? then LenSs(catch.body) + 2 else 0);
    var end := base + LenS(Try(body, name, catch, fin));
    var push := PushTry(if catch.Block? then Some(catchAt) else None, if fin.Block? then Some(finAt) else None, name);
    var k := if catch.Block? then CompBlock(catch.body, catchAt, EndCatchBlock, end, Some(b), Some(c)) else [];
    var q := if fin.Block? then CompFinally(fin.body, finAt, Some(b), Some(c)) else [];
    BlockTargets(body, base + 1, EndTryBlock, end, b, c, n);
    NoTargets(n);
    if catch.Block? { BlockTargets(catch.body, catchAt, EndCatchBlock, end, b, c, n); }
    if fin.Block? { FinallyTargets(fin.body, finAt, b, c, n); }
    OneTarget(push, n);
    TargetsJoin(k, q, n);
    TargetsJoin(CompBlock(body, base + 1, EndTryBlock, end, Some(b), Some(c)), k + q, n);
    TargetsJoin([push], CompBlock(body, base + 1, EndTryBlock, end, Some(b), Some(c)) + (k + q), n);
  }

  lemma OneTarget(i: Instr, n: nat)
    requires TargetOk(i, n)
    ensures TargetsOk([i], n)
  {
  }

  lemma {:induction false} BlockTargets(body: seq<Stmt>, base: nat, i: Instr, end: nat, b: nat, c: nat, n: nat)
    requires b <= n && c <= n && base + LenSs(body) <= n && end <= n && (i.EndTryBlock? || i.EndCatchBlock?)
    ensures TargetsOk(CompBlock(body, base, i, end, Some(b), Some(c)), n)
    decreases SizeSs(body), 1
  {
    hide CompSs;
    StmtsTargets(body, base, b, c, n);
  }

  lemma {:induction false} FinallyTargets(fin: seq<Stmt>, base: nat, b: nat, c: nat, n: nat)
    requires b <= n && c <= n && base + 1 + LenSs(fin) <= n
    ensures TargetsOk(CompFinally(fin, base, Some(b), Some(c)), n)
    decreases SizeSs(fin), 1
  {
    hide CompSs;
    StmtsTargets(fin, base + 1, b, c, n);
  }

  // The backward scan for the jump after `pegue`.

  /** The position of the last jump that is still a hole, or -1. */
  function LastHole(code: seq<Instr>): (r: int)
    ensures -1 <= r < |code|
  {
    if code == [] then -1
    else if code[|code| - 1] == Jump(None) then |code| - 1
    else LastHole(code[..|code| - 1])
  }

  lemma {:induction false} LastHoleIs(code: seq<Instr>)
    ensures var r := LastHole(code);
            && (r >= 0 ==> code[r] == Jump(None))
            && forall k :: r < k < |code| ==> code[k] != Jump(None)
  {
    if code != [] && code[|code| - 1] != Jump(None) {
      LastHoleIs(code[..|code| - 1]);
    }
  }

  /** In the code of a `tente` with `pegue` and `finalmente`, the scan finds the jump
      after `pegue` exactly when `finalmente` has no loop jump of its own. */
  lemma ScanFindsItsJump(before: seq<Instr>, fin: seq<Stmt>)
    ensures LastHole(before + [Jump(None)] + CompFinally(fin, |before| + 1, None, None)) == |before|
       <==> !OwnJumpAny(fin)
  {
    hide CompSs, LenSs, LastHole, CompFinally, OwnJumpAny;
    ScanAt(before, CompFinally(fin, |before| + 1, None, None));
    FinallyHoles(fin, |before| + 1);
  }

  predicate HasHole(code: seq<Instr>) {
    exists k :: 0 <= k < |code| && code[k] == Jump(None)
  }

  lemma ScanAt(before: seq<Instr>, tail: seq<Instr>)
    ensures LastHole(before + [Jump(None)] + tail) == |before| <==> !HasHole(tail)
  {
    hide LastHole;
    var code := before + [Jump(None)] + tail;
    var at := |before| + 1;
    LastHoleIs(code);
    assert code[|before|] == Jump(None);
    assert forall k :: 0 <= k < |tail| ==> code[at + k] == tail[k];
    if HasHole(tail) {
      var k :| 0 <= k < |tail| && tail[k] == Jump(None);
      assert code[at + k] == Jump(None);
    }
  }

  lemma FinallyHoles(fin: seq<Stmt>, base: nat)
    ensures HasHole(CompFinally(fin, base, None, None)) <==> OwnJumpAny(fin)
  {
    hide CompSs, LenSs;
    var q := CompSs(fin, base + 1, None, None);
    var tail := CompFinally(fin, base, None, None);
    HolesOf(fin, base + 1);
    assert forall k :: 0 <= k < |q| ==> tail[k + 1] == q[k];
    if HasHole(tail) {
      var k :| 0 <= k < |tail| && tail[k] == Jump(None);
      assert 0 < k < |tail| - 1 && q[k - 1] == tail[k];
    }
    if HasHole(q) {
      var k :| 0 <= k < |q| && q[k] == Jump(None);
      assert tail[k + 1] == q[k];
    }
  }

  /** A hole is left in the code of statements exactly when a loop jump leaves them. */
  lemma HolesOf(ss: seq<Stmt>, base: nat)
    ensures var code := CompSs(ss, base, None, None);
            OwnJumpAny(ss) <==> HasHole(code)
  {
    hide CompSs, LenSs, HolesAll;
    var code, full := CompSs(ss, base, None, None), CompSs(ss, base, Some(0), Some(0));
    var js := HolesAll(ss, base);
    OwnJumpHasHoles(ss, base);
    FilledAll(ss, base, Some(0), Some(0));
    StmtsTargets(ss, base, 0, 0, base + LenSs(ss));
    if OwnJumpAny(ss) {
      var p := if js.breaks != [] then js.breaks[0] else js.conts[0];
      assert p in js.breaks || p in js.conts;
      assert code[p - base] == Jump(None);
    } else {
      forall k | 0 <= k < |code| ensures code[k] != Jump(None) {
        assert full[k] == code[k] && TargetOk(full[k], base + LenSs(ss));
      }
    }
  }

  // Facts for loops that go through lists of sub-terms one at a time.

  lemma {:induction false} CompEsJoin(a: seq<Expr>, b: seq<Expr>)
    ensures CompEs(a + b) == CompEs(a) + CompEs(b)
    decreases |a|
  {
    if a == [] {
      assert a + b == b;
    } else {
      assert (a + b)[1..] == a[1..] + b;
      CompEsJoin(a[1..], b);
    }
  }

  lemma CompEsNone()
    ensures CompEs([]) == []
  {
  }

  lemma FlattenNone()
    ensures CompEs(Flatten([])) == []
  {
  }

  lemma CompEsOne(e: Expr)
    ensures CompEs([e]) == CompE(e)
  {
    assert [e][1..] == [];
  }

  lemma {:induction false} CompEsSnoc(es: seq<Expr>, k: nat)
    requires k < |es|
    ensures CompEs(es[..k + 1]) == CompEs(es[..k]) + CompE(es[k])
    ensures SizeE(es[k]) < SizeEs(es)
  {
    assert es[..k + 1] == es[..k] + [es[k]];
    CompEsJoin(es[..k], [es[k]]);
    CompEsOne(es[k]);
    SizeAt(es, k);
  }

  lemma {:induction false} SizeAt(es: seq<Expr>, k: nat)
    requires k < |es|
    ensures SizeE(es[k]) < SizeEs(es)
  {
    if k > 0 { SizeAt(es[1..], k - 1); }
  }

  lemma CompPair(a: Expr, b: Expr)
    ensures CompEs([a, b]) == CompE(a) + CompE(b)
  {
    assert [a, b] == [a] + [b];
    CompEsJoin([a], [b]);
    CompEsOne(a);
    CompEsOne(b);
  }

  lemma {:induction false} FlattenSnoc(entries: seq<Entry>, k: nat)
    requires k < |entries|
    ensures CompEs(Flatten(entries[..k + 1]))
         == CompEs(Flatten(entries[..k])) + CompE(entries[k].key) + CompE(entries[k].val)
    ensures SizeE(entries[k].key) < SizeEntries(entries) && SizeE(entries[k].val) < SizeEntries(entries)
  {
    assert entries[..k + 1] == entries[..k] + [entries[k]];
    FlattenJoin(entries[..k], [entries[k]]);
    assert Flatten([entries[k]]) == [entries[k].key, entries[k].val];
    CompEsJoin(Flatten(entries[..k]), [entries[k].key, entries[k].val]);
    CompPair(entries[k].key, entries[k].val);
    EntrySizeAt(entries, k);
  }

  lemma {:induction false} FlattenJoin(a: seq<Entry>, b: seq<Entry>)
    ensures Flatten(a + b) == Flatten(a) + Flatten(b)
    decreases |a|
  {
    if a == [] {
      assert a + b == b;
    } else {
      assert (a + b)[1..] == a[1..] + b;
      FlattenJoin(a[1..], b);
    }
  }

  lemma {:induction false} EntrySizeAt(entries: seq<Entry>, k: nat)
    requires k < |entries|
    ensures SizeE(entries[k].key) < SizeEntries(entries) && SizeE(entries[k].val) < SizeEntries(entries)
  {
    if k > 0 { EntrySizeAt(entries[1..], k - 1); }
  }

  /** The test, head and step of a `para` loop, spelled out. */
  lemma ForPieces(id: nat, x: Ident)
    ensures CompE(ForCond(id)) == [LoadName(ForIdx(id)), LoadName(User("tamanho")), LoadName(ForIter(id)), CallFn(1),
                                   CompareOp(Lt)]
    ensures CompSs([ForHead(id, x)], 0, None, None)
         == [LoadName(ForIter(id)), LoadName(ForIdx(id)), BinarySubscr, StoreName(x)]
    ensures CompSs([ForStep(id)], 0, None, None)
         == [LoadName(ForIdx(id)), LoadConst(VInt(1)), Binary(Add), StoreName(ForIdx(id))]
    ensures forall base :: CompSs([ForHead(id, x)], base, None, None) == CompSs([ForHead(id, x)], 0, None, None)
    ensures forall base :: CompSs([ForStep(id)], base, None, None) == CompSs([ForStep(id)], 0, None, None)
  {
    var idx, iter, len := Name(ForIdx(id)), Name(ForIter(id)), Name(User("tamanho"));
    var call := Call(len, [iter]);
    assert Parts(idx) == [] && Parts(iter) == [] && Parts(len) == [] && Parts(Lit(VInt(1))) == [];
    assert CompE(idx) == [LoadName(ForIdx(id))] && CompE(iter) == [LoadName(ForIter(id))]
           && CompE(len) == [LoadName(User("tamanho"))];
    assert Parts(call) == [len, iter];
    CompPair(len, iter);
    assert CompE(call) == [LoadName(User("tamanho")), LoadName(ForIter(id)), CallFn(1)];
    CompPair(idx, call);
    CompPair(iter, idx);
    CompPair(idx, Lit(VInt(1)));
    assert CompE(ForHead(id, x).e) == [LoadName(ForIter(id)), LoadName(ForIdx(id)), BinarySubscr];
    assert CompE(ForStep(id).e) == [LoadName(ForIdx(id)), LoadConst(VInt(1)), Binary(Add)];
    forall base: nat
      ensures CompSs([ForHead(id, x)], base, None, None) == CompE(ForHead(id, x).e) + [StoreName(x)]
      ensures CompSs([ForStep(id)], base, None, None) == CompE(ForStep(id).e) + [StoreName(ForIdx(id))]
    {
      OneStmt(ForHead(id, x), base);
      OneStmt(ForStep(id), base);
    }
  }

  lemma OneStmt(s: Stmt, base: nat)
    requires s.Assign?
    ensures CompSs([s], base, None, None) == CompE(s.e) + [StoreName(s.x)]
  {
    assert [s][1..] == [];
  }

  /** One more statement of a list: its code, holes and functions come last. */
  lemma {:induction false} SnocCode(ss: seq<Stmt>, k: nat, base: nat)
    requires k < |ss|
    ensures CompSs(ss[..k + 1], base, None, None)
         == CompSs(ss[..k], base, None, None) + CompS(ss[k], base + LenSs(ss[..k]), None, None)
    decreases k
  {
    hide CompS, LenS;
    if k == 0 {
      assert ss[..1] == [ss[0]] && [ss[0]][1..] == [] && ss[..0] == [];
    } else {
      assert ss[..k + 1][1..] == ss[1..][..k] && ss[..k][1..] == ss[1..][..k - 1];
      SnocCode(ss[1..], k - 1, base + LenS(ss[0]));
      assert base + LenS(ss[0]) + LenSs(ss[1..][..k - 1]) == base + LenSs(ss[..k]);
    }
  }

  lemma {:induction false} SnocHoles(ss: seq<Stmt>, k: nat, base: nat)
    requires k < |ss|
    ensures HolesAll(ss[..k + 1], base) == Join(HolesAll(ss[..k], base), Holes(ss[k], base + LenSs(ss[..k])))
    decreases k
  {
    hide Holes, LenS;
    if k == 0 {
      assert ss[..1] == [ss[0]] && [ss[0]][1..] == [] && ss[..0] == [];
      JoinNone(Holes(ss[0], base));
    } else {
      assert ss[..k + 1][1..] == ss[1..][..k] && ss[..k][1..] == ss[1..][..k - 1];
      SnocHoles(ss[1..], k - 1, base + LenS(ss[0]));
      assert base + LenS(ss[0]) + LenSs(ss[1..][..k - 1]) == base + LenSs(ss[..k]);
    }
  }

  lemma {:induction false} SnocFns(ss: seq<Stmt>, k: nat)
    requires k < |ss|
    ensures FnsAll(ss[..k + 1]) == FnsAll(ss[..k]) + Fns(ss[k])
    decreases k
  {
    hide Fns;
    if k == 0 {
      assert ss[..1] == [ss[0]] && [ss[0]][1..] == [] && ss[..0] == [];
    } else {
      assert ss[..k + 1][1..] == ss[1..][..k] && ss[..k][1..] == ss[1..][..k - 1];
      SnocFns(ss[1..], k - 1);
    }
  }

  /** The counters after the first `k` statements. */
  function CountersAt(ss: seq<Stmt>, c: Counters, k: nat): Counters
    requires k <= |ss|
  {
    NumberAll(ss[..k], c).1
  }

  lemma {:induction false} NumberedAt(ss: seq<Stmt>, c: Counters, k: nat)
    requires k < |ss|
    ensures NumberAll(ss, c).0[k] == Number(ss[k], CountersAt(ss, c, k)).0
    ensures CountersAt(ss, c, k + 1) == Number(ss[k], CountersAt(ss, c, k)).1
    decreases k
  {
    if k == 0 {
      assert ss[..1] == [ss[0]] && ss[..0] == [] && [ss[0]][1..] == [];
      assert NumberAll([], c).1 == c && NumberAll([], Number(ss[0], c).1).1 == Number(ss[0], c).1;
    } else {
      var c' := Number(ss[0], c).1;
      NumberedAt(ss[1..], c', k - 1);
      assert ss[..k][1..] == ss[1..][..k - 1] && ss[..k + 1][1..] == ss[1..][..k];
    }
  }

  lemma TableJoin(a: map<nat, Semantics.FnDecl>, b: map<nat, Semantics.FnDecl>)
    ensures Table(a + b) == Table(a) + Table(b)
  {
  }

  /** Code whose jumps, patched, are those of other code. */
  ghost predicate PatchedTo(code: seq<Instr>, js: Jumps, brk: nat, cnt: nat, full: seq<Instr>) {
    && (forall p :: p in js.breaks ==> p < |code|) && (forall p :: p in js.conts ==> p < |code|)
    && PatchAll(PatchAll(code, js.breaks, brk), js.conts, cnt) == full
  }

  /** Patching the jumps of a body, in the middle of other code. */
  lemma PatchMiddle(a: seq<Instr>, hole: seq<Instr>, full: seq<Instr>, b: seq<Instr>, js: Jumps, brk: nat, cnt: nat)
    requires Filled(hole, full, js, |a|, Some(brk), Some(cnt))
    ensures PatchedTo(a + hole + b, js, brk, cnt, a + full + b)
  {
    hide PatchAll;
    var code := a + hole + b;
    var once := PatchAll(code, js.breaks, brk);
    var twice := PatchAll(once, js.conts, cnt);
    forall p | 0 <= p < |code| ensures twice[p] == (a + full + b)[p] {
      PatchedAt(code, js.breaks, brk, p);
      PatchedAt(once, js.conts, cnt, p);
      if |a| <= p < |a| + |hole| {
        assert code[p] == hole[p - |a|] && (a + full + b)[p] == full[p - |a|];
      }
    }
    assert twice == a + full + b;
  }

  /** A loop's raw code, its jumps patched, is the code of the loop. */
  lemma LoopPatched(before: seq<Instr>, cond: Expr, pre: seq<Stmt>, body: seq<Stmt>, post: seq<Stmt>, base: nat,
                    bodyAt: nat, exit: nat)
    requires base == |before| && bodyAt == base + |CompE(cond)| + 1 + LenSs(pre)
             && exit == base + LenLoop(cond, pre, body, post)
    ensures |before| + |CompE(cond)| < |RawLoop(before, cond, pre, body, post)|
    ensures PatchedTo(RawLoop(before, cond, pre, body, post)[base + |CompE(cond)| := JumpIfFalse(Some(exit))],
                      HolesAll(body, bodyAt), exit, base,
                      before + CompLoop(cond, pre, body, post, base))
  {
    hide CompE, CompSs, LenSs, HolesAll, PatchAll, Filled, PatchedTo;
    var preAt := base + |CompE(cond)| + 1;
    var hole, full := CompSs(body, bodyAt, None, None), CompSs(body, bodyAt, Some(exit), Some(base));
    var test := [JumpIfFalse(Some(exit))];
    var p, q := CompSs(pre, preAt, None, None), CompSs(post, bodyAt + LenSs(body), None, None) + [Jump(Some(base))];
    FilledAll(body, bodyAt, Some(exit), Some(base));
    var a := before + CompE(cond) + test + p;
    PatchMiddle(a, hole, full, q, HolesAll(body, bodyAt), exit, base);
    RawParts(before + CompE(cond), JumpIfFalse(Some(exit)), p, hole, CompSs(post, bodyAt + LenSs(body), None, None),
             Jump(Some(base)));
    assert before + (CompE(cond) + (test + (p + (full + q)))) == a + full + q;
  }

  lemma RawParts(a: seq<Instr>, test: Instr, p: seq<Instr>, b: seq<Instr>, q: seq<Instr>, back: Instr)
    ensures (a + [JumpIfFalse(None)] + p + b + q + [back])[|a| := test] == (a + [test] + p) + b + (q + [back])
  {
  }

  /** A loop as it is first emitted: the exit test and the body's jumps are holes. */
  function RawLoop(before: seq<Instr>, cond: Expr, pre: seq<Stmt>, body: seq<Stmt>, post: seq<Stmt>): seq<Instr> {
    var base := |before|;
    var preAt := base + |CompE(cond)| + 1;
    var bodyAt := preAt + LenSs(pre);
    before + CompE(cond) + [JumpIfFalse(None)] + CompSs(pre, preAt, None, None) + CompSs(body, bodyAt, None, None)
    + CompSs(post, bodyAt + LenSs(body), None, None) + [Jump(Some(base))]
  }
}
