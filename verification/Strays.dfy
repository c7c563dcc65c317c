/** What compiling does whether or not the backward scan finds its jump: what was emitted
    before stays, and a scan that finds another jump leaves a hole that nobody fills. */
module Strays {
  import opened Syntax
  import opened Bytecode
  import opened Lowering
  import opened CompilerState

  predicate Hole(code: seq<Instr>, p: nat) {
    p < |code| && code[p] == Jump(None)
  }

  predicate InPatch(l: LoopPatch, p: nat) {
    p in l.breakJumps || p in l.continueJumps
  }

  /** Is the jump at `p` waiting for the end or the start of an open loop? */
  ghost predicate Waits(loops: seq<LoopPatch>, p: nat) {
    exists k :: 0 <= k < |loops| && InPatch(loops[k], p)
  }

  /** What is recorded has been emitted, and functions are numbered up to the counter. */
  ghost predicate RecordsOk(st: State) {
    && (forall p: nat :: Waits(st.loops, p) ==> p < |st.code|)
    && forall id :: id in st.functions ==> id <= st.counters.fn
  }

  /** Functions finished later have larger numbers. */
  ghost predicate FnsGrown(a: State, b: State) {
    && a.counters.fn <= b.counters.fn
    && (forall id :: id in a.functions ==> id in b.functions && b.functions[id] == a.functions[id])
    && forall id :: id in b.functions ==> id in a.functions || a.counters.fn < id <= b.counters.fn
  }

  ghost predicate LoopsGrown(a: seq<LoopPatch>, b: seq<LoopPatch>, from: nat) {
    |a| == |b| && forall k: nat, p: nat :: 0 <= k < |b| && InPatch(b[k], p) ==> InPatch(a[k], p) || p >= from
  }

  /** Code is only added, and only added jumps are recorded. */
  ghost predicate Grown(a: State, b: State) {
    && |a.code| <= |b.code| && b.code[..|a.code|] == a.code
    && LoopsGrown(a.loops, b.loops, |a.code|) && FnsGrown(a, b)
  }

  ghost predicate FnHole(functions: map<nat, FnCode>) {
    exists id, p :: id in functions && Hole(functions[id].code, p)
  }

  ghost predicate AddedHole(a: State, b: State) {
    exists p :: |a.code| <= p && Hole(b.code, p)
  }

  /** A hole among the added instructions that no loop will fill. */
  ghost predicate Lost(a: State, b: State) {
    exists p :: |a.code| <= p && Hole(b.code, p) && !Waits(b.loops, p)
  }

  /** From `a` to `b` some statements were compiled: unless the scan is `good` for them, a hole
      is lost; if a loop `jump` leaves them, there is a hole. */
  ghost predicate Did(a: State, b: State, good: bool, jump: bool) {
    && Grown(a, b) && RecordsOk(b) && (!good ==> Lost(a, b) || FnHole(b.functions)) && (jump ==> AddedHole(a, b))
  }

  lemma DidNothing(a: State)
    requires RecordsOk(a)
    ensures Did(a, a, true, false)
  {
    assert a.code[..|a.code|] == a.code;
  }

  lemma StillHoles(a: State, b: State, c: State)
    requires Grown(a, b) && Grown(b, c)
    ensures AddedHole(a, b) ==> AddedHole(a, c)
    ensures FnHole(b.functions) ==> FnHole(c.functions)
    ensures Lost(a, b) ==> Lost(a, c)
    ensures AddedHole(b, c) ==> AddedHole(a, c)
    ensures Lost(b, c) ==> Lost(a, c)
  {
    if p :| |a.code| <= p && Hole(b.code, p) { StillHole(b, c, p); }
    if p :| |a.code| <= p && Hole(b.code, p) && !Waits(b.loops, p) { StillHole(b, c, p); }
    if id, p :| id in b.functions && Hole(b.functions[id].code, p) { assert Hole(c.functions[id].code, p); }
    if p :| |b.code| <= p && Hole(c.code, p) { assert |a.code| <= p; }
    if p :| |b.code| <= p && Hole(c.code, p) && !Waits(c.loops, p) { assert |a.code| <= p; }
  }

  lemma StillHole(b: State, c: State, p: nat)
    requires Grown(b, c) && Hole(b.code, p)
    ensures Hole(c.code, p) && (!Waits(b.loops, p) ==> !Waits(c.loops, p))
  {
    assert c.code[p] == c.code[..|b.code|][p];
    if k :| 0 <= k < |c.loops| && InPatch(c.loops[k], p) { assert InPatch(b.loops[k], p); }
  }

  lemma GrownBoth(a: State, b: State, c: State)
    requires Grown(a, b) && Grown(b, c)
    ensures Grown(a, c)
  {
    assert c.code[..|a.code|] == c.code[..|b.code|][..|a.code|];
    forall k: nat, p: nat | 0 <= k < |c.loops| && InPatch(c.loops[k], p)
      ensures InPatch(a.loops[k], p) || p >= |a.code| {
      assert InPatch(b.loops[k], p) || p >= |b.code|;
    }
  }

  /** One piece after another. */
  lemma DidBoth(a: State, b: State, c: State, good: bool, jump: bool, good': bool, jump': bool)
    requires Did(a, b, good, jump) && Did(b, c, good', jump')
    ensures Did(a, c, good && good', jump || jump')
  {
    hide Grown, RecordsOk, FnHole, AddedHole, Lost;
    StillHoles(a, b, c);
    GrownBoth(a, b, c);
  }

  lemma DidCode(a: State, b: State, code: seq<Instr>)
    requires RecordsOk(a) && b.code == a.code + code && b.loops == a.loops && FnsGrown(a, b)
    ensures Did(a, b, true, false)
  {
  }

  lemma DidTwo(a: State, b: State, x: seq<Instr>, y: seq<Instr>)
    requires RecordsOk(a) && b == a.(code := a.code + x + y)
    ensures Did(a, b, true, false) && Grown(a, b) && RecordsOk(b)
  {
    assert b.code == a.code + (x + y);
    DidCode(a, b, x + y);
  }

  lemma DidRecords(a: State, b: State, good: bool, jump: bool)
    requires Did(a, b, good, jump)
    ensures RecordsOk(b) && Grown(a, b) && |b.loops| == |a.loops| && |b.code| >= |a.code|
  {
  }

  lemma StillThere(a: State, b: State, p: nat, good: bool, jump: bool)
    requires Did(a, b, good, jump) && p < |a.code|
    ensures p < |b.code| && b.code[p] == a.code[p] && |b.loops| == |a.loops| && |b.code| >= |a.code| && RecordsOk(b)
  {
    SameBefore(a, b, p);
  }

  lemma PatchedRecords(a: State, at: nat, b: State)
    requires RecordsOk(a) && |b.code| == |a.code| && b == a.(code := b.code)
    ensures RecordsOk(b)
  {
  }

  lemma OpenedLoop(a: State, b: State, code: seq<Instr>, start: nat)
    requires RecordsOk(a) && b.code == a.code + code && b.loops == a.loops + [LoopPatch(start, [], [])]
    requires b.functions == a.functions && b.counters.fn == a.counters.fn
    ensures RecordsOk(b) && b.code[..|a.code|] == a.code && FnsGrown(a, b)
  {
    forall p: nat | Waits(b.loops, p) ensures p < |b.code| {
      var k: nat :| k < |b.loops| && InPatch(b.loops[k], p);
      assert Waits(a.loops, p) by { assert InPatch(a.loops[k], p); }
    }
  }

  /** Every recorded jump has been emitted. */
  ghost predicate Recorded(st: State) {
    forall k, p :: 0 <= k < |st.loops| && (p in st.loops[k].breakJumps || p in st.loops[k].continueJumps)
                   ==> p < |st.code|
  }

  lemma RecordsValid(st: State)
    requires RecordsOk(st)
    ensures Recorded(st)
  {
    forall k, p | 0 <= k < |st.loops| && (p in st.loops[k].breakJumps || p in st.loops[k].continueJumps)
      ensures p < |st.code| {
      assert InPatch(st.loops[k], p) && Waits(st.loops, p);
    }
  }

  lemma MoreRecords(a: State, b: State)
    requires RecordsOk(a) && |b.code| >= |a.code| && b == a.(code := b.code)
    ensures RecordsOk(b)
    ensures Recorded(b)
  {
    RecordsValid(a);
  }

  lemma StagesDone(s: Stages, name: Option<Ident>, hasCatch: bool)
    requires RecordsOk(s.a) && s.m0 == Emitted(s.a, PushTry(None, None, name))
    requires Grown(s.m0, s.b1) && RecordsOk(s.b1) && s.m1 == WithJump(s.b1, EndTryBlock)
    requires if hasCatch then Grown(s.m1, s.b2) && RecordsOk(s.b2) && s.m2 == WithJump(s.b2, EndCatchBlock)
             else s.b2 == s.m1 && s.m2 == s.m1
    requires Grown(s.m2, s.m3) && RecordsOk(s.m3)
    ensures StagesOk(s, name, hasCatch)
  {
  }

  lemma StagesMore(s: Stages, m3: State, name: Option<Ident>, hasCatch: bool, good: bool, jump: bool)
    requires StagesOk(s, name, hasCatch) && Did(s.m2, m3, good, jump)
    ensures StagesOk(s.(m3 := m3), name, hasCatch)
  {
  }

  lemma FreshFunction(a: State, b: State)
    requires RecordsOk(a) && b == State([], [], a.counters.(fn := a.counters.fn + 1), a.functions)
    ensures RecordsOk(b)
  {
  }

  lemma JumpDone(a: State, b: State, i: Instr, good: bool, jump: bool)
    requires Did(a, b, good, jump)
    ensures Grown(a, b) && RecordsOk(b) && RecordsOk(WithJump(b, i)) && |b.loops| == |a.loops| && |b.code| >= |a.code|
    ensures WithJump(b, i).loops == b.loops && |WithJump(b, i).code| == |b.code| + 2
  {
    JumpGrown(b, i);
  }

  lemma LostStays(a: State, b: State, i: Instr)
    ensures Lost(a, b) ==> HasHole(b.code + [i])
  {
    if p: nat :| |a.code| <= p && Hole(b.code, p) && !Waits(b.loops, p) { assert (b.code + [i])[p] == b.code[p]; }
  }

  /** A piece of code behind it. */
  lemma DidBefore(a: State, b: State, c: State, code: seq<Instr>, good: bool, jump: bool)
    requires Did(a, b, good, jump) && c == b.(code := b.code + code)
    ensures Did(a, c, good, jump)
  {
    assert RecordsOk(b);
    hide Did, RecordsOk;
    DidCode(b, c, code);
    DidBoth(a, b, c, good, jump, true, false);
  }

  /** An instruction in front of a piece is patched after it. */
  lemma DidPatched(a: State, b: State, c: State, at: nat, i: Instr, good: bool, jump: bool)
    requires Grown(a, b) && Did(b, c, good, jump) && |a.code| <= at < |b.code|
    ensures at < |c.code| && Did(a, Patched(c, at, i), good, jump)
  {
    var d := Patched(c, at, i);
    GrownBoth(a, b, c);
    assert d.code[..|a.code|] == c.code[..|a.code|];
    if p :| |b.code| <= p && Hole(c.code, p) { assert Hole(d.code, p); }
    if p :| |b.code| <= p && Hole(c.code, p) && !Waits(c.loops, p) { assert Hole(d.code, p) && !Waits(d.loops, p); }
  }

  /** A loop: only what it recorded is patched when it is closed. */
  lemma DidLoop(a: State, b: State, c: State, code: seq<Instr>, jexit: nat, good: bool, jump: bool)
    requires RecordsOk(a) && |a.code| <= jexit < |b.code| && b.code[..|a.code|] == a.code && FnsGrown(a, b)
    requires exists start :: b.loops == a.loops + [LoopPatch(start, [], [])]
    requires Did(b, c, good, jump)
    ensures var d := c.(code := c.code + code);
            Closable(d, jexit) && Did(a, Closed(d, jexit), good, false)
  {
    var d := c.(code := c.code + code);
    var k := |a.loops|;
    var l := c.loops[k];
    forall p: nat | InPatch(l, p) ensures |b.code| <= p < |c.code| {
      assert Waits(c.loops, p);
      assert !InPatch(b.loops[k], p);
    }
    assert forall p :: p in l.breakJumps || p in l.continueJumps ==> InPatch(l, p);
    var e := Closed(d, jexit);
    var exited := d.code[jexit := WithTarget(d.code[jexit], |d.code|)];
    forall p: nat | p < |d.code| && p != jexit && !InPatch(l, p) ensures e.code[p] == d.code[p] {
      PatchedAt(exited, l.breakJumps, |d.code|, p);
      PatchedAt(PatchAll(exited, l.breakJumps, |d.code|), l.continueJumps, l.startIp, p);
    }
    assert e.loops == c.loops[..k];
    LoopGrown(a, b, c, d, e, l, jexit);
    if p :| |b.code| <= p && Hole(c.code, p) && !Waits(c.loops, p) {
      assert !InPatch(l, p);
      assert Hole(e.code, p) && d.code[p] == c.code[p];
      assert forall j :: 0 <= j < |e.loops| ==> e.loops[j] == c.loops[j];
      assert !Waits(e.loops, p);
    }
  }

  lemma LoopGrown(a: State, b: State, c: State, d: State, e: State, l: LoopPatch, jexit: nat)
    requires RecordsOk(a) && |a.code| <= jexit < |b.code| && b.code[..|a.code|] == a.code && FnsGrown(a, b)
    requires |b.loops| == |a.loops| + 1 && b.loops[..|a.loops|] == a.loops && Grown(b, c) && RecordsOk(c)
    requires |d.code| >= |c.code| && d.code[..|c.code|] == c.code && |e.code| == |d.code|
             && e.loops == c.loops[..|a.loops|]
    requires e.functions == c.functions && e.counters == c.counters
    requires forall p: nat :: InPatch(l, p) ==> |b.code| <= p
    requires forall p: nat :: p < |d.code| && p != jexit && !InPatch(l, p) ==> e.code[p] == d.code[p]
    ensures Grown(a, e) && RecordsOk(e)
  {
    forall p: nat | p < |a.code| ensures e.code[p] == a.code[p] {
      assert d.code[p] == d.code[..|c.code|][p] == c.code[p] == c.code[..|b.code|][p] == b.code[p]
          == b.code[..|a.code|][p];
    }
    assert e.code[..|a.code|] == a.code;
    forall k: nat, p: nat | 0 <= k < |e.loops| && InPatch(e.loops[k], p)
      ensures p < |e.code| && (InPatch(a.loops[k], p) || p >= |a.code|) {
      assert InPatch(c.loops[k], p) && Waits(c.loops, p);
      assert InPatch(b.loops[k], p) || p >= |b.code|;
      assert b.loops[k] == a.loops[k];
    }
  }

  /** A `pare` or `continue`: its jump is recorded at the innermost loop. */
  lemma DidJump(a: State, b: State)
    requires RecordsOk(a) && a.loops != [] && b == a.(code := a.code + [Jump(None)], loops := b.loops)
             && |b.loops| == |a.loops|
    requires var k := |a.loops| - 1;
             && b.loops[..k] == a.loops[..k]
             && forall p: nat :: InPatch(b.loops[k], p) ==> InPatch(a.loops[k], p) || p == |a.code|
    ensures Did(a, b, true, true)
  {
    var k := |a.loops| - 1;
    assert Hole(b.code, |a.code|);
    forall j: nat, p: nat | j < |b.loops| && InPatch(b.loops[j], p) ensures InPatch(a.loops[j], p) || p == |a.code| {
      if j < k { assert b.loops[j] == b.loops[..k][j] == a.loops[..k][j]; }
    }
    forall p: nat | Waits(b.loops, p) ensures p < |b.code| {
      var j: nat :| j < |b.loops| && InPatch(b.loops[j], p);
      if p != |a.code| { assert Waits(a.loops, p); }
    }
  }

  /** A function: its body is compiled on its own and stored under the next number. */
  lemma DidFunction(a: State, i0: State, i1: State, b: State,
                    code: seq<Instr>, params: seq<Ident>, tail: seq<Instr>, good: bool, jump: bool)
    requires RecordsOk(a) && i0 == State([], [], a.counters.(fn := a.counters.fn + 1), a.functions)
             && Did(i0, i1, good, jump)
    requires b == State(a.code + code, a.loops, i1.counters,
                        i1.functions[a.counters.fn + 1 := FnCode(params, i1.code + tail)])
    ensures Did(a, b, good, false)
  {
    var id := a.counters.fn + 1;
    assert id !in i1.functions;
    assert FnsGrown(a, b);
    DidCode(a, b, code);
    if p: nat :| Hole(i1.code, p) { assert Hole(b.functions[id].code, p); }
    if j, p :| j in i1.functions && Hole(i1.functions[j].code, p) { assert Hole(b.functions[j].code, p); }
  }

  // The scan of a `tente`.

  function WithJump(b: State, i: Instr): State {
    b.(code := b.code + [i] + [Jump(None)])
  }

  /** What is left of the holes after the patches of a `tente`: those before the jump after
      `pegue` stay; if there is one after it, that jump stays a hole. */
  lemma TryHoles(code: seq<Instr>, push: nat, j1: nat, jc: nat, hasCatch: bool, catchIp: Option<nat>,
                 finIp: Option<nat>, name: Option<Ident>)
    requires push < j1 <= jc < |code| && code[push].PushTry? && code[j1] == Jump(None)
    requires if hasCatch then j1 < jc && code[jc] == Jump(None) else jc == j1
    ensures var r := TryPatched(code, push, j1, hasCatch, catchIp, finIp, name);
            && |r| == |code| && r[..push] == code[..push]
            && (forall p: nat :: push < p < jc && p != j1 && Hole(code, p) ==> Hole(r, p))
            && (forall p: nat :: jc < p && Hole(code, p) ==> if hasCatch then Hole(r, jc) else Hole(r, p))
  {
    hide LastHole;
    var once := code[j1 := WithTarget(code[j1], |code|)];
    LastHoleIs(once);
    if hasCatch { assert once[jc] == Jump(None); }
    forall p: nat | jc < p && Hole(code, p) ensures LastHole(once) >= p { assert once[p] == Jump(None); }
  }

  lemma JumpGrown(b: State, i: Instr)
    requires RecordsOk(b)
    ensures Grown(b, WithJump(b, i)) && RecordsOk(WithJump(b, i)) && WithJump(b, i).code[|b.code| + 1] == Jump(None)
    ensures !Waits(WithJump(b, i).loops, |b.code| + 1)
  {
  }

  lemma SameBefore(b: State, c: State, p: nat)
    requires Grown(b, c) && p < |b.code|
    ensures p < |c.code| && c.code[p] == b.code[p] && (!Waits(b.loops, p) ==> !Waits(c.loops, p))
  {
    assert c.code[p] == c.code[..|b.code|][p];
    if k: nat :| k < |c.loops| && InPatch(c.loops[k], p) { assert InPatch(b.loops[k], p); }
  }

  /** The states of a `tente`: before it, after its block, after `pegue` and its jump, at its end. */
  datatype Stages = Stages(a: State, m0: State, b1: State, m1: State, b2: State, m2: State, m3: State)

  ghost predicate StagesOk(s: Stages, name: Option<Ident>, hasCatch: bool) {
    && RecordsOk(s.a) && s.m0 == Emitted(s.a, PushTry(None, None, name))
    && Grown(s.m0, s.b1) && RecordsOk(s.b1) && s.m1 == WithJump(s.b1, EndTryBlock)
    && (if hasCatch then Grown(s.m1, s.b2) && RecordsOk(s.b2) && s.m2 == WithJump(s.b2, EndCatchBlock)
        else s.b2 == s.m1 && s.m2 == s.m1)
    && Grown(s.m2, s.m3) && RecordsOk(s.m3)
  }

  lemma StagesGrown(s: Stages, name: Option<Ident>, hasCatch: bool)
    requires StagesOk(s, name, hasCatch)
    ensures Grown(s.a, s.m3) && Grown(s.b1, s.m3) && Grown(s.b2, s.m3)
    ensures s.m0 == Emitted(s.a, PushTry(None, None, name))
    ensures |s.a.code| < |s.b1.code| + 1 < |s.m2.code| <= |s.m3.code| && |s.m1.code| <= |s.b2.code|
    ensures s.m3.code[|s.a.code|] == PushTry(None, None, name) && s.m3.code[|s.b1.code| + 1] == Jump(None)
    ensures hasCatch ==>
              |s.b2.code| + 2 == |s.m2.code| && s.m3.code[|s.m2.code| - 1] == Jump(None)
              && !Waits(s.m3.loops, |s.m2.code| - 1)
  {
    DidCode(s.a, s.m0, [PushTry(None, None, name)]);
    JumpGrown(s.b1, EndTryBlock);
    if hasCatch {
      JumpGrown(s.b2, EndCatchBlock);
      hide Grown, RecordsOk;
      GrownBoth(s.b1, s.m1, s.b2);
      GrownBoth(s.b1, s.b2, s.m2);
      GrownBoth(s.b2, s.m2, s.m3);
      SameBefore(s.m2, s.m3, |s.b2.code| + 1);
    }
    hide Grown, RecordsOk;
    GrownBoth(s.b1, s.m2, s.m3);
    GrownBoth(s.m0, s.b1, s.m3);
    GrownBoth(s.a, s.m0, s.m3);
    SameBefore(s.m0, s.m3, |s.a.code|);
    GrownBoth(s.m1, s.m2, s.m3);
    SameBefore(s.m1, s.m3, |s.b1.code| + 1);
  }

  lemma DidTry(s: Stages, d: State, name: Option<Ident>, hasCatch: bool, catchIp: Option<nat>, finIp: Option<nat>,
               good1: bool, jump1: bool, good2: bool, jump2: bool, good3: bool, jump3: bool)
    requires StagesOk(s, name, hasCatch)
    requires Did(s.m0, s.b1, good1, jump1) && Did(s.m1, s.b2, good2, jump2) && Did(s.m2, s.m3, good3, jump3)
    requires |s.a.code| < |s.m3.code| && |s.b1.code| + 1 < |s.m3.code|
    requires d == s.m3.(code := TryPatched(s.m3.code, |s.a.code|, |s.b1.code| + 1, hasCatch, catchIp, finIp, name))
    ensures Did(s.a, d, good1 && good2 && good3 && !(hasCatch && jump3), jump1 || jump2 || jump3)
  {
    hide TryPatched, FnHole, Grown, RecordsOk, Lost, AddedHole;
    StagesGrown(s, name, hasCatch);
    TryHoles(s.m3.code, |s.a.code|, |s.b1.code| + 1, |s.m2.code| - 1, hasCatch, catchIp, finIp, name);
    SamePlace(s.a, s.m3, d);
    FnStays(s.b1, s.m3);
    FnStays(s.b2, s.m3);
    EarlyHoles(s.m0, s.b1, s.m3, d, |s.a.code|, |s.b1.code| + 1, |s.m2.code| - 1, s.a);
    if hasCatch {
      EarlyHoles(s.m1, s.b2, s.m3, d, |s.a.code|, |s.b1.code| + 1, |s.m2.code| - 1, s.a);
    } else {
      NoHoles(s.m1);
    }
    LateHoles(s, d, hasCatch);
  }

  lemma FnStays(b: State, c: State)
    requires Grown(b, c)
    ensures FnHole(b.functions) ==> FnHole(c.functions)
  {
    if id, p :| id in b.functions && Hole(b.functions[id].code, p) { assert Hole(c.functions[id].code, p); }
  }

  lemma NoHoles(m: State)
    ensures !AddedHole(m, m) && !Lost(m, m)
  {
  }

  /** The holes of a piece before the jump after `pegue`. */
  lemma EarlyHoles(m: State, b: State, c: State, d: State, push: nat, j1: nat, jc: nat, a: State)
    requires Grown(b, c) && d == c.(code := d.code) && push == |a.code| < |m.code| && |b.code| <= jc
             && (j1 < |m.code| || |b.code| <= j1)
    requires forall p: nat :: push < p < jc && p != j1 && Hole(c.code, p) ==> Hole(d.code, p)
    ensures AddedHole(m, b) ==> AddedHole(a, d)
    ensures Lost(m, b) ==> Lost(a, d)
  {
    hide Grown, Waits;
    if p: nat :| |m.code| <= p && Hole(b.code, p) {
      SameBefore(b, c, p);
      assert Hole(d.code, p);
    }
    if p: nat :| |m.code| <= p && Hole(b.code, p) && !Waits(b.loops, p) {
      SameBefore(b, c, p);
      assert Hole(d.code, p) && !Waits(d.loops, p);
    }
  }

  /** The holes of `finalmente`: with a `pegue`, the scan takes one of them for its own. */
  lemma LateHoles(s: Stages, d: State, hasCatch: bool)
    requires d == s.m3.(code := d.code) && |s.a.code| < |s.m2.code|
             && (hasCatch ==> !Waits(s.m3.loops, |s.m2.code| - 1))
    requires forall p: nat ::
               |s.m2.code| - 1 < p && Hole(s.m3.code, p)
               ==> if hasCatch then Hole(d.code, |s.m2.code| - 1) else Hole(d.code, p)
    ensures AddedHole(s.m2, s.m3) ==> AddedHole(s.a, d) && (hasCatch ==> Lost(s.a, d))
    ensures Lost(s.m2, s.m3) ==> Lost(s.a, d)
  {
    hide Waits;
    if p: nat :| |s.m2.code| <= p && Hole(s.m3.code, p) {
      assert if hasCatch then Hole(d.code, |s.m2.code| - 1) else Hole(d.code, p);
    }
    if p: nat :| |s.m2.code| <= p && Hole(s.m3.code, p) && !Waits(s.m3.loops, p) {
      assert if hasCatch then Hole(d.code, |s.m2.code| - 1) else Hole(d.code, p);
    }
  }

  lemma SamePlace(a: State, c: State, d: State)
    requires Grown(a, c) && RecordsOk(c) && |d.code| == |c.code| && d.code[..|a.code|] == c.code[..|a.code|]
    requires d == c.(code := d.code)
    ensures Grown(a, d) && RecordsOk(d)
  {
  }
}
