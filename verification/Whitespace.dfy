/** White space between tokens makes no difference to the JSON tokenizer. */
module Whitespace {
  import opened Json

  /** White space in the sense of section 2 of RFC 8259. */
  predicate White(c: char) {
    c == ' ' || c == '\t' || c == '\n' || c == '\r'
  }

  function Wider(js: string, p: nat, c: char): (js': string)
    requires p <= |js|
    ensures |js'| == |js| + 1 && js'[p] == c
    ensures forall k :: 0 <= k < p ==> js'[k] == js[k]
    ensures forall k :: p <= k < |js| ==> js'[k + 1] == js[k]
  {
    js[..p] + [c] + js[p..]
  }

  /** Some step of the pass begins at `p`: `p` is neither inside a string nor inside a primitive. */
  predicate Between(js: string, st: State, cap: nat, p: nat)
    requires st.pos <= |js|
    decreases |js| - st.pos
  {
    st.pos == p || (st.pos < p && st.pos < |js| && Advance(js, st, cap).Step?
                    && Between(js, Advance(js, st, cap).st, cap, p))
  }

  /** A token whose text is moved behind one more character at `p`, as far as it stands there. */
  function Shifted(t: Tok, p: nat): Tok {
    t.(start := if t.start >= p then t.start + 1 else t.start, end := if t.end > p then t.end + 1 else t.end)
  }

  function ShiftedAll(toks: seq<Tok>, p: nat): (r: seq<Tok>)
    ensures |r| == |toks| && forall k :: 0 <= k < |toks| ==> r[k] == Shifted(toks[k], p)
  {
    if toks == [] then [] else ShiftedAll(toks[..|toks| - 1], p) + [Shifted(toks[|toks| - 1], p)]
  }

  function ShiftedResult(r: Result, p: nat): Result {
    if r.Tokens? then Tokens(ShiftedAll(r.toks, p)) else r
  }

  function ShiftedState(st: State, p: nat): State {
    State(st.pos + 1, ShiftedAll(st.toks, p), st.super)
  }

  // In front of the new character.

  lemma {:induction false} StringBefore(js: string, js': string, p: nat, c: char, q: nat)
    requires p <= |js| && js' == Wider(js, p, c) && StringEnd(js, q) != -1 && StringEnd(js, q) < p
    ensures StringEnd(js', q) == StringEnd(js, q)
    decreases |js| - q
  {
    if js[q] == '\\' {
      StringBefore(js, js', p, c, q + 2);
    } else if js[q] != '"' {
      StringBefore(js, js', p, c, q + 1);
    }
  }

  lemma {:induction false} PrimitiveBefore(js: string, js': string, p: nat, c: char, q: nat)
    requires q <= p <= |js| && js' == Wider(js, p, c) && White(c)
    requires PrimitiveEnd(js, q) != -1 && PrimitiveEnd(js, q) <= p
    ensures PrimitiveEnd(js', q) == PrimitiveEnd(js, q)
    decreases |js| - q
  {
    if q < p && !IsDelimiter(js[q]) { PrimitiveBefore(js, js', p, c, q + 1); }
  }

  lemma StepBefore(js: string, js': string, p: nat, c: char, st: State, cap: nat)
    requires st.pos < p <= |js| && js' == Wider(js, p, c) && White(c)
    requires Advance(js, st, cap).Step? && Advance(js, st, cap).st.pos <= p
    ensures Advance(js', st, cap) == Advance(js, st, cap)
  {
    hide LastOpen, Bump;
    var d := js[st.pos];
    if d == '"' {
      StringBefore(js, js', p, c, st.pos + 1);
    } else if !Opens(d) && !Closes(d) && !Skipped(d) {
      PrimitiveBefore(js, js', p, c, st.pos);
    }
  }

  /** What has been read lies in front of the position. */
  predicate Behind(st: State) {
    forall k :: 0 <= k < |st.toks| ==> st.toks[k].start < st.pos && st.toks[k].end <= st.pos
  }

  lemma StaysBehind(js: string, st: State, cap: nat)
    requires st.pos < |js| && Behind(st) && Advance(js, st, cap).Step?
    ensures Behind(Advance(js, st, cap).st)
  {
    hide StringEnd, PrimitiveEnd, LastOpen;
  }

  lemma NotShifted(st: State)
    requires Behind(st)
    ensures ShiftedAll(st.toks, st.pos) == st.toks
  {
    forall k | 0 <= k < |st.toks| ensures Shifted(st.toks[k], st.pos) == st.toks[k] {}
  }

  // Behind it.

  lemma {:induction false} StringBehind(js: string, js': string, p: nat, c: char, q: nat)
    requires p <= q && p <= |js| && js' == Wider(js, p, c)
    ensures StringEnd(js', q + 1) == if StringEnd(js, q) == -1 then -1 else StringEnd(js, q) + 1
    decreases |js| - q
  {
    if q < |js| {
      assert js'[q + 1] == js[q];
      if js[q] == '\\' {
        if q + 1 < |js| { StringBehind(js, js', p, c, q + 2); }
      } else if js[q] != '"' {
        StringBehind(js, js', p, c, q + 1);
      }
    }
  }

  lemma {:induction false} PrimitiveBehind(js: string, js': string, p: nat, c: char, q: nat)
    requires p <= q <= |js| && js' == Wider(js, p, c)
    ensures PrimitiveEnd(js', q + 1) == if PrimitiveEnd(js, q) == -1 then -1 else PrimitiveEnd(js, q) + 1
    decreases |js| - q
  {
    if q < |js| {
      assert js'[q + 1] == js[q];
      if !IsDelimiter(js[q]) { PrimitiveBehind(js, js', p, c, q + 1); }
    }
  }

  lemma {:induction false} LastOpenShifted(toks: seq<Tok>, p: nat)
    ensures LastOpen(ShiftedAll(toks, p)) == LastOpen(toks)
    decreases |toks|
  {
    if toks != [] {
      var front := toks[..|toks| - 1];
      assert ShiftedAll(toks, p)[..|toks| - 1] == ShiftedAll(front, p);
      LastOpenShifted(front, p);
    }
  }

  lemma BumpShifted(toks: seq<Tok>, super: int, t: Tok, p: nat)
    ensures Bump(ShiftedAll(toks, p), super) + [Shifted(t, p)] == ShiftedAll(Bump(toks, super) + [t], p)
  {
  }

  lemma CloseShifted(toks: seq<Tok>, i: int, end: int, p: nat)
    requires 0 <= i < |toks| && end > p
    ensures ShiftedAll(toks, p)[i := ShiftedAll(toks, p)[i].(end := end + 1)]
         == ShiftedAll(toks[i := toks[i].(end := end)], p)
  {
  }

  /** The pass goes on alike from a position behind the new character. */
  ghost predicate Alike(n: Next, n': Next, p: nat) {
    if n.Step? then n' == Step(ShiftedState(n.st, p)) else n' == n
  }

  lemma OpenBehind(js: string, js': string, p: nat, c: char, st: State, cap: nat)
    requires p <= st.pos < |js| && js' == Wider(js, p, c) && js'[st.pos + 1] == js[st.pos] && Opens(js[st.pos])
    ensures Alike(Advance(js, st, cap), Advance(js', ShiftedState(st, p), cap), p)
  {
    hide Bump, ShiftedAll, Wider;
    var kind := if js[st.pos] == '{' then Object else Array;
    BumpShifted(st.toks, st.super, Tok(kind, st.pos, -1, 0, st.super), p);
  }

  lemma CloseBehind(js: string, js': string, p: nat, c: char, st: State, cap: nat)
    requires p <= st.pos < |js| && js' == Wider(js, p, c) && js'[st.pos + 1] == js[st.pos] && Closes(js[st.pos])
    ensures Alike(Advance(js, st, cap), Advance(js', ShiftedState(st, p), cap), p)
  {
    hide LastOpen, ShiftedAll, Wider;
    LastOpenShifted(st.toks, p);
    var i := LastOpen(st.toks);
    if i >= 0 { CloseShifted(st.toks, i, st.pos + 1, p); }
  }

  lemma LeafBehind(js: string, js': string, p: nat, c: char, st: State, cap: nat)
    requires p <= st.pos < |js| && js' == Wider(js, p, c) && js'[st.pos + 1] == js[st.pos]
    requires !Opens(js[st.pos]) && !Closes(js[st.pos]) && !Skipped(js[st.pos])
    ensures Alike(Advance(js, st, cap), Advance(js', ShiftedState(st, p), cap), p)
  {
    hide StringEnd, PrimitiveEnd, Bump, ShiftedAll, Wider;
    if js[st.pos] == '"' {
      StringBehind(js, js', p, c, st.pos + 1);
      BumpShifted(st.toks, st.super, Tok(Str, st.pos + 1, StringEnd(js, st.pos + 1), 0, st.super), p);
    } else {
      PrimitiveBehind(js, js', p, c, st.pos);
      BumpShifted(st.toks, st.super, Tok(Primitive, st.pos, PrimitiveEnd(js, st.pos), 0, st.super), p);
      if PrimitiveEnd(js, st.pos) != -1 { PrimitiveMoves(js, st.pos); }
    }
  }

  lemma PrimitiveMoves(js: string, q: nat)
    requires q < |js| && !IsDelimiter(js[q]) && PrimitiveEnd(js, q) != -1
    ensures PrimitiveEnd(js, q) > q
  {
  }

  lemma StepBehind(js: string, js': string, p: nat, c: char, st: State, cap: nat)
    requires p <= st.pos < |js| && js' == Wider(js, p, c)
    ensures Alike(Advance(js, st, cap), Advance(js', ShiftedState(st, p), cap), p)
  {
    assert js'[st.pos + 1] == js[st.pos];
    if Opens(js[st.pos]) {
      OpenBehind(js, js', p, c, st, cap);
    } else if Closes(js[st.pos]) {
      CloseBehind(js, js', p, c, st, cap);
    } else if Skipped(js[st.pos]) {
      SkipsOne(js, st, cap);
      SkipsOne(js', ShiftedState(st, p), cap);
    } else {
      LeafBehind(js, js', p, c, st, cap);
    }
  }

  // The whole pass.

  lemma {:induction false} ScanBehind(js: string, js': string, p: nat, c: char, st: State, cap: nat)
    requires p <= st.pos <= |js| && js' == Wider(js, p, c)
    ensures Scan(js', ShiftedState(st, p), cap) == ShiftedResult(Scan(js, st, cap), p)
    decreases |js| - st.pos
  {
    hide Advance, LastOpen, ShiftedAll;
    LastOpenShifted(st.toks, p);
    if st.pos < |js| {
      StepBehind(js, js', p, c, st, cap);
      var n := Advance(js, st, cap);
      if n.Step? {
        ScanBehind(js, js', p, c, n.st, cap);
      } else {
        assert !n.r.Tokens? by { StopsOnError(js, st, cap); }
      }
    }
  }

  lemma StopsOnError(js: string, st: State, cap: nat)
    requires st.pos < |js| && Advance(js, st, cap).Stop?
    ensures !Advance(js, st, cap).r.Tokens?
  {
    hide StringEnd, PrimitiveEnd, LastOpen, Bump;
  }

  lemma {:induction false} ScanBefore(js: string, js': string, p: nat, c: char, st: State, cap: nat)
    requires st.pos <= p <= |js| && js' == Wider(js, p, c) && White(c) && Behind(st) && Between(js, st, cap, p)
    ensures Scan(js', st, cap) == ShiftedResult(Scan(js, st, cap), p)
    decreases |js| - st.pos
  {
    hide Advance, LastOpen, ShiftedAll, Behind;
    if st.pos == p {
      SkipsOne(js', st, cap);
      NotShifted(st);
      ScanBehind(js, js', p, c, st, cap);
    } else {
      var n := Advance(js, st, cap);
      StaysBehind(js, st, cap);
      StepBefore(js, js', p, c, st, cap) by { BetweenStep(js, st, cap, p); }
      BetweenStep(js, st, cap, p);
      ScanBefore(js, js', p, c, n.st, cap);
    }
  }

  lemma BetweenStep(js: string, st: State, cap: nat, p: nat)
    requires st.pos < p <= |js| && Between(js, st, cap, p)
    ensures Advance(js, st, cap).Step? && Advance(js, st, cap).st.pos <= p
            && Between(js, Advance(js, st, cap).st, cap, p)
  {
    hide Advance;
  }

  /** One more white-space character between two tokens, before the first or behind the last: the
      same tokens behind it one further on, or the same error. */
  lemma MakesNoDifference(js: string, cap: nat, p: nat, c: char)
    requires p <= |js| && White(c) && Between(js, State(0, [], -1), cap, p)
    ensures Tokenize(Wider(js, p, c), cap) == ShiftedResult(Tokenize(js, cap), p)
  {
    ScanBefore(js, Wider(js, p, c), p, c, State(0, [], -1), cap);
  }
}
