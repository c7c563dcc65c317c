/** The JSON tokenizer of the native toolchain: tokens with spans and parents, filled
    into a fixed array in one pass over the text. */
module Json {

  datatype Kind = Object | Array | Str | Primitive

  /** `end` is -1 while an object or array is still open; `parent` is -1 at the root. */
  datatype Tok = Tok(kind: Kind, start: int, end: int, size: int, parent: int)

  datatype Result = Tokens(toks: seq<Tok>) | NoMemory | Invalid | Partial

  // The specification of one pass.

  /** The position of the quote that closes a string, if there is one. */
  function StringEnd(js: string, p: nat): (q: int)
    ensures q == -1 || (p <= q < |js| && js[q] == '"')
    decreases |js| - p
  {
    if p >= |js| then -1
    else if js[p] == '"' then p
    else if js[p] == '\\' then (if p + 1 == |js| then -1 else StringEnd(js, p + 2))
    else StringEnd(js, p + 1)
  }

  predicate IsDelimiter(c: char) {
    c == '\t' || c == '\r' || c == '\n' || c == ' ' || c == ',' || c == ']' || c == '}'
  }

  /** The position just past a primitive, or -1 at a character it may not hold. */
  function PrimitiveEnd(js: string, p: nat): (q: int)
    requires p <= |js|
    ensures q == -1 || p <= q <= |js|
    decreases |js| - p
  {
    if p == |js| || IsDelimiter(js[p]) then p
    else if js[p] < ' ' || js[p] >= 127 as char then -1
    else PrimitiveEnd(js, p + 1)
  }

  /** The last token that is still open, or -1. */
  function LastOpen(toks: seq<Tok>): (i: int)
    ensures -1 <= i < |toks|
    ensures i >= 0 ==> toks[i].end == -1
    ensures forall k :: i < k < |toks| ==> toks[k].end != -1
  {
    if toks == [] then -1
    else if toks[|toks| - 1].end == -1 then |toks| - 1
    else LastOpen(toks[..|toks| - 1])
  }

  /** One more child of the token `super`, if there is one. */
  function Bump(toks: seq<Tok>, super: int): (r: seq<Tok>)
    ensures |r| == |toks|
  {
    if 0 <= super < |toks| then toks[super := toks[super].(size := toks[super].size + 1)] else toks
  }

  datatype State = State(pos: nat, toks: seq<Tok>, super: int)

  datatype Next = Step(st: State) | Stop(r: Result)

  predicate Opens(c: char) {
    c == '{' || c == '['
  }

  predicate Closes(c: char) {
    c == '}' || c == ']'
  }

  predicate Skipped(c: char) {
    c == '\t' || c == '\r' || c == '\n' || c == ' ' || c == ':' || c == ','
  }

  /** What happens at the current character. */
  function Advance(js: string, st: State, cap: nat): (n: Next)
    requires st.pos < |js|
    ensures n.Step? ==> st.pos < n.st.pos <= |js|
  {
    var c := js[st.pos];
    if Opens(c) then
      if |st.toks| >= cap then Stop(NoMemory)
      else
        var t := Tok(if c == '{' then Object else Array, st.pos, -1, 0, st.super);
        Step(State(st.pos + 1, Bump(st.toks, st.super) + [t], |st.toks|))
    else if Closes(c) then
      var i := LastOpen(st.toks);
      if i == -1 || st.toks[i].kind != (if c == '}' then Object else Array) then Stop(Invalid)
      else Step(State(st.pos + 1, st.toks[i := st.toks[i].(end := st.pos + 1)], st.toks[i].parent))
    else if c == '"' then
      var q := StringEnd(js, st.pos + 1);
      if q == -1 then Stop(Partial)
      else if |st.toks| >= cap then Stop(NoMemory)
      else Step(State(q + 1, Bump(st.toks, st.super) + [Tok(Str, st.pos + 1, q, 0, st.super)], st.super))
    else if Skipped(c) then Step(st.(pos := st.pos + 1))
    else
      var q := PrimitiveEnd(js, st.pos);
      if q == -1 then Stop(Invalid)
      else if |st.toks| >= cap then Stop(NoMemory)
      else Step(State(q, Bump(st.toks, st.super) + [Tok(Primitive, st.pos, q, 0, st.super)], st.super))
  }

  function Scan(js: string, st: State, cap: nat): Result
    requires st.pos <= |js|
    decreases |js| - st.pos
  {
    if st.pos == |js| then (if LastOpen(st.toks) == -1 then Tokens(st.toks) else Partial)
    else
      var n := Advance(js, st, cap);
      if n.Stop? then n.r else Scan(js, n.st, cap)
  }

  function Tokenize(js: string, cap: nat): Result {
    Scan(js, State(0, [], -1), cap)
  }

  // The tokenizer as it is written.

  const NOMEM := -1
  const INVAL := -2
  const PART := -3

  function CodeOf(r: Result): int {
    match r
    case Tokens(ts) => |ts|
    case NoMemory => NOMEM
    case Invalid => INVAL
    case Partial => PART
  }

  class Tokenizer {
    const js: string
    const tokens: array<Tok>
    var pos: nat
    var toknext: nat
    var toksuper: int

    constructor (js: string, tokens: array<Tok>)
      ensures this.js == js && this.tokens == tokens && pos == 0 && toknext == 0 && toksuper == -1
    {
      this.js, this.tokens, pos, toknext, toksuper := js, tokens, 0, 0, -1;
    }

    ghost predicate Valid()
      reads this, tokens
    {
      && toknext <= tokens.Length && pos <= |js| && -1 <= toksuper < toknext
      && forall k :: 0 <= k < toknext ==> -1 <= tokens[k].parent < k
    }

    ghost function Now(): State
      reads this, tokens
      requires Valid()
    {
      State(pos, tokens[..toknext], toksuper)
    }

    /** Adds a token under the current parent, which gains a child. */
    method Add(kind: Kind, start: int, end: int) returns (ok: bool)
      requires Valid()
      modifies this`toknext, tokens
      ensures Valid()
      ensures ok <==> old(toknext) < tokens.Length
      ensures ok ==> toknext == old(toknext) + 1
                     && tokens[..toknext] == Bump(old(tokens[..toknext]), toksuper)
                                             + [Tok(kind, start, end, 0, toksuper)]
      ensures !ok ==> toknext == old(toknext) && tokens[..toknext] == old(tokens[..toknext])
    {
      if toknext >= tokens.Length { return false; }
      tokens[toknext] := Tok(kind, start, end, 0, toksuper);
      toknext := toknext + 1;
      if toksuper != -1 {
        tokens[toksuper] := tokens[toksuper].(size := tokens[toksuper].size + 1);
      }
      ok := true;
    }

    method Open(c: char) returns (r: int)
      requires Valid() && pos < |js| && js[pos] == c && Opens(c)
      modifies this, tokens
      ensures Valid() && Took(old(Now()), r)
    {
      var ok := Add(if c == '{' then Object else Array, pos, -1);
      if !ok { return NOMEM; }
      toksuper := toknext - 1;
      pos := pos + 1;
      r := 0;
    }

    /** The method moved on as specified, or failed with the specified code. */
    ghost predicate Took(was: State, r: int)
      requires Valid() && was.pos < |js|
      reads this, tokens
    {
      var n := Advance(js, was, tokens.Length);
      if n.Step? then r == 0 && Now() == n.st else r == CodeOf(n.r) && r < 0
    }

    method Close(c: char) returns (r: int)
      requires Valid() && pos < |js| && js[pos] == c && Closes(c)
      modifies this, tokens
      ensures Valid() && Took(old(Now()), r)
    {
      var i := toknext - 1;
      while i >= 0 && tokens[i].end != -1
        invariant -1 <= i < toknext
        invariant LastOpen(tokens[..toknext]) == LastOpen(tokens[..i + 1])
      {
        assert tokens[..i + 1][..i] == tokens[..i];
        i := i - 1;
      }
      if i == -1 { return INVAL; }
      assert tokens[..i + 1][i] == tokens[i];
      if tokens[i].kind != (if c == '}' then Object else Array) { return INVAL; }
      tokens[i] := tokens[i].(end := pos + 1);
      toksuper := tokens[i].parent;
      pos := pos + 1;
      r := 0;
    }

    method ParseString() returns (r: int)
      requires Valid() && pos < |js| && js[pos] == '"'
      modifies this, tokens
      ensures Valid() && Took(old(Now()), r)
    {
      var start := pos;
      var p := pos + 1;
      while p < |js|
        invariant start < p <= |js|
        invariant StringEnd(js, p) == StringEnd(js, start + 1)
        decreases |js| - p
      {
        if js[p] == '"' {
          var ok := Add(Str, start + 1, p);
          if !ok { return NOMEM; }
          pos := p + 1;
          return 0;
        }
        if js[p] == '\\' {
          p := p + 1;
          if p == |js| { return PART; }
        }
        p := p + 1;
      }
      r := PART;
    }

    method ParsePrimitive() returns (r: int)
      requires Valid() && pos < |js|
      requires !Opens(js[pos]) && !Closes(js[pos]) && js[pos] != '"' && !Skipped(js[pos])
      modifies this, tokens
      ensures Valid() && Took(old(Now()), r)
    {
      var start := pos;
      var p := pos;
      while p < |js| && !IsDelimiter(js[p])
        invariant start <= p <= |js|
        invariant PrimitiveEnd(js, p) == PrimitiveEnd(js, start)
      {
        if js[p] < ' ' || js[p] >= 127 as char { return INVAL; }
        p := p + 1;
      }
      assert p > start;
      var ok := Add(Primitive, start, p);
      if !ok { return NOMEM; }
      pos := p;
      r := 0;
    }

    /** The pass over the whole text: the number of tokens, or a negative error code. */
    method Parse() returns (r: int)
      requires Valid() && toknext == 0 && pos == 0 && toksuper == -1
      modifies this, tokens
      ensures Valid() && r == CodeOf(Tokenize(js, tokens.Length))
      ensures r >= 0 ==> r <= tokens.Length && Tokenize(js, tokens.Length) == Tokens(tokens[..r])
    {
      hide Advance, LastOpen;
      assert Now() == State(0, [], -1);
      while pos < |js|
        invariant Valid()
        invariant Tokenize(js, tokens.Length) == Scan(js, Now(), tokens.Length)
        decreases |js| - pos
      {
        var c := js[pos];
        if Opens(c) {
          r := Open(c);
        } else if Closes(c) {
          r := Close(c);
        } else if c == '"' {
          r := ParseString();
        } else if Skipped(c) {
          SkipsOne(js, Now(), tokens.Length);
          pos := pos + 1;
          r := 0;
        } else {
          r := ParsePrimitive();
        }
        if r < 0 { return; }
      }
      var i := toknext - 1;
      while i >= 0 && tokens[i].end != -1
        invariant -1 <= i < toknext
        invariant forall k :: i < k < toknext ==> tokens[k].end != -1
      {
        i := i - 1;
      }
      r := if i >= 0 then PART else toknext;
    }
  }

  lemma SkipsOne(js: string, st: State, cap: nat)
    requires st.pos < |js| && Skipped(js[st.pos])
    ensures Advance(js, st, cap) == Step(st.(pos := st.pos + 1))
  {
  }

  // The tokens of an accepted text are a forest, listed parents first.

  /** Is `i` the token `k` or one of its ancestors? */
  predicate Descends(toks: seq<Tok>, k: int, i: int)
    decreases k
  {
    0 <= k < |toks| && (k == i || (toks[k].parent < k && Descends(toks, toks[k].parent, i)))
  }

  /** The number of children of a token. */
  function Children(toks: seq<Tok>, i: int): nat {
    if toks == [] then 0
    else Children(toks[..|toks| - 1], i) + (if toks[|toks| - 1].parent == i then 1 else 0)
  }

  predicate IsContainer(t: Tok) {
    t.kind.Object? || t.kind.Array?
  }

  predicate ParentOk(toks: seq<Tok>, k: nat)
    requires k < |toks|
  {
    var p := toks[k].parent;
    -1 <= p < k && (p >= 0 ==> IsContainer(toks[p]) && toks[p].start < toks[k].start)
  }

  predicate SpanOk(t: Tok, pos: nat) {
    && 0 <= t.start <= pos
    && (t.end == -1 ==> IsContainer(t) && t.start < pos)
    && (t.end != -1 ==> t.start <= t.end <= pos)
  }

  /** `j` comes after `i`: inside its span, and then a descendant that ends before it
      does, or after the span, and then no descendant. */
  predicate PlacedOk(toks: seq<Tok>, i: nat, j: nat)
    requires i < j < |toks|
  {
    var inside := toks[i].end == -1 || toks[j].start < toks[i].end;
    && (Descends(toks, j, i) <==> inside)
    && (inside && toks[i].end != -1 ==> 0 <= toks[j].end < toks[i].end)
  }

  ghost predicate Inv(toks: seq<Tok>, super: int, pos: nat) {
    && -1 <= super < |toks|
    && (forall k :: 0 <= k < |toks| ==> ParentOk(toks, k) && SpanOk(toks[k], pos) && toks[k].size == Children(toks, k))
    && (forall i, j :: 0 <= i < j < |toks| ==> PlacedOk(toks, i, j))
    && (forall i :: 0 <= i < |toks| ==> (toks[i].end == -1 <==> Descends(toks, super, i)))
  }

  /** A forest in the order parents, then children from left to right. */
  ghost predicate Forest(toks: seq<Tok>, n: nat) {
    forall k :: 0 <= k < |toks| ==>
                  && ParentOk(toks, k) && 0 <= toks[k].start <= toks[k].end <= n && toks[k].size == Children(toks, k)
                  && forall i :: 0 <= i < k ==>
                                   if Descends(toks, k, i) then toks[i].start <= toks[k].start
                                                                && toks[k].end < toks[i].end
                                   else toks[i].end <= toks[k].start
  }

  lemma {:induction false} SameParents(a: seq<Tok>, b: seq<Tok>, k: int, i: int)
    requires k < |a| && k < |b| && forall j :: 0 <= j <= k ==> a[j].parent == b[j].parent
    ensures Descends(a, k, i) <==> Descends(b, k, i)
    decreases k
  {
    if 0 <= k && k != i && a[k].parent < k { SameParents(a, b, a[k].parent, i); }
  }

  lemma {:induction false} SameChildren(a: seq<Tok>, b: seq<Tok>, i: int)
    requires |a| == |b| && forall j :: 0 <= j < |a| ==> a[j].parent == b[j].parent
    ensures Children(a, i) == Children(b, i)
    decreases |a|
  {
    if a != [] { SameChildren(a[..|a| - 1], b[..|b| - 1], i); }
  }

  lemma {:induction false} Older(toks: seq<Tok>, k: int, i: int)
    requires Descends(toks, k, i)
    ensures 0 <= i <= k
    decreases k
  {
    if k != i { Older(toks, toks[k].parent, i); }
  }

  /** No token has a later token as its parent. */
  lemma {:induction false} NoChildren(toks: seq<Tok>, i: int)
    requires forall k :: 0 <= k < |toks| ==> toks[k].parent < i
    ensures Children(toks, i) == 0
    decreases |toks|
  {
    if toks != [] { NoChildren(toks[..|toks| - 1], i); }
  }

  lemma AddKeeps(toks: seq<Tok>, super: int, pos: nat, t: Tok, pos': nat)
    requires Inv(toks, super, pos)
    requires pos < pos' && t.parent == super && t.size == 0 && pos <= t.start && SpanOk(t, pos')
    ensures Inv(Bump(toks, super) + [t], if t.end == -1 then |toks| else super, pos')
  {
    var n := |toks|;
    var all := Bump(toks, super) + [t];
    var super' := if t.end == -1 then n else super;
    forall k, i | 0 <= k < n ensures Descends(all, k, i) <==> Descends(toks, k, i) {
      SameParents(toks, all, k, i);
    }
    assert all[..n] == Bump(toks, super);
    forall k | 0 <= k <= n ensures ParentOk(all, k) && SpanOk(all[k], pos') && all[k].size == Children(all, k) {
      SameChildren(Bump(toks, super), toks, k);
      if k < n { assert ParentOk(toks, k) && SpanOk(toks[k], pos); } else { NoChildren(toks, n); }
    }
    forall i | 0 <= i < n ensures Descends(all, n, i) <==> toks[i].end == -1 {
      assert Descends(all, n, i) <==> Descends(all, super, i);
    }
    forall i, j | 0 <= i < j <= n ensures PlacedOk(all, i, j) {
      if j < n { assert PlacedOk(toks, i, j); } else { assert SpanOk(toks[i], pos); }
    }
    forall i | 0 <= i <= n ensures all[i].end == -1 <==> Descends(all, super', i) {
      if i == n && super' == super && Descends(all, super, n) { Older(all, super, n); }
    }
  }

  /** The parent the tokenizer remembers is the last open token. */
  lemma SuperIsLast(toks: seq<Tok>, super: int, pos: nat)
    requires Inv(toks, super, pos)
    ensures LastOpen(toks) == super
  {
    var i := LastOpen(toks);
    if i >= 0 { Older(toks, super, i); }
    if super >= 0 { assert Descends(toks, super, super); }
  }

  lemma CloseKeeps(toks: seq<Tok>, super: int, pos: nat)
    requires Inv(toks, super, pos) && super >= 0
    ensures Inv(toks[super := toks[super].(end := pos + 1)], toks[super].parent, pos + 1)
  {
    var all := toks[super := toks[super].(end := pos + 1)];
    var up := toks[super].parent;
    assert Descends(toks, super, super);
    forall k, i | 0 <= k < |toks| ensures Descends(all, k, i) <==> Descends(toks, k, i) {
      SameParents(toks, all, k, i);
    }
    forall k | 0 <= k < |toks| ensures ParentOk(all, k) && SpanOk(all[k], pos + 1) && all[k].size == Children(all, k) {
      assert ParentOk(toks, k) && SpanOk(toks[k], pos);
      SameChildren(toks, all, k);
    }
    forall i, j | 0 <= i < j < |toks| ensures PlacedOk(all, i, j) {
      assert PlacedOk(toks, i, j) && SpanOk(toks[j], pos);
      if i == super && Descends(toks, super, j) { Older(toks, super, j); }
    }
    forall i | 0 <= i < |toks| ensures all[i].end == -1 <==> Descends(all, up, i) {
      if Descends(all, up, i) { Older(all, up, i); }
      assert i != super ==> (Descends(toks, super, i) <==> Descends(toks, up, i));
    }
  }

  lemma {:induction false} ScanKeeps(js: string, st: State, cap: nat)
    requires st.pos <= |js| && Inv(st.toks, st.super, st.pos) && |st.toks| <= cap
    ensures var r := Scan(js, st, cap); r.Tokens? ==> Forest(r.toks, |js|) && |r.toks| <= cap
    decreases |js| - st.pos
  {
    hide Inv, LastOpen;
    if st.pos == |js| {
      if LastOpen(st.toks) == -1 { Finished(st.toks, st.super, st.pos); }
    } else {
      var n := Advance(js, st, cap);
      if n.Step? {
        AdvanceKeeps(js, st, cap);
        ScanKeeps(js, n.st, cap);
      }
    }
  }

  lemma Finished(toks: seq<Tok>, super: int, pos: nat)
    requires Inv(toks, super, pos) && LastOpen(toks) == -1
    ensures Forest(toks, pos)
  {
    SuperIsLast(toks, super, pos);
    forall k | 0 <= k < |toks|
      ensures ParentOk(toks, k) && 0 <= toks[k].start <= toks[k].end <= pos && toks[k].size == Children(toks, k)
    {
      assert ParentOk(toks, k) && SpanOk(toks[k], pos);
    }
    forall i, k | 0 <= i < k < |toks|
      ensures if Descends(toks, k, i) then toks[i].start <= toks[k].start && toks[k].end < toks[i].end
              else toks[i].end <= toks[k].start
    {
      assert PlacedOk(toks, i, k);
      if Descends(toks, k, i) { StartsInside(toks, k, i); }
    }
  }

  lemma {:induction false} StartsInside(toks: seq<Tok>, k: int, i: int)
    requires forall j :: 0 <= j < |toks| ==> ParentOk(toks, j)
    requires 0 <= i < |toks| && Descends(toks, k, i)
    ensures toks[i].start <= toks[k].start
    decreases k
  {
    if k != i {
      assert ParentOk(toks, k);
      StartsInside(toks, toks[k].parent, i);
    }
  }

  /** Whatever the text, the tokens of a success are a forest within the capacity. */
  lemma TokensAreForest(js: string, cap: nat)
    ensures var r := Tokenize(js, cap); r.Tokens? ==> Forest(r.toks, |js|) && |r.toks| <= cap
  {
    ScanKeeps(js, State(0, [], -1), cap);
  }

  lemma AdvanceKeeps(js: string, st: State, cap: nat)
    requires st.pos < |js| && Inv(st.toks, st.super, st.pos) && Advance(js, st, cap).Step?
    ensures var st' := Advance(js, st, cap).st; Inv(st'.toks, st'.super, st'.pos)
  {
    hide Inv, Advance;
    var c := js[st.pos];
    if Closes(c) {
      ClosingKeeps(js, st, cap);
    } else if Skipped(c) {
      Skips(js, st, cap);
      Wait(st.toks, st.super, st.pos);
    } else {
      AddingKeeps(js, st, cap);
    }
  }

  lemma ClosingKeeps(js: string, st: State, cap: nat)
    requires st.pos < |js| && Inv(st.toks, st.super, st.pos) && Closes(js[st.pos]) && Advance(js, st, cap).Step?
    ensures var st' := Advance(js, st, cap).st; Inv(st'.toks, st'.super, st'.pos)
  {
    hide Inv, LastOpen, StringEnd, PrimitiveEnd;
    SuperIsLast(st.toks, st.super, st.pos);
    CloseKeeps(st.toks, st.super, st.pos);
  }

  lemma Skips(js: string, st: State, cap: nat)
    requires st.pos < |js| && Skipped(js[st.pos])
    ensures Advance(js, st, cap) == Step(st.(pos := st.pos + 1))
  {
    hide LastOpen, StringEnd, PrimitiveEnd;
  }

  /** The token that is added where none is closed and nothing skipped. */
  lemma Adds(js: string, st: State, cap: nat) returns (t: Tok)
    requires st.pos < |js| && !Closes(js[st.pos]) && !Skipped(js[st.pos]) && Advance(js, st, cap).Step?
    ensures var st' := Advance(js, st, cap).st;
            && st'.toks == Bump(st.toks, st.super) + [t] && st'.super == (if t.end == -1 then |st.toks| else st.super)
            && st.pos < st'.pos && t.parent == st.super && t.size == 0 && st.pos <= t.start && SpanOk(t, st'.pos)
  {
    hide LastOpen, StringEnd, PrimitiveEnd, Bump;
    t := Advance(js, st, cap).st.toks[|st.toks|];
  }

  lemma AddingKeeps(js: string, st: State, cap: nat)
    requires st.pos < |js| && Inv(st.toks, st.super, st.pos) && !Closes(js[st.pos]) && !Skipped(js[st.pos])
             && Advance(js, st, cap).Step?
    ensures var st' := Advance(js, st, cap).st; Inv(st'.toks, st'.super, st'.pos)
  {
    hide Inv, Advance, Bump;
    var t := Adds(js, st, cap);
    AddKeeps(st.toks, st.super, st.pos, t, Advance(js, st, cap).st.pos);
  }

  lemma Wait(toks: seq<Tok>, super: int, pos: nat)
    requires Inv(toks, super, pos)
    ensures Inv(toks, super, pos + 1)
  {
  }

  // Skipping a value.

  /** The index past a token and everything that starts before its end. */
  method TokSkip(toks: seq<Tok>, i: nat) returns (j: nat)
    requires i < |toks|
    ensures j == SkipFrom(toks, i, i + 1)
  {
    j := i + 1;
    while j < |toks| && 0 <= toks[j].start < toks[i].end
      invariant i < j <= |toks|
      invariant SkipFrom(toks, i, j) == SkipFrom(toks, i, i + 1)
    {
      j := j + 1;
    }
  }

  function SkipFrom(toks: seq<Tok>, i: nat, j: nat): (r: nat)
    requires i < j <= |toks|
    ensures j <= r <= |toks|
    decreases |toks| - j
  {
    if j < |toks| && 0 <= toks[j].start < toks[i].end then SkipFrom(toks, i, j + 1) else j
  }

  /** In a forest, skipping a token skips its descendants and nothing else. */
  lemma SkipsSubtree(toks: seq<Tok>, n: nat, i: nat, k: nat)
    requires Forest(toks, n) && i < |toks| && k < |toks|
    ensures Descends(toks, k, i) <==> i <= k < SkipFrom(toks, i, i + 1)
  {
    if Descends(toks, k, i) { Older(toks, k, i); }
    if i < k { SkipsFrom(toks, n, i, i + 1, k); }
  }

  lemma {:induction false} SkipsFrom(toks: seq<Tok>, n: nat, i: nat, j: nat, k: nat)
    requires Forest(toks, n) && i < j <= k < |toks|
    ensures Descends(toks, k, i) <==> k < SkipFrom(toks, i, j)
    decreases |toks| - j
  {
    assert 0 <= toks[j].start;
    if toks[j].start < toks[i].end {
      if j < k { SkipsFrom(toks, n, i, j + 1, k); }
    } else {
      LaterStarts(toks, n, j, k);
    }
  }

  lemma LaterStarts(toks: seq<Tok>, n: nat, j: nat, k: nat)
    requires Forest(toks, n) && j <= k < |toks|
    ensures toks[j].start <= toks[k].start
  {
    if j < k && !Descends(toks, k, j) { assert toks[j].start <= toks[j].end; }
  }
}
