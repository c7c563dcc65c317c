/** Where newlines make no difference to what the expression parser reads. */
module Newlines {
  import opened Syntax
  import opened Parser
  import Show

  /** Newlines are skipped, all of them and nothing else. */
  lemma {:induction false} SkipsNewlines(toks: seq<Token>, p: nat)
    requires p <= |toks|
    ensures !At(toks, Skip(toks, p)).Newline?
    ensures forall i :: p <= i < Skip(toks, p) ==> toks[i].Newline?
    decreases |toks| - p
  {
    if At(toks, p).Newline? { SkipsNewlines(toks, p + 1); }
  }

  /** Opening brackets, commas and colons: newlines may follow. */
  predicate Opens(t: Token) {
    t.LParen? || t.LBracket? || t.LBrace? || t.Comma? || t.Colon?
  }

  /** Closing brackets, commas and colons: newlines may stand in front. */
  predicate Shuts(t: Token) {
    t.RParen? || t.RBracket? || t.RBrace? || t.Comma? || t.Colon?
  }

  /** The last token of an operand. */
  predicate Ends(t: Token) {
    t.Number? || t.Text? || t.True? || t.False? || t.Null? || t.Ident? || t.RParen? || t.RBracket? || t.RBrace?
  }

  /** May so many newlines stand between two tokens? A single one may also stand between an
      operand and the bracket that calls or indexes it. */
  predicate MayPart(a: Token, b: Token, newlines: nat) {
    newlines == 0 || Opens(a) || Shuts(b) || (newlines == 1 && Ends(a) && (b.LParen? || b.LBracket?))
  }

  /** No operator, call or indexing follows, on this line or the next. */
  predicate Over(toks: seq<Token>, p: nat) {
    && p <= |toks| && Continued(toks, p) == p && !At(toks, p).LParen? && !At(toks, p).LBracket?
    && forall level :: 0 <= level < UNARY ==> !IsOpAt(level, At(toks, p))
  }

  /** No newlines, as in the tokens to be spread. */
  predicate OneLine(ts: seq<Token>) {
    forall k :: 0 <= k < |ts| ==> !ts[k].Newline?
  }

  predicate Placed(ts: seq<Token>, us: seq<Token>, m: seq<nat>) {
    |m| == |ts| && forall k :: 0 <= k < |m| ==> m[k] < |us| && us[m[k]] == ts[k]
  }

  predicate Parted(ts: seq<Token>, m: seq<nat>) {
    && |m| == |ts|
    && forall k :: 0 < k < |m| ==> m[k - 1] < m[k] && MayPart(ts[k - 1], ts[k], m[k] - m[k - 1] - 1)
  }

  predicate Blank(us: seq<Token>, m: seq<nat>) {
    && (forall k :: 0 <= k < |m| ==> m[k] < |us|)
    && forall k, i :: 0 < k < |m| && m[k - 1] < i < m[k] ==> us[i].Newline?
  }

  /** `us` holds the tokens `ts`, token `k` at `m[k]`, with newlines between them where they
      may stand; behind them the expression is over. */
  ghost predicate Spread(ts: seq<Token>, us: seq<Token>, m: seq<nat>) {
    && ts != [] && |m| == |ts| && OneLine(ts) && Placed(ts, us, m) && Parted(ts, m) && Blank(us, m)
    && Over(us, m[|m| - 1] + 1)
  }

  /** The position behind token `q - 1`. */
  function Behind(m: seq<nat>, q: nat): nat
    requires 0 < q <= |m|
  {
    m[q - 1] + 1
  }

  // What the spreading does around one token.

  lemma SkipTo(ts: seq<Token>, us: seq<Token>, m: seq<nat>, q: nat)
    requires Spread(ts, us, m) && 0 < q < |ts|
    ensures Skip(us, Behind(m, q)) == m[q] && Skip(us, m[q]) == m[q] && m[q] <= |us|
  {
    SkipsNewlines(us, Behind(m, q));
    var s := Skip(us, Behind(m, q));
    assert s < m[q] ==> At(us, s).Newline?;
    assert !At(us, m[q]).Newline?;
  }

  lemma Plain(ts: seq<Token>, us: seq<Token>, m: seq<nat>, p: nat)
    requires Spread(ts, us, m) && p <= |ts|
    ensures Skip(ts, p) == p && Continued(ts, p) == p
    ensures p < |ts| ==> m[p] < |us| && At(us, m[p]) == ts[p] == At(ts, p) && Skip(us, m[p]) == m[p]
  {
  }

  lemma Next(ts: seq<Token>, us: seq<Token>, m: seq<nat>, q: nat)
    requires Spread(ts, us, m) && 0 < q < |ts| && !Opens(ts[q - 1]) && !Shuts(ts[q])
    requires !Ends(ts[q - 1]) || !(ts[q].LParen? || ts[q].LBracket?)
    ensures m[q] == Behind(m, q)
  {
    assert MayPart(ts[q - 1], ts[q], m[q] - m[q - 1] - 1);
  }

  lemma ToBracket(ts: seq<Token>, us: seq<Token>, m: seq<nat>, q: nat)
    requires Spread(ts, us, m) && 0 < q < |ts| && Ends(ts[q - 1]) && (ts[q].LParen? || ts[q].LBracket?)
    ensures Behind(m, q) <= |us| && Continued(us, Behind(m, q)) == m[q]
  {
    assert MayPart(ts[q - 1], ts[q], m[q] - m[q - 1] - 1);
    assert us[m[q]] == ts[q];
  }

  /** No operator follows an operand but the one that follows it in `ts`. */
  lemma NoOperator(ts: seq<Token>, us: seq<Token>, m: seq<nat>, q: nat, level: nat)
    requires Spread(ts, us, m) && 0 < q <= |ts| && Ends(ts[q - 1]) && level < UNARY
    ensures Behind(m, q) <= |us|
    ensures IsOpAt(level, At(ts, q)) ==> q < |ts| && m[q] == Behind(m, q)
    ensures IsOpAt(level, At(us, Behind(m, q))) <==> IsOpAt(level, At(ts, q))
  {
    if q < |ts| { assert MayPart(ts[q - 1], ts[q], m[q] - m[q - 1] - 1); }
  }

  lemma NoBracket(ts: seq<Token>, us: seq<Token>, m: seq<nat>, q: nat)
    requires Spread(ts, us, m) && 0 < q <= |ts| && Ends(ts[q - 1]) && !At(ts, q).LParen? && !At(ts, q).LBracket?
    ensures var b := Behind(m, q);
            b <= |us| && Continued(us, b) == b && !At(us, b).LParen? && !At(us, b).LBracket?
  {
    var b := Behind(m, q);
    if q < |ts| {
      assert MayPart(ts[q - 1], ts[q], m[q] - m[q - 1] - 1);
      if m[q] > b {
        assert us[b].Newline?;
        assert b + 1 < m[q] ==> us[b + 1].Newline?;
        assert b + 1 == m[q] ==> us[b + 1] == ts[q];
      }
    }
  }

  // What was read begins and ends with certain tokens.

  lemma {:induction false} LevelBegins(ts: seq<Token>, p: nat, level: nat)
    requires p <= |ts| && level <= UNARY
    ensures Level(ts, p, level).Good? ==> p < |ts| && Show.Begins(ts[p])
    decreases UNARY - level
  {
    hide Unary, LevelRest, Show.Begins;
    if level < UNARY { LevelBegins(ts, p, level + 1); } else { UnaryBegins(ts, p); }
  }

  lemma UnaryBegins(ts: seq<Token>, p: nat)
    requires p <= |ts|
    ensures Unary(ts, p).Good? ==> p < |ts| && Show.Begins(ts[p])
  {
    hide Chain, Primary;
    PrimaryBegins(ts, p);
  }

  lemma PrimaryBegins(ts: seq<Token>, p: nat)
    requires p <= |ts|
    ensures Primary(ts, p).Good? ==> p < |ts| && Show.Begins(ts[p]) && !ts[p].AwaitKw? && !ts[p].Minus?
  {
    hide Level, Items, Entries;
    match At(ts, p)
    case LParen =>
    case LBracket =>
    case LBrace =>
    case _ =>
  }

  lemma {:induction false} LevelEnds(ts: seq<Token>, p: nat, level: nat)
    requires OneLine(ts) && p <= |ts| && level <= UNARY && Level(ts, p, level).Good?
    ensures p < Level(ts, p, level).p <= |ts| && Ends(ts[Level(ts, p, level).p - 1])
    decreases |ts| - p, 10 - level
  {
    hide Unary, Ends, OneLine;
    if level < UNARY {
      LevelEnds(ts, p, level + 1);
      RestEnds(ts, Level(ts, p, level + 1).p, level, Level(ts, p, level + 1).e);
    } else {
      UnaryEnds(ts, p);
    }
  }

  lemma {:induction false} RestEnds(ts: seq<Token>, p: nat, level: nat, left: Expr)
    requires OneLine(ts) && 0 < p <= |ts| && level < UNARY && Ends(ts[p - 1]) && LevelRest(ts, p, level, left).Good?
    ensures var r := LevelRest(ts, p, level, left); p <= r.p <= |ts| && Ends(ts[r.p - 1])
    decreases |ts| - p, 10
  {
    hide Level, Ends, OneLine;
    if IsOpAt(level, At(ts, p)) {
      LevelEnds(ts, p + 1, level + 1);
      var right := Level(ts, p + 1, level + 1);
      RestEnds(ts, right.p, level, Combine(At(ts, p), left, right.e));
    }
  }

  lemma {:induction false} UnaryEnds(ts: seq<Token>, p: nat)
    requires OneLine(ts) && p <= |ts| && Unary(ts, p).Good?
    ensures p < Unary(ts, p).p <= |ts| && Ends(ts[Unary(ts, p).p - 1])
    decreases |ts| - p, 5
  {
    hide Primary, Chain, Ends, OneLine;
    if At(ts, p).AwaitKw? || At(ts, p).Minus? {
      UnaryEnds(ts, p + 1);
    } else {
      PrimaryEnds(ts, p);
      ChainEnds(ts, Primary(ts, p).p, Primary(ts, p).e);
    }
  }

  lemma PrimaryEnds(ts: seq<Token>, p: nat)
    requires p <= |ts| && Primary(ts, p).Good?
    ensures p < Primary(ts, p).p <= |ts| && Ends(ts[Primary(ts, p).p - 1])
  {
    hide Level, Skip, Items, Entries;
    match At(ts, p)
    case LBracket => ItemsEnd(ts, Skip(ts, p + 1), RBracket);
    case LBrace => EntriesEnd(ts, Skip(ts, p + 1));
    case _ =>
  }

  lemma {:induction false} ItemsEnd(ts: seq<Token>, p: nat, close: Token)
    requires p <= |ts| && close != Eof && Items(ts, p, close).GoodList?
    ensures var q := Items(ts, p, close).p; p < q <= |ts| && ts[q - 1] == close
  {
    hide ItemsFrom;
    if At(ts, p) != close { ItemsFromEnd(ts, p, close); }
  }

  lemma {:induction false} ItemsFromEnd(ts: seq<Token>, p: nat, close: Token)
    requires p <= |ts| && close != Eof && ItemsFrom(ts, p, close).GoodList?
    ensures var q := ItemsFrom(ts, p, close).p; p < q <= |ts| && ts[q - 1] == close
    decreases |ts| - p
  {
    hide Level, Skip;
    var q := Skip(ts, Level(ts, Skip(ts, p), EQUALITY).p);
    if At(ts, q).Comma? { ItemsFromEnd(ts, Skip(ts, q + 1), close); }
  }

  lemma {:induction false} EntriesEnd(ts: seq<Token>, p: nat)
    requires p <= |ts| && Entries(ts, p).GoodMap?
    ensures var q := Entries(ts, p).p; p < q <= |ts| && ts[q - 1] == RBrace
  {
    hide EntriesFrom;
    if At(ts, p) != RBrace { EntriesFromEnd(ts, p); }
  }

  lemma {:induction false} EntriesFromEnd(ts: seq<Token>, p: nat)
    requires p <= |ts| && EntriesFrom(ts, p).GoodMap?
    ensures var q := EntriesFrom(ts, p).p; p < q <= |ts| && ts[q - 1] == RBrace
    decreases |ts| - p
  {
    hide Level, Skip;
    var k := Level(ts, Skip(ts, p), EQUALITY);
    var q := Skip(ts, Level(ts, Skip(ts, Skip(ts, k.p) + 1), EQUALITY).p);
    if At(ts, q).Comma? { EntriesFromEnd(ts, Skip(ts, q + 1)); }
  }

  lemma {:induction false} ChainEnds(ts: seq<Token>, p: nat, e: Expr)
    requires OneLine(ts) && 0 < p <= |ts| && Ends(ts[p - 1]) && Chain(ts, p, e).Good?
    ensures p <= Chain(ts, p, e).p <= |ts| && Ends(ts[Chain(ts, p, e).p - 1])
    decreases |ts| - p, 3
  {
    hide Level, Skip, Items, Chain, Continued, Ends, OneLine;
    ChainStep(ts, p, e);
    NothingSkipped(ts, p);
    if At(ts, p).LParen? {
      CallEnds(ts, Skip(ts, p + 1));
      var args := Items(ts, Skip(ts, p + 1), RParen);
      ChainEnds(ts, args.p, Call(e, args.es));
    } else if At(ts, p).LBracket? {
      var i := Level(ts, Skip(ts, p + 1), EQUALITY);
      IndexEnds(ts, Skip(ts, i.p));
      ChainEnds(ts, Skip(ts, i.p) + 1, Index(e, i.e));
    }
  }

  lemma NothingSkipped(ts: seq<Token>, p: nat)
    requires OneLine(ts) && p <= |ts|
    ensures Continued(ts, p) == p
  {
  }

  lemma CallEnds(ts: seq<Token>, p: nat)
    requires p <= |ts| && Items(ts, p, RParen).GoodList?
    ensures var q := Items(ts, p, RParen).p; p < q <= |ts| && Ends(ts[q - 1])
  {
    hide Items;
    ItemsEnd(ts, p, RParen);
  }

  lemma IndexEnds(ts: seq<Token>, p: nat)
    requires At(ts, p).RBracket?
    ensures p < |ts| && Ends(ts[p])
  {
  }

  // Reading goes on alike in both.

  /** What is read to in front of token `q` in `ts` is read to just behind token `q - 1` in `us`. */
  ghost predicate Alike(m: seq<nat>, r: Parsed, r': Parsed) {
    r.Good? ==> 0 < r.p <= |m| && r' == Good(r.e, Behind(m, r.p))
  }

  ghost predicate AlikeList(m: seq<nat>, r: ParsedList, r': ParsedList) {
    r.GoodList? ==> 0 < r.p <= |m| && r' == GoodList(r.es, Behind(m, r.p))
  }

  ghost predicate AlikeMap(m: seq<nat>, r: ParsedMap, r': ParsedMap) {
    r.GoodMap? ==> 0 < r.p <= |m| && r' == GoodMap(r.entries, Behind(m, r.p))
  }

  lemma Lines(ts: seq<Token>, us: seq<Token>, m: seq<nat>)
    requires Spread(ts, us, m)
    ensures OneLine(ts) && |m| == |ts| && forall k :: 0 <= k < |m| ==> m[k] < |us|
  {
  }

  lemma {:induction false} LevelAlike(ts: seq<Token>, us: seq<Token>, m: seq<nat>, p: nat, level: nat)
    requires Spread(ts, us, m) && p < |ts| == |m| && level <= UNARY && m[p] <= |us|
    ensures Alike(m, Level(ts, p, level), Level(us, m[p], level))
    decreases |ts| - p, 10 - level
  {
    hide Unary, Spread, LevelRest;
    Lines(ts, us, m);
    if level == UNARY {
      UnaryAlike(ts, us, m, p);
    } else {
      LevelAlike(ts, us, m, p, level + 1);
      var left := Level(ts, p, level + 1);
      if left.Good? {
        LevelEnds(ts, p, level + 1);
        RestAlike(ts, us, m, left.p, level, left.e);
      }
    }
  }

  lemma {:induction false} RestAlike(ts: seq<Token>, us: seq<Token>, m: seq<nat>, p: nat, level: nat, left: Expr)
    requires Spread(ts, us, m) && 0 < p <= |ts| == |m| && level < UNARY && Ends(ts[p - 1]) && Behind(m, p) <= |us|
    ensures Alike(m, LevelRest(ts, p, level, left), LevelRest(us, Behind(m, p), level, left))
    decreases |ts| - p, 10
  {
    hide Level, Spread, IsOpAt;
    Lines(ts, us, m);
    NoOperator(ts, us, m, p, level);
    if IsOpAt(level, At(ts, p)) && Level(ts, p + 1, level + 1).Good? {
      var right := Level(ts, p + 1, level + 1);
      LevelBegins(ts, p + 1, level + 1);
      BehindOperator(ts, us, m, p, level);
      LevelAlike(ts, us, m, p + 1, level + 1);
      LevelEnds(ts, p + 1, level + 1);
      RestAlike(ts, us, m, right.p, level, Combine(At(ts, p), left, right.e));
    }
  }

  /** An operand follows its operator at once. */
  lemma BehindOperator(ts: seq<Token>, us: seq<Token>, m: seq<nat>, p: nat, level: nat)
    requires Spread(ts, us, m) && p + 1 < |ts| == |m| && Show.Begins(ts[p + 1])
    requires (level < UNARY && IsOpAt(level, ts[p])) || ts[p].Minus? || ts[p].AwaitKw?
    ensures m[p + 1] == m[p] + 1 && m[p] < |us| && us[m[p]] == ts[p]
  {
    Next(ts, us, m, p + 1);
  }

  lemma {:induction false} UnaryAlike(ts: seq<Token>, us: seq<Token>, m: seq<nat>, p: nat)
    requires Spread(ts, us, m) && p < |ts| == |m| && m[p] <= |us|
    ensures Alike(m, Unary(ts, p), Unary(us, m[p]))
    decreases |ts| - p, 5
  {
    hide Primary, Chain, Spread;
    Lines(ts, us, m);
    Plain(ts, us, m, p);
    if At(ts, p).AwaitKw? || At(ts, p).Minus? {
      if Unary(ts, p + 1).Good? {
        UnaryBegins(ts, p + 1);
        BehindOperator(ts, us, m, p, 0);
        UnaryAlike(ts, us, m, p + 1);
      }
    } else if Primary(ts, p).Good? {
      PrimaryAlike(ts, us, m, p);
      PrimaryEnds(ts, p);
      ChainAlike(ts, us, m, Primary(ts, p).p, Primary(ts, p).e);
    }
  }

  /** What brackets hold is read from its first token on, over the newlines in front of it. */
  lemma {:induction false} InsideAlike(ts: seq<Token>, us: seq<Token>, m: seq<nat>, p: nat)
    requires Spread(ts, us, m) && 0 < p < |ts| == |m| && Behind(m, p) <= |us|
    ensures var r, r' := Level(ts, p, EQUALITY), Level(us, Skip(us, Behind(m, p)), EQUALITY);
            Alike(m, r, r') && (r.Good? ==> r.p <= |ts| && Ends(ts[r.p - 1]))
    decreases |ts| - p, 11
  {
    hide Level, Spread;
    Lines(ts, us, m);
    SkipTo(ts, us, m, p);
    LevelAlike(ts, us, m, p, EQUALITY);
    if Level(ts, p, EQUALITY).Good? { LevelEnds(ts, p, EQUALITY); }
  }

  /** A token of `ts` that is looked for over newlines is found in `us`. */
  lemma FoundOver(ts: seq<Token>, us: seq<Token>, m: seq<nat>, q: nat)
    requires Spread(ts, us, m) && 0 < q < |ts| == |m|
    ensures Behind(m, q) <= |us| && Skip(us, Behind(m, q)) == m[q] < |us| && At(us, m[q]) == ts[q]
    ensures Skip(ts, q) == q && Behind(m, q + 1) == m[q] + 1
  {
    SkipTo(ts, us, m, q);
  }

  /** Behind the last token there is nothing to read. */
  lemma NothingThere(ts: seq<Token>, close: Token)
    requires close != Eof
    ensures Skip(ts, |ts|) == |ts| && Level(ts, |ts|, EQUALITY).Bad? && Items(ts, |ts|, close).BadList?
    ensures ItemsFrom(ts, |ts|, close).BadList? && Entries(ts, |ts|).BadMap? && EntriesFrom(ts, |ts|).BadMap?
  {
    LevelBegins(ts, |ts|, EQUALITY);
    hide Level;
  }

  lemma {:induction false} PrimaryAlike(ts: seq<Token>, us: seq<Token>, m: seq<nat>, p: nat)
    requires Spread(ts, us, m) && p < |ts| == |m| && m[p] <= |us|
    ensures Alike(m, Primary(ts, p), Primary(us, m[p]))
    decreases |ts| - p, 4
  {
    hide Level, Items, Entries, Spread, Skip;
    Lines(ts, us, m);
    Plain(ts, us, m, p);
    if p + 1 == |ts| { NothingThere(ts, RBracket); } else { FoundOver(ts, us, m, p + 1); }
    if Primary(ts, p).Good? {
      match At(ts, p)
      case LParen =>
        InsideAlike(ts, us, m, p + 1);
        FoundOver(ts, us, m, Level(ts, p + 1, EQUALITY).p);
      case LBracket => ItemsAlike(ts, us, m, p + 1, RBracket);
      case LBrace => EntriesAlike(ts, us, m, p + 1);
      case _ =>
    }
  }

  lemma {:induction false} ItemsAlike(ts: seq<Token>, us: seq<Token>, m: seq<nat>, p: nat, close: Token)
    requires Spread(ts, us, m) && p < |ts| == |m| && m[p] <= |us| && (close.RParen? || close.RBracket?)
    ensures AlikeList(m, Items(ts, p, close), Items(us, m[p], close))
    decreases |ts| - p, 13
  {
    hide ItemsFrom, Spread;
    Plain(ts, us, m, p);
    if ts[p] != close { ItemsFromAlike(ts, us, m, p, close); }
  }

  lemma {:induction false} ItemsFromAlike(ts: seq<Token>, us: seq<Token>, m: seq<nat>, p: nat, close: Token)
    requires Spread(ts, us, m) && p < |ts| == |m| && m[p] <= |us| && (close.RParen? || close.RBracket?)
    ensures AlikeList(m, ItemsFrom(ts, p, close), ItemsFrom(us, m[p], close))
    decreases |ts| - p, 12
  {
    hide Level, Spread, Skip;
    Lines(ts, us, m);
    Plain(ts, us, m, p);
    LevelAlike(ts, us, m, p, EQUALITY);
    var r := Level(ts, p, EQUALITY);
    if r.Good? {
      if r.p == |ts| {
        NothingThere(ts, close);
      } else {
        FoundOver(ts, us, m, r.p);
        if ts[r.p].Comma? {
          if r.p + 1 == |ts| {
            NothingThere(ts, close);
          } else {
            FoundOver(ts, us, m, r.p + 1);
            ItemsFromAlike(ts, us, m, r.p + 1, close);
          }
        }
      }
    }
  }

  lemma {:induction false} EntriesAlike(ts: seq<Token>, us: seq<Token>, m: seq<nat>, p: nat)
    requires Spread(ts, us, m) && p < |ts| == |m| && m[p] <= |us|
    ensures AlikeMap(m, Entries(ts, p), Entries(us, m[p]))
    decreases |ts| - p, 13
  {
    hide EntriesFrom, Spread;
    Plain(ts, us, m, p);
    if ts[p] != RBrace { EntriesFromAlike(ts, us, m, p); }
  }

  /** A key and its colon. */
  lemma {:induction false} KeyAlike(ts: seq<Token>, us: seq<Token>, m: seq<nat>, p: nat)
    requires Spread(ts, us, m) && p < |ts| == |m| && m[p] <= |us|
    requires Level(ts, p, EQUALITY).Good? && At(ts, Level(ts, p, EQUALITY).p).Colon?
    ensures var k := Level(ts, p, EQUALITY);
            && 0 < k.p < |ts| && Level(us, m[p], EQUALITY) == Good(k.e, Behind(m, k.p)) && Behind(m, k.p) <= |us|
            && Skip(ts, k.p) == k.p && Skip(us, Behind(m, k.p)) == m[k.p] && At(us, m[k.p]).Colon?
            && m[k.p] < |us|
    decreases |ts| - p, 11
  {
    hide Level, Spread, Skip;
    LevelAlike(ts, us, m, p, EQUALITY);
    FoundOver(ts, us, m, Level(ts, p, EQUALITY).p);
  }

  lemma {:induction false} EntriesFromAlike(ts: seq<Token>, us: seq<Token>, m: seq<nat>, p: nat)
    requires Spread(ts, us, m) && p < |ts| == |m| && m[p] <= |us|
    ensures AlikeMap(m, EntriesFrom(ts, p), EntriesFrom(us, m[p]))
    decreases |ts| - p, 12
  {
    hide Level, Spread, Skip, EntriesFrom;
    Plain(ts, us, m, p);
    NothingThere(ts, RBracket);
    EntriesStep(ts, p, []);
    EntriesStep(us, m[p], []);
    PrefixedMapTwice([], [], EntriesFrom(ts, p));
    PrefixedMapTwice([], [], EntriesFrom(us, m[p]));
    var k := Level(ts, p, EQUALITY);
    if k.Good? {
      Plain(ts, us, m, k.p);
      if At(ts, k.p).Colon? && k.p + 1 < |ts| {
        KeyAlike(ts, us, m, p);
        ValueAlike(ts, us, m, k.p, k.e);
      }
    }
  }

  /** The value behind a colon, and the entries after it. */
  lemma {:induction false} ValueAlike(ts: seq<Token>, us: seq<Token>, m: seq<nat>, p: nat, key: Expr)
    requires Spread(ts, us, m) && 0 < p && p + 1 < |ts| == |m| && m[p] < |us|
    ensures Skip(ts, p + 1) == p + 1 && Skip(us, m[p] + 1) == m[p + 1] <= |us|
    ensures var v, v' := Level(ts, p + 1, EQUALITY), Level(us, m[p + 1], EQUALITY);
            && Alike(m, v, v') && (v.Good? ==> Skip(ts, v.p) == v.p)
            && (v.Good? && v.p < |ts| ==> v'.p <= |us| && Skip(us, v'.p) == m[v.p] < |us| && At(us, m[v.p]) == ts[v.p])
            && (v.Good? && At(ts, v.p).Comma? ==>
                  AlikeMap(m, EntriesFrom(ts, Skip(ts, v.p + 1)), EntriesFrom(us, Skip(us, m[v.p] + 1))))
    decreases |ts| - p, 12
  {
    hide Level, Spread, Skip, EntriesFrom, AlikeMap;
    FoundOver(ts, us, m, p + 1);
    LevelAlike(ts, us, m, p + 1, EQUALITY);
    var v := Level(ts, p + 1, EQUALITY);
    if v.Good? {
      Plain(ts, us, m, v.p);
      if v.p < |ts| {
        FoundOver(ts, us, m, v.p);
        if ts[v.p].Comma? { MoreEntries(ts, us, m, v.p + 1); }
      }
    }
  }

  lemma {:induction false} MoreEntries(ts: seq<Token>, us: seq<Token>, m: seq<nat>, p: nat)
    requires Spread(ts, us, m) && 0 < p <= |ts| == |m| && Behind(m, p) <= |us|
    ensures AlikeMap(m, EntriesFrom(ts, Skip(ts, p)), EntriesFrom(us, Skip(us, Behind(m, p))))
    decreases |ts| - p, 13
  {
    hide Level, Spread, Skip, EntriesFrom;
    if p == |ts| {
      NothingThere(ts, RBracket);
    } else {
      FoundOver(ts, us, m, p);
      EntriesFromAlike(ts, us, m, p);
    }
  }

  lemma {:induction false} ChainAlike(ts: seq<Token>, us: seq<Token>, m: seq<nat>, p: nat, e: Expr)
    requires Spread(ts, us, m) && 0 < p <= |ts| == |m| && Ends(ts[p - 1]) && Behind(m, p) <= |us|
    ensures Alike(m, Chain(ts, p, e), Chain(us, Behind(m, p), e))
    decreases |ts| - p, 3
  {
    hide Level, Items, Chain, Spread, Skip, Continued, Ends;
    Plain(ts, us, m, p);
    ChainStep(ts, p, e);
    ChainStep(us, Behind(m, p), e);
    if At(ts, p).LParen? || At(ts, p).LBracket? {
      ToBracket(ts, us, m, p);
      if p + 1 == |ts| {
        NothingThere(ts, RParen);
      } else {
        FoundOver(ts, us, m, p + 1);
        if At(ts, p).LParen? { CallAlike(ts, us, m, p, e); } else { IndexAlike(ts, us, m, p, e); }
      }
    } else {
      NoBracket(ts, us, m, p);
    }
  }

  /** A call, and the links after it. */
  lemma {:induction false} CallAlike(ts: seq<Token>, us: seq<Token>, m: seq<nat>, p: nat, e: Expr)
    requires Spread(ts, us, m) && 0 < p < |ts| - 1 && |m| == |ts| && m[p + 1] <= |us|
    ensures var args, args' := Items(ts, p + 1, RParen), Items(us, m[p + 1], RParen);
            args.GoodList? ==> args.p <= |ts| && args'.GoodList? && args'.es == args.es && args'.p <= |us|
                               && Alike(m, Chain(ts, args.p, Call(e, args.es)), Chain(us, args'.p, Call(e, args.es)))
    decreases |ts| - p, 2
  {
    hide Level, Items, Chain, Spread, Skip;
    ItemsAlike(ts, us, m, p + 1, RParen);
    var args := Items(ts, p + 1, RParen);
    if args.GoodList? {
      ItemsEnd(ts, p + 1, RParen);
      ChainAlike(ts, us, m, args.p, Call(e, args.es));
    }
  }

  /** An indexing, and the links after it. */
  lemma {:induction false} IndexAlike(ts: seq<Token>, us: seq<Token>, m: seq<nat>, p: nat, e: Expr)
    requires Spread(ts, us, m) && 0 < p < |ts| - 1 && |m| == |ts| && m[p + 1] <= |us|
    ensures var i, i' := Level(ts, p + 1, EQUALITY), Level(us, m[p + 1], EQUALITY);
            i.Good? ==> Skip(ts, i.p) == i.p && i'.Good? && i'.e == i.e && i'.p <= |us|
                        && (At(ts, i.p).RBracket? ==>
                              i.p < |ts| && At(us, Skip(us, i'.p)).RBracket? && Skip(us, i'.p) < |us|
                              && Alike(m, Chain(ts, i.p + 1, Index(e, i.e)),
                                       Chain(us, Skip(us, i'.p) + 1, Index(e, i.e))))
    decreases |ts| - p, 2
  {
    hide Level, Items, Chain, Spread, Skip;
    LevelAlike(ts, us, m, p + 1, EQUALITY);
    var i := Level(ts, p + 1, EQUALITY);
    if i.Good? {
      Plain(ts, us, m, i.p);
      if At(ts, i.p).RBracket? {
        FoundOver(ts, us, m, i.p);
        ChainAlike(ts, us, m, i.p + 1, Index(e, i.e));
      }
    }
  }

  // Tokens with newlines between them.

  /** The tokens, token `k` with `gaps[k]` newlines in front of it. */
  function Spaced(ts: seq<Token>, gaps: seq<nat>): seq<Token>
    requires |gaps| == |ts|
  {
    if ts == [] then []
    else
      var n := |ts| - 1;
      Spaced(ts[..n], gaps[..n]) + (seq(gaps[n], _ => Newline) + [ts[n]])
  }

  /** The newlines stand where they may, none in front. */
  predicate MayStand(ts: seq<Token>, gaps: seq<nat>) {
    && ts != [] && |gaps| == |ts| && gaps[0] == 0
    && forall k :: 0 < k < |ts| ==> MayPart(ts[k - 1], ts[k], gaps[k])
  }

  /** `Spread` without what comes behind. */
  ghost predicate Sits(ts: seq<Token>, us: seq<Token>, m: seq<nat>) {
    && ts != [] && |m| == |ts| && m[0] == 0 && |us| == m[|m| - 1] + 1
    && Placed(ts, us, m) && Parted(ts, m) && Blank(us, m)
  }

  lemma {:induction false} SpacedSits(ts: seq<Token>, gaps: seq<nat>) returns (m: seq<nat>)
    requires MayStand(ts, gaps)
    ensures Sits(ts, Spaced(ts, gaps), m)
    decreases |ts|
  {
    var n := |ts| - 1;
    if n == 0 {
      m := [0];
      assert Spaced(ts[..0], gaps[..0]) == [] && seq(gaps[0], _ => Newline) == [];
      assert Spaced(ts, gaps) == [ts[0]];
    } else {
      var m' := SpacedSits(ts[..n], gaps[..n]);
      var us := Spaced(ts[..n], gaps[..n]);
      Padded(us, gaps[n], ts[n], Spaced(ts, gaps));
      assert ts == ts[..n] + [ts[n]];
      m := m' + [|us| + gaps[n]];
      OneMore(ts[..n], us, m', ts[n], gaps[n], ts, Spaced(ts, gaps), m);
    }
  }

  lemma Padded(us: seq<Token>, gap: nat, t: Token, us': seq<Token>)
    requires us' == us + (seq(gap, _ => Newline) + [t])
    ensures |us'| == |us| + gap + 1 && us'[|us| + gap] == t && us'[..|us|] == us
    ensures forall i :: |us| <= i < |us| + gap ==> us'[i].Newline?
  {
  }

  lemma OneMore(ts: seq<Token>, us: seq<Token>, m: seq<nat>, t: Token, gap: nat, ts': seq<Token>, us': seq<Token>,
                m': seq<nat>)
    requires Sits(ts, us, m) && MayPart(ts[|ts| - 1], t, gap)
    requires ts' == ts + [t] && m' == m + [|us| + gap]
    requires |us'| == |us| + gap + 1 && us'[|us| + gap] == t && us'[..|us|] == us
    requires forall i :: |us| <= i < |us| + gap ==> us'[i].Newline?
    ensures Sits(ts', us', m')
  {
    OneMorePlaced(ts, us, m, ts', us', m');
    OneMoreParted(ts, m, t, gap, ts', m');
    OneMoreBlank(us, m, gap, us', m');
    hide Placed, Parted, Blank;
  }

  lemma OneMorePlaced(ts: seq<Token>, us: seq<Token>, m: seq<nat>, ts': seq<Token>, us': seq<Token>, m': seq<nat>)
    requires Placed(ts, us, m) && |us| <= |us'| && us'[..|us|] == us && |ts'| == |ts| + 1 && |m'| == |m| + 1
    requires ts'[..|ts|] == ts && m'[..|m|] == m && m'[|m|] < |us'| && us'[m'[|m|]] == ts'[|ts|]
    ensures Placed(ts', us', m')
  {
    forall k | 0 <= k < |m| ensures m'[k] < |us'| && us'[m'[k]] == ts'[k] {
      assert m'[..|m|][k] == m[k] && ts'[..|ts|][k] == ts[k] && us'[..|us|][m[k]] == us[m[k]];
    }
  }

  lemma OneMoreParted(ts: seq<Token>, m: seq<nat>, t: Token, gap: nat, ts': seq<Token>, m': seq<nat>)
    requires Parted(ts, m) && ts != [] && ts' == ts + [t] && m' == m + [m[|m| - 1] + 1 + gap]
    requires MayPart(ts[|ts| - 1], t, gap)
    ensures Parted(ts', m')
  {
    hide MayPart;
  }

  lemma OneMoreBlank(us: seq<Token>, m: seq<nat>, gap: nat, us': seq<Token>, m': seq<nat>)
    requires Blank(us, m) && m != [] && m' == m + [|us| + gap] && |us| == m[|m| - 1] + 1
    requires |us'| == |us| + gap + 1 && us'[..|us|] == us
    requires forall i :: |us| <= i < |us| + gap ==> us'[i].Newline?
    ensures Blank(us', m')
  {
    forall k, i | 0 < k < |m'| && m'[k - 1] < i < m'[k] ensures us'[i].Newline? {
      if k < |m| { assert us[i].Newline? && us'[..|us|][i] == us[i]; }
    }
  }

  lemma SitsSpread(ts: seq<Token>, us: seq<Token>, m: seq<nat>, rest: seq<Token>)
    requires Sits(ts, us, m) && OneLine(ts) && Over(us + rest, |us|)
    ensures Spread(ts, us + rest, m)
  {
    hide MayPart, Over;
    forall k, i | 0 < k < |m| && m[k - 1] < i < m[k] ensures (us + rest)[i].Newline? {
      assert us[i].Newline?;
    }
  }

  // Written expressions.

  lemma Joined(a: seq<Token>, b: seq<Token>)
    requires OneLine(a) && OneLine(b)
    ensures OneLine(a + b)
  {
  }

  lemma {:induction false} WrittenOnOneLine(e: Expr, k: nat)
    ensures OneLine(Show.Write(e, k))
    decreases SizeE(e), 1
  {
    BareOnOneLine(e);
    Joined(Show.Bare(e), [RParen]);
    Joined([LParen], Show.Bare(e) + [RParen]);
  }

  lemma {:induction false} BareOnOneLine(e: Expr)
    ensures OneLine(Show.Bare(e))
    decreases SizeE(e), 0
  {
    hide OneLine, Show.Write, Show.WriteItems, Show.WriteEntries;
    match e
    case Lit(v) => OneToken(Show.LitToken(v));
    case Name(x) => OneToken(Ident(if x.User? then x.text else ""));
    case Neg(a) => Prefix(Minus, a);
    case Await(a) => Prefix(AwaitKw, a);
    case Bin(op, a, b) => Infix(a, Show.BinToken(op), b, Show.LevelOf(e));
    case Cmp(op, a, b) => Infix(a, Show.CmpToken(op), b, Show.LevelOf(e));
    case Call(f, args) =>
      WrittenOnOneLine(f, 5);
      ItemsOnOneLine(args);
      Bracketed(LParen, Show.WriteItems(args), RParen);
      Joined(Show.Write(f, 5), [LParen] + (Show.WriteItems(args) + [RParen]));
    case Index(a, i) =>
      WrittenOnOneLine(a, 5);
      WrittenOnOneLine(i, 0);
      Bracketed(LBracket, Show.Write(i, 0), RBracket);
      Joined(Show.Write(a, 5), [LBracket] + (Show.Write(i, 0) + [RBracket]));
    case ListLit(es) =>
      ItemsOnOneLine(es);
      Bracketed(LBracket, Show.WriteItems(es), RBracket);
    case MapLit(entries) =>
      EntriesOnOneLine(entries);
      Bracketed(LBrace, Show.WriteEntries(entries), RBrace);
  }

  lemma OneToken(t: Token)
    requires !t.Newline?
    ensures OneLine([t])
  {
  }

  lemma Bracketed(open: Token, ts: seq<Token>, close: Token)
    requires OneLine(ts) && !open.Newline? && !close.Newline?
    ensures OneLine([open] + (ts + [close]))
  {
  }

  lemma {:induction false} Prefix(t: Token, a: Expr)
    requires !t.Newline?
    ensures OneLine([t] + Show.Write(a, 4))
    decreases SizeE(a), 2
  {
    WrittenOnOneLine(a, 4);
    hide Show.Write;
  }

  lemma {:induction false} Infix(a: Expr, t: Token, b: Expr, k: nat)
    requires !t.Newline?
    ensures OneLine(Show.Write(a, k) + ([t] + Show.Write(b, k + 1)))
    decreases SizeE(a) + SizeE(b), 2
  {
    WrittenOnOneLine(a, k);
    WrittenOnOneLine(b, k + 1);
    hide Show.Write;
  }

  lemma {:induction false} ItemsOnOneLine(es: seq<Expr>)
    ensures OneLine(Show.WriteItems(es))
    decreases SizeEs(es), 0
  {
    if es != [] {
      WrittenOnOneLine(es[0], 0);
      ItemsOnOneLine(es[1..]);
      hide Show.Write;
    }
  }

  lemma {:induction false} EntriesOnOneLine(entries: seq<Entry>)
    ensures OneLine(Show.WriteEntries(entries))
    decreases SizeEntries(entries), 0
  {
    if entries != [] {
      assert SizeEntries(entries) == SizeEntry(entries[0]) + SizeEntries(entries[1..]);
      WrittenOnOneLine(entries[0].key, 0);
      WrittenOnOneLine(entries[0].val, 0);
      EntriesOnOneLine(entries[1..]);
      hide Show.Write;
    }
  }

  /** Every writable expression is read back when it is written over several lines: any number
      of newlines behind opening brackets, commas and colons and in front of commas, colons and
      closing brackets, and one in front of a bracket that calls or indexes; and whatever comes
      behind that does not go on with it. */
  lemma ReadsBackOverLines(e: Expr, gaps: seq<nat>, rest: seq<Token>)
    requires Show.Writable(e) && |gaps| == |Show.Write(e, 0)| && MayStand(Show.Write(e, 0), gaps)
    requires Over(Spaced(Show.Write(e, 0), gaps) + rest, |Spaced(Show.Write(e, 0), gaps)|)
    ensures var us := Spaced(Show.Write(e, 0), gaps);
            Level(us + rest, 0, EQUALITY) == Good(e, |us|)
  {
    hide Level, Show.Write, Show.Writable, Over, Spaced, MayStand;
    var ts := Show.Write(e, 0);
    var us := Spaced(ts, gaps);
    Show.ReadsBack(e, []);
    assert ts + [] == ts;
    WrittenOnOneLine(e, 0);
    var m := SpacedSits(ts, gaps);
    SitsSpread(ts, us, m, rest);
    LevelAlike(ts, us + rest, m, 0, EQUALITY);
  }

  /** The tokens as they are, in front of something. */
  lemma Straight(ts: seq<Token>, rest: seq<Token>, m: seq<nat>)
    requires ts != [] && OneLine(ts) && Over(ts + rest, |ts|) && |m| == |ts| && forall k :: 0 <= k < |m| ==> m[k] == k
    ensures Spread(ts, ts + rest, m)
  {
    hide Over;
  }

  lemma BlankLineOver(ts: seq<Token>, rest: seq<Token>)
    ensures Over(ts + ([Newline, Newline] + rest), |ts|)
  {
    var all := ts + ([Newline, Newline] + rest);
    assert all[|ts|] == Newline && all[|ts| + 1] == Newline;
  }

  /** A single newline in front of a bracket goes on with an expression, two end it. */
  lemma TwoNewlinesEnd(e: Expr, rest: seq<Token>)
    requires Show.Writable(e)
    ensures var ts := Show.Write(e, 0);
            Level(ts + ([Newline, Newline] + rest), 0, EQUALITY) == Good(e, |ts|)
  {
    hide Level, Show.Write, Show.Writable, Over, OneLine, Spread;
    var ts := Show.Write(e, 0);
    Show.ReadsBack(e, []);
    assert ts + [] == ts;
    WrittenOnOneLine(e, 0);
    Show.WriteBegins(e, 0);
    BlankLineOver(ts, rest);
    var m := seq(|ts|, k requires 0 <= k => k);
    Straight(ts, [Newline, Newline] + rest, m);
    LevelAlike(ts, ts + ([Newline, Newline] + rest), m, 0, EQUALITY);
  }
}
