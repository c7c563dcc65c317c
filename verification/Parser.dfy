/** The expression part of the recursive-descent parser, over a list of tokens. */
module Parser {
  import opened Syntax

  datatype Token =
    | Number(i: int)
    | Text(s: string)
    | Ident(s: string)
    | True | False | Null | AwaitKw
    | Plus | Minus | Star | Slash
    | EqEq | NotEq | Gt | Ge | Lt | Le
    | LParen | RParen | LBracket | RBracket | LBrace | RBrace
    | Comma | Colon | Newline
    | Other(s: string)
    | Eof

  function At(toks: seq<Token>, p: nat): Token {
    if p < |toks| then toks[p] else Eof
  }

  datatype Parsed = Good(e: Expr, p: nat) | Bad

  datatype ParsedList = GoodList(es: seq<Expr>, p: nat) | BadList

  datatype ParsedMap = GoodMap(entries: seq<Entry>, p: nat) | BadMap

  /** The first position at or after `p` that holds no newline. */
  function Skip(toks: seq<Token>, p: nat): (q: nat)
    requires p <= |toks|
    ensures p <= q <= |toks|
    decreases |toks| - p
  {
    if At(toks, p).Newline? then Skip(toks, p + 1) else p
  }

  /** A newline in front of a parenthesis or bracket does not end a call chain. */
  function Continued(toks: seq<Token>, p: nat): (q: nat)
    requires p <= |toks|
    ensures p <= q <= |toks|
  {
    if At(toks, p).Newline? && (At(toks, p + 1).LParen? || At(toks, p + 1).LBracket?) then p + 1 else p
  }

  // The levels of binary operators, loosest first: equality, comparison, sum, product.

  const EQUALITY := 0
  const SUM := 2
  const UNARY := 4

  predicate IsOpAt(level: nat, t: Token) {
    match level
    case 0 => t.EqEq? || t.NotEq?
    case 1 => t.Gt? || t.Ge? || t.Lt? || t.Le?
    case 2 => t.Plus? || t.Minus?
    case 3 => t.Star? || t.Slash?
    case _ => false
  }

  function Combine(t: Token, left: Expr, right: Expr): Expr {
    match t
    case EqEq => Cmp(CmpOp.Eq, left, right)
    case NotEq => Cmp(CmpOp.Ne, left, right)
    case Gt => Cmp(CmpOp.Gt, left, right)
    case Ge => Cmp(CmpOp.Ge, left, right)
    case Lt => Cmp(CmpOp.Lt, left, right)
    case Le => Cmp(CmpOp.Le, left, right)
    case Plus => Bin(Add, left, right)
    case Minus => Bin(Sub, left, right)
    case Star => Bin(Mul, left, right)
    case _ => Bin(Div, left, right)
  }

  function Level(toks: seq<Token>, p: nat, level: nat): (r: Parsed)
    requires p <= |toks| && level <= UNARY
    ensures r.Good? ==> p < r.p <= |toks|
    decreases |toks| - p, 10 - level
  {
    if level == UNARY then Unary(toks, p)
    else
      var left := Level(toks, p, level + 1);
      if left.Bad? then Bad else LevelRest(toks, left.p, level, left.e)
  }

  /** The operators of a level that follow its first operand associate to the left. */
  function LevelRest(toks: seq<Token>, p: nat, level: nat, left: Expr): (r: Parsed)
    requires p <= |toks| && level < UNARY
    ensures r.Good? ==> p <= r.p <= |toks|
    decreases |toks| - p, 10
  {
    if !IsOpAt(level, At(toks, p)) then Good(left, p)
    else
      var right := Level(toks, p + 1, level + 1);
      if right.Bad? then Bad else LevelRest(toks, right.p, level, Combine(At(toks, p), left, right.e))
  }

  function Unary(toks: seq<Token>, p: nat): (r: Parsed)
    requires p <= |toks|
    ensures r.Good? ==> p < r.p <= |toks|
    decreases |toks| - p, 5
  {
    if At(toks, p).AwaitKw? then
      var r := Unary(toks, p + 1);
      if r.Bad? then Bad else Good(Await(r.e), r.p)
    else if At(toks, p).Minus? then
      var r := Unary(toks, p + 1);
      if r.Bad? then Bad else Good(Neg(r.e), r.p)
    else
      var r := Primary(toks, p);
      if r.Bad? then Bad else Chain(toks, r.p, r.e)
  }

  /** Calls and indexings after a primary expression. */
  function Chain(toks: seq<Token>, p: nat, e: Expr): (r: Parsed)
    requires p <= |toks|
    ensures r.Good? ==> p <= r.p <= |toks|
    decreases |toks| - p, 3
  {
    var q := Continued(toks, p);
    if At(toks, q).LParen? then
      var args := Items(toks, Skip(toks, q + 1), RParen);
      if args.BadList? then Bad else Chain(toks, args.p, Call(e, args.es))
    else if At(toks, q).LBracket? then
      var i := Level(toks, Skip(toks, q + 1), EQUALITY);
      if i.Bad? || !At(toks, Skip(toks, i.p)).RBracket? then Bad
      else Chain(toks, Skip(toks, i.p) + 1, Index(e, i.e))
    else Good(e, q)
  }

  function Primary(toks: seq<Token>, p: nat): (r: Parsed)
    requires p <= |toks|
    ensures r.Good? ==> p < r.p <= |toks|
    decreases |toks| - p, 4
  {
    match At(toks, p)
    case Number(i) => Good(Lit(VInt(i)), p + 1)
    case Text(s) => Good(Lit(VText(s)), p + 1)
    case True => Good(Lit(VBool(true)), p + 1)
    case False => Good(Lit(VBool(false)), p + 1)
    case Null => Good(Lit(VNull), p + 1)
    case Ident(s) => Good(Name(User(s)), p + 1)
    case LParen =>
      var r := Level(toks, Skip(toks, p + 1), EQUALITY);
      if r.Bad? || !At(toks, Skip(toks, r.p)).RParen? then Bad else Good(r.e, Skip(toks, r.p) + 1)
    case LBracket =>
      var es := Items(toks, Skip(toks, p + 1), RBracket);
      if es.BadList? then Bad else Good(ListLit(es.es), es.p)
    case LBrace =>
      var es := Entries(toks, Skip(toks, p + 1));
      if es.BadMap? then Bad else Good(MapLit(es.entries), es.p)
    case _ => Bad
  }

  function Prefixed(es: seq<Expr>, r: ParsedList): ParsedList {
    if r.GoodList? then GoodList(es + r.es, r.p) else BadList
  }

  function PrefixedMap(es: seq<Entry>, r: ParsedMap): ParsedMap {
    if r.GoodMap? then GoodMap(es + r.entries, r.p) else BadMap
  }

  lemma PrefixedTwice(a: seq<Expr>, b: seq<Expr>, r: ParsedList)
    ensures Prefixed(a, Prefixed(b, r)) == Prefixed(a + b, r)
    ensures Prefixed([], r) == r
  {
    if r.GoodList? { assert a + (b + r.es) == a + b + r.es && [] + r.es == r.es; }
  }

  lemma PrefixedMapTwice(a: seq<Entry>, b: seq<Entry>, r: ParsedMap)
    ensures PrefixedMap(a, PrefixedMap(b, r)) == PrefixedMap(a + b, r)
    ensures PrefixedMap([], r) == r
  {
    if r.GoodMap? { assert a + (b + r.entries) == a + b + r.entries && [] + r.entries == r.entries; }
  }

  /** Expressions between commas, up to and past the closing token. */
  function Items(toks: seq<Token>, p: nat, close: Token): (r: ParsedList)
    requires p <= |toks| && close != Eof
    ensures r.GoodList? ==> p <= r.p <= |toks|
    decreases |toks| - p, 12
  {
    if At(toks, p) == close then GoodList([], p + 1) else ItemsFrom(toks, p, close)
  }

  function ItemsFrom(toks: seq<Token>, p: nat, close: Token): (r: ParsedList)
    requires p <= |toks| && close != Eof
    ensures r.GoodList? ==> p < r.p <= |toks|
    decreases |toks| - p, 11
  {
    var r := Level(toks, Skip(toks, p), EQUALITY);
    if r.Bad? then BadList
    else
      var q := Skip(toks, r.p);
      if At(toks, q).Comma? then
        Prefixed([r.e], ItemsFrom(toks, Skip(toks, q + 1), close))
      else if At(toks, q) == close then GoodList([r.e], q + 1)
      else BadList
  }

  function Entries(toks: seq<Token>, p: nat): (r: ParsedMap)
    requires p <= |toks|
    ensures r.GoodMap? ==> p <= r.p <= |toks|
    decreases |toks| - p, 12
  {
    if At(toks, p).RBrace? then GoodMap([], p + 1) else EntriesFrom(toks, p)
  }

  function EntriesFrom(toks: seq<Token>, p: nat): (r: ParsedMap)
    requires p <= |toks|
    ensures r.GoodMap? ==> p < r.p <= |toks|
    decreases |toks| - p, 11
  {
    var k := Level(toks, Skip(toks, p), EQUALITY);
    if k.Bad? || !At(toks, Skip(toks, k.p)).Colon? then BadMap
    else
      var v := Level(toks, Skip(toks, Skip(toks, k.p) + 1), EQUALITY);
      if v.Bad? then BadMap
      else
        var q := Skip(toks, v.p);
        if At(toks, q).Comma? then
          PrefixedMap([Entry(k.e, v.e)], EntriesFrom(toks, Skip(toks, q + 1)))
        else if At(toks, q).RBrace? then GoodMap([Entry(k.e, v.e)], q + 1)
        else BadMap
  }

  /** One item, in front of the rest of a list whose first items are `es`. */
  lemma ItemsStep(toks: seq<Token>, p: nat, close: Token, es: seq<Expr>)
    requires p <= |toks| && close != Eof
    ensures var r := Level(toks, Skip(toks, p), EQUALITY);
            Prefixed(es, ItemsFrom(toks, p, close)) ==
            if r.Bad? then BadList
            else
              var q := Skip(toks, r.p);
              if At(toks, q).Comma? then Prefixed(es + [r.e], ItemsFrom(toks, Skip(toks, q + 1), close))
              else if At(toks, q) == close then GoodList(es + [r.e], q + 1)
              else BadList
  {
    hide Level, Skip;
    var r := Level(toks, Skip(toks, p), EQUALITY);
    if r.Good? && At(toks, Skip(toks, r.p)).Comma? {
      PrefixedTwice(es, [r.e], ItemsFrom(toks, Skip(toks, Skip(toks, r.p) + 1), close));
    }
  }

  lemma EntriesStep(toks: seq<Token>, p: nat, es: seq<Entry>)
    requires p <= |toks|
    ensures var k := Level(toks, Skip(toks, p), EQUALITY);
            PrefixedMap(es, EntriesFrom(toks, p)) ==
            if k.Bad? || !At(toks, Skip(toks, k.p)).Colon? then BadMap
            else
              var v := Level(toks, Skip(toks, Skip(toks, k.p) + 1), EQUALITY);
              if v.Bad? then BadMap
              else
                var q := Skip(toks, v.p);
                if At(toks, q).Comma? then PrefixedMap(es + [Entry(k.e, v.e)], EntriesFrom(toks, Skip(toks, q + 1)))
                else if At(toks, q).RBrace? then GoodMap(es + [Entry(k.e, v.e)], q + 1)
                else BadMap
  {
    hide Level, Skip;
    var k := Level(toks, Skip(toks, p), EQUALITY);
    if k.Good? && At(toks, Skip(toks, k.p)).Colon? {
      var v := Level(toks, Skip(toks, Skip(toks, k.p) + 1), EQUALITY);
      if v.Good? && At(toks, Skip(toks, v.p)).Comma? {
        PrefixedMapTwice(es, [Entry(k.e, v.e)], EntriesFrom(toks, Skip(toks, Skip(toks, v.p) + 1)));
      }
    }
  }

  /** One call or indexing of a chain. */
  lemma ChainStep(toks: seq<Token>, p: nat, e: Expr)
    requires p <= |toks|
    ensures var q := Continued(toks, p);
            Chain(toks, p, e) ==
            if At(toks, q).LParen? then
              var args := Items(toks, Skip(toks, q + 1), RParen);
              if args.BadList? then Bad else Chain(toks, args.p, Call(e, args.es))
            else if At(toks, q).LBracket? then
              var i := Level(toks, Skip(toks, q + 1), EQUALITY);
              if i.Bad? || !At(toks, Skip(toks, i.p)).RBracket? then Bad
              else Chain(toks, Skip(toks, i.p) + 1, Index(e, i.e))
            else Good(e, q)
  {
    hide Level, Skip, Items;
  }

  /** The parser: a cursor into the tokens. A method that returns None has raised
      a syntax error. */
  class ExprParser {
    const toks: seq<Token>
    var current: nat

    constructor (toks: seq<Token>)
      ensures this.toks == toks && current == 0
    {
      this.toks, current := toks, 0;
    }

    /** The method read what the specification reads, or failed where it fails. */
    predicate Read(spec: Parsed, r: Option<Expr>)
      reads this
    {
      if spec.Good? then r == Some(spec.e) && current == spec.p else r.None?
    }

    predicate ReadList(spec: ParsedList, r: Option<seq<Expr>>)
      reads this
    {
      if spec.GoodList? then r == Some(spec.es) && current == spec.p else r.None?
    }

    predicate ReadMap(spec: ParsedMap, r: Option<seq<Entry>>)
      reads this
    {
      if spec.GoodMap? then r == Some(spec.entries) && current == spec.p else r.None?
    }

    method SkipSeparators()
      requires current <= |toks|
      modifies this
      ensures current == Skip(toks, old(current))
    {
      while At(toks, current).Newline?
        invariant current <= |toks| && Skip(toks, current) == Skip(toks, old(current))
        decreases |toks| - current
      {
        current := current + 1;
      }
    }

    /** The four levels of binary operators share this loop. */
    method ParseLevel(level: nat) returns (r: Option<Expr>)
      requires current <= |toks| && level <= UNARY
      modifies this
      ensures Read(Level(toks, old(current), level), r)
      decreases |toks| - current, 10 - level
    {
      if level == UNARY {
        r := ParseUnary();
        return;
      }
      r := ParseLevel(level + 1);
      if r.None? { return; }
      var e := r.value;
      while IsOpAt(level, At(toks, current))
        invariant old(current) < current <= |toks|
        invariant Level(toks, old(current), level) == LevelRest(toks, current, level, e)
        decreases |toks| - current
      {
        var operator := At(toks, current);
        current := current + 1;
        r := ParseLevel(level + 1);
        if r.None? { return; }
        e := Combine(operator, e, r.value);
      }
      r := Some(e);
    }

    method ParseUnary() returns (r: Option<Expr>)
      requires current <= |toks|
      modifies this
      ensures Read(Unary(toks, old(current)), r)
      decreases |toks| - current, 5
    {
      if At(toks, current).AwaitKw? {
        current := current + 1;
        r := ParseUnary();
        if r.Some? { r := Some(Await(r.value)); }
        return;
      }
      if At(toks, current).Minus? {
        current := current + 1;
        r := ParseUnary();
        if r.Some? { r := Some(Neg(r.value)); }
        return;
      }
      r := ParsePrimary();
      if r.None? { return; }
      r := ParseChain(r.value);
    }

    method ParseCall(e: Expr) returns (r: Option<Expr>)
      requires current < |toks| && At(toks, current).LParen?
      modifies this
      ensures var args := Items(toks, Skip(toks, old(current) + 1), RParen);
              if args.BadList? then r.None? else r == Some(Call(e, args.es)) && current == args.p
      decreases |toks| - current, 2
    {
      hide Items, Skip;
      current := current + 1;
      SkipSeparators();
      var args := ParseItems(RParen);
      r := if args.Some? then Some(Call(e, args.value)) else None;
    }

    method ParseIndex(e: Expr) returns (r: Option<Expr>)
      requires current < |toks| && At(toks, current).LBracket?
      modifies this
      ensures var i := Level(toks, Skip(toks, old(current) + 1), EQUALITY);
              if i.Bad? || !At(toks, Skip(toks, i.p)).RBracket? then r.None?
              else r == Some(Index(e, i.e)) && current == Skip(toks, i.p) + 1
      decreases |toks| - current, 2
    {
      hide Level, Skip;
      current := current + 1;
      SkipSeparators();
      r := ParseLevel(EQUALITY);
      if r.None? { return; }
      SkipSeparators();
      if !At(toks, current).RBracket? { return None; }
      current := current + 1;
      r := Some(Index(e, r.value));
    }

    method ParseChain(first: Expr) returns (r: Option<Expr>)
      requires current <= |toks|
      modifies this
      ensures Read(Chain(toks, old(current), first), r)
      decreases |toks| - current, 3
    {
      hide Level, LevelRest, Unary, Primary, Chain, Items, ItemsFrom, Entries, EntriesFrom, Skip;
      var e := first;
      while true
        invariant old(current) <= current <= |toks|
        invariant Chain(toks, old(current), first) == Chain(toks, current, e)
        decreases |toks| - current
      {
        ChainStep(toks, current, e);
        if At(toks, current).Newline? && (At(toks, current + 1).LParen? || At(toks, current + 1).LBracket?) {
          current := current + 1;
        }
        if At(toks, current).LParen? {
          r := ParseCall(e);
        } else if At(toks, current).LBracket? {
          r := ParseIndex(e);
        } else {
          return Some(e);
        }
        if r.None? { return; }
        e := r.value;
      }
    }

    method ParsePrimary() returns (r: Option<Expr>)
      requires current <= |toks|
      modifies this
      ensures Read(Primary(toks, old(current)), r)
      decreases |toks| - current, 4
    {
      var t := At(toks, current);
      match t {
        case Number(i) => current := current + 1; r := Some(Lit(VInt(i)));
        case Text(s) => current := current + 1; r := Some(Lit(VText(s)));
        case True => current := current + 1; r := Some(Lit(VBool(true)));
        case False => current := current + 1; r := Some(Lit(VBool(false)));
        case Null => current := current + 1; r := Some(Lit(VNull));
        case Ident(s) => current := current + 1; r := Some(Name(User(s)));
        case LParen =>
          current := current + 1;
          SkipSeparators();
          r := ParseLevel(EQUALITY);
          if r.None? { return; }
          SkipSeparators();
          if !At(toks, current).RParen? { return None; }
          current := current + 1;
        case LBracket =>
          current := current + 1;
          SkipSeparators();
          var es := ParseItems(RBracket);
          r := if es.Some? then Some(ListLit(es.value)) else None;
        case LBrace =>
          current := current + 1;
          SkipSeparators();
          var entries := ParseEntries();
          r := if entries.Some? then Some(MapLit(entries.value)) else None;
        case _ => r := None;
      }
    }

    /** One expression of a list, with the separators around it. */
    method ParseItem() returns (r: Option<Expr>)
      requires current <= |toks|
      modifies this
      ensures var spec := Level(toks, Skip(toks, old(current)), EQUALITY);
              if spec.Bad? then r.None? else r == Some(spec.e) && old(current) < current == Skip(toks, spec.p)
      decreases |toks| - current, 11
    {
      hide Level, Skip;
      SkipSeparators();
      r := ParseLevel(EQUALITY);
      if r.Some? { SkipSeparators(); }
    }

    method ParseItems(close: Token) returns (r: Option<seq<Expr>>)
      requires current <= |toks| && close != Eof
      modifies this
      ensures ReadList(Items(toks, old(current), close), r)
      decreases |toks| - current, 12
    {
      hide Level, ItemsFrom, Skip, Prefixed;
      if At(toks, current) == close {
        current := current + 1;
        return Some([]);
      }
      var es := [];
      PrefixedTwice([], [], ItemsFrom(toks, current, close));
      while true
        invariant old(current) <= current <= |toks|
        invariant ItemsFrom(toks, old(current), close) == Prefixed(es, ItemsFrom(toks, current, close))
        decreases |toks| - current
      {
        ItemsStep(toks, current, close, es);
        var e := ParseItem();
        if e.None? { return None; }
        es := es + [e.value];
        if At(toks, current).Comma? {
          current := current + 1;
          SkipSeparators();
        } else if At(toks, current) == close {
          current := current + 1;
          return Some(es);
        } else {
          return None;
        }
      }
    }

    /** A key, a colon and a value, with the separators around them. */
    method ParseEntry() returns (r: Option<Entry>)
      requires current <= |toks|
      modifies this
      ensures var k := Level(toks, Skip(toks, old(current)), EQUALITY);
              if k.Bad? || !At(toks, Skip(toks, k.p)).Colon? then r.None?
              else
                var v := Level(toks, Skip(toks, Skip(toks, k.p) + 1), EQUALITY);
                if v.Bad? then r.None? else r == Some(Entry(k.e, v.e)) && old(current) < current == Skip(toks, v.p)
      decreases |toks| - current, 12
    {
      hide Level, Skip;
      var k := ParseItem();
      if k.None? || !At(toks, current).Colon? { return None; }
      current := current + 1;
      var v := ParseItem();
      r := if v.Some? then Some(Entry(k.value, v.value)) else None;
    }

    method ParseEntries() returns (r: Option<seq<Entry>>)
      requires current <= |toks|
      modifies this
      ensures ReadMap(Entries(toks, old(current)), r)
      decreases |toks| - current, 13
    {
      hide Level, EntriesFrom, Skip, PrefixedMap;
      if At(toks, current).RBrace? {
        current := current + 1;
        return Some([]);
      }
      var es := [];
      PrefixedMapTwice([], [], EntriesFrom(toks, current));
      while true
        invariant old(current) <= current <= |toks|
        invariant EntriesFrom(toks, old(current)) == PrefixedMap(es, EntriesFrom(toks, current))
        decreases |toks| - current
      {
        EntriesStep(toks, current, es);
        var entry := ParseEntry();
        if entry.None? { return None; }
        es := es + [entry.value];
        if At(toks, current).Comma? {
          current := current + 1;
          SkipSeparators();
        } else if At(toks, current).RBrace? {
          current := current + 1;
          return Some(es);
        } else {
          return None;
        }
      }
    }
  }
}
